/** TestingPatternExplicitComment: the comment pattern written at the top of each
    generated test method body. */
module ExplicitComment {
  import Optional

  datatype TestingPatternExplicitComment = None | ArrangeActAssert | GivenWhenThen

  /** The constants in declaration order, as `values()` lists them. */
  const Values: seq<TestingPatternExplicitComment> := [None, ArrangeActAssert, GivenWhenThen]

  /** toString: the string each constant hands to the private constructor. */
  function ToString(p: TestingPatternExplicitComment): string {
    match p
    case None => "None"
    case ArrangeActAssert => "ArrangeActAssert"
    case GivenWhenThen => "GivenWhenThen"
  }

  /** The first constant among `candidates` whose toString is `s`. */
  function FindByString(candidates: seq<TestingPatternExplicitComment>, s: string)
    : (r: Optional.Option<TestingPatternExplicitComment>)
    ensures r.Some? ==> r.value in candidates && ToString(r.value) == s
    ensures r.None? ==> forall i :: 0 <= i < |candidates| ==> ToString(candidates[i]) != s
    decreases |candidates|
  {
    if candidates == [] then Optional.None
    else if ToString(candidates[0]) == s then Optional.Some(candidates[0])
    else
      var r := FindByString(candidates[1..], s);
      assert forall i :: 1 <= i < |candidates| ==> candidates[1..][i - 1] == candidates[i];
      r
  }

  /** Reads a configured comment pattern back from its string form. */
  function FromString(s: string): Optional.Option<TestingPatternExplicitComment> {
    FindByString(Values, s)
  }

  /** There are exactly three constants, each listed once. */
  lemma ValuesAreTheThreeConstants()
    ensures |Values| == 3
    ensures forall p: TestingPatternExplicitComment :: p in Values
    ensures forall i, j :: 0 <= i < j < |Values| ==> Values[i] != Values[j]
  {
    forall p: TestingPatternExplicitComment
      ensures p in Values
    {
      match p
      case None => assert Values[0] == p;
      case ArrangeActAssert => assert Values[1] == p;
      case GivenWhenThen => assert Values[2] == p;
    }
  }

  /** Distinct constants render differently. */
  lemma ToStringIsInjective(p: TestingPatternExplicitComment, q: TestingPatternExplicitComment)
    ensures ToString(p) == ToString(q) ==> p == q
  {
  }

  /** Reading back what toString wrote gives the same constant. */
  lemma FromStringInvertsToString(p: TestingPatternExplicitComment)
    ensures FromString(ToString(p)) == Optional.Some(p)
  {
  }

  /** A string is read back exactly when it is one of the three renderings, and then
      toString gives it back unchanged. */
  lemma ToStringInvertsFromString(s: string)
    ensures FromString(s).Some? ==> ToString(FromString(s).value) == s
    ensures FromString(s).Some? <==> s in {"None", "ArrangeActAssert", "GivenWhenThen"}
  {
  }
}
