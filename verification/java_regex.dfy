/** The few pieces of java.lang.String and java.util.regex that MockGenUtil relies on,
    written out as plain string predicates: the three patterns it passes to
    `String.matches`, and `replaceAll("//", "")`.

    `String.matches` succeeds only when the pattern consumes the WHOLE string, so a
    trailing `$` adds nothing, and a lazy `.+?` finds a match exactly when a greedy
    `.+` would.  None of the patterns sets DOTALL, so `.` matches one character that
    is not a line terminator.  Dafny's `char` is a Unicode scalar value, which is
    also what one `.` consumes in java.util.regex. */
module JavaRegex {

  /** The characters java.util.regex treats as line terminators by default. */
  predicate IsLineTerminator(c: char) {
    c == '\n' || c == '\r' || c == '\U{85}' || c == '\U{2028}' || c == '\U{2029}'
  }

  /** `s` is matched by `.*`: every character can be consumed by a `.`. */
  predicate AllDotMatch(s: string) {
    forall i :: 0 <= i < |s| ==> !IsLineTerminator(s[i])
  }

  /** `s.matches(".+?\\[\\]$")`: at least one character, then a literal `[]` at the end. */
  predicate MatchesArrayPattern(s: string) {
    |s| >= 3 && s[|s| - 2] == '[' && s[|s| - 1] == ']' && AllDotMatch(s[..|s| - 2])
  }

  /** `s.matches(".+?\\..+")`: a literal `.` with at least one character on each side. */
  predicate MatchesQualifiedPattern(s: string) {
    AllDotMatch(s) && exists i :: 0 < i < |s| - 1 && s[i] == '.'
  }

  /** The array pattern accepts exactly an element name of at least one character, free
      of line terminators, followed by `[]`. */
  lemma ArrayPatternIsElementThenBrackets(s: string)
    ensures MatchesArrayPattern(s) <==>
              exists element :: |element| > 0 && AllDotMatch(element) && s == element + "[]"
  {
    if MatchesArrayPattern(s) {
      var element := s[..|s| - 2];
      assert s == element + "[]";
    }
  }

  /** `s` is `qualifier.simple`, with both parts non-empty and free of line terminators. */
  predicate JoinedByDot(s: string, qualifier: string, simple: string) {
    && |qualifier| > 0 && |simple| > 0
    && AllDotMatch(qualifier) && AllDotMatch(simple)
    && s == qualifier + "." + simple
  }

  /** The qualified pattern accepts exactly two parts of at least one character each,
      free of line terminators, joined by a `.`. */
  lemma QualifiedPatternIsTwoPartsJoinedByDot(s: string)
    ensures MatchesQualifiedPattern(s) <==>
              exists qualifier, simple :: JoinedByDot(s, qualifier, simple)
  {
    if MatchesQualifiedPattern(s) {
      var i :| 0 < i < |s| - 1 && s[i] == '.';
      assert s == s[..i] + "." + s[i + 1..];
      assert JoinedByDot(s, s[..i], s[i + 1..]);
    }
    if exists qualifier, simple :: JoinedByDot(s, qualifier, simple) {
      var qualifier, simple :| JoinedByDot(s, qualifier, simple);
      assert s[|qualifier|] == '.';
      forall k | 0 <= k < |s|
        ensures !IsLineTerminator(s[k])
      {
        if k < |qualifier| {
          assert s[k] == qualifier[k];
        } else if k > |qualifier| {
          assert s[k] == simple[k - |qualifier| - 1];
        }
      }
    }
  }

  /** The characters with a meaning of their own in a java.util.regex pattern, outside a
      character class, other than `.`. */
  predicate IsRegexMetachar(c: char) {
    c in "\\^$|?*+()[]{}"
  }

  /** A string that, used as a regex, is a plain sequence of single-character matchers:
      each character matches itself, except `.`, which matches any character but a
      line terminator. */
  predicate IsSimplePattern(name: string) {
    forall i :: 0 <= i < |name| ==> !IsRegexMetachar(name[i])
  }

  /** The text `t` is matched in full by the simple pattern `name`. */
  predicate NamePatternMatches(name: string, t: string) {
    && |t| == |name|
    && forall i :: 0 <= i < |name| ==>
         if name[i] == '.' then !IsLineTerminator(t[i]) else t[i] == name[i]
  }

  /** `s.matches(".+?\\." + name + "$")` for a simple pattern `name`: since `name`
      matches exactly |name| characters, the literal `.` must sit at position
      |s| - |name| - 1 and the lazy `.+?` takes everything before it. */
  predicate MatchesImportPattern(s: string, name: string) {
    && |s| >= |name| + 2
    && AllDotMatch(s[..|s| - |name| - 1])
    && s[|s| - |name| - 1] == '.'
    && NamePatternMatches(name, s[|s| - |name|..])
  }

  /** A literal entry `prefix + "." + name` is accepted by the import pattern of `name`,
      whenever the prefix is non-empty and free of line terminators. */
  lemma LiteralEntryMatchesImportPattern(prefix: string, name: string)
    requires |prefix| > 0 && AllDotMatch(prefix)
    requires IsSimplePattern(name)
    ensures MatchesImportPattern(prefix + "." + name, name)
  {
  }

  /** For a name without `.`, the import pattern is exactly "ends with `.` + name, after
      a non-empty prefix without line terminators". */
  lemma ImportPatternIsLiteralForDotFreeName(s: string, name: string)
    requires IsSimplePattern(name)
    requires forall i :: 0 <= i < |name| ==> name[i] != '.'
    ensures MatchesImportPattern(s, name) <==>
              exists prefix :: |prefix| > 0 && AllDotMatch(prefix) && s == prefix + "." + name
  {
    if MatchesImportPattern(s, name) {
      var prefix := s[..|s| - |name| - 1];
      assert s[|s| - |name|..] == name;
      assert s == prefix + "." + name;
    }
    if exists prefix :: |prefix| > 0 && AllDotMatch(prefix) && s == prefix + "." + name {
      var prefix :| |prefix| > 0 && AllDotMatch(prefix) && s == prefix + "." + name;
      LiteralEntryMatchesImportPattern(prefix, name);
    }
  }

  /** The name is spliced into the pattern unescaped, so a `.` inside it accepts any
      character in that position. */
  lemma DotInNameIsWildcard()
    ensures MatchesImportPattern("p.aXb", "a.b")
    ensures !MatchesImportPattern("p.aXb", "aXc")
  {
    assert "p.aXb"[..1] == "p";
    assert "p.aXb"[2..] == "aXb";
    assert "aXb"[2] != "aXc"[2];
  }

  // ---------------------------------------------------------------------------------
  // String.replaceAll("//", "")

  predicate HasDoubleSlashAt(s: string, i: int) {
    0 <= i < |s| - 1 && s[i] == '/' && s[i + 1] == '/'
  }

  predicate ContainsDoubleSlash(s: string) {
    exists i :: 0 <= i < |s| - 1 && HasDoubleSlashAt(s, i)
  }

  /** `s.replaceAll("//", "")`: occurrences of `//` are found left to right without
      overlapping, and each is deleted.  The result never contains `//` again: a `/`
      that survives is one not followed by a `/`, and what follows it survives too. */
  function RemoveDoubleSlashes(s: string): (r: string)
    ensures |r| <= |s|
    ensures !ContainsDoubleSlash(r)
    ensures |s| > 0 && s[0] != '/' ==> |r| > 0 && r[0] == s[0]
    decreases |s|
  {
    if |s| >= 2 && s[0] == '/' && s[1] == '/' then
      RemoveDoubleSlashes(s[2..])
    else if |s| == 0 then
      []
    else
      var rest := RemoveDoubleSlashes(s[1..]);
      assert forall i :: 1 <= i < |rest| ==> HasDoubleSlashAt([s[0]] + rest, i) == HasDoubleSlashAt(rest, i - 1);
      [s[0]] + rest
  }

  /** A string with no `//` is left unchanged. */
  lemma {:induction false} RemoveDoubleSlashesKeepsCleanString(s: string)
    requires !ContainsDoubleSlash(s)
    ensures RemoveDoubleSlashes(s) == s
    decreases |s|
  {
    if |s| > 0 {
      assert !HasDoubleSlashAt(s, 0);
      assert !ContainsDoubleSlash(s[1..]) by {
        forall i | HasDoubleSlashAt(s[1..], i)
          ensures false
        {
          assert HasDoubleSlashAt(s, i + 1);
        }
      }
      RemoveDoubleSlashesKeepsCleanString(s[1..]);
      assert s == [s[0]] + s[1..];
    }
  }

  /** Normalising twice is the same as normalising once. */
  lemma RemoveDoubleSlashesIdempotent(s: string)
    ensures RemoveDoubleSlashes(RemoveDoubleSlashes(s)) == RemoveDoubleSlashes(s)
  {
  }

  /** The characters of `s` other than `/`, in order. */
  function WithoutSlashes(s: string): string
    decreases |s|
  {
    if |s| == 0 then []
    else if s[0] == '/' then WithoutSlashes(s[1..])
    else [s[0]] + WithoutSlashes(s[1..])
  }

  /** Only slashes are removed: every other character survives, in its order. */
  lemma {:induction false} RemoveDoubleSlashesKeepsOtherCharacters(s: string)
    ensures WithoutSlashes(RemoveDoubleSlashes(s)) == WithoutSlashes(s)
    decreases |s|
  {
    if |s| >= 2 && s[0] == '/' && s[1] == '/' {
      RemoveDoubleSlashesKeepsOtherCharacters(s[2..]);
      assert s[1..][1..] == s[2..];
    } else if |s| > 0 {
      RemoveDoubleSlashesKeepsOtherCharacters(s[1..]);
      var r := RemoveDoubleSlashes(s);
      assert r[1..] == RemoveDoubleSlashes(s[1..]);
    }
  }
}
