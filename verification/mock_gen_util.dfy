/** MockGenUtil: decides whether a type named in the code under test may be replaced by
    a generated mock, and reads which mock framework the preferences select. */
module MockGenUtil {
  import opened Optional
  import opened JavaRegex

  /** What reflection reports about a class that loaded: only its `final` modifier
      is consulted. */
  datatype LoadedClass = LoadedClass(isFinal: bool)

  /** The two calls out of MockGenUtil, left uninterpreted.  `forName` answers `None`
      where `Class.forName` (or reading the modifiers) throws an `Exception`. */
  datatype Runtime = Runtime(
    isPrimitive: string -> bool,
    forName: string -> Option<LoadedClass>)

  const JavaLangPrefix := "java.lang."

  /** The class named `name` loads and is not declared `final`. */
  predicate LoadsNonFinal(rt: Runtime, name: string) {
    rt.forName(name).Some? && !rt.forName(name).value.isFinal
  }

  /** One entry of the import list, with every `//` removed, ends in `.` + className
      (the regex built from className). */
  predicate ImportMatches(entry: string, className: string) {
    MatchesImportPattern(RemoveDoubleSlashes(entry), className)
  }

  /** Some entry of the import list matches. */
  predicate SomeImportMatches(importList: seq<string>, className: string) {
    exists i :: 0 <= i < |importList| && ImportMatches(importList[i], className)
  }

  /** The loop over the import list: it stops at the first entry that matches. */
  function ScanImports(importList: seq<string>, className: string): (found: bool)
    ensures found <==> SomeImportMatches(importList, className)
    decreases |importList|
  {
    if importList == [] then
      false
    else if ImportMatches(importList[0], className) then
      true
    else
      var found := ScanImports(importList[1..], className);
      assert forall i :: 1 <= i < |importList| ==> importList[1..][i - 1] == importList[i];
      found
  }

  /** The regex built from className is only compiled when the first three steps fall
      through and there is an import entry to test it against. */
  predicate ReachesImportScan(className: string, importList: seq<string>, rt: Runtime) {
    && !rt.isPrimitive(className)
    && !MatchesArrayPattern(className)
    && rt.forName(JavaLangPrefix + className).None?
    && importList != []
  }

  /** isMockableClassName.  The model speaks for class names that, spliced into a
      regex, are plain character matchers (a `.` being a wildcard); other regex
      metacharacters in the name matter only once the import scan is reached. */
  function IsMockableClassName(className: string, importList: seq<string>, rt: Runtime): (r: bool)
    requires ReachesImportScan(className, importList, rt) ==> IsSimplePattern(className)
    ensures r ==> !rt.isPrimitive(className) && !MatchesArrayPattern(className)
    ensures r ==>
      || LoadsNonFinal(rt, JavaLangPrefix + className)
      || (rt.forName(JavaLangPrefix + className).None? && SomeImportMatches(importList, className))
      || (rt.forName(JavaLangPrefix + className).None? && MatchesQualifiedPattern(className)
          && LoadsNonFinal(rt, className))
  {
    if rt.isPrimitive(className) then
      false
    else if MatchesArrayPattern(className) then
      false
    else
      match rt.forName(JavaLangPrefix + className)
      case Some(clazz) => !clazz.isFinal
      case None =>
        if ScanImports(importList, className) then
          true
        else if MatchesQualifiedPattern(className) then
          match rt.forName(className)
          case Some(clazz) => !clazz.isFinal
          case None => false
        else
          false
  }

  /** The precondition of IsMockableClassName, named for the lemmas below. */
  predicate Modelled(className: string, importList: seq<string>, rt: Runtime) {
    ReachesImportScan(className, importList, rt) ==> IsSimplePattern(className)
  }

  /** A primitive type name is never mockable, whatever the imports or the class
      loader say. */
  lemma PrimitiveIsNeverMockable(className: string, importList: seq<string>, rt: Runtime)
    requires rt.isPrimitive(className)
    ensures !IsMockableClassName(className, importList, rt)
  {
  }

  /** An array type name is never mockable, whatever the imports or the class loader
      say. */
  lemma ArrayIsNeverMockable(className: string, importList: seq<string>, rt: Runtime)
    requires MatchesArrayPattern(className)
    ensures !IsMockableClassName(className, importList, rt)
  {
  }

  /** Once `java.lang.` + className loads, its finality alone decides, and the import
      list is never looked at: every import list gives the same answer. */
  lemma JavaLangClassDecides(className: string, rt: Runtime, clazz: LoadedClass)
    requires !rt.isPrimitive(className) && !MatchesArrayPattern(className)
    requires rt.forName(JavaLangPrefix + className) == Some(clazz)
    ensures forall importList :: IsMockableClassName(className, importList, rt) == !clazz.isFinal
  {
  }

  /** When `java.lang.` + className does not load, an import entry that reads
      `prefix.className` once its `//` are removed makes the name mockable, even if
      the name is qualified and would load as a final class. */
  lemma MatchingImportMakesMockable(className: string, importList: seq<string>, rt: Runtime,
                                    i: int, prefix: string)
    requires !rt.isPrimitive(className) && !MatchesArrayPattern(className)
    requires rt.forName(JavaLangPrefix + className).None?
    requires IsSimplePattern(className)
    requires 0 <= i < |importList|
    requires |prefix| > 0 && AllDotMatch(prefix)
    requires RemoveDoubleSlashes(importList[i]) == prefix + "." + className
    ensures IsMockableClassName(className, importList, rt)
  {
  }

  /** With no `java.lang` class and no matching import, a qualified name is mockable
      exactly when it loads as a non-final class; a load failure gives false. */
  lemma QualifiedNameIsLoaded(className: string, importList: seq<string>, rt: Runtime)
    requires Modelled(className, importList, rt)
    requires !rt.isPrimitive(className) && !MatchesArrayPattern(className)
    requires rt.forName(JavaLangPrefix + className).None?
    requires forall i :: 0 <= i < |importList| ==> !ImportMatches(importList[i], className)
    requires MatchesQualifiedPattern(className)
    ensures IsMockableClassName(className, importList, rt) <==> LoadsNonFinal(rt, className)
  {
  }

  /** With no `java.lang` class, no matching import and no `.` inside the name, the
      answer is false. */
  lemma OtherNamesAreNotMockable(className: string, importList: seq<string>, rt: Runtime)
    requires Modelled(className, importList, rt)
    requires rt.forName(JavaLangPrefix + className).None?
    requires forall i :: 0 <= i < |importList| ==> !ImportMatches(importList[i], className)
    requires !MatchesQualifiedPattern(className)
    ensures !IsMockableClassName(className, importList, rt)
  {
  }

  /** Adding import entries never turns a mockable name into a non-mockable one. */
  lemma MoreImportsStayMockable(className: string, importList: seq<string>,
                                moreImports: seq<string>, rt: Runtime)
    requires Modelled(className, importList, rt) && Modelled(className, moreImports, rt)
    requires forall e :: e in importList ==> e in moreImports
    requires IsMockableClassName(className, importList, rt)
    ensures IsMockableClassName(className, moreImports, rt)
  {
    if rt.forName(JavaLangPrefix + className).None? && SomeImportMatches(importList, className) {
      var i :| 0 <= i < |importList| && ImportMatches(importList[i], className);
      assert importList[i] in moreImports;
      var j :| 0 <= j < |moreImports| && moreImports[j] == importList[i];
      assert ImportMatches(moreImports[j], className);
    }
  }

  /** Only which entries are present matters, not their order or repetition. */
  lemma ImportOrderIsIrrelevant(className: string, importList: seq<string>,
                                reordered: seq<string>, rt: Runtime)
    requires Modelled(className, importList, rt) && Modelled(className, reordered, rt)
    requires forall e :: e in importList <==> e in reordered
    ensures IsMockableClassName(className, importList, rt)
            == IsMockableClassName(className, reordered, rt)
  {
    if IsMockableClassName(className, importList, rt) {
      MoreImportsStayMockable(className, importList, reordered, rt);
    }
    if IsMockableClassName(className, reordered, rt) {
      MoreImportsStayMockable(className, reordered, importList, rt);
    }
  }

  /** `int[]` is never mockable, whatever the imports. */
  lemma IntArrayIsNotMockable(importList: seq<string>, rt: Runtime)
    ensures !IsMockableClassName("int[]", importList, rt)
  {
  }

  /** `String` is not mockable when `java.lang.String` loads as a final class. */
  lemma FinalStringIsNotMockable(rt: Runtime)
    requires !rt.isPrimitive("String")
    requires rt.forName("java.lang.String") == Some(LoadedClass(true))
    ensures !IsMockableClassName("String", [], rt)
  {
    assert JavaLangPrefix + "String" == "java.lang.String";
    assert "String"[4] != '[';
  }

  // ---------------------------------------------------------------------------------
  // Which mock framework the preferences select

  /** The three values the mock-framework preference may hold. */
  datatype MockSettingValues = MockSettingValues(none: string, easyMock: string, jMock2: string)

  /** isUsingNone: the preference is unset, or set to the "none" value. */
  predicate IsUsingNone(setting: Option<string>, values: MockSettingValues): (r: bool)
    ensures r <==> SelectedFramework(setting, values) == Some(NoMock)
  {
    setting.None? || setting == Some(values.none)
  }

  /** isUsingEasyMock: the preference is set to the EasyMock value. */
  predicate IsUsingEasyMock(setting: Option<string>, values: MockSettingValues): (r: bool)
    ensures r ==> setting.Some?
    ensures DistinctValues(values) ==> (r <==> SelectedFramework(setting, values) == Some(EasyMock))
  {
    setting == Some(values.easyMock)
  }

  /** isUsingJMock2: the preference is set to the JMock2 value. */
  predicate IsUsingJMock2(setting: Option<string>, values: MockSettingValues): (r: bool)
    ensures r ==> setting.Some?
    ensures DistinctValues(values) ==> (r <==> SelectedFramework(setting, values) == Some(JMock2))
  {
    setting == Some(values.jMock2)
  }

  /** The configuration's mock-framework choice. */
  datatype MockFramework = NoMock | EasyMock | JMock2

  /** Reads the preference once and names the framework it selects, if any. */
  function SelectedFramework(setting: Option<string>, values: MockSettingValues): Option<MockFramework> {
    match setting
    case None => Some(NoMock)
    case Some(s) =>
      if s == values.none then Some(NoMock)
      else if s == values.easyMock then Some(EasyMock)
      else if s == values.jMock2 then Some(JMock2)
      else None
  }

  predicate DistinctValues(values: MockSettingValues) {
    values.none != values.easyMock && values.none != values.jMock2 && values.easyMock != values.jMock2
  }

  /** An unset preference means no mock framework. */
  lemma UnsetMeansNoMock(values: MockSettingValues)
    ensures IsUsingNone(None, values)
    ensures !IsUsingEasyMock(None, values) && !IsUsingJMock2(None, values)
  {
  }

  /** With distinct values, each isUsing* test holds exactly when the preference selects
      that framework; so at most one holds, and none holds exactly when the preference
      is set to some other string. */
  lemma UsingTestsAgreeWithSelection(setting: Option<string>, values: MockSettingValues)
    requires DistinctValues(values)
    ensures IsUsingNone(setting, values) <==> SelectedFramework(setting, values) == Some(NoMock)
    ensures IsUsingEasyMock(setting, values) <==> SelectedFramework(setting, values) == Some(EasyMock)
    ensures IsUsingJMock2(setting, values) <==> SelectedFramework(setting, values) == Some(JMock2)
    ensures !(IsUsingNone(setting, values) && IsUsingEasyMock(setting, values))
    ensures !(IsUsingNone(setting, values) && IsUsingJMock2(setting, values))
    ensures !(IsUsingEasyMock(setting, values) && IsUsingJMock2(setting, values))
    ensures SelectedFramework(setting, values).None? <==>
              setting.Some? && setting.value !in [values.none, values.easyMock, values.jMock2]
  {
  }
}
