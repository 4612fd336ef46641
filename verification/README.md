# junithelper: mock eligibility and explicit-comment patterns, in Dafny

This project models two small parts of junithelper, a tool that generates JUnit test
skeletons.

- `MockGenUtil.isMockableClassName` decides whether a type used by the code under
  test may be replaced by a generated mock object. It tries a fixed series of rules
  in order:
  1. A primitive type is rejected.
  2. An array type (`Foo[]`) is rejected.
  3. The name is loaded as a `java.lang` class. If that works, the answer is
     "not final".
  4. Otherwise the import list is scanned. Each entry has every `//` removed first.
     A match against `.<name>` means yes.
  5. Otherwise a dotted name is loaded as given. If that works, the answer is
     "not final".
  6. Otherwise the answer is no.

  Beside it, `isUsingNone`, `isUsingEasyMock` and `isUsingJMock2` read which mock
  framework the preferences select.
- The enum `TestingPatternExplicitComment` (`None`, `ArrangeActAssert`,
  `GivenWhenThen`) names the comment pattern written at the top of each generated
  test method. Its `toString` gives that pattern's name.

The modules are:

- `Optional`: an option type. It stands for "a value, or an exception".
- `JavaRegex`: the three patterns the source passes to `String.matches`, written as
  string predicates. It also holds `String.replaceAll("//", "")`.
  - `String.matches` needs the whole string to match. A trailing `$` therefore
    changes nothing.
  - A `.` matches one character that is not a Java line terminator (`\n`, `\r`,
    U+0085, U+2028, U+2029).
- `MockGenUtil`: the decision procedure and the three preference tests.
  - Reflection and `PrimitiveTypeUtil.isPrimitive` are function-valued fields of a
    `Runtime` value. They are left uninterpreted.
  - `forName` returns `None` where `Class.forName` throws an `Exception`. The
    exception is then caught and the next rule is tried.
- `ExplicitComment`: the enum, its `toString`, and a function that reads a string
  back into a constant.

The class name is pasted into the import regex without escaping. This model keeps that
behaviour. A `.` inside the name acts as a wildcard in that position: the name `a.b`
accepts the import `p.aXb` (`JavaRegex.DotInNameIsWildcard`). Other regex
metacharacters in the name (`\ ^ $ | ? * + ( ) [ ] { }`) are outside the model. The
precondition of `IsMockableClassName` excludes them, but only when the import scan is
actually reached with a non-empty import list. Only then does the source build that
regex.

Three details of `MockGenUtil.java` shape the model:
- The built-in lookup loads exactly `"java.lang." + name` (line 54).
- The array pattern needs at least one character before `[]` (line 49).
- An import entry needs a non-empty prefix without line terminators before the `.`
  (line 62).

## Model

| member | source | states |
|---|---|---|
| `JavaRegex.RemoveDoubleSlashes` | junithelper/src/org/junithelper/plugin/util/MockGenUtil.java:60-61 | removing every `//` from left to right, without overlaps, never lengthens the string and leaves no `//` in the result; a first character other than `/` is kept in first place |
| `JavaRegex.RemoveDoubleSlashesKeepsCleanString` | junithelper/src/org/junithelper/plugin/util/MockGenUtil.java:60-61 | an import entry without `//` is not changed by the normalisation |
| `JavaRegex.RemoveDoubleSlashesIdempotent` | junithelper/src/org/junithelper/plugin/util/MockGenUtil.java:60-61 | normalising an entry twice gives the same result as normalising it once |
| `JavaRegex.RemoveDoubleSlashesKeepsOtherCharacters` | junithelper/src/org/junithelper/plugin/util/MockGenUtil.java:60-61 | only `/` characters are removed: all other characters survive, in their original order |
| `JavaRegex.MatchesArrayPattern` | junithelper/src/org/junithelper/plugin/util/MockGenUtil.java:49 | `className.matches(".+?\\[\\]$")`: at least three characters, the last two `[` and `]`, and no line terminator before them |
| `JavaRegex.ArrayPatternIsElementThenBrackets` | junithelper/src/org/junithelper/plugin/util/MockGenUtil.java:49 | a name matches `.+?\[\]$` exactly when it is an element name of at least one character, free of line terminators, followed by `[]` (both directions) |
| `JavaRegex.MatchesQualifiedPattern` | junithelper/src/org/junithelper/plugin/util/MockGenUtil.java:67 | `className.matches(".+?\\..+")`: no line terminator anywhere, and a `.` with at least one character on each side |
| `JavaRegex.QualifiedPatternIsTwoPartsJoinedByDot` | junithelper/src/org/junithelper/plugin/util/MockGenUtil.java:67 | a name matches `.+?\..+` exactly when it is two non-empty parts, free of line terminators, joined by a `.` (both directions) |
| `JavaRegex.MatchesImportPattern` | junithelper/src/org/junithelper/plugin/util/MockGenUtil.java:62 | `entry.matches(".+?\\." + className + "$")` for a name without other regex metacharacters: the last characters, as many as the name has, match the name character by character, a `.` in the name matching any character but a line terminator; before them sits a literal `.`, preceded by at least one character and no line terminator |
| `JavaRegex.LiteralEntryMatchesImportPattern` | junithelper/src/org/junithelper/plugin/util/MockGenUtil.java:62 | an entry that reads `prefix.name`, with a non-empty prefix free of line terminators, matches the pattern built from `name` |
| `JavaRegex.ImportPatternIsLiteralForDotFreeName` | junithelper/src/org/junithelper/plugin/util/MockGenUtil.java:62 | for a name without `.`, an entry matches the import pattern exactly when it is `prefix.name` for some non-empty prefix free of line terminators (both directions) |
| `JavaRegex.DotInNameIsWildcard` | junithelper/src/org/junithelper/plugin/util/MockGenUtil.java:62 | because the name is not escaped, `a.b` accepts the entry `p.aXb`, while `aXc` does not |
| `MockGenUtil.ImportMatches` | junithelper/src/org/junithelper/plugin/util/MockGenUtil.java:60-62 | one loop step: the entry with every `//` removed matches the pattern built from the class name |
| `MockGenUtil.ScanImports` | junithelper/src/org/junithelper/plugin/util/MockGenUtil.java:59-65 | the loop over the imports, which stops at the first match, finds a match exactly when some entry (with `//` removed) matches the pattern |
| `MockGenUtil.IsMockableClassName` | junithelper/src/org/junithelper/plugin/util/MockGenUtil.java:44-79 | a true answer means the name is neither primitive nor an array, and the class is mockable for one of three reasons: `java.lang.<name>` loads as non-final; that lookup failed and an import matches; or that lookup failed and the dotted name loads as non-final |
| `MockGenUtil.PrimitiveIsNeverMockable` | junithelper/src/org/junithelper/plugin/util/MockGenUtil.java:47-48 | a primitive name is never mockable, whatever the imports and the class loader say |
| `MockGenUtil.ArrayIsNeverMockable` | junithelper/src/org/junithelper/plugin/util/MockGenUtil.java:49-50 | a name matching `.+?\[\]$` is never mockable, whatever the imports and the class loader say |
| `MockGenUtil.JavaLangClassDecides` | junithelper/src/org/junithelper/plugin/util/MockGenUtil.java:52-55 | when `java.lang.<name>` loads, the answer is "not final" of that class for every import list, so the imports are never consulted |
| `MockGenUtil.MatchingImportMakesMockable` | junithelper/src/org/junithelper/plugin/util/MockGenUtil.java:57-64 | when the `java.lang` lookup fails and some entry, after `//` removal, equals a non-empty prefix, a `.` and the name, the answer is true, however the dotted name itself would load |
| `MockGenUtil.QualifiedNameIsLoaded` | junithelper/src/org/junithelper/plugin/util/MockGenUtil.java:66-74 | when the `java.lang` lookup fails and no import matches, a name with a `.` that has characters on both sides is mockable exactly when it loads as a non-final class; a load failure gives false |
| `MockGenUtil.OtherNamesAreNotMockable` | junithelper/src/org/junithelper/plugin/util/MockGenUtil.java:76-78 | with no `java.lang` class, no matching import and no inner `.`, the answer is false |
| `MockGenUtil.MoreImportsStayMockable` | junithelper/src/org/junithelper/plugin/util/MockGenUtil.java:59-65 | with the same class loader, a list that contains every entry of another list keeps each true answer of that list true |
| `MockGenUtil.ImportOrderIsIrrelevant` | junithelper/src/org/junithelper/plugin/util/MockGenUtil.java:59-65 | two import lists with the same entries, in any order and with any repeats, give the same answer |
| `MockGenUtil.IntArrayIsNotMockable` | junithelper/src/org/junithelper/plugin/util/MockGenUtil.java:49-50 | `int[]` is not mockable, whatever the imports |
| `MockGenUtil.FinalStringIsNotMockable` | junithelper/src/org/junithelper/plugin/util/MockGenUtil.java:52-55 | `String` is not mockable when `java.lang.String` loads as a final class |
| `MockGenUtil.IsUsingNone` | junithelper/src/org/junithelper/plugin/util/MockGenUtil.java:81-85 | `isUsingNone` holds exactly when the setting selects no mock framework: it is absent or equals the NONE value |
| `MockGenUtil.IsUsingEasyMock` | junithelper/src/org/junithelper/plugin/util/MockGenUtil.java:87-90 | `isUsingEasyMock` is false on an absent setting, and with distinct values holds exactly when the setting selects EasyMock |
| `MockGenUtil.IsUsingJMock2` | junithelper/src/org/junithelper/plugin/util/MockGenUtil.java:92-95 | `isUsingJMock2` is false on an absent setting, and with distinct values holds exactly when the setting selects JMock2 |
| `MockGenUtil.UnsetMeansNoMock` | junithelper/src/org/junithelper/plugin/util/MockGenUtil.java:81-95 | an absent setting counts as "no mock framework" and as neither EasyMock nor JMock2 |
| `MockGenUtil.UsingTestsAgreeWithSelection` | junithelper/src/org/junithelper/plugin/util/MockGenUtil.java:81-95 | with distinct constants, each `isUsing*` test holds exactly when the setting selects that framework, at most one of them holds, and none holds exactly when the setting is some other string |
| `ExplicitComment.ToString` | core/src/main/java/org/junithelper/core/config/TestingPatternExplicitComment.java:20-31 | `toString` returns the string each constant passes to the constructor: `"None"`, `"ArrangeActAssert"`, `"GivenWhenThen"` |
| `ExplicitComment.ValuesAreTheThreeConstants` | core/src/main/java/org/junithelper/core/config/TestingPatternExplicitComment.java:20 | there are exactly three constants, each listed once in declaration order |
| `ExplicitComment.ToStringIsInjective` | core/src/main/java/org/junithelper/core/config/TestingPatternExplicitComment.java:20-31 | two constants with the same `toString` are the same constant |
| `ExplicitComment.FromStringInvertsToString` | core/src/main/java/org/junithelper/core/config/TestingPatternExplicitComment.java:20-31 | reading back the string `toString` produced gives the same constant |
| `ExplicitComment.ToStringInvertsFromString` | core/src/main/java/org/junithelper/core/config/TestingPatternExplicitComment.java:20-31 | a string is read back exactly when it is `None`, `ArrangeActAssert` or `GivenWhenThen`, and `toString` then returns it unchanged |

## Left out

- The source parser (`DefaultSourceCodeParser`, `ClassMetaExtractor`), the encoding detection and the stream reading are not part of this model. Their source is not among the modelled files, and the encoding and stream parts are I/O.
- `Class.forName` and `Modifier.isFinal` are an uninterpreted function from a name to "final or not", or to no class at all. The classpath is not modelled. An `Error` thrown while loading a class is not caught by the source; the model does not represent it.
- `PrimitiveTypeUtil.isPrimitive` is not part of this model. It is an uninterpreted predicate.
- The Eclipse `IPreferenceStore` and the `Preference` constants are plugin glue. The setting is passed in as an optional string, and the three constant values are passed in as parameters.
- `STR` is not part of this model. `STR.EMPTY` is taken to be the empty string.
- `null` values are not modelled: strings and lists here are values. The source throws a `NullPointerException` only once it dereferences a null value. A null import list is first read by the loop at line 59, and a null entry only when the scan reaches it. A null class name is first dereferenced at line 49, after `PrimitiveTypeUtil.isPrimitive`, whose handling of null is not part of this model.
- MockGenUtil.IsMockableClassName: does not cover class names with a regex metacharacter other than `.` once the import scan is reached with a non-empty list. Such names can make the pattern fail to compile, or act as anchors and quantifiers, and general Java regex semantics are not modelled.
- `TestingPatternExplicitComment`'s inherited `name()` and `valueOf` are not modelled. `ExplicitComment.FromString` reads a constant back from its `toString` form instead.
