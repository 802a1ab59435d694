/**
 * The name normaliser of the scaffolder (index.js): first-letter case helpers
 * and the conversion of a dotted or slashed module path to a directory path
 * and back.
 */
module Names {
  import opened Text

  /**
   * Only the first character of a name is ever case-mapped, and only its ASCII
   * mapping is modelled (the empty name is accepted: `charAt(0)` is then "").
   */
  predicate CaseMappable(s: string) { s == [] || IsAscii(s[0]) }

  /** `capitalizeFirstLetter`: upper-cases character 0, keeps the rest. */
  function CapitalizeFirstLetter(s: string): (r: string)
    requires CaseMappable(s)
    ensures |r| == |s| && CaseMappable(r)
    ensures s != [] ==> !IsLower(r[0]) && ToLower(r[0]) == ToLower(s[0])
    ensures forall i :: 1 <= i < |s| ==> r[i] == s[i]
  {
    if s == [] then [] else [ToUpper(s[0])] + s[1..]
  }

  /** `toCamelCase`: lower-cases character 0, keeps the rest. */
  function ToCamelCase(s: string): (r: string)
    requires CaseMappable(s)
    ensures |r| == |s| && CaseMappable(r)
    ensures s != [] ==> !IsUpper(r[0]) && ToUpper(r[0]) == ToUpper(s[0])
    ensures forall i :: 1 <= i < |s| ==> r[i] == s[i]
  {
    if s == [] then [] else [ToLower(s[0])] + s[1..]
  }

  /** Both helpers are idempotent. */
  lemma CaseHelpersIdempotent(s: string)
    requires CaseMappable(s)
    ensures CapitalizeFirstLetter(CapitalizeFirstLetter(s)) == CapitalizeFirstLetter(s)
    ensures ToCamelCase(ToCamelCase(s)) == ToCamelCase(s)
  {
  }

  /**
   * Only the case of the first character separates the two helpers: each
   * undoes the other, so camel-casing the capitalised name (as the renderer
   * does) gives the camel-cased raw name.
   */
  lemma {:induction false} CaseHelpersAbsorb(s: string)
    requires CaseMappable(s)
    ensures ToCamelCase(CapitalizeFirstLetter(s)) == ToCamelCase(s)
    ensures CapitalizeFirstLetter(ToCamelCase(s)) == CapitalizeFirstLetter(s)
  {
    if s != [] {
      CaseRoundTrip(s[0]);
    }
  }

  /**
   * A global replace with a one-character regex class (`/[...]/g`): every
   * character of `cs` becomes `sep`, every other character stays.
   */
  function ReplaceChars(s: string, cs: set<char>, sep: char): (r: string)
    ensures |r| == |s|
    ensures forall i :: 0 <= i < |s| ==> r[i] == (if s[i] in cs then sep else s[i])
  {
    if s == [] then [] else [if s[0] in cs then sep else s[0]] + ReplaceChars(s[1..], cs, sep)
  }

  /** The path separator; the model fixes the POSIX one. */
  const Sep: char := '/'

  /** The characters the module path treats as separators. */
  const PathSeparators: set<char> := {'/', '\\'}

  /**
   * The normalisation at index.js:57-59: slashes and backslashes, then dots,
   * become the separator.
   */
  function NormalizeAppName(appName: string): (r: string)
    ensures |r| == |appName|
    ensures forall i :: 0 <= i < |r| ==>
      r[i] == (if appName[i] in PathSeparators + {'.'} then Sep else appName[i])
  {
    ReplaceChars(ReplaceChars(appName, PathSeparators, Sep), {'.'}, Sep)
  }

  /** The dotted form passed as `{{appName}}` (index.js:120). */
  function DottedAppName(normalized: string): (r: string)
    ensures |r| == |normalized|
    ensures '/' !in r && '\\' !in r
    ensures forall i :: 0 <= i < |r| ==>
      r[i] == (if normalized[i] in PathSeparators then '.' else normalized[i])
  {
    ReplaceChars(normalized, PathSeparators, '.')
  }

  /**
   * Normalising and converting back turns every separator into a dot; the
   * round trip gives back the module path exactly when it used dots only.
   */
  lemma {:induction false} DottedRoundTrip(appName: string)
    ensures forall i :: 0 <= i < |appName| ==>
      DottedAppName(NormalizeAppName(appName))[i] ==
        (if appName[i] in PathSeparators + {'.'} then '.' else appName[i])
    ensures DottedAppName(NormalizeAppName(appName)) == appName <==> '/' !in appName && '\\' !in appName
  {
    var d := DottedAppName(NormalizeAppName(appName));
    if '/' in appName || '\\' in appName {
      var i :| 0 <= i < |appName| && appName[i] in PathSeparators;
      assert d[i] == '.' != appName[i];
    } else {
      assert forall i :: 0 <= i < |appName| ==> d[i] == appName[i];
    }
  }

  /** Case mapping and separator conversion never introduce a character `c`. */
  lemma NoNewCharacters(name: string, appName: string, c: char)
    requires CaseMappable(name)
    requires c !in name && c !in appName
    requires !IsUpper(c) && !IsLower(c) && c != '.' && c !in PathSeparators
    ensures c !in CapitalizeFirstLetter(name) && c !in ToCamelCase(name)
    ensures c !in DottedAppName(NormalizeAppName(appName))
  {
  }
}
