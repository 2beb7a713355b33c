/**
 * The companion-module name of a trait: its name in snake case followed by
 * `_portrait` (codegen/src/make.rs, codegen/src/fill.rs, codegen/src/derive.rs).
 * Snake case is written out here for ASCII identifiers: an underscore goes
 * before every upper-case letter that follows a lower-case letter or a
 * digit, and every upper-case letter is lowered.
 *
 * Of the properties proved below, only "the result holds no upper-case
 * letter" is also a property of `heck`'s conversion, whose output is
 * lower-case words joined by `_`. The length bound, `SnakeFromLower` and
 * `SnakeCaseIdempotent` describe this approximation only: `heck` also
 * drops leading, trailing and repeated underscores, so a lower-case name
 * such as `a__b` is not kept unchanged by it.
 */
module Naming {
  import opened Syntax

  predicate IsUpper(c: char) { 'A' <= c <= 'Z' }
  predicate IsLower(c: char) { 'a' <= c <= 'z' }
  predicate IsDigit(c: char) { '0' <= c <= '9' }

  function ToLower(c: char): (r: char)
    ensures !IsUpper(r)
    ensures !IsUpper(c) ==> r == c
  {
    if IsUpper(c) then (c as int - 'A' as int + 'a' as int) as char else c
  }

  /** Snake case of `s`, where `afterWord` says whether the previous character ended a lower-case run. */
  function SnakeFrom(s: string, afterWord: bool): (r: string)
    ensures forall i :: 0 <= i < |r| ==> !IsUpper(r[i])
    ensures |s| <= |r| <= 2 * |s|
    decreases |s|
  {
    if s == [] then []
    else if IsUpper(s[0]) then
      (if afterWord then "_" else "") + [ToLower(s[0])] + SnakeFrom(s[1..], false)
    else [s[0]] + SnakeFrom(s[1..], IsLower(s[0]) || IsDigit(s[0]))
  }

  /** `heck::ToSnakeCase::to_snake_case` on ASCII identifiers. */
  function SnakeCase(s: string): string {
    SnakeFrom(s, false)
  }

  /** A name without upper-case letters is already in snake case. */
  lemma {:induction false} SnakeFromLower(s: string, afterWord: bool)
    requires forall i :: 0 <= i < |s| ==> !IsUpper(s[i])
    ensures SnakeFrom(s, afterWord) == s
    decreases |s|
  {
    if s != [] {
      SnakeFromLower(s[1..], IsLower(s[0]) || IsDigit(s[0]));
    }
  }

  /** Snake case holds no upper-case letter, and applying it twice changes nothing. */
  lemma SnakeCaseIdempotent(s: string)
    ensures forall i :: 0 <= i < |SnakeCase(s)| ==> !IsUpper(SnakeCase(s)[i])
    ensures SnakeCase(SnakeCase(s)) == SnakeCase(s)
  {
    SnakeFromLower(SnakeCase(s), false);
  }

  const PortraitSuffix := "_portrait"

  /** The default companion-module name of a trait called `traitName`. */
  function CompanionModName(traitName: Ident): (r: Ident)
    ensures |r| >= |traitName| + |PortraitSuffix|
    ensures r[|r| - |PortraitSuffix|..] == PortraitSuffix
    ensures r[..|r| - |PortraitSuffix|] == SnakeCase(traitName)
  {
    SnakeCase(traitName) + PortraitSuffix
  }

  /**
   * The default companion-module path of a trait path: the same path with
   * its last segment renamed to the companion-module name and its generic
   * arguments dropped.
   */
  function DefaultModPath(traitPath: Path): (r: Path)
    ensures r.leadingColon == traitPath.leadingColon
    ensures |r.Segments()| == |traitPath.Segments()|
    ensures r.Segments()[..|r.Segments()| - 1] == traitPath.Segments()[..|traitPath.Segments()| - 1]
    ensures r.Last() == Segment(CompanionModName(traitPath.Last().ident), PathNone)
  {
    traitPath.WithLast(Segment(CompanionModName(traitPath.Last().ident), PathNone))
  }

  /** A trait name in camel case gets its words separated. */
  lemma SnakeCaseExample()
    ensures SnakeCase("FooBar") == "foo_bar"
  {
    assert SnakeFrom("r", true) == "r";
    assert SnakeFrom("ar", true) == "ar";
    assert SnakeFrom("Bar", true) == "_bar";
    assert SnakeFrom("oBar", true) == "o_bar";
    assert SnakeFrom("ooBar", false) == "oo_bar";
  }
}
