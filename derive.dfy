/**
 * The `#[portrait::derive]` attribute (codegen/src/derive.rs): reads its
 * `@OPTION`s, `Trait with filler(args)`, and expands to the type with its
 * `#[portrait(..)]` attributes neutralised, followed by one invocation of the
 * trait's template macro:
 *
 *   TYPE  const _: () = { use MOD_PATH::imports::*;
 *     Trait! { @TARGET {filler} @TRAIT_PATH {Trait} @ARGS {..} @INPUT {TYPE} @DEBUG_PRINT_FILLER_OUTPUT {bool} } };
 */
module Derive {
  import opened Syntax
  import opened Util
  import opened Naming
  import opened Fill

  const ExpectedWith := "expected `with`"

  /** `#[derive(@OPTIONS Trait with filler(args))]`. */
  datatype DeriveAttr = DeriveAttr(options: Options, traitPath: Path, attrPath: Path, args: Option<seq<TokenTree>>)

  function DeriveAttrSpec(ts: seq<TokenTree>): Result<DeriveAttr> {
    var (o, rest) :- OptionsSpec(ts, NoOptions);
    if rest == [] || !(rest[0].kind.NodeTok? && rest[0].kind.node.NodePath?) then Err(ExpectedPath)
    else if |rest| < 2 || !IsWord(rest[1], "with") then Err(ExpectedWith)
    else
      var (path, args, more) :- PathAndArgs(rest[2..]);
      if o.unexpected || more then Err(UnexpectedTokenMsg)
      else Ok(DeriveAttr(o, rest[0].kind.node.path, path, args))
  }

  /**
   * `syn::parse2::<Attr>`: the option loop, the trait path, `with`, the
   * filler path and its arguments. The statements follow the source's
   * sequence of reads around the option loop `ParseOptions`; the meaning of
   * the whole is stated on `DeriveAttrSpec`.
   */
  method ParseDeriveAttr(ts: seq<TokenTree>) returns (r: Result<DeriveAttr>)
    ensures r == DeriveAttrSpec(ts)
  {
    var opts := ParseOptions(ts);
    if opts.Err? {
      return Err(opts.msg);
    }
    var (o, rest) := opts.value;
    if rest == [] || !(rest[0].kind.NodeTok? && rest[0].kind.node.NodePath?) {
      return Err(ExpectedPath);
    }
    if |rest| < 2 || !IsWord(rest[1], "with") {
      return Err(ExpectedWith);
    }
    var pa := PathAndArgs(rest[2..]);
    if pa.Err? {
      return Err(pa.msg);
    }
    if o.unexpected || pa.value.2 {
      return Err(UnexpectedTokenMsg);
    }
    return Ok(DeriveAttr(o, rest[0].kind.node.path, pa.value.0, pa.value.1));
  }

  /** Options, `Trait with filler` and optionally one group of arguments are read back. */
  lemma DeriveAttrRoundTrip(opts: seq<AttrOption>, traitPath: Path, attrPath: Path, args: Option<seq<TokenTree>>)
    ensures var tail := if args.Some? then [Parened(args.value)] else [];
      DeriveAttrSpec(PrintOptions(opts) + [NodeToken(NodePath(traitPath)), Word("with"), NodeToken(NodePath(attrPath))] + tail)
        == Ok(DeriveAttr(Options(DebugPrint in opts, DebugPrintFillerOutput in opts, LastModPath(opts), false),
                         traitPath, attrPath, args))
  {
    var tail := if args.Some? then [Parened(args.value)] else [];
    var rest := [NodeToken(NodePath(traitPath)), Word("with"), NodeToken(NodePath(attrPath))] + tail;
    var o := Options(DebugPrint in opts, DebugPrintFillerOutput in opts, LastModPath(opts), false);
    OptionsRoundTrip(opts, NoOptions, rest);
    assert OptionsSpec(PrintOptions(opts) + rest, NoOptions) == Ok((o, rest));
    PathAndArgsRoundTrip(attrPath, args);
    assert rest[2..] == [NodeToken(NodePath(attrPath))] + tail;
    assert IsWord(rest[1], "with");
    assert DeriveAttrSpec(PrintOptions(opts) + rest) == Ok(DeriveAttr(o, traitPath, attrPath, args));
    assert PrintOptions(opts) + [NodeToken(NodePath(traitPath)), Word("with"), NodeToken(NodePath(attrPath))] + tail
        == PrintOptions(opts) + rest;
  }

  /** The trait path and the filler path must be separated by `with`. */
  lemma WithRequired(opts: seq<AttrOption>, traitPath: Path, t: TokenTree, more: seq<TokenTree>)
    requires !IsWord(t, "with")
    ensures DeriveAttrSpec(PrintOptions(opts) + [NodeToken(NodePath(traitPath)), t] + more) == Err(ExpectedWith)
  {
    var rest := [NodeToken(NodePath(traitPath)), t] + more;
    OptionsRoundTrip(opts, NoOptions, rest);
    assert PrintOptions(opts) + [NodeToken(NodePath(traitPath)), t] + more == PrintOptions(opts) + rest;
  }

  /** The expansion of `#[derive]`. */
  datatype DeriveOutput = DeriveOutput(
    /** the type, emitted again with its `portrait` attributes neutralised */
    stripped: DeriveInput,
    modPath: Path,
    /** the trait's template macro */
    target: Path,
    invocation: seq<TokenTree>,
    debugPrint: bool)

  /** `@TARGET {filler} @TRAIT_PATH {Trait} @ARGS {..} @INPUT {type} @DEBUG_PRINT_FILLER_OUTPUT {bool}`. */
  function DeriveInvocationOf(a: DeriveAttr, item: DeriveInput): seq<TokenTree> {
    [Punct('@'), Word("TARGET"), Braced([NodeToken(NodePath(a.attrPath))]),
     Punct('@'), Word("TRAIT_PATH"), Braced([NodeToken(NodePath(a.traitPath))]),
     Punct('@'), Word("ARGS"), Braced(a.args.GetOr([])),
     Punct('@'), Word("INPUT"), Braced([NodeToken(NodeDeriveInput(item))]),
     Punct('@'), Word("DEBUG_PRINT_FILLER_OUTPUT"), Braced([Tok(LitTok(LitBool(a.options.debugPrintFillerOutput)))])]
  }

  /**
   * `derive::run`: fails only when the attribute does not read. The type is
   * emitted with every `portrait` attribute neutralised, while the filler
   * receives it as written; the template called is the trait's path.
   */
  function DeriveRun(attr: seq<TokenTree>, item: DeriveInput): (r: Result<DeriveOutput>)
    ensures r.Ok? <==> DeriveAttrSpec(attr).Ok?
    ensures r.Err? ==> r.msg == DeriveAttrSpec(attr).msg
    ensures r.Ok? ==>
      var a := DeriveAttrSpec(attr).value;
      r.value.stripped == StripAttr("portrait", item)
      && r.value.target == a.traitPath
      && r.value.debugPrint == a.options.debugPrint
      && r.value.modPath == (if a.options.modPath.Some? then a.options.modPath.value else DefaultModPath(a.traitPath))
      && r.value.invocation == DeriveInvocationOf(a, item)
  {
    var a :- DeriveAttrSpec(attr);
    var modPath := a.options.modPath.GetOr(DefaultModPath(a.traitPath));
    Ok(DeriveOutput(StripAttr("portrait", item), modPath, a.traitPath, DeriveInvocationOf(a, item), a.options.debugPrint))
  }

  /**
   * The emitted type carries no `portrait` attribute (the compiler would
   * refuse one), and has the shape of the original; the filler still sees
   * the original with its `portrait` attributes.
   */
  lemma DeriveStripsOnlyTheEmittedType(attr: seq<TokenTree>, item: DeriveInput)
    requires DeriveAttrSpec(attr).Ok?
    ensures var r := DeriveRun(attr, item);
      r.Ok? && NoAttrNamed(r.value.stripped, "portrait")
      && r.value.stripped.ident == item.ident && r.value.stripped.generics == item.generics
      && r.value.invocation[11] == Braced([NodeToken(NodeDeriveInput(item))])
  {
    StripAttrRemovesAll("portrait", item);
    StripAttrKeepsShape("portrait", item);
  }
}
