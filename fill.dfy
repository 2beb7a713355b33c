/**
 * The `#[portrait::fill]` attribute (codegen/src/fill.rs): reads its
 * `@OPTION`s, the filler macro's path and optional arguments, and turns a
 * trait impl block into one invocation of the trait's template macro:
 *
 *   const _: () = { use MOD_PATH::imports::*;
 *     Trait! { @TARGET {filler} @ARGS {..} @IMPL {impl} @DEBUG_PRINT_FILLER_OUTPUT {bool} } };
 *
 * The `@OPTION` reader is shared with `#[portrait::derive]`, whose source
 * repeats the same loop (codegen/src/derive.rs:77-98).
 */
module Fill {
  import opened Syntax
  import opened Util
  import opened Naming

  const UnknownOptionMsg := "expected one of: `__DEBUG_PRINT`, `DEBUG_PRINT_FILLER_OUTPUT`, `MOD_PATH`"
  const ExpectedPath := "expected path"
  const UnexpectedTokenMsg := "unexpected token"
  const NotTraitImplMsg := "#[fill] can only be used on trait impl blocks"
  const NegatedImplMsg := "#[fill] cannot be used on negated trait impl"

  // ------------------------------------------------------------- options

  /**
   * The options read so far. `unexpected` is set when a `MOD_PATH(..)` group
   * holds tokens after its path: `syn` remembers them and refuses the whole
   * attribute once everything else has been read.
   */
  datatype Options = Options(debugPrint: bool, debugPrintFillerOutput: bool, modPath: Option<Path>, unexpected: bool)

  const NoOptions := Options(false, false, None, false)

  /** The path inside a `MOD_PATH(..)` group, and whether tokens follow it. */
  function GroupPath(ts: seq<TokenTree>): (r: Result<(Path, bool)>)
    ensures r.Ok? <==> ts != [] && ts[0].kind.NodeTok? && ts[0].kind.node.NodePath?
    ensures r.Ok? ==> r.value == (ts[0].kind.node.path, |ts| > 1)
  {
    if ts != [] && ts[0].kind.NodeTok? && ts[0].kind.node.NodePath? then Ok((ts[0].kind.node.path, |ts| > 1))
    else Err(ExpectedPath)
  }

  /**
   * The `while input.peek(@)` loop: each `@` is followed by one of the three
   * option keywords, `MOD_PATH` by a parenthesized path. Returns the options
   * and the tokens after the last option.
   */
  function OptionsSpec(ts: seq<TokenTree>, o: Options): Result<(Options, seq<TokenTree>)>
    decreases |ts|
  {
    if ts == [] || !IsPunct(ts[0], '@') then Ok((o, ts))
    else if |ts| < 2 then Err(UnknownOptionMsg)
    else if IsWord(ts[1], "__DEBUG_PRINT") then OptionsSpec(ts[2..], o.(debugPrint := true))
    else if IsWord(ts[1], "DEBUG_PRINT_FILLER_OUTPUT") then OptionsSpec(ts[2..], o.(debugPrintFillerOutput := true))
    else if IsWord(ts[1], "MOD_PATH") then
      if |ts| < 3 || !IsGroup(ts[2], Parenthesis) then Err(ExpectedParens)
      else
        var p :- GroupPath(ts[2].kind.stream);
        OptionsSpec(ts[3..], o.(modPath := Some(p.0), unexpected := o.unexpected || p.1))
    else Err(UnknownOptionMsg)
  }

  /** `Attr::parse`, the option loop: the options start unset and are updated one `@` at a time. */
  method ParseOptions(ts: seq<TokenTree>) returns (r: Result<(Options, seq<TokenTree>)>)
    ensures r == OptionsSpec(ts, NoOptions)
  {
    var debugPrint, debugPrintFillerOutput, modPath, unexpected := false, false, None, false;
    var rest := ts;
    while rest != [] && IsPunct(rest[0], '@')
      invariant OptionsSpec(rest, Options(debugPrint, debugPrintFillerOutput, modPath, unexpected)) == OptionsSpec(ts, NoOptions)
      decreases |rest|
    {
      if |rest| < 2 {
        return Err(UnknownOptionMsg);
      }
      if IsWord(rest[1], "__DEBUG_PRINT") {
        debugPrint := true;
        rest := rest[2..];
      } else if IsWord(rest[1], "DEBUG_PRINT_FILLER_OUTPUT") {
        debugPrintFillerOutput := true;
        rest := rest[2..];
      } else if IsWord(rest[1], "MOD_PATH") {
        if |rest| < 3 || !IsGroup(rest[2], Parenthesis) {
          return Err(ExpectedParens);
        }
        var p := GroupPath(rest[2].kind.stream);
        if p.Err? {
          return Err(p.msg);
        }
        modPath := Some(p.value.0);
        unexpected := unexpected || p.value.1;
        rest := rest[3..];
      } else {
        return Err(UnknownOptionMsg);
      }
    }
    return Ok((Options(debugPrint, debugPrintFillerOutput, modPath, unexpected), rest));
  }

  /** One option as written in the attribute. */
  datatype AttrOption = DebugPrint | DebugPrintFillerOutput | ModPath(path: Path)

  function OptionTokens(opt: AttrOption): seq<TokenTree> {
    match opt
    case DebugPrint => [Punct('@'), Word("__DEBUG_PRINT")]
    case DebugPrintFillerOutput => [Punct('@'), Word("DEBUG_PRINT_FILLER_OUTPUT")]
    case ModPath(p) => [Punct('@'), Word("MOD_PATH"), Parened([NodeToken(NodePath(p))])]
  }

  function PrintOptions(opts: seq<AttrOption>): seq<TokenTree> {
    if opts == [] then [] else OptionTokens(opts[0]) + PrintOptions(opts[1..])
  }

  /** The last `MOD_PATH` among the options, if any. */
  function LastModPath(opts: seq<AttrOption>): Option<Path> {
    if opts == [] then None
    else if opts[|opts| - 1].ModPath? then Some(opts[|opts| - 1].path)
    else LastModPath(opts[..|opts| - 1])
  }

  /** What one option does to the options read so far. */
  function ApplyOption(opt: AttrOption, o: Options): Options {
    match opt
    case DebugPrint => o.(debugPrint := true)
    case DebugPrintFillerOutput => o.(debugPrintFillerOutput := true)
    case ModPath(p) => o.(modPath := Some(p))
  }

  /** Reading one written option and then the rest. */
  lemma OptionStep(opt: AttrOption, o: Options, tail: seq<TokenTree>)
    ensures OptionsSpec(OptionTokens(opt) + tail, o) == OptionsSpec(tail, ApplyOption(opt, o))
  {
    var ts := OptionTokens(opt) + tail;
    match opt
    case DebugPrint =>
      assert ts[2..] == tail;
    case DebugPrintFillerOutput =>
      assert ts[2..] == tail;
    case ModPath(p) =>
      assert ts[3..] == tail;
      assert GroupPath(ts[2].kind.stream) == Ok((p, false));
  }

  /**
   * Written options are read back: a flag is on exactly when it was given
   * at least once, and the module path is the last one given.
   */
  lemma {:induction false} OptionsRoundTrip(opts: seq<AttrOption>, o: Options, rest: seq<TokenTree>)
    requires rest == [] || !IsPunct(rest[0], '@')
    ensures OptionsSpec(PrintOptions(opts) + rest, o)
         == Ok((Options(o.debugPrint || DebugPrint in opts,
                        o.debugPrintFillerOutput || DebugPrintFillerOutput in opts,
                        if LastModPath(opts).Some? then LastModPath(opts) else o.modPath,
                        o.unexpected),
                rest))
    decreases |opts|
  {
    if opts == [] {
      assert PrintOptions(opts) + rest == rest;
    } else {
      OptionsRoundTrip(opts[1..], ApplyOption(opts[0], o), rest);
      assert PrintOptions(opts) + rest == OptionTokens(opts[0]) + (PrintOptions(opts[1..]) + rest);
      OptionStep(opts[0], o, PrintOptions(opts[1..]) + rest);
      assert forall x :: x in opts <==> x == opts[0] || x in opts[1..];
      LastModPathCons(opts);
    }
  }

  /** The last module path of `[x] + more` is that of `more`, or `x`'s own. */
  lemma {:induction false} LastModPathCons(opts: seq<AttrOption>)
    requires opts != []
    ensures LastModPath(opts) == if LastModPath(opts[1..]).Some? then LastModPath(opts[1..])
                                 else if opts[0].ModPath? then Some(opts[0].path) else None
    decreases |opts|
  {
    if |opts| > 1 && !opts[|opts| - 1].ModPath? {
      var init := opts[..|opts| - 1];
      LastModPathCons(init);
      assert init[1..] == opts[1..][..|opts[1..]| - 1];
    }
  }

  /** Only the three option keywords may follow `@`. */
  lemma UnknownOptionFails(w: Ident, rest: seq<TokenTree>, o: Options)
    requires w != "__DEBUG_PRINT" && w != "DEBUG_PRINT_FILLER_OUTPUT" && w != "MOD_PATH"
    ensures OptionsSpec([Punct('@'), Word(w)] + rest, o) == Err(UnknownOptionMsg)
  {
  }

  // ----------------------------------------------------------- attribute

  /** `#[fill(@OPTIONS path(args))]`: `args` is absent when nothing follows the path. */
  datatype FillAttr = FillAttr(options: Options, attrPath: Path, args: Option<seq<TokenTree>>)

  /**
   * The filler's path, then either nothing or one parenthesized group
   * (its contents are the filler's arguments, read as raw tokens).
   */
  function PathAndArgs(rest: seq<TokenTree>): (r: Result<(Path, Option<seq<TokenTree>>, bool)>)
    ensures r.Ok? ==>
      rest != [] && rest[0].kind.NodeTok? && rest[0].kind.node.NodePath?
      && r.value.0 == rest[0].kind.node.path
      && (r.value.1.Some? <==> |rest| > 1)
      && (r.value.1.Some? ==> IsGroup(rest[1], Parenthesis) && r.value.1.value == rest[1].kind.stream)
      && (r.value.2 <==> |rest| > 2)
  {
    if rest == [] || !(rest[0].kind.NodeTok? && rest[0].kind.node.NodePath?) then Err(ExpectedPath)
    else if |rest| == 1 then Ok((rest[0].kind.node.path, None, false))
    else if !IsGroup(rest[1], Parenthesis) then Err(ExpectedParens)
    else Ok((rest[0].kind.node.path, Some(rest[1].kind.stream), |rest| > 2))
  }

  function FillAttrSpec(ts: seq<TokenTree>): Result<FillAttr> {
    var (o, rest) :- OptionsSpec(ts, NoOptions);
    var (path, args, more) :- PathAndArgs(rest);
    if o.unexpected || more then Err(UnexpectedTokenMsg)
    else Ok(FillAttr(o, path, args))
  }

  /**
   * `syn::parse2::<Attr>`: the option loop, then the path and the
   * arguments. The statements follow the source's sequence of reads around
   * the option loop `ParseOptions`; the meaning of the whole is stated on
   * `FillAttrSpec`.
   */
  method ParseFillAttr(ts: seq<TokenTree>) returns (r: Result<FillAttr>)
    ensures r == FillAttrSpec(ts)
  {
    var opts := ParseOptions(ts);
    if opts.Err? {
      return Err(opts.msg);
    }
    var (o, rest) := opts.value;
    var pa := PathAndArgs(rest);
    if pa.Err? {
      return Err(pa.msg);
    }
    if o.unexpected || pa.value.2 {
      return Err(UnexpectedTokenMsg);
    }
    return Ok(FillAttr(o, pa.value.0, pa.value.1));
  }

  /**
   * Options, a path, and optionally one group of arguments are read back;
   * the arguments are present exactly when a group follows the path.
   */
  /** A path, optionally followed by one parenthesized group, is read back whole. */
  lemma PathAndArgsRoundTrip(path: Path, args: Option<seq<TokenTree>>)
    ensures PathAndArgs([NodeToken(NodePath(path))] + (if args.Some? then [Parened(args.value)] else []))
         == Ok((path, args, false))
  {
  }

  lemma FillAttrRoundTrip(opts: seq<AttrOption>, path: Path, args: Option<seq<TokenTree>>)
    ensures var tail := if args.Some? then [Parened(args.value)] else [];
      FillAttrSpec(PrintOptions(opts) + [NodeToken(NodePath(path))] + tail)
        == Ok(FillAttr(Options(DebugPrint in opts, DebugPrintFillerOutput in opts, LastModPath(opts), false), path, args))
  {
    var tail := if args.Some? then [Parened(args.value)] else [];
    var rest := [NodeToken(NodePath(path))] + tail;
    OptionsRoundTrip(opts, NoOptions, rest);
    PathAndArgsRoundTrip(path, args);
    assert PrintOptions(opts) + [NodeToken(NodePath(path))] + tail == PrintOptions(opts) + rest;
  }

  /** Tokens after the path other than a parenthesized group are refused. */
  lemma FillArgsMustBeParenthesized(opts: seq<AttrOption>, path: Path, t: TokenTree, more: seq<TokenTree>)
    requires !IsGroup(t, Parenthesis)
    ensures FillAttrSpec(PrintOptions(opts) + [NodeToken(NodePath(path)), t] + more) == Err(ExpectedParens)
  {
    var rest := [NodeToken(NodePath(path)), t] + more;
    OptionsRoundTrip(opts, NoOptions, rest);
    assert PrintOptions(opts) + [NodeToken(NodePath(path)), t] + more == PrintOptions(opts) + rest;
  }

  // ------------------------------------------------------------------ run

  /** The expansion of `#[fill]`. */
  datatype FillOutput = FillOutput(
    /** `use MOD_PATH::imports::*;` */
    modPath: Path,
    /** the trait's template macro, `Trait!` */
    target: Path,
    /** the tokens inside `Trait! { .. }` */
    invocation: seq<TokenTree>,
    /** whether the expansion is printed at compile time */
    debugPrint: bool)

  /** `@TARGET {filler} @ARGS {..} @IMPL {impl} @DEBUG_PRINT_FILLER_OUTPUT {bool}`. */
  function FillInvocation(attrPath: Path, args: Option<seq<TokenTree>>, item: ItemImpl, debug: bool): seq<TokenTree> {
    [Punct('@'), Word("TARGET"), Braced([NodeToken(NodePath(attrPath))]),
     Punct('@'), Word("ARGS"), Braced(args.GetOr([])),
     Punct('@'), Word("IMPL"), Braced([NodeToken(NodeImpl(item))]),
     Punct('@'), Word("DEBUG_PRINT_FILLER_OUTPUT"), Braced([Tok(LitTok(LitBool(debug)))])]
  }

  /**
   * `fill::run`: the attribute must read, and the impl must implement a
   * trait without `!`. The template called is the trait's path; the
   * imports module is `MOD_PATH` if given, else the trait's companion module.
   */
  function FillRun(attr: seq<TokenTree>, item: ItemImpl): (r: Result<FillOutput>)
    ensures FillAttrSpec(attr).Err? ==> r == Err(FillAttrSpec(attr).msg)
    ensures FillAttrSpec(attr).Ok? && item.trait_.None? ==> r == Err(NotTraitImplMsg)
    ensures FillAttrSpec(attr).Ok? && item.trait_.Some? && item.trait_.value.negated ==> r == Err(NegatedImplMsg)
    ensures r.Ok? <==> FillAttrSpec(attr).Ok? && item.trait_.Some? && !item.trait_.value.negated
    ensures r.Ok? ==>
      var a := FillAttrSpec(attr).value;
      r.value.target == item.trait_.value.path
      && r.value.debugPrint == a.options.debugPrint
      && (a.options.modPath.Some? ==> r.value.modPath == a.options.modPath.value)
      && (a.options.modPath.None? ==> r.value.modPath == DefaultModPath(item.trait_.value.path))
      && r.value.invocation == FillInvocation(a.attrPath, a.args, item, a.options.debugPrintFillerOutput)
  {
    var a :- FillAttrSpec(attr);
    match item.trait_
    case None => Err(NotTraitImplMsg)
    case Some(tr) =>
      if tr.negated then Err(NegatedImplMsg)
      else
        var modPath := a.options.modPath.GetOr(DefaultModPath(tr.path));
        Ok(FillOutput(modPath, tr.path, FillInvocation(a.attrPath, a.args, item, a.options.debugPrintFillerOutput),
                      a.options.debugPrint))
  }

  /**
   * Without `@MOD_PATH` the imports come from the trait's companion module:
   * the trait path with its last segment in snake case plus `_portrait`.
   */
  lemma FillDefaultModPath(path: Path, item: ItemImpl)
    requires item.trait_ == Some(TraitRef(false, path))
    ensures var r := FillRun([NodeToken(NodePath(path))], item);
      r.Ok? && r.value.modPath.Last() == Segment(SnakeCase(path.Last().ident) + PortraitSuffix, PathNone)
      && |r.value.modPath.Segments()| == |path.Segments()|
      && r.value.modPath.Segments()[..|path.Segments()| - 1] == path.Segments()[..|path.Segments()| - 1]
  {
    assert FillAttrSpec([NodeToken(NodePath(path))]) == Ok(FillAttr(NoOptions, path, None));
  }
}
