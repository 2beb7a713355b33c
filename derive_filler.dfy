/**
 * The reader for derive fillers (framework/src/derive_filler.rs): like the
 * impl reader, with a `TRAIT_PATH` group after the portrait and the derived
 * type in an `INPUT` group instead of an impl block:
 *
 *   TRAIT_PORTRAIT { {item} ... } TRAIT_PATH { path } ARGS { .. } INPUT { type } DEBUG_PRINT_FILLER_OUTPUT { bool }
 */
module DeriveFiller {
  import opened Syntax
  import opened ImplFiller

  const ExpectedPath := "expected path"
  const PathLeftMsg := "trait path not fully parsed"
  const ExpectedDeriveInput := "expected `struct`, `enum`, or `union`"
  const InputLeftMsg := "trailing tokens after input block"

  /** The trait path, alone in its group. */
  function WholePath(ts: seq<TokenTree>): (r: Result<Path>)
    ensures r.Ok? <==> |ts| == 1 && ts[0].kind.NodeTok? && ts[0].kind.node.NodePath?
    ensures r.Ok? ==> r.value == ts[0].kind.node.path
  {
    if ts == [] || !(ts[0].kind.NodeTok? && ts[0].kind.node.NodePath?) then Err(ExpectedPath)
    else if |ts| > 1 then Err(PathLeftMsg)
    else Ok(ts[0].kind.node.path)
  }

  /** The derived type, alone in its group. */
  function WholeDeriveInput(ts: seq<TokenTree>): (r: Result<DeriveInput>)
    ensures r.Ok? <==> |ts| == 1 && ts[0].kind.NodeTok? && ts[0].kind.node.NodeDeriveInput?
    ensures r.Ok? ==> r.value == ts[0].kind.node.input
  {
    if ts == [] || !(ts[0].kind.NodeTok? && ts[0].kind.node.NodeDeriveInput?) then Err(ExpectedDeriveInput)
    else if |ts| > 1 then Err(InputLeftMsg)
    else Ok(ts[0].kind.node.input)
  }

  /** What a derive filler receives. */
  datatype DeriveInputs<A> = DeriveInputs(traitPath: Path, portrait: seq<TraitItem>, args: A, input: DeriveInput, debugPrint: bool)

  /** `Input::parse` of the derive reader: five keyword groups in order, then nothing. */
  function DeriveInputSpec<A>(ts: seq<TokenTree>, parseArgs: ArgsParser<A>): Result<DeriveInputs<A>> {
    var p :- KeywordGroup(ts, "TRAIT_PORTRAIT");
    var portrait :- CollectResults(p.0, PortraitItem);
    var t :- KeywordGroup(p.1, "TRAIT_PATH");
    var traitPath :- WholePath(t.0);
    var a :- KeywordGroup(t.1, "ARGS");
    var args :- WholeArgs(a.0, parseArgs);
    var i :- KeywordGroup(a.1, "INPUT");
    var input :- WholeDeriveInput(i.0);
    var d :- KeywordGroup(i.1, "DEBUG_PRINT_FILLER_OUTPUT");
    var debugPrint :- WholeLitBool(d.0, InputLeftMsg);
    if d.1 != [] then Err(MacroLeftMsg)
    else Ok(DeriveInputs(traitPath, portrait, args, input, debugPrint))
  }

  /**
   * `Input::parse` of the derive reader, group after group. The statements
   * follow the source's sequence of `?`-propagating reads; the loop over the
   * portrait groups is `ReadPortrait`, and the meaning of the whole is
   * stated on `DeriveInputSpec`.
   */
  method ParseDeriveInput<A>(ts: seq<TokenTree>, parseArgs: ArgsParser<A>) returns (r: Result<DeriveInputs<A>>)
    ensures r == DeriveInputSpec(ts, parseArgs)
  {
    var p := KeywordGroup(ts, "TRAIT_PORTRAIT");
    if p.Err? {
      return Err(p.msg);
    }
    var portrait := ReadPortrait(p.value.0);
    if portrait.Err? {
      return Err(portrait.msg);
    }
    var t := KeywordGroup(p.value.1, "TRAIT_PATH");
    if t.Err? {
      return Err(t.msg);
    }
    var traitPath := WholePath(t.value.0);
    if traitPath.Err? {
      return Err(traitPath.msg);
    }
    var a := KeywordGroup(t.value.1, "ARGS");
    if a.Err? {
      return Err(a.msg);
    }
    var args := WholeArgs(a.value.0, parseArgs);
    if args.Err? {
      return Err(args.msg);
    }
    var i := KeywordGroup(a.value.1, "INPUT");
    if i.Err? {
      return Err(i.msg);
    }
    var input := WholeDeriveInput(i.value.0);
    if input.Err? {
      return Err(input.msg);
    }
    var d := KeywordGroup(i.value.1, "DEBUG_PRINT_FILLER_OUTPUT");
    if d.Err? {
      return Err(d.msg);
    }
    var debugPrint := WholeLitBool(d.value.0, InputLeftMsg);
    if debugPrint.Err? {
      return Err(debugPrint.msg);
    }
    if d.value.1 != [] {
      return Err(MacroLeftMsg);
    }
    return Ok(DeriveInputs(traitPath.value, portrait.value, args.value, input.value, debugPrint.value));
  }

  /**
   * `derive_filler`: reads the input and returns the filler's output
   * unchanged; a reading error or a filler error is the result.
   */
  method RunDeriveFiller<A, O>(ts: seq<TokenTree>, parseArgs: ArgsParser<A>,
                               fill: (Path, seq<TraitItem>, A, DeriveInput) -> Result<O>)
    returns (r: Result<O>)
    ensures DeriveInputSpec(ts, parseArgs).Err? ==> r == Err(DeriveInputSpec(ts, parseArgs).msg)
    ensures DeriveInputSpec(ts, parseArgs).Ok? ==>
      var input := DeriveInputSpec(ts, parseArgs).value;
      r == fill(input.traitPath, input.portrait, input.args, input.input)
  {
    var input := ParseDeriveInput(ts, parseArgs);
    if input.Err? {
      return Err(input.msg);
    }
    r := fill(input.value.traitPath, input.value.portrait, input.value.args, input.value.input);
  }

  /** The five sections in order, each in braces. */
  function DeriveSections(portrait: seq<TokenTree>, path: seq<TokenTree>, args: seq<TokenTree>,
                          input: seq<TokenTree>, debug: seq<TokenTree>): seq<TokenTree> {
    [Word("TRAIT_PORTRAIT"), Braced(portrait), Word("TRAIT_PATH"), Braced(path), Word("ARGS"), Braced(args),
     Word("INPUT"), Braced(input), Word("DEBUG_PRINT_FILLER_OUTPUT"), Braced(debug)]
  }

  /** The five sections' readers in order, once the keywords and braces are found. */
  function ReadSections<A>(portrait: seq<TokenTree>, path: seq<TokenTree>, args: seq<TokenTree>, input: seq<TokenTree>,
                           debug: seq<TokenTree>, more: seq<TokenTree>, parseArgs: ArgsParser<A>): Result<DeriveInputs<A>> {
    var items :- CollectResults(portrait, PortraitItem);
    var traitPath :- WholePath(path);
    var a :- WholeArgs(args, parseArgs);
    var inp :- WholeDeriveInput(input);
    var d :- WholeLitBool(debug, InputLeftMsg);
    if more != [] then Err(MacroLeftMsg) else Ok(DeriveInputs(traitPath, items, a, inp, d))
  }

  lemma SectionsKeywords<A>(portrait: seq<TokenTree>, path: seq<TokenTree>, args: seq<TokenTree>, input: seq<TokenTree>,
                            debug: seq<TokenTree>, more: seq<TokenTree>, parseArgs: ArgsParser<A>)
    ensures DeriveInputSpec(DeriveSections(portrait, path, args, input, debug) + more, parseArgs)
         == ReadSections(portrait, path, args, input, debug, more, parseArgs)
  {
    var ts := DeriveSections(portrait, path, args, input, debug) + more;
    var t1 := [Word("TRAIT_PATH"), Braced(path), Word("ARGS"), Braced(args), Word("INPUT"), Braced(input),
               Word("DEBUG_PRINT_FILLER_OUTPUT"), Braced(debug)] + more;
    var t2 := [Word("ARGS"), Braced(args), Word("INPUT"), Braced(input), Word("DEBUG_PRINT_FILLER_OUTPUT"), Braced(debug)] + more;
    var t3 := [Word("INPUT"), Braced(input), Word("DEBUG_PRINT_FILLER_OUTPUT"), Braced(debug)] + more;
    var t4 := [Word("DEBUG_PRINT_FILLER_OUTPUT"), Braced(debug)] + more;
    assert ts[2..] == t1 && t1[2..] == t2 && t2[2..] == t3 && t3[2..] == t4 && t4[2..] == more;
    assert KeywordGroup(ts, "TRAIT_PORTRAIT") == Ok((portrait, t1));
    assert KeywordGroup(t1, "TRAIT_PATH") == Ok((path, t2));
    assert KeywordGroup(t2, "ARGS") == Ok((args, t3));
    assert KeywordGroup(t3, "INPUT") == Ok((input, t4));
    assert KeywordGroup(t4, "DEBUG_PRINT_FILLER_OUTPUT") == Ok((debug, more));
  }

  /** Reading succeeds exactly when every section is well formed and nothing follows. */
  lemma DeriveInputSpecIff<A>(portrait: seq<TokenTree>, path: seq<TokenTree>, args: seq<TokenTree>, input: seq<TokenTree>,
                              debug: seq<TokenTree>, more: seq<TokenTree>, parseArgs: ArgsParser<A>)
    ensures var r := DeriveInputSpec(DeriveSections(portrait, path, args, input, debug) + more, parseArgs);
      r.Ok? <==>
        (forall i :: 0 <= i < |portrait| ==> PortraitItem(portrait[i]).Ok?)
        && WholePath(path).Ok? && WholeArgs(args, parseArgs).Ok? && WholeDeriveInput(input).Ok?
        && WholeLitBool(debug, InputLeftMsg).Ok? && more == []
    ensures var r := DeriveInputSpec(DeriveSections(portrait, path, args, input, debug) + more, parseArgs);
      r.Ok? ==>
        |r.value.portrait| == |portrait|
        && (forall i :: 0 <= i < |portrait| ==> r.value.portrait[i] == PortraitItem(portrait[i]).value)
        && r.value.traitPath == path[0].kind.node.path
        && r.value.args == parseArgs(args).value.0
        && r.value.input == input[0].kind.node.input
        && r.value.debugPrint == debug[0].kind.lit.b
  {
    CollectResultsShape(portrait, PortraitItem);
    SectionsKeywords(portrait, path, args, input, debug, more, parseArgs);
  }

  /** The trait path group must hold exactly one path. */
  lemma TraitPathMustBeWhole<A>(portrait: seq<TokenTree>, p: Path, extra: TokenTree, rest: seq<TokenTree>, parseArgs: ArgsParser<A>)
    requires CollectResults(portrait, PortraitItem).Ok?
    ensures DeriveInputSpec([Word("TRAIT_PORTRAIT"), Braced(portrait), Word("TRAIT_PATH"), Braced([NodeToken(NodePath(p)), extra])] + rest,
                            parseArgs) == Err(PathLeftMsg)
  {
    var ts := [Word("TRAIT_PORTRAIT"), Braced(portrait), Word("TRAIT_PATH"), Braced([NodeToken(NodePath(p)), extra])] + rest;
    assert ts[2..][..2] == [Word("TRAIT_PATH"), Braced([NodeToken(NodePath(p)), extra])];
  }
}
