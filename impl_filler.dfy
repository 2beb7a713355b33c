/**
 * The reader on the filler side of the transport (framework/src/impl_filler.rs,
 * and its copy in framework/src/filler.rs): a filler macro receives
 *
 *   TRAIT_PORTRAIT { {item} {item} ... } ARGS { .. } IMPL { impl } DEBUG_PRINT_FILLER_OUTPUT { bool }
 *
 * reads it back into the trait items, its own arguments, the impl block and
 * the debug flag, and passes them to the filler.
 */
module ImplFiller {
  import opened Syntax

  const ExpectedBraces := "expected curly braces"
  const ExpectedTraitItem := "expected trait item"
  const OneItemMsg := "braces should only contain one trait item"
  const ArgsLeftMsg := "args not fully parsed"
  const ExpectedImpl := "expected `impl`"
  const ImplLeftMsg := "trailing tokens after impl block"
  const ExpectedLitBool := "expected boolean literal"
  const MacroLeftMsg := "trailing tokens in macro input"

  function ExpectedKw(kw: string): string { "expected `" + kw + "`" }

  /**
   * A filler's `Args::parse`: the value and the number of tokens it read
   * from the front of the stream.
   */
  type ArgsParser<!A> = seq<TokenTree> -> Result<(A, nat)>

  /**
   * `input.parse::<kw::KW>()?` followed by `braced!(inner in input)`: the
   * group's contents and the tokens after it.
   */
  function KeywordGroup(ts: seq<TokenTree>, kw: string): (r: Result<(seq<TokenTree>, seq<TokenTree>)>)
    ensures r.Ok? <==> |ts| >= 2 && IsWord(ts[0], kw) && IsGroup(ts[1], Brace)
    ensures r.Ok? ==> r.value == (ts[1].kind.stream, ts[2..])
  {
    if ts == [] || !IsWord(ts[0], kw) then Err(ExpectedKw(kw))
    else if |ts| < 2 || !IsGroup(ts[1], Brace) then Err(ExpectedBraces)
    else Ok((ts[1].kind.stream, ts[2..]))
  }

  predicate IsTraitItemTok(t: TokenTree) { t.kind.NodeTok? && t.kind.node.NodeTraitItem? }

  /** One group of the portrait: braces around exactly one trait item. */
  function PortraitItem(t: TokenTree): (r: Result<TraitItem>)
    ensures r.Ok? <==> IsGroup(t, Brace) && |t.kind.stream| == 1 && IsTraitItemTok(t.kind.stream[0])
    ensures r.Ok? ==> r.value == t.kind.stream[0].kind.node.item
  {
    if !IsGroup(t, Brace) then Err(ExpectedBraces)
    else if t.kind.stream == [] || !IsTraitItemTok(t.kind.stream[0]) then Err(ExpectedTraitItem)
    else if |t.kind.stream| > 1 then Err(OneItemMsg)
    else Ok(t.kind.stream[0].kind.node.item)
  }

  /** `args_braced.parse()?` followed by the test that nothing is left. */
  function WholeArgs<A>(ts: seq<TokenTree>, parseArgs: ArgsParser<A>): (r: Result<A>)
    ensures r.Ok? <==> parseArgs(ts).Ok? && parseArgs(ts).value.1 >= |ts|
    ensures r.Ok? ==> r.value == parseArgs(ts).value.0
  {
    var p :- parseArgs(ts);
    if p.1 < |ts| then Err(ArgsLeftMsg) else Ok(p.0)
  }

  /** The impl block, alone in its group. */
  function WholeImpl(ts: seq<TokenTree>): (r: Result<ItemImpl>)
    ensures r.Ok? <==> |ts| == 1 && ts[0].kind.NodeTok? && ts[0].kind.node.NodeImpl?
    ensures r.Ok? ==> r.value == ts[0].kind.node.itemImpl
  {
    if ts == [] || !(ts[0].kind.NodeTok? && ts[0].kind.node.NodeImpl?) then Err(ExpectedImpl)
    else if |ts| > 1 then Err(ImplLeftMsg)
    else Ok(ts[0].kind.node.itemImpl)
  }

  /**
   * The `bool` literal, alone in its group; leftover tokens are reported
   * with the message `leftover` (the impl reader reuses its impl message).
   */
  function WholeLitBool(ts: seq<TokenTree>, leftover: string): (r: Result<bool>)
    ensures r.Ok? <==> |ts| == 1 && ts[0].kind.LitTok? && ts[0].kind.lit.LitBool?
    ensures r.Ok? ==> r.value == ts[0].kind.lit.b
  {
    if ts == [] || !(ts[0].kind.LitTok? && ts[0].kind.lit.LitBool?) then Err(ExpectedLitBool)
    else if |ts| > 1 then Err(leftover)
    else Ok(ts[0].kind.lit.b)
  }

  /** What a filler receives. */
  datatype Input<A> = Input(portrait: seq<TraitItem>, args: A, itemImpl: ItemImpl, debugPrint: bool)

  /** `Input::parse`: the four keyword groups in order, then nothing. */
  function InputSpec<A>(ts: seq<TokenTree>, parseArgs: ArgsParser<A>): Result<Input<A>> {
    var p :- KeywordGroup(ts, "TRAIT_PORTRAIT");
    var portrait :- CollectResults(p.0, PortraitItem);
    var a :- KeywordGroup(p.1, "ARGS");
    var args :- WholeArgs(a.0, parseArgs);
    var i :- KeywordGroup(a.1, "IMPL");
    var itemImpl :- WholeImpl(i.0);
    var d :- KeywordGroup(i.1, "DEBUG_PRINT_FILLER_OUTPUT");
    var debugPrint :- WholeLitBool(d.0, ImplLeftMsg);
    if d.1 != [] then Err(MacroLeftMsg)
    else Ok(Input(portrait, args, itemImpl, debugPrint))
  }

  /**
   * Reads the portrait groups one by one, pushing each item; the first
   * malformed group ends the reading.
   */
  method ReadPortrait(groups: seq<TokenTree>) returns (r: Result<seq<TraitItem>>)
    ensures r == CollectResults(groups, PortraitItem)
  {
    var portrait: seq<TraitItem> := [];
    var i := 0;
    assert groups[0..] == groups;
    var all := CollectResults(groups, PortraitItem);
    if all.Ok? {
      assert portrait + all.value == all.value;
    }
    while i < |groups|
      invariant 0 <= i <= |groups|
      invariant CollectResults(groups, PortraitItem)
             == (var rest :- CollectResults(groups[i..], PortraitItem); Ok(portrait + rest))
    {
      assert groups[i..][1..] == groups[i + 1..];
      var item := PortraitItem(groups[i]);
      if item.Err? {
        return Err(item.msg);
      }
      var rest := CollectResults(groups[i + 1..], PortraitItem);
      if rest.Ok? {
        assert portrait + ([item.value] + rest.value) == (portrait + [item.value]) + rest.value;
      }
      portrait := portrait + [item.value];
      i := i + 1;
    }
    assert groups[i..] == [];
    assert portrait + [] == portrait;
    return Ok(portrait);
  }

  /**
   * `Input::parse`, group after group. The statements follow the source's
   * sequence of `?`-propagating reads; the loop over the portrait groups is
   * `ReadPortrait`, and the meaning of the whole is stated on `InputSpec`.
   */
  method ParseInput<A>(ts: seq<TokenTree>, parseArgs: ArgsParser<A>) returns (r: Result<Input<A>>)
    ensures r == InputSpec(ts, parseArgs)
  {
    var p := KeywordGroup(ts, "TRAIT_PORTRAIT");
    if p.Err? {
      return Err(p.msg);
    }
    var portrait := ReadPortrait(p.value.0);
    if portrait.Err? {
      return Err(portrait.msg);
    }
    var a := KeywordGroup(p.value.1, "ARGS");
    if a.Err? {
      return Err(a.msg);
    }
    var args := WholeArgs(a.value.0, parseArgs);
    if args.Err? {
      return Err(args.msg);
    }
    var i := KeywordGroup(a.value.1, "IMPL");
    if i.Err? {
      return Err(i.msg);
    }
    var itemImpl := WholeImpl(i.value.0);
    if itemImpl.Err? {
      return Err(itemImpl.msg);
    }
    var d := KeywordGroup(i.value.1, "DEBUG_PRINT_FILLER_OUTPUT");
    if d.Err? {
      return Err(d.msg);
    }
    var debugPrint := WholeLitBool(d.value.0, ImplLeftMsg);
    if debugPrint.Err? {
      return Err(debugPrint.msg);
    }
    if d.value.1 != [] {
      return Err(MacroLeftMsg);
    }
    return Ok(Input(portrait.value, args.value, itemImpl.value, debugPrint.value));
  }

  /**
   * `impl_filler` (and `filler`): reads the input and returns the filler's
   * output unchanged; a reading error or a filler error is the result.
   */
  method RunFiller<A, O>(ts: seq<TokenTree>, parseArgs: ArgsParser<A>, fill: (seq<TraitItem>, A, ItemImpl) -> Result<O>)
    returns (r: Result<O>)
    ensures InputSpec(ts, parseArgs).Err? ==> r == Err(InputSpec(ts, parseArgs).msg)
    ensures InputSpec(ts, parseArgs).Ok? ==>
      var input := InputSpec(ts, parseArgs).value;
      r == fill(input.portrait, input.args, input.itemImpl)
  {
    var input := ParseInput(ts, parseArgs);
    if input.Err? {
      return Err(input.msg);
    }
    r := fill(input.value.portrait, input.value.args, input.value.itemImpl);
  }

  /** The four sections in order, each in braces: the tokens a reader accepts. */
  function Sections(portrait: seq<TokenTree>, args: seq<TokenTree>, impl_: seq<TokenTree>, debug: seq<TokenTree>): seq<TokenTree> {
    [Word("TRAIT_PORTRAIT"), Braced(portrait), Word("ARGS"), Braced(args),
     Word("IMPL"), Braced(impl_), Word("DEBUG_PRINT_FILLER_OUTPUT"), Braced(debug)]
  }

  /** Reading succeeds exactly when every section is well formed and nothing follows. */
  lemma InputSpecIff<A>(portrait: seq<TokenTree>, args: seq<TokenTree>, impl_: seq<TokenTree>, debug: seq<TokenTree>,
                        more: seq<TokenTree>, parseArgs: ArgsParser<A>)
    ensures var r := InputSpec(Sections(portrait, args, impl_, debug) + more, parseArgs);
      r.Ok? <==>
        (forall i :: 0 <= i < |portrait| ==> PortraitItem(portrait[i]).Ok?)
        && WholeArgs(args, parseArgs).Ok? && WholeImpl(impl_).Ok? && WholeLitBool(debug, ImplLeftMsg).Ok?
        && more == []
    ensures var r := InputSpec(Sections(portrait, args, impl_, debug) + more, parseArgs);
      r.Ok? ==>
        |r.value.portrait| == |portrait|
        && (forall i :: 0 <= i < |portrait| ==> r.value.portrait[i] == PortraitItem(portrait[i]).value)
        && r.value.args == parseArgs(args).value.0
        && r.value.itemImpl == impl_[0].kind.node.itemImpl
        && r.value.debugPrint == debug[0].kind.lit.b
  {
    CollectResultsShape(portrait, PortraitItem);
    var ts := Sections(portrait, args, impl_, debug) + more;
    assert ts[2..] == [Word("ARGS"), Braced(args), Word("IMPL"), Braced(impl_), Word("DEBUG_PRINT_FILLER_OUTPUT"), Braced(debug)] + more;
    assert ts[2..][2..] == [Word("IMPL"), Braced(impl_), Word("DEBUG_PRINT_FILLER_OUTPUT"), Braced(debug)] + more;
    assert ts[2..][2..][2..] == [Word("DEBUG_PRINT_FILLER_OUTPUT"), Braced(debug)] + more;
    assert ts[2..][2..][2..][2..] == more;
  }

  /** A group holding a trait item and anything after it is refused. */
  lemma OneItemPerGroup<A>(item: TraitItem, extra: TokenTree, others: seq<TokenTree>, rest: seq<TokenTree>, parseArgs: ArgsParser<A>)
    ensures InputSpec([Word("TRAIT_PORTRAIT"), Braced([Braced([NodeToken(NodeTraitItem(item)), extra]) ] + others)] + rest, parseArgs)
         == Err(OneItemMsg)
  {
    var groups := [Braced([NodeToken(NodeTraitItem(item)), extra])] + others;
    assert PortraitItem(groups[0]) == Err(OneItemMsg);
  }

  /** The sections must come in their fixed order: `IMPL` where `ARGS` belongs is refused. */
  lemma SectionsInOrder<A>(portrait: seq<TokenTree>, impl_: seq<TokenTree>, rest: seq<TokenTree>, parseArgs: ArgsParser<A>)
    requires CollectResults(portrait, PortraitItem).Ok?
    ensures InputSpec([Word("TRAIT_PORTRAIT"), Braced(portrait), Word("IMPL"), Braced(impl_)] + rest, parseArgs)
         == Err(ExpectedKw("ARGS"))
  {
    var ts := [Word("TRAIT_PORTRAIT"), Braced(portrait), Word("IMPL"), Braced(impl_)] + rest;
    assert ts[2..][0] == Word("IMPL");
    assert !IsWord(Word("IMPL"), "ARGS") by {
      assert "IMPL" != "ARGS" by { assert "IMPL"[0] != "ARGS"[0]; }
    }
  }

  /** Arguments the filler's parser does not read to the end are refused. */
  lemma ArgsMustBeConsumed<A>(portrait: seq<TokenTree>, args: seq<TokenTree>, impl_: seq<TokenTree>, debug: seq<TokenTree>,
                              parseArgs: ArgsParser<A>)
    requires CollectResults(portrait, PortraitItem).Ok?
    requires parseArgs(args).Ok? && parseArgs(args).value.1 < |args|
    ensures InputSpec(Sections(portrait, args, impl_, debug), parseArgs) == Err(ArgsLeftMsg)
  {
    var ts := Sections(portrait, args, impl_, debug);
    assert ts[2..][..2] == [Word("ARGS"), Braced(args)];
  }
}
