/**
 * How the pieces fit together: the attribute macros write an invocation of
 * a trait's template macro (codegen/src/fill.rs, codegen/src/derive.rs), the
 * template adds the trait's items (codegen/src/make.rs) and calls the
 * filler, whose reader (framework/src/impl_filler.rs,
 * framework/src/derive_filler.rs) gets back exactly what was written.
 */
module Transport {
  import opened Syntax
  import Make
  import Fill
  import Derive
  import ImplFiller
  import DeriveFiller

  /** The portrait groups the template writes are read back as the trait's items, in order. */
  lemma PortraitRoundTrip(items: seq<TraitItem>)
    ensures CollectResults(Make.PortraitGroups(items), ImplFiller.PortraitItem) == Ok(items)
  {
    var groups := Make.PortraitGroups(items);
    CollectResultsShape(groups, ImplFiller.PortraitItem);
    var r := CollectResults(groups, ImplFiller.PortraitItem);
    assert r.value == items;
  }

  /** `#[fill]` writes exactly what the template's arm matches. */
  lemma FillInvocationMatches(a: Fill.FillAttr, item: ItemImpl, debug: bool)
    ensures Fill.FillInvocation(a.attrPath, a.args, item, debug)
         == Make.InvocationTokens(Make.Invocation(a.attrPath, a.args.GetOr([]), [NodeToken(NodeImpl(item))], LitBool(debug)))
  {
  }

  /**
   * The impl route end to end: when `#[fill]` expands, the template expands
   * its invocation into a call of the filler named in the attribute, and
   * the impl filler reads back the trait's items in order, the filler's
   * arguments, the impl block and the `@DEBUG_PRINT_FILLER_OUTPUT` flag.
   */
  lemma FillRoundTrip<A>(attr: seq<TokenTree>, item: ItemImpl, items: seq<TraitItem>, parseArgs: ImplFiller.ArgsParser<A>, a: A)
    requires Fill.FillRun(attr, item).Ok?
    requires var args := Fill.FillAttrSpec(attr).value.args.GetOr([]); parseArgs(args) == Ok((a, |args|))
    ensures var fa := Fill.FillAttrSpec(attr).value;
      var e := Make.ExpandTemplate(items, Fill.FillRun(attr, item).value.invocation);
      e.Ok? && e.value.0 == fa.attrPath
      && ImplFiller.InputSpec(e.value.1, parseArgs) == Ok(ImplFiller.Input(items, a, item, fa.options.debugPrintFillerOutput))
  {
    var fa := Fill.FillAttrSpec(attr).value;
    var args := fa.args.GetOr([]);
    var inv := Make.Invocation(fa.attrPath, args, [NodeToken(NodeImpl(item))], LitBool(fa.options.debugPrintFillerOutput));
    FillInvocationMatches(fa, item, fa.options.debugPrintFillerOutput);
    Make.ExpandForwards(items, inv);
    Make.MatchInvocationTokens(inv);
    var e := Make.Expand(items, Make.InvocationTokens(inv));
    var groups := Make.PortraitGroups(items);
    var debug := [Tok(LitTok(LitBool(fa.options.debugPrintFillerOutput)))];
    assert e.value.1 == ImplFiller.Sections(groups, args, [NodeToken(NodeImpl(item))], debug) + [];
    ImplFiller.InputSpecIff(groups, args, [NodeToken(NodeImpl(item))], debug, [], parseArgs);
    var r := ImplFiller.InputSpec(e.value.1, parseArgs);
    PortraitRoundTrip(items);
    CollectResultsShape(groups, ImplFiller.PortraitItem);
    assert r.value.portrait == items;
  }

  /** `#[derive]` writes exactly what the template's derive arm matches. */
  lemma DeriveInvocationMatches(a: Derive.DeriveAttr, item: DeriveInput)
    ensures Derive.DeriveInvocationOf(a, item)
         == Make.DeriveInvocationTokens(Make.DeriveInvocation(a.attrPath, a.traitPath, a.args.GetOr([]),
              [NodeToken(NodeDeriveInput(item))], LitBool(a.options.debugPrintFillerOutput)))
  {
  }

  /**
   * The derive route as written: the template generated for a trait has
   * only the impl arm, so the invocation `#[derive]` writes matches no arm.
   */
  lemma DeriveRouteAsWritten(attr: seq<TokenTree>, item: DeriveInput, items: seq<TraitItem>)
    requires Derive.DeriveRun(attr, item).Ok?
    ensures Make.Expand(items, Derive.DeriveRun(attr, item).value.invocation) == Err(Make.NoRuleMsg)
  {
    var da := Derive.DeriveAttrSpec(attr).value;
    DeriveInvocationMatches(da, item);
    Make.DeriveInvocationUnmatched(items, Make.DeriveInvocation(da.attrPath, da.traitPath, da.args.GetOr([]),
      [NodeToken(NodeDeriveInput(item))], LitBool(da.options.debugPrintFillerOutput)));
  }

  /**
   * The derive route with the template's derive arm: the derive filler
   * reads back the trait's items in order, the trait path, the filler's
   * arguments, the type as written (with its `portrait` attributes) and
   * the `@DEBUG_PRINT_FILLER_OUTPUT` flag.
   */
  lemma DeriveRoundTrip<A>(attr: seq<TokenTree>, item: DeriveInput, items: seq<TraitItem>, parseArgs: ImplFiller.ArgsParser<A>, a: A)
    requires Derive.DeriveRun(attr, item).Ok?
    requires var args := Derive.DeriveAttrSpec(attr).value.args.GetOr([]); parseArgs(args) == Ok((a, |args|))
    ensures var da := Derive.DeriveAttrSpec(attr).value;
      var e := Make.ExpandTemplate(items, Derive.DeriveRun(attr, item).value.invocation);
      e.Ok? && e.value.0 == da.attrPath
      && DeriveFiller.DeriveInputSpec(e.value.1, parseArgs)
         == Ok(DeriveFiller.DeriveInputs(da.traitPath, items, a, item, da.options.debugPrintFillerOutput))
  {
    var da := Derive.DeriveAttrSpec(attr).value;
    var args := da.args.GetOr([]);
    var inv := Make.DeriveInvocation(da.attrPath, da.traitPath, args, [NodeToken(NodeDeriveInput(item))],
                                     LitBool(da.options.debugPrintFillerOutput));
    DeriveInvocationMatches(da, item);
    Make.ExpandTemplateForwardsDerive(items, inv);
    var e := Make.ExpandTemplate(items, Make.DeriveInvocationTokens(inv));
    var groups := Make.PortraitGroups(items);
    var path := [NodeToken(NodePath(da.traitPath))];
    var input := [NodeToken(NodeDeriveInput(item))];
    var debug := [Tok(LitTok(LitBool(da.options.debugPrintFillerOutput)))];
    assert e.value.1 == DeriveFiller.DeriveSections(groups, path, args, input, debug) + [];
    DeriveFiller.DeriveInputSpecIff(groups, path, args, input, debug, [], parseArgs);
    var r := DeriveFiller.DeriveInputSpec(e.value.1, parseArgs);
    PortraitRoundTrip(items);
    CollectResultsShape(groups, ImplFiller.PortraitItem);
    assert r.value.portrait == items;
  }
}
