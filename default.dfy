/**
 * The `portrait::default` filler (codegen/src/default.rs): every missing
 * constant and function returns `Default::default()`; associated types
 * cannot be filled.
 */
module DefaultFiller {
  import opened Syntax
  import opened NoArgsParser
  import opened ImplCompleter

  const TypeMsg := "portrait::default cannot implement associated types automatically"

  /** `Default::default()` */
  const DefaultCall: Expr :=
    ECall(EPath(Path(false, Segment("Default", PathNone), [Segment("default", PathNone)])), [])

  /** `#[allow(unused_variables)]` */
  const AllowUnused: Attr := Attr(SimplePath("allow"), MetaList([Word("unused_variables")]))

  /** One parameter with the attribute added: receivers are left alone. */
  function Unuse(arg: FnArg): FnArg {
    match arg
    case Receiver(_, _, _) => arg
    case Typed(attrs, pat, ty) => Typed(attrs + [AllowUnused], pat, ty)
  }

  /**
   * The signature with `#[allow(unused_variables)]` appended to the
   * attributes of every typed parameter, since the generated body uses none
   * of them.
   */
  function UnusedSig(sig: Signature): (r: Signature)
    ensures r.ident == sig.ident && r.generics == sig.generics && r.output == sig.output
    ensures |r.inputs| == |sig.inputs|
    ensures forall i :: 0 <= i < |sig.inputs| && sig.inputs[i].Receiver? ==> r.inputs[i] == sig.inputs[i]
    ensures forall i :: 0 <= i < |sig.inputs| && sig.inputs[i].Typed? ==>
      r.inputs[i].Typed? && r.inputs[i].pat == sig.inputs[i].pat && r.inputs[i].ty == sig.inputs[i].ty
      && r.inputs[i].attrs == sig.inputs[i].attrs + [AllowUnused]
  {
    sig.(inputs := seq(|sig.inputs|, i requires 0 <= i < |sig.inputs| => Unuse(sig.inputs[i])))
  }

  /** `unuse_sig`: walks the inputs, pushing the attribute onto each typed one in place. */
  method UnuseSig(sig: Signature) returns (r: Signature)
    ensures r == UnusedSig(sig)
  {
    var inputs := sig.inputs;
    for i := 0 to |inputs|
      invariant |inputs| == |sig.inputs|
      invariant forall j :: 0 <= j < i ==> inputs[j] == Unuse(sig.inputs[j])
      invariant forall j :: i <= j < |inputs| ==> inputs[j] == sig.inputs[j]
    {
      if inputs[i].Typed? {
        inputs := inputs[i := inputs[i].(attrs := inputs[i].attrs + [AllowUnused])];
      }
    }
    r := sig.(inputs := inputs);
  }

  /** Applying `unuse_sig` twice adds the attribute twice: it is not idempotent on a non-receiver parameter. */
  lemma UnuseSigTwice(sig: Signature, i: nat)
    requires i < |sig.inputs| && sig.inputs[i].Typed?
    ensures UnusedSig(UnusedSig(sig)).inputs[i].attrs == sig.inputs[i].attrs + [AllowUnused, AllowUnused]
  {
    assert sig.inputs[i].attrs + [AllowUnused] + [AllowUnused] == sig.inputs[i].attrs + [AllowUnused, AllowUnused];
  }

  /** `generate_const`: the constant's `cfg` attributes, name, generics and type, with value `Default::default()`. */
  function GenConst(ctx: ImplContext, item: TraitConst): (r: Result<ImplConst>)
    ensures r.Ok?
    ensures r.value.attrs == CfgAttrs(item.attrs)
    ensures r.value.ident == item.ident && r.value.generics == item.generics && r.value.ty == item.ty
    ensures r.value.expr == DefaultCall
  {
    Ok(ImplConst(CfgAttrs(item.attrs), item.ident, item.generics, item.ty, DefaultCall))
  }

  /** `generate_fn`: the `cfg` attributes, the signature with unused parameters allowed, and the body `{ Default::default() }`. */
  function GenFn(ctx: ImplContext, item: TraitFn): (r: Result<ImplFn>)
    ensures r.Ok?
    ensures r.value.attrs == CfgAttrs(item.attrs)
    ensures r.value.sig == UnusedSig(item.sig)
    ensures r.value.body == [SExpr(DefaultCall, false)]
  {
    Ok(ImplFn(CfgAttrs(item.attrs), UnusedSig(item.sig), [SExpr(DefaultCall, false)]))
  }

  /** `generate_type`: always an error. */
  function GenType(ctx: ImplContext, item: TraitType): (r: Result<ImplType>)
    ensures r == Err(TypeMsg)
  {
    Err(TypeMsg)
  }

  /** `Generator(NoArgs)`: built only from an empty argument list. */
  function DefaultGenerator(args: seq<TokenTree>): (r: Result<ImplGenerator>)
    ensures r.Ok? <==> args == []
    ensures r.Err? ==> r.msg == NoArgsMsg
  {
    var _ :- ParseNoArgs(args);
    Ok(ImplGenerator(GenConst, GenFn, GenType))
  }

  /**
   * A run of the default generator over missing members succeeds exactly
   * when none of them is an associated type, and then every generated
   * constant and function returns `Default::default()`.
   */
  lemma DefaultRun(ctx: ImplContext, items: seq<TraitItem>)
    requires forall i :: 0 <= i < |items| ==> IsMember(items[i])
    ensures var r := GenerateSeq(ImplGenerator(GenConst, GenFn, GenType), ctx, items);
      (r.Ok? <==> forall i :: 0 <= i < |items| ==> !items[i].TIType?)
      && (r.Ok? ==>
        |r.value| == |items|
        && forall i :: 0 <= i < |items| ==>
          (r.value[i].IIConst? ==> r.value[i].c.expr == DefaultCall)
          && (r.value[i].IIFn? ==> r.value[i].f.body == [SExpr(DefaultCall, false)]))
  {
    var gen := ImplGenerator(GenConst, GenFn, GenType);
    GenerateSeqItems(gen, ctx, items);
    forall i | 0 <= i < |items|
      ensures GenerateOne(gen, ctx, items[i]).Ok? <==> !items[i].TIType?
    {
    }
  }
}
