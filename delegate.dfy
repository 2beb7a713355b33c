/**
 * The `portrait::delegate` impl filler (codegen/src/impl_fillers/delegate.rs):
 * implements every missing member by forwarding to the same member of
 * another type `D`, as in `<D as Trait>::member`, with an optional value
 * expression `; expr` that stands for `self`.
 */
module Delegate {
  import opened Syntax
  import opened ImplCompleter

  const ExpectedType := "expected type"
  const ExpectedExpression := "expected an expression"
  const NoValueMsg := "Delegate value must be passed to implement traits with references"
  /** The framework only calls fillers on trait impls; the source panics otherwise. */
  const NotTraitImplMsg := "checked in framework"

  // -------------------------------------------------------------- argument

  /** `Arg`: the delegate type and, after `;`, the value standing for `self`. */
  datatype DelegateArg = DelegateArg(ty: Type, value: Option<Expr>)

  /** `Arg::parse`: a type, then optionally `;` and an expression; returns the tokens read. */
  function ParseDelegateArg(ts: seq<TokenTree>): (r: Result<(DelegateArg, nat)>)
    ensures r.Ok? ==> r.value.1 <= |ts|
    ensures r.Ok? <==>
      ts != [] && ts[0].kind.NodeTok? && ts[0].kind.node.NodeType?
      && (|ts| > 1 && IsPunct(ts[1], ';') ==> |ts| > 2 && ts[2].kind.NodeTok? && ts[2].kind.node.NodeExpr?)
  {
    if ts == [] || !(ts[0].kind.NodeTok? && ts[0].kind.node.NodeType?) then Err(ExpectedType)
    else if |ts| > 1 && IsPunct(ts[1], ';') then
      if |ts| > 2 && ts[2].kind.NodeTok? && ts[2].kind.node.NodeExpr? then
        Ok((DelegateArg(ts[0].kind.node.ty, Some(ts[2].kind.node.expr)), 3))
      else Err(ExpectedExpression)
    else Ok((DelegateArg(ts[0].kind.node.ty, None), 1))
  }

  function PrintDelegateArg(a: DelegateArg): seq<TokenTree> {
    [NodeToken(NodeType(a.ty))] + (if a.value.Some? then [Punct(';'), NodeToken(NodeExpr(a.value.value))] else [])
  }

  /** A written argument is read back whole. */
  lemma DelegateArgRoundTrip(a: DelegateArg)
    ensures ParseDelegateArg(PrintDelegateArg(a)) == Ok((a, |PrintDelegateArg(a)|))
  {
  }

  // ------------------------------------------------------------ generators

  /** The implemented trait's path (`ctx.impl_block.trait_`). */
  function TraitPathOf(ctx: ImplContext): (r: Result<Path>)
    ensures r.Ok? <==> ctx.implBlock.trait_.Some?
    ensures r.Ok? ==> r.value == ctx.implBlock.trait_.value.path
  {
    match ctx.implBlock.trait_
    case None => Err(NotTraitImplMsg)
    case Some(t) => Ok(t.path)
  }

  /** `generate_const`: `const NAME: T = <D as Trait>::NAME;` with the `cfg` attributes only. */
  function GenConst(arg: DelegateArg, ctx: ImplContext, item: TraitConst): (r: Result<ImplConst>)
    ensures r.Ok? <==> ctx.implBlock.trait_.Some?
    ensures r.Ok? ==>
      r.value.ident == item.ident && r.value.generics == item.generics && r.value.ty == item.ty
      && r.value.attrs == CfgAttrs(item.attrs)
      && r.value.expr == EQualified(arg.ty, ctx.implBlock.trait_.value.path, item.ident)
  {
    var traitPath :- TraitPathOf(ctx);
    Ok(ImplConst(CfgAttrs(item.attrs), item.ident, item.generics, item.ty, EQualified(arg.ty, traitPath, item.ident)))
  }

  /** The bare names of generic parameters as arguments: `<'a, T, N>` for `<'a, T: Bound, const N: usize>`. */
  function BareArgs(params: seq<GenericParam>): (r: seq<GenericArgument>)
    ensures |r| == |params| && forall i :: 0 <= i < |params| ==> r[i] == ParamArg(params[i])
  {
    seq(|params|, i requires 0 <= i < |params| => ParamArg(params[i]))
  }

  /**
   * `generate_type`: `type Name<P> = <D as Trait>::Name<bare P>;` with the
   * `cfg` attributes only; with no parameters there are no brackets.
   */
  function GenType(arg: DelegateArg, ctx: ImplContext, item: TraitType): (r: Result<ImplType>)
    ensures r.Ok? <==> ctx.implBlock.trait_.Some?
    ensures r.Ok? ==>
      r.value.ident == item.ident && r.value.generics == item.generics && r.value.attrs == CfgAttrs(item.attrs)
      && r.value.ty.TQualified? && r.value.ty.qself == arg.ty && r.value.ty.member == item.ident
      && |r.value.ty.args| == |item.generics.params|
      && (forall i :: 0 <= i < |item.generics.params| ==> r.value.ty.args[i] == ParamArg(item.generics.params[i]))
      && (item.generics.params == [] ==> r.value.ty.args == [])
  {
    var traitPath :- TraitPathOf(ctx);
    Ok(ImplType(CfgAttrs(item.attrs), item.ident, item.generics,
                TQualified(arg.ty, traitPath, item.ident, BareArgs(item.generics.params))))
  }

  /**
   * One input of the signature: the input as it stays in the signature, and
   * the argument passed on. A receiver passes the value with `&`/`mut` as
   * the receiver has them; a typed `self` passes the bare value; another
   * identifier loses its `mut`, in the signature too; any other pattern is
   * passed as it is. Only `cfg` attributes travel with the argument.
   */
  function DelegateInput(value: Option<Expr>, input: FnArg): Result<(FnArg, Expr)> {
    match input
    case Receiver(attrs, reference, mutable) =>
      if value.None? then Err(NoValueMsg)
      else Ok((input, EPrefixed(CfgAttrs(attrs), reference, mutable, value.value)))
    case Typed(attrs, pat, ty) =>
      if pat.PIdent? && pat.name == "self" then
        if value.None? then Err(NoValueMsg)
        else Ok((input, EPrefixed(CfgAttrs(attrs), false, false, value.value)))
      else if pat.PIdent? then
        var p := PIdent(false, pat.name);
        Ok((Typed(attrs, p, ty), EPrefixed(CfgAttrs(attrs), false, false, EPat(p))))
      else Ok((input, EPrefixed(CfgAttrs(attrs), false, false, EPat(pat))))
  }

  /** The map over the inputs, stopping at the first error. */
  function DelegateInputs(value: Option<Expr>, inputs: seq<FnArg>): Result<(seq<FnArg>, seq<Expr>)>
    decreases |inputs|
  {
    if inputs == [] then Ok(([], []))
    else
      var first :- DelegateInput(value, inputs[0]);
      var rest :- DelegateInputs(value, inputs[1..]);
      Ok(([first.0] + rest.0, [first.1] + rest.1))
  }

  const InlineAttr: Attr := Attr(SimplePath("inline"), MetaPath)

  /** `<D as Trait>::name(args,)` */
  function ForwardCall(arg: DelegateArg, traitPath: Path, name: Ident, args: seq<Expr>): Expr {
    ECall(EQualified(arg.ty, traitPath, name), args)
  }

  /** `generate_fn`: the trait's signature (identifiers without `mut`), `#[inline]`, one forwarding call. */
  function GenFn(arg: DelegateArg, ctx: ImplContext, item: TraitFn): Result<ImplFn> {
    var traitPath :- TraitPathOf(ctx);
    var (inputs, args) :- DelegateInputs(arg.value, item.sig.inputs);
    Ok(ImplFn(CfgAttrs(item.attrs) + [InlineAttr], item.sig.(inputs := inputs),
              [SExpr(ForwardCall(arg, traitPath, item.sig.ident, args), false)]))
  }

  /**
   * `generate_fn` as the source runs it: the signature's inputs are walked
   * in place, each turned into the argument it passes, the first failure
   * ending the walk.
   */
  method GenerateFn(arg: DelegateArg, ctx: ImplContext, item: TraitFn) returns (r: Result<ImplFn>)
    ensures r == GenFn(arg, ctx, item)
  {
    var traitPath := TraitPathOf(ctx);
    if traitPath.Err? {
      return Err(traitPath.msg);
    }
    var inputs := item.sig.inputs;
    var args: seq<Expr> := [];
    var i := 0;
    AccStart(arg.value, inputs);
    while i < |inputs|
      invariant 0 <= i <= |inputs| == |item.sig.inputs|
      invariant inputs[i..] == item.sig.inputs[i..]
      invariant DelegateInputs(arg.value, item.sig.inputs) == InputsAcc(arg.value, item.sig.inputs, i, inputs[..i], args)
    {
      assert inputs[i] == item.sig.inputs[i];
      var one := DelegateInput(arg.value, inputs[i]);
      AccStep(arg.value, item.sig.inputs, i, inputs[..i], args);
      if one.Err? {
        return Err(one.msg);
      }
      var next := inputs[i := one.value.0];
      assert next[..i + 1] == inputs[..i] + [one.value.0];
      assert next[i + 1..] == inputs[i + 1..];
      inputs := next;
      args := args + [one.value.1];
      i := i + 1;
    }
    AccEnd(arg.value, item.sig.inputs, inputs, args);
    return Ok(ImplFn(CfgAttrs(item.attrs) + [InlineAttr], item.sig.(inputs := inputs),
                     [SExpr(ForwardCall(arg, traitPath.value, item.sig.ident, args), false)]));
  }

  /** The walk's result when the first `i` inputs gave `done` and `args`. */
  function InputsAcc(value: Option<Expr>, xs: seq<FnArg>, i: nat, done: seq<FnArg>, args: seq<Expr>): Result<(seq<FnArg>, seq<Expr>)>
    requires i <= |xs|
  {
    var rest :- DelegateInputs(value, xs[i..]);
    Ok((done + rest.0, args + rest.1))
  }

  lemma AccStart(value: Option<Expr>, xs: seq<FnArg>)
    ensures DelegateInputs(value, xs) == InputsAcc(value, xs, 0, xs[..0], [])
  {
    assert xs[0..] == xs;
    var all := DelegateInputs(value, xs);
    if all.Ok? {
      assert xs[..0] + all.value.0 == all.value.0 && [] + all.value.1 == all.value.1;
    }
  }

  /** One more input walked: the walk fails there, or goes on with that input's results appended. */
  lemma AccStep(value: Option<Expr>, xs: seq<FnArg>, i: nat, done: seq<FnArg>, args: seq<Expr>)
    requires i < |xs|
    ensures DelegateInput(value, xs[i]).Err? ==>
      InputsAcc(value, xs, i, done, args) == Err(DelegateInput(value, xs[i]).msg)
    ensures DelegateInput(value, xs[i]).Ok? ==>
      var one := DelegateInput(value, xs[i]).value;
      InputsAcc(value, xs, i, done, args) == InputsAcc(value, xs, i + 1, done + [one.0], args + [one.1])
  {
    assert xs[i..][1..] == xs[i + 1..];
    assert xs[i..][0] == xs[i];
    var one := DelegateInput(value, xs[i]);
    var rest := DelegateInputs(value, xs[i + 1..]);
    if one.Ok? && rest.Ok? {
      assert done + ([one.value.0] + rest.value.0) == (done + [one.value.0]) + rest.value.0;
      assert args + ([one.value.1] + rest.value.1) == (args + [one.value.1]) + rest.value.1;
    }
  }

  lemma AccEnd(value: Option<Expr>, xs: seq<FnArg>, done: seq<FnArg>, args: seq<Expr>)
    requires |done| == |xs|
    ensures InputsAcc(value, xs, |xs|, done[..|xs|], args) == Ok((done, args))
  {
    assert xs[|xs|..] == [];
    assert done[..|xs|] + [] == done;
    assert args + [] == args;
  }

  /** `Generator(Arg)` as a set of hooks for the impl completer. */
  function DelegateGenerator(arg: DelegateArg): ImplGenerator {
    ImplGenerator((ctx, c) => GenConst(arg, ctx, c), (ctx, f) => GenFn(arg, ctx, f), (ctx, t) => GenType(arg, ctx, t))
  }

  // ------------------------------------------------------------ properties

  /**
   * Inputs are mapped one to one, in order: each argument is the one its
   * input passes, and the mapping fails exactly at an input that needs the
   * missing value.
   */
  lemma {:induction false} DelegateInputsShape(value: Option<Expr>, inputs: seq<FnArg>)
    ensures DelegateInputs(value, inputs).Ok? <==> forall i :: 0 <= i < |inputs| ==> DelegateInput(value, inputs[i]).Ok?
    ensures DelegateInputs(value, inputs).Ok? ==>
      var (ins, args) := DelegateInputs(value, inputs).value;
      |ins| == |inputs| && |args| == |inputs|
      && forall i :: 0 <= i < |inputs| ==> (ins[i], args[i]) == DelegateInput(value, inputs[i]).value
    decreases |inputs|
  {
    if inputs != [] {
      DelegateInputsShape(value, inputs[1..]);
      assert forall i :: 1 <= i < |inputs| ==> inputs[1..][i - 1] == inputs[i];
    }
  }

  /** What each input passes on, case by case. */
  lemma DelegateInputCases(value: Option<Expr>, input: FnArg)
    ensures input.Receiver? ==>
      (DelegateInput(value, input).Ok? <==> value.Some?)
      && (value.Some? ==>
            DelegateInput(value, input).value == (input, EPrefixed(CfgAttrs(input.attrs), input.reference, input.mutable, value.value)))
    ensures input.Typed? && input.pat.PIdent? && input.pat.name == "self" ==>
      (DelegateInput(value, input).Ok? <==> value.Some?)
      && (value.Some? ==> DelegateInput(value, input).value.1 == EPrefixed(CfgAttrs(input.attrs), false, false, value.value))
    ensures input.Typed? && input.pat.PIdent? && input.pat.name != "self" ==>
      DelegateInput(value, input)
        == Ok((input.(pat := PIdent(false, input.pat.name)),
               EPrefixed(CfgAttrs(input.attrs), false, false, EPat(PIdent(false, input.pat.name)))))
    ensures input.Typed? && !input.pat.PIdent? ==>
      DelegateInput(value, input) == Ok((input, EPrefixed(CfgAttrs(input.attrs), false, false, EPat(input.pat))))
  {
  }

  /**
   * A generated function keeps the name, generics, output and number of
   * inputs of the trait function; its attributes are the `cfg` ones and
   * then exactly one `#[inline]`; its body is one call of
   * `<D as Trait>::name` with one argument per input, in order.
   */
  lemma GenFnShape(arg: DelegateArg, ctx: ImplContext, item: TraitFn)
    ensures GenFn(arg, ctx, item).Ok? <==>
      ctx.implBlock.trait_.Some? && forall i :: 0 <= i < |item.sig.inputs| ==> DelegateInput(arg.value, item.sig.inputs[i]).Ok?
    ensures GenFn(arg, ctx, item).Ok? ==>
      var f := GenFn(arg, ctx, item).value;
      f.sig.ident == item.sig.ident && f.sig.generics == item.sig.generics && f.sig.output == item.sig.output
      && |f.sig.inputs| == |item.sig.inputs|
      && f.attrs == CfgAttrs(item.attrs) + [InlineAttr]
      && |f.body| == 1 && f.body[0].expr.ECall?
      && f.body[0].expr.func == EQualified(arg.ty, ctx.implBlock.trait_.value.path, item.sig.ident)
      && |f.body[0].expr.args| == |item.sig.inputs|
      && forall i :: 0 <= i < |item.sig.inputs| ==>
           f.body[0].expr.args[i] == DelegateInput(arg.value, item.sig.inputs[i]).value.1
           && f.sig.inputs[i] == DelegateInput(arg.value, item.sig.inputs[i]).value.0
  {
    DelegateInputsShape(arg.value, item.sig.inputs);
  }

  /** A receiver without a delegate value fails the whole function. */
  lemma ReceiverNeedsValue(ty: Type, ctx: ImplContext, item: TraitFn)
    requires ctx.implBlock.trait_.Some?
    requires HasReceiver(item.sig)
    ensures GenFn(DelegateArg(ty, None), ctx, item) == Err(NoValueMsg)
  {
    var inputs := item.sig.inputs;
    assert DelegateInput(None, inputs[0]) == Err(NoValueMsg);
  }

  /** `mut x: T` in the trait becomes `x: T` in the generated signature and is passed as `x`. */
  lemma MutStripped(arg: DelegateArg, ctx: ImplContext, item: TraitFn, i: nat)
    requires GenFn(arg, ctx, item).Ok?
    requires i < |item.sig.inputs| && item.sig.inputs[i].Typed?
    requires item.sig.inputs[i].pat.PIdent? && item.sig.inputs[i].pat.name != "self"
    ensures var f := GenFn(arg, ctx, item).value;
      i < |f.sig.inputs| && f.sig.inputs[i] == item.sig.inputs[i].(pat := PIdent(false, item.sig.inputs[i].pat.name))
      && |f.body| == 1 && f.body[0].expr.ECall? && i < |f.body[0].expr.args|
      && f.body[0].expr.args[i] == EPrefixed(CfgAttrs(item.sig.inputs[i].attrs), false, false, EPat(PIdent(false, item.sig.inputs[i].pat.name)))
  {
    GenFnShape(arg, ctx, item);
  }
}
