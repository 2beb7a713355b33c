/**
 * The `derive_delegate` filler (codegen/src/derive_fillers/derive_delegate.rs):
 * implements each trait function on a struct or enum by calling the same
 * function on every field and aggregating the results. A function's
 * `#[portrait(derive_delegate(...))]` attribute chooses how: `reduce = f`
 * folds the results with `f` (from `reduce_base = e` when given), and `try`
 * (or `try = ctor`) applies `?` to every call and wraps the body in `Ok` (or
 * `ctor`). Without `reduce`, a `()` return runs the calls as statements and a
 * `Self` return builds a new value from them.
 */
module DeriveDelegate {
  import opened Syntax
  import opened Util
  import opened NoArgsParser
  import opened DeriveCompleter

  const GroupName := "derive_delegate"

  const ConstMsg := "derive_delegate does not support const items"
  const TypeMsg := "derive_delegate does not support type items"
  const UnionMsg := "derive_delegate does not support unions"
  const WithTryMsg := "`with_try` must be used with a type in the form `R<T, ...>` where `R` is a Try type e.g. `Result`/`Option`."
  const NoReceiverMsg := "Cannot derive enum delegates for associated functions without receivers"
  const EmptyReduceMsg := "derive_delegate(reduce) is not applicable for empty structs"
  const AggregateMsg := "Cannot determine how to aggregate the return value. Supported return types are `()`, `Self` or arbitrary types with the `#[portrait(derive_delegate(reduce = _))]` attribute, or `Option<>`/`Result<>` wrapping them with `#[portrait(derive_delegate(with_try))]`."
  const SelfParamMsg := "Non-receiver Self parameters are only supported for structs"
  const PatternMsg := "Cannot derive delegate for traits with non-identifier-pattern parameters"
  const UnknownKeyMsg := "expected one of: `reduce`, `reduce_base`, `try`"

  // --------------------------------------------------------------- FnArgs

  /** The per-function options: `reduce`, `reduce_base` and `try`, each settable once. */
  datatype FnArgs = FnArgs(reduce: Once<Expr>, reduceBase: Once<Expr>, withTry: Once<Option<Expr>>)

  const NoFnArgs: FnArgs := FnArgs(Unset(), Unset(), Unset())

  predicate IsExprTok(t: TokenTree) { t.kind.NodeTok? && t.kind.node.NodeExpr? }

  /** `key = expr`: the expression, or the error at the first token that is missing. */
  function KeyValue(ts: seq<TokenTree>): (r: Result<Expr>)
    ensures r.Ok? ==> |ts| >= 3 && IsExprTok(ts[2]) && r.value == ts[2].kind.node.expr
  {
    if |ts| < 2 || !IsPunct(ts[1], '=') then Err(ExpectedEq)
    else if |ts| < 3 || !IsExprTok(ts[2]) then Err(ExpectedExpr)
    else Ok(ts[2].kind.node.expr)
  }

  /** `FnArgs::parse_once`: one option, returning the arguments and the tokens read. */
  function ParseFnArg(args: FnArgs, ts: seq<TokenTree>): (r: Result<(FnArgs, nat)>)
    ensures r.Ok? ==> 1 <= r.value.1 <= |ts| && ts[0].kind.IdentTok?
    // each key sets its own slot and nothing else, and fails when that slot was already set
    ensures |ts| > 0 && IsWord(ts[0], "reduce") && KeyValue(ts).Ok? ==>
      (r.Ok? <==> args.reduce.TryGet().None?)
      && (r.Ok? ==> r.value.0.reduce.TryGet() == Some(KeyValue(ts).value) && r.value.0.(reduce := args.reduce) == args)
    ensures |ts| > 0 && IsWord(ts[0], "reduce_base") && KeyValue(ts).Ok? ==>
      (r.Ok? <==> args.reduceBase.TryGet().None?)
      && (r.Ok? ==> r.value.0.reduceBase.TryGet() == Some(KeyValue(ts).value) && r.value.0.(reduceBase := args.reduceBase) == args)
    ensures |ts| > 0 && IsWord(ts[0], "try") && !(|ts| >= 2 && IsPunct(ts[1], '=')) ==>
      (r.Ok? <==> args.withTry.TryGet().None?)
      && (r.Ok? ==> r.value.0.withTry.TryGet() == Some(None) && r.value.0.(withTry := args.withTry) == args)
    ensures |ts| >= 2 && IsWord(ts[0], "try") && IsPunct(ts[1], '=') && KeyValue(ts).Ok? ==>
      (r.Ok? <==> args.withTry.TryGet().None?)
      && (r.Ok? ==> r.value.0.withTry.TryGet() == Some(Some(KeyValue(ts).value)) && r.value.0.(withTry := args.withTry) == args)
    // a key whose `= expr` is malformed fails with that error
    ensures |ts| > 0 && (IsWord(ts[0], "reduce") || IsWord(ts[0], "reduce_base")) && KeyValue(ts).Err? ==>
      r == Err(KeyValue(ts).msg)
  {
    if ts == [] || !ts[0].kind.IdentTok? then Err(UnknownKeyMsg)
    else if ts[0].kind.name == "reduce" then
      var e :- KeyValue(ts);
      var o :- SetOnce(args.reduce, e, ts[0].span);
      Ok((args.(reduce := o), 3))
    else if ts[0].kind.name == "reduce_base" then
      var e :- KeyValue(ts);
      var o :- SetOnce(args.reduceBase, e, ts[0].span);
      Ok((args.(reduceBase := o), 3))
    else if ts[0].kind.name == "try" then
      if |ts| >= 2 && IsPunct(ts[1], '=') then
        var e :- KeyValue(ts);
        var o :- SetOnce(args.withTry, Some(e), ts[0].span);
        Ok((args.(withTry := o), 3))
      else
        var o :- SetOnce(args.withTry, None, ts[0].span);
        Ok((args.(withTry := o), 1))
    else Err(UnknownKeyMsg)
  }

  /** The options of one trait function, read from its `portrait` attributes. */
  function FnArgsOf(item: TraitFn): Result<FnArgs> {
    GroupedAttrSpec(item.attrs, GroupName, NoFnArgs, ParseFnArg)
  }

  /** Each option may be given once; a second `reduce` is refused. */
  lemma ReduceTwice(e1: Expr, e2: Expr, s1: Span, s2: Span, more: seq<TokenTree>)
    ensures var ts := [TT(IdentTok("reduce"), s1), Punct('='), NodeToken(NodeExpr(e1))];
      var a := ParseFnArg(NoFnArgs, ts + more);
      a.Ok? && a.value.0.reduce.TryGet() == Some(e1) && a.value.1 == 3
      && ParseFnArg(a.value.0, [TT(IdentTok("reduce"), s2), Punct('='), NodeToken(NodeExpr(e2))]) == Err(TwiceMsg)
  {
  }

  /** Keys other than the three options are refused. */
  lemma UnknownKeyRefused(args: FnArgs, key: Ident, more: seq<TokenTree>)
    requires key != "reduce" && key != "reduce_base" && key != "try"
    ensures ParseFnArg(args, [Word(key)] + more) == Err(UnknownKeyMsg)
  {
  }

  // ------------------------------------------------------------ is_self_ty

  /** `is_self_ty`: `Self` under any number of references. */
  function IsSelfTy(ty: Type): bool {
    match ty
    case TPath(p) => p.IsIdent("Self")
    case TRef(_, elem) => IsSelfTy(elem)
    case _ => false
  }

  /** `Self` under references, one per entry of `muts` (`true` for `&mut`). */
  function Refs(muts: seq<bool>, ty: Type): Type
    decreases |muts|
  {
    if muts == [] then ty else TRef(muts[0], Refs(muts[1..], ty))
  }

  /** `is_self_ty` holds exactly for `Self`, `&Self`, `&mut &Self`, and so on. */
  lemma {:induction false} IsSelfTyIff(ty: Type)
    ensures IsSelfTy(ty) <==> exists muts :: ty == Refs(muts, SelfType)
  {
    if IsSelfTy(ty) {
      var muts := SelfRefs(ty);
      assert ty == Refs(muts, SelfType);
    }
    forall muts | ty == Refs(muts, SelfType) ensures IsSelfTy(ty) {
      RefsOfSelf(muts);
    }
  }

  /** The references around a `Self` type. */
  function SelfRefs(ty: Type): (muts: seq<bool>)
    requires IsSelfTy(ty)
    ensures ty == Refs(muts, SelfType)
  {
    match ty
    case TPath(_) => []
    case TRef(m, elem) =>
      var inner := SelfRefs(elem);
      assert ([m] + inner)[1..] == inner;
      [m] + inner
  }

  lemma {:induction false} RefsOfSelf(muts: seq<bool>)
    ensures IsSelfTy(Refs(muts, SelfType))
    decreases |muts|
  {
    if muts != [] {
      RefsOfSelf(muts[1..]);
    }
  }

  // --------------------------------------------------------- transform_arg

  /** `__portrait_self_{ord}`: the binding of the `ord`-th field. */
  function SelfVar(ord: nat): Ident {
    "__portrait_self_" + NatToString(ord)
  }

  const OtherVar := "__portrait_other"

  function PathExpr(name: Ident): Expr { EPath(SimplePath(name)) }

  /** `{ let ctor { member: __portrait_other, .. } = self; __portrait_other }` */
  function OtherField(ctorPath: Path, member: Member): Expr {
    EBlock([SLocal(PStruct(ctorPath, [FieldPat([], member, PIdent(false, OtherVar))], true), PathExpr("self")),
            SExpr(PathExpr(OtherVar), false)])
  }

  /**
   * `transform_arg`: what the delegated call of the `ord`-th field passes for
   * one parameter of the trait function.
   */
  function TransformArg(arg: FnArg, field: Field, ord: nat, ctorPath: Path, isRefutable: bool): Result<Expr> {
    match arg
    case Receiver(_, _, _) => Ok(PathExpr(SelfVar(ord)))
    case Typed(_, pat, ty) =>
      if IsSelfTy(ty) then
        if isRefutable then Err(SelfParamMsg)
        else Ok(OtherField(ctorPath, FieldMember(field, ord)))
      else if pat.PIdent? then Ok(PathExpr(pat.name))
      else Err(PatternMsg)
  }

  /**
   * The three translations: a receiver becomes the field's binding; a
   * `Self`-typed parameter becomes that field of `self` on structs and is
   * refused in enum arms; any other parameter must be a plain name and is
   * passed by that name.
   */
  lemma TransformArgCases(arg: FnArg, field: Field, ord: nat, ctorPath: Path, isRefutable: bool)
    ensures arg.Receiver? ==> TransformArg(arg, field, ord, ctorPath, isRefutable) == Ok(PathExpr(SelfVar(ord)))
    ensures arg.Typed? && IsSelfTy(arg.ty) ==>
      TransformArg(arg, field, ord, ctorPath, isRefutable)
        == if isRefutable then Err(SelfParamMsg) else Ok(OtherField(ctorPath, FieldMember(field, ord)))
    ensures arg.Typed? && !IsSelfTy(arg.ty) ==>
      (TransformArg(arg, field, ord, ctorPath, isRefutable).Ok? <==> arg.pat.PIdent?)
      && (arg.pat.PIdent? ==> TransformArg(arg, field, ord, ctorPath, isRefutable).value == PathExpr(arg.pat.name))
      && (!arg.pat.PIdent? ==> TransformArg(arg, field, ord, ctorPath, isRefutable) == Err(PatternMsg))
  {
  }

  /** Different fields are bound to different names. */
  lemma SelfVarInjective(a: nat, b: nat)
    ensures SelfVar(a) == SelfVar(b) ==> a == b
  {
    if SelfVar(a) == SelfVar(b) {
      var p := "__portrait_self_";
      assert NatToString(a) == SelfVar(a)[|p|..];
      assert NatToString(b) == SelfVar(b)[|p|..];
      NatToStringInjective(a, b);
    }
  }

  // -------------------------------------------------- transform_arg_fields

  /** The fields with their positions. */
  function Indexed(fields: seq<Field>): (r: seq<(nat, Field)>)
    ensures |r| == |fields| && forall i :: 0 <= i < |fields| ==> r[i] == (i, fields[i])
  {
    seq(|fields|, i requires 0 <= i < |fields| => (i, fields[i]))
  }

  /** `Trait::method`: the trait path with the function's name pushed. */
  function MethodPath(traitPath: Path, item: TraitFn): Path {
    traitPath.Push(Segment(item.sig.ident, PathNone))
  }

  /** The delegated call for one field: `Trait::method(args...)`, with `?` under `try`. */
  function FieldCall(item: TraitFn, fnArgs: FnArgs, traitPath: Path, field: Field, ord: nat, ctorPath: Path, isRefutable: bool): Result<Expr> {
    var args :- CollectResults(item.sig.inputs, (a: FnArg) => TransformArg(a, field, ord, ctorPath, isRefutable));
    var call := ECall(EPath(MethodPath(traitPath, item)), args);
    Ok(if fnArgs.withTry.TryGet().Some? then ETry(call) else call)
  }

  /** `transform_arg_fields`: one delegated call per field, in field order. */
  function TransformArgFields(item: TraitFn, fnArgs: FnArgs, traitPath: Path, fields: seq<Field>, ctorPath: Path, isRefutable: bool): Result<seq<Expr>> {
    CollectResults(Indexed(fields), (p: (nat, Field)) => FieldCall(item, fnArgs, traitPath, p.1, p.0, ctorPath, isRefutable))
  }

  /**
   * Each field's call names the trait's function and passes one translated
   * argument per parameter, in order; under `try` it carries `?`.
   */
  lemma FieldCallShape(item: TraitFn, fnArgs: FnArgs, traitPath: Path, field: Field, ord: nat, ctorPath: Path, isRefutable: bool)
    ensures var c := FieldCall(item, fnArgs, traitPath, field, ord, ctorPath, isRefutable);
      c.Ok? <==> forall i :: 0 <= i < |item.sig.inputs| ==> TransformArg(item.sig.inputs[i], field, ord, ctorPath, isRefutable).Ok?
    ensures var c := FieldCall(item, fnArgs, traitPath, field, ord, ctorPath, isRefutable);
      c.Ok? ==>
        var call := if fnArgs.withTry.TryGet().Some? then c.value.inner else c.value;
        (fnArgs.withTry.TryGet().Some? <==> c.value.ETry?)
        && call.ECall? && call.func == EPath(MethodPath(traitPath, item))
        && |call.args| == |item.sig.inputs|
        && forall i :: 0 <= i < |item.sig.inputs| ==>
          call.args[i] == TransformArg(item.sig.inputs[i], field, ord, ctorPath, isRefutable).value
  {
    CollectResultsShape(item.sig.inputs, (a: FnArg) => TransformArg(a, field, ord, ctorPath, isRefutable));
  }

  /** One call per field, in order, or the first field's error. */
  lemma TransformArgFieldsShape(item: TraitFn, fnArgs: FnArgs, traitPath: Path, fields: seq<Field>, ctorPath: Path, isRefutable: bool)
    ensures var r := TransformArgFields(item, fnArgs, traitPath, fields, ctorPath, isRefutable);
      (r.Ok? <==> forall i :: 0 <= i < |fields| ==> FieldCall(item, fnArgs, traitPath, fields[i], i, ctorPath, isRefutable).Ok?)
      && (r.Ok? ==>
        |r.value| == |fields|
        && forall i :: 0 <= i < |fields| ==> r.value[i] == FieldCall(item, fnArgs, traitPath, fields[i], i, ctorPath, isRefutable).value)
  {
    CollectResultsShape(Indexed(fields), (p: (nat, Field)) => FieldCall(item, fnArgs, traitPath, p.1, p.0, ctorPath, isRefutable));
  }

  // ------------------------------------------------------ transform_return

  /** `(f)((f)(base, e1), e2)…`: the left fold of the calls with the reducer. */
  function Fold(f: Expr, base: Expr, xs: seq<Expr>): Expr
    decreases |xs|
  {
    if xs == [] then base else ECall(f, [Fold(f, base, xs[..|xs| - 1]), xs[|xs| - 1]])
  }

  /** Takes a left fold of `n` calls apart again: its start and the calls, in order. */
  function Unfold(f: Expr, e: Expr, n: nat): Option<(Expr, seq<Expr>)>
    decreases n
  {
    if n == 0 then Some((e, []))
    else if e.ECall? && e.func == f && |e.args| == 2 then
      match Unfold(f, e.args[0], n - 1)
      case None => None
      case Some(p) => Some((p.0, p.1 + [e.args[1]]))
    else None
  }

  /** The fold keeps its start and every call, in field order. */
  lemma {:induction false} FoldUnfold(f: Expr, base: Expr, xs: seq<Expr>)
    ensures Unfold(f, Fold(f, base, xs), |xs|) == Some((base, xs))
    decreases |xs|
  {
    if xs != [] {
      FoldUnfold(f, base, xs[..|xs| - 1]);
      assert xs[..|xs| - 1] + [xs[|xs| - 1]] == xs;
    }
  }

  /** The `reduce` loop: the running value starts at `base` and each call is folded into it. */
  method ReduceCalls(f: Expr, base: Expr, xs: seq<Expr>) returns (stack: Expr)
    ensures stack == Fold(f, base, xs)
  {
    stack := base;
    for i := 0 to |xs|
      invariant stack == Fold(f, base, xs[..i])
    {
      assert xs[..i + 1][..i] == xs[..i];
      stack := ECall(f, [stack, xs[i]]);
    }
    assert xs[..|xs|] == xs;
  }

  /** The `reduce` aggregation, from `reduce_base` or else from the first call. */
  function Reduced(fnArgs: FnArgs, exprs: seq<Expr>): Result<Expr>
    requires fnArgs.reduce.TryGet().Some?
  {
    var f := fnArgs.reduce.TryGet().value;
    match fnArgs.reduceBase.TryGet()
    case Some(base) => Ok(Fold(f, base, exprs))
    case None =>
      if exprs == [] then Err(EmptyReduceMsg) else Ok(Fold(f, exprs[0], exprs[1..]))
  }

  predicate IsUnit(ty: Type) { ty.TTuple? && ty.elems == [] }

  predicate IsSelfPath(ty: Type) { ty.TPath? && ty.path.IsIdent("Self") }

  /** The struct expression that a `Self` return builds: one field value per field. */
  function SelfStruct(ctorPath: Path, fields: seq<Field>, exprs: seq<Expr>): Expr
    requires |exprs| == |fields|
  {
    EStruct(ctorPath, seq(|fields|, i requires 0 <= i < |fields| => FieldValue(CfgAttrs(fields[i].attrs), FieldMember(fields[i], i), exprs[i])))
  }

  /**
   * `transform_return`: the body for one set of fields. A single field's
   * call is the body; otherwise `reduce`, then a `()` return, then a `Self`
   * return decide how the calls are combined, in that order.
   */
  function TransformReturn(item: TraitFn, fnArgs: FnArgs, traitPath: Path, outputTy: Type, fields: seq<Field>,
                           ctorPath: Path, isRefutable: bool): Result<seq<Stmt>> {
    var exprs :- TransformArgFields(item, fnArgs, traitPath, fields, ctorPath, isRefutable);
    TransformArgFieldsShape(item, fnArgs, traitPath, fields, ctorPath, isRefutable);
    if |exprs| == 1 then Ok([SExpr(exprs[0], false)])
    else if fnArgs.reduce.TryGet().Some? then
      var e :- Reduced(fnArgs, exprs);
      Ok([SExpr(e, false)])
    else if IsUnit(outputTy) then Ok(seq(|exprs|, i requires 0 <= i < |exprs| => SExpr(exprs[i], true)))
    else if IsSelfPath(outputTy) then Ok([SExpr(SelfStruct(ctorPath, fields, exprs), false)])
    else Err(AggregateMsg)
  }

  /** With exactly one field, the body is that field's call, whatever the options and return type. */
  lemma SingleField(item: TraitFn, fnArgs: FnArgs, traitPath: Path, outputTy: Type, field: Field, ctorPath: Path, isRefutable: bool)
    ensures var c := FieldCall(item, fnArgs, traitPath, field, 0, ctorPath, isRefutable);
      TransformReturn(item, fnArgs, traitPath, outputTy, [field], ctorPath, isRefutable)
        == if c.Ok? then Ok([SExpr(c.value, false)]) else Err(c.msg)
  {
    TransformArgFieldsShape(item, fnArgs, traitPath, [field], ctorPath, isRefutable);
    var r := TransformArgFields(item, fnArgs, traitPath, [field], ctorPath, isRefutable);
    var f := (p: (nat, Field)) => FieldCall(item, fnArgs, traitPath, p.1, p.0, ctorPath, isRefutable);
    assert Indexed([field]) == [(0, field)];
    assert Indexed([field])[1..] == [];
  }

  /**
   * Any other number of fields: `reduce` folds the calls in field order
   * (from `reduce_base`, else from the first call, and no fields and no
   * base is an error); otherwise a `()` return runs every call as a
   * statement, in field order; otherwise a `Self` return builds one value
   * with one field per field; otherwise the return type is refused.
   */
  lemma Aggregation(item: TraitFn, fnArgs: FnArgs, traitPath: Path, outputTy: Type, fields: seq<Field>, ctorPath: Path, isRefutable: bool)
    requires |fields| != 1
    requires TransformArgFields(item, fnArgs, traitPath, fields, ctorPath, isRefutable).Ok?
    ensures var calls := TransformArgFields(item, fnArgs, traitPath, fields, ctorPath, isRefutable).value;
      var r := TransformReturn(item, fnArgs, traitPath, outputTy, fields, ctorPath, isRefutable);
      var reduce := fnArgs.reduce.TryGet();
      var base := fnArgs.reduceBase.TryGet();
      |calls| == |fields|
      && (reduce.Some? && base.Some? ==> r == Ok([SExpr(Fold(reduce.value, base.value, calls), false)]))
      && (reduce.Some? && base.None? && fields != [] ==> r == Ok([SExpr(Fold(reduce.value, calls[0], calls[1..]), false)]))
      && (reduce.Some? && base.None? && fields == [] ==> r == Err(EmptyReduceMsg))
      && (reduce.None? && IsUnit(outputTy) ==>
            r.Ok? && |r.value| == |fields|
            && forall i :: 0 <= i < |fields| ==> r.value[i] == SExpr(calls[i], true))
      && (reduce.None? && !IsUnit(outputTy) && IsSelfPath(outputTy) ==>
            r.Ok? && |r.value| == 1 && r.value[0].SExpr? && r.value[0].expr.EStruct?
            && r.value[0].expr.path == ctorPath && |r.value[0].expr.fields| == |fields|
            && forall i :: 0 <= i < |fields| ==>
              r.value[0].expr.fields[i].member == FieldMember(fields[i], i)
              && r.value[0].expr.fields[i].expr == calls[i])
      && (reduce.None? && !IsUnit(outputTy) && !IsSelfPath(outputTy) ==> r == Err(AggregateMsg))
  {
    TransformArgFieldsShape(item, fnArgs, traitPath, fields, ctorPath, isRefutable);
  }

  /** Positional fields are addressed by index, named ones by name: no two fields share a key. */
  lemma FieldMembersDistinct(fields: seq<Field>, i: nat, j: nat)
    requires i < j < |fields|
    requires forall a, b :: 0 <= a < b < |fields| && fields[a].ident.Some? && fields[b].ident.Some? ==> fields[a].ident != fields[b].ident
    ensures FieldMember(fields[i], i) != FieldMember(fields[j], j)
  {
  }

  // ------------------------------------------------- transform_struct/enum

  /** The patterns binding every field to `__portrait_self_{ord}`. */
  function FieldPats(fields: seq<Field>): (r: seq<FieldPat>)
    ensures |r| == |fields|
    ensures forall i :: 0 <= i < |fields| ==>
      r[i].member == FieldMember(fields[i], i) && r[i].pat == PPath(SimplePath(SelfVar(i)))
  {
    seq(|fields|, i requires 0 <= i < |fields| => FieldPat(CfgAttrs(fields[i].attrs), FieldMember(fields[i], i), PPath(SimplePath(SelfVar(i)))))
  }

  const SelfPath: Path := SimplePath("Self")

  /** `Self::Variant` */
  function VariantPath(v: Variant): Path {
    SelfPath.Push(Segment(v.ident, PathNone))
  }

  /**
   * `transform_struct`: with a receiver, `self` is first destructured into
   * one binding per field; then the aggregated calls follow.
   */
  function TransformStruct(item: TraitFn, fnArgs: FnArgs, traitPath: Path, outputTy: Type, fields: seq<Field>): Result<seq<Stmt>> {
    var prefix := if HasReceiver(item.sig) then [SLocal(PStruct(SelfPath, FieldPats(fields), false), PathExpr("self"))] else [];
    var rest :- TransformReturn(item, fnArgs, traitPath, outputTy, fields, SelfPath, false);
    Ok(prefix + rest)
  }

  /** The match arm of one variant: its fields bound by position, the body aggregating their calls. */
  function VariantArm(item: TraitFn, fnArgs: FnArgs, traitPath: Path, outputTy: Type, v: Variant): Result<Arm> {
    var body :- TransformReturn(item, fnArgs, traitPath, outputTy, v.fields, VariantPath(v), true);
    Ok(Arm(CfgAttrs(v.attrs), PStruct(VariantPath(v), FieldPats(v.fields), true), EBlock(body)))
  }

  /** The arms of the variants, in declaration order, or the first variant's error. */
  function EnumArms(item: TraitFn, fnArgs: FnArgs, traitPath: Path, outputTy: Type, variants: seq<Variant>): Result<seq<Arm>>
    decreases |variants|
  {
    if variants == [] then Ok([])
    else
      var init :- EnumArms(item, fnArgs, traitPath, outputTy, variants[..|variants| - 1]);
      var arm :- VariantArm(item, fnArgs, traitPath, outputTy, variants[|variants| - 1]);
      Ok(init + [arm])
  }

  /** The single statement of an enum body: `match self { arms }`. */
  function MatchSelf(arms: seq<Arm>): seq<Stmt> {
    [SExpr(EMatch(PathExpr("self"), arms), false)]
  }

  /** `transform_enum`: refuses functions without a receiver, then matches on `self`. */
  function TransformEnumSpec(item: TraitFn, fnArgs: FnArgs, traitPath: Path, outputTy: Type, variants: seq<Variant>): Result<seq<Stmt>> {
    if !HasReceiver(item.sig) then Err(NoReceiverMsg)
    else
      var arms :- EnumArms(item, fnArgs, traitPath, outputTy, variants);
      Ok(MatchSelf(arms))
  }

  /** `transform_enum`, arm by arm. */
  method TransformEnum(item: TraitFn, fnArgs: FnArgs, traitPath: Path, outputTy: Type, variants: seq<Variant>) returns (r: Result<seq<Stmt>>)
    ensures r == TransformEnumSpec(item, fnArgs, traitPath, outputTy, variants)
  {
    if !HasReceiver(item.sig) {
      return Err(NoReceiverMsg);
    }
    var arms: seq<Arm> := [];
    for i := 0 to |variants|
      invariant EnumArms(item, fnArgs, traitPath, outputTy, variants[..i]) == Ok(arms)
    {
      assert variants[..i + 1][..i] == variants[..i];
      var arm := VariantArm(item, fnArgs, traitPath, outputTy, variants[i]);
      if arm.Err? {
        EnumArmsFailure(item, fnArgs, traitPath, outputTy, variants, i + 1);
        return Err(arm.msg);
      }
      arms := arms + [arm.value];
    }
    assert variants[..|variants|] == variants;
    return Ok(MatchSelf(arms));
  }

  /** Once a variant fails, the arms fail with its error. */
  lemma {:induction false} EnumArmsFailure(item: TraitFn, fnArgs: FnArgs, traitPath: Path, outputTy: Type, variants: seq<Variant>, i: nat)
    requires 0 < i <= |variants| && EnumArms(item, fnArgs, traitPath, outputTy, variants[..i - 1]).Ok?
    requires VariantArm(item, fnArgs, traitPath, outputTy, variants[i - 1]).Err?
    ensures EnumArms(item, fnArgs, traitPath, outputTy, variants) == Err(VariantArm(item, fnArgs, traitPath, outputTy, variants[i - 1]).msg)
    decreases |variants|
  {
    if i == |variants| {
      assert variants[..i - 1] == variants[..|variants| - 1];
    } else {
      var init := variants[..|variants| - 1];
      assert init[..i - 1] == variants[..i - 1] && init[i - 1] == variants[i - 1];
      EnumArmsFailure(item, fnArgs, traitPath, outputTy, init, i);
    }
  }

  /**
   * One arm per variant, in declaration order, each matching
   * `Self::Variant { member: __portrait_self_{ord}, .. }`.
   */
  lemma {:induction false} EnumArmsShape(item: TraitFn, fnArgs: FnArgs, traitPath: Path, outputTy: Type, variants: seq<Variant>)
    ensures var r := EnumArms(item, fnArgs, traitPath, outputTy, variants);
      r.Ok? ==>
        |r.value| == |variants|
        && forall i :: 0 <= i < |variants| ==>
          VariantArm(item, fnArgs, traitPath, outputTy, variants[i]).Ok?
          && r.value[i] == VariantArm(item, fnArgs, traitPath, outputTy, variants[i]).value
          && r.value[i].pat == PStruct(VariantPath(variants[i]), FieldPats(variants[i].fields), true)
    decreases |variants|
  {
    var r := EnumArms(item, fnArgs, traitPath, outputTy, variants);
    if variants != [] && r.Ok? {
      var init := variants[..|variants| - 1];
      EnumArmsShape(item, fnArgs, traitPath, outputTy, init);
      var ri := EnumArms(item, fnArgs, traitPath, outputTy, init);
      var last := VariantArm(item, fnArgs, traitPath, outputTy, variants[|variants| - 1]);
      assert ri.Ok? && last.Ok?;
      assert r.value == ri.value + [last.value];
      forall i | 0 <= i < |variants|
        ensures VariantArm(item, fnArgs, traitPath, outputTy, variants[i]).Ok?
        ensures r.value[i] == VariantArm(item, fnArgs, traitPath, outputTy, variants[i]).value
      {
        if i < |init| {
          assert init[i] == variants[i];
          assert r.value[i] == ri.value[i];
        } else {
          assert r.value[i] == last.value;
        }
      }
    }
  }

  /** In an enum, a `Self`-typed parameter other than the receiver is refused. */
  lemma EnumRefusesSelfParam(attrs: seq<Attr>, pat: Pat, ty: Type, field: Field, ord: nat, v: Variant)
    requires IsSelfTy(ty)
    ensures TransformArg(Typed(attrs, pat, ty), field, ord, VariantPath(v), true) == Err(SelfParamMsg)
  {
  }

  // -------------------------------------------------------------- generate

  /**
   * The type the calls are aggregated to: the declared return type (`()`
   * when there is none), or under `try` the first type argument of its last
   * path segment.
   */
  function OutputTy(output: Option<Type>, withTry: bool): (r: Result<Type>)
    ensures output.None? ==> r == Ok(UnitType)
    ensures output.Some? && !withTry ==> r == Ok(output.value)
  {
    match output
    case None => Ok(UnitType)
    case Some(ty) =>
      if !withTry then Ok(ty)
      else if !ty.TPath? then Err(WithTryMsg)
      else
        var args := ty.path.Last().args;
        if !args.AngleBracketed? || args.generic == [] || !args.generic[0].ArgType? then Err(WithTryMsg)
        else Ok(args.generic[0].ty)
  }

  /** Under `try`, `Result<T, E>` aggregates to `T`, and a non-generic return type is refused. */
  lemma TryPayload(traitPath: Path, t: Type, rest: seq<GenericArgument>, plain: Path)
    requires plain.Last().args == PathNone
    ensures OutputTy(Some(TPath(traitPath.WithLast(Segment("Result", AngleBracketed([ArgType(t)] + rest))))), true) == Ok(t)
    ensures OutputTy(Some(TPath(plain)), true) == Err(WithTryMsg)
  {
  }

  /** The body, wrapped as `ctor({ stmts })` when `try` is set (`Ok` by default). */
  function WrapTry(fnArgs: FnArgs, stmts: seq<Stmt>): seq<Stmt> {
    match fnArgs.withTry.TryGet()
    case None => stmts
    case Some(ctor) => [SExpr(ECall(ctor.GetOr(PathExpr("Ok")), [EBlock(stmts)]), false)]
  }

  /** `generate_fn`: the function's options, its aggregation type, then the body for the input's shape. */
  function GenerateFn(ctx: DeriveContext, item: TraitFn): Result<ImplFn> {
    var fnArgs :- FnArgsOf(item);
    var outputTy :- OutputTy(item.sig.output, fnArgs.withTry.TryGet().Some?);
    var stmts :- match ctx.input.data
      case DStruct(fields) => TransformStruct(item, fnArgs, ctx.traitPath, outputTy, fields)
      case DEnum(variants) => TransformEnumSpec(item, fnArgs, ctx.traitPath, outputTy, variants)
      case DUnion(_) => Err(UnionMsg);
    Ok(ImplFn(CfgAttrs(item.attrs), item.sig, WrapTry(fnArgs, stmts)))
  }

  /**
   * A generated function keeps the trait function's signature and its
   * `cfg` attributes; under `try` its body is one call of the constructor
   * on the block of statements; unions are refused.
   */
  lemma GenerateFnShape(ctx: DeriveContext, item: TraitFn)
    ensures ctx.input.data.DUnion? && FnArgsOf(item).Ok?
        && OutputTy(item.sig.output, FnArgsOf(item).value.withTry.TryGet().Some?).Ok?
        ==> GenerateFn(ctx, item) == Err(UnionMsg)
    ensures GenerateFn(ctx, item).Ok? ==>
      GenerateFn(ctx, item).value.sig == item.sig
      && GenerateFn(ctx, item).value.attrs == CfgAttrs(item.attrs)
      && (FnArgsOf(item).value.withTry.TryGet().Some? ==>
            |GenerateFn(ctx, item).value.body| == 1
            && GenerateFn(ctx, item).value.body[0].expr.ECall?
            && GenerateFn(ctx, item).value.body[0].expr.func
               == FnArgsOf(item).value.withTry.TryGet().value.GetOr(PathExpr("Ok")))
  {
  }

  function GenConst(ctx: DeriveContext, item: TraitConst): Result<ImplConst> {
    Err(ConstMsg)
  }

  function GenType(ctx: DeriveContext, item: TraitType): Result<ImplType> {
    Err(TypeMsg)
  }

  // ------------------------------------------------------ extend_generics

  /** `FieldTy: Trait` for each field, in order. */
  function FieldBounds(traitPath: Path, fields: seq<Field>): (r: seq<WherePredicate>)
    ensures |r| == |fields| && forall i :: 0 <= i < |fields| ==> r[i] == WPBound(fields[i].ty, traitPath)
  {
    seq(|fields|, i requires 0 <= i < |fields| => WPBound(fields[i].ty, traitPath))
  }

  /** The bounds of every variant's fields, variant by variant. */
  function VariantBounds(traitPath: Path, variants: seq<Variant>): seq<WherePredicate>
    decreases |variants|
  {
    if variants == [] then []
    else VariantBounds(traitPath, variants[..|variants| - 1]) + FieldBounds(traitPath, variants[|variants| - 1].fields)
  }

  /** What `extend_generics` adds: one bound per field of a struct or of any variant; none for unions. */
  function DataBounds(traitPath: Path, data: Data): seq<WherePredicate> {
    match data
    case DStruct(fields) => FieldBounds(traitPath, fields)
    case DEnum(variants) => VariantBounds(traitPath, variants)
    case DUnion(_) => []
  }

  /** `extend_generics`: the nested loops pushing one bound per field onto the predicates. */
  method AddFieldBounds(traitPath: Path, data: Data, preds: seq<WherePredicate>) returns (out: seq<WherePredicate>)
    ensures out == preds + DataBounds(traitPath, data)
  {
    out := preds;
    match data {
      case DStruct(fields) =>
        for i := 0 to |fields|
          invariant out == preds + FieldBounds(traitPath, fields[..i])
        {
          assert FieldBounds(traitPath, fields[..i + 1]) == FieldBounds(traitPath, fields[..i]) + [WPBound(fields[i].ty, traitPath)];
          out := out + [WPBound(fields[i].ty, traitPath)];
        }
        assert fields[..|fields|] == fields;
      case DEnum(variants) =>
        for i := 0 to |variants|
          invariant out == preds + VariantBounds(traitPath, variants[..i])
        {
          assert variants[..i + 1][..i] == variants[..i];
          var fields := variants[i].fields;
          ghost var before := out;
          for j := 0 to |fields|
            invariant out == before + FieldBounds(traitPath, fields[..j])
          {
            assert FieldBounds(traitPath, fields[..j + 1]) == FieldBounds(traitPath, fields[..j]) + [WPBound(fields[j].ty, traitPath)];
            out := out + [WPBound(fields[j].ty, traitPath)];
          }
          assert fields[..|fields|] == fields;
        }
        assert variants[..|variants|] == variants;
      case DUnion(_) =>
    }
  }

  /** The number of fields over all variants. */
  function FieldCount(variants: seq<Variant>): nat
    decreases |variants|
  {
    if variants == [] then 0 else FieldCount(variants[..|variants| - 1]) + |variants[|variants| - 1].fields|
  }

  /** An enum gets one bound per field of every variant, each bounding a field's type by the trait. */
  lemma {:induction false} VariantBoundsCount(traitPath: Path, variants: seq<Variant>)
    ensures |VariantBounds(traitPath, variants)| == FieldCount(variants)
    ensures forall p :: p in VariantBounds(traitPath, variants) <==>
      exists v, f :: v in variants && f in v.fields && p == WPBound(f.ty, traitPath)
    decreases |variants|
  {
    if variants != [] {
      var init := variants[..|variants| - 1];
      var last := variants[|variants| - 1];
      VariantBoundsCount(traitPath, init);
      assert variants == init + [last];
      forall p | p in VariantBounds(traitPath, variants)
        ensures exists v, f :: v in variants && f in v.fields && p == WPBound(f.ty, traitPath)
      {
        if p in FieldBounds(traitPath, last.fields) {
          var i :| 0 <= i < |last.fields| && FieldBounds(traitPath, last.fields)[i] == p;
          assert last in variants && last.fields[i] in last.fields;
        }
      }
      forall v, f | v in variants && f in v.fields
        ensures WPBound(f.ty, traitPath) in VariantBounds(traitPath, variants)
      {
        if v == last {
          var i :| 0 <= i < |last.fields| && last.fields[i] == f;
          assert FieldBounds(traitPath, last.fields)[i] == WPBound(f.ty, traitPath);
        } else {
          assert v in init;
        }
      }
    }
  }

  function ExtendGenerics(ctx: DeriveContext, params: seq<GenericParam>, preds: seq<WherePredicate>): Result<(seq<GenericParam>, seq<WherePredicate>)> {
    Ok(([], DataBounds(ctx.traitPath, ctx.input.data)))
  }

  /** `Generator(NoArgs)`: the filler accepts no arguments. */
  const DelegateGenerator: DeriveGenerator := DeriveGenerator(GenConst, GenerateFn, GenType, ExtendGenerics, NoExtraAttrs)

  function NewGenerator(ts: seq<TokenTree>): (r: Result<DeriveGenerator>)
    ensures r.Ok? <==> ts == []
    ensures r.Ok? ==> r.value == DelegateGenerator
  {
    var _ :- ParseNoArgs(ts);
    Ok(DelegateGenerator)
  }

  /**
   * Deriving through this generator: a trait with a constant or a type
   * fails, and a successful impl is bounded by one `FieldTy: Trait`
   * predicate per field after the input's own predicates.
   */
  lemma DelegateDerive(traitPath: Path, traitItems: seq<TraitItem>, input: DeriveInput)
    ensures (exists i :: 0 <= i < |traitItems| && (traitItems[i].TIConst? || traitItems[i].TIType?))
      ==> DeriveSpec(traitPath, traitItems, input, DelegateGenerator).Err?
    ensures var r := DeriveSpec(traitPath, traitItems, input, DelegateGenerator);
      r.Ok? ==>
        WherePredicates(r.value.generics) == WherePredicates(input.generics) + DataBounds(traitPath, input.data)
        && r.value.generics.params == input.generics.params
  {
    var ctx := DeriveContext(traitPath, traitItems, input);
    DeriveFailsIff(traitPath, traitItems, input, DelegateGenerator);
    DeriveHeader(traitPath, traitItems, input, DelegateGenerator);
    MembersAreMembers(traitItems);
    if i :| 0 <= i < |traitItems| && (traitItems[i].TIConst? || traitItems[i].TIType?) {
      var m := Members(traitItems);
      assert traitItems[i] in m;
      var j :| 0 <= j < |m| && m[j] == traitItems[i];
      assert DeriveOne(DelegateGenerator, ctx, m[j]).value.Err?;
    }
    var r := DeriveSpec(traitPath, traitItems, input, DelegateGenerator);
    if r.Ok? {
      assert input.generics.params + [] == input.generics.params;
    }
  }
}
