/**
 * The `portrait::log` impl filler (codegen/src/impl_fillers/log.rs):
 * implements every missing function as one call of a logging macro,
 * `logger!(prefix, "name({:?}, {:?})", a, b)`, with one `{:?}` per
 * parameter other than the receiver.
 */
module Log {
  import opened Syntax
  import opened ImplCompleter

  const ExpectedPath := "expected path"
  const ExpectedType := "expected type"
  const ConstMsg := "portrait::log cannot implement associated constants automatically"

  // -------------------------------------------------------------- argument

  /**
   * `Arg`: the logger macro's path, the optional `-> Type` used for
   * associated types, and the prefix arguments after `,`; `trailing` says
   * whether the prefix ends with a comma.
   */
  datatype LogArg = LogArg(logger: Path, retTy: Option<Type>, prefix: seq<Expr>, trailing: bool)

  function AsExpr(t: TokenTree): Option<Expr> {
    if t.kind.NodeTok? && t.kind.node.NodeExpr? then Some(t.kind.node.expr) else None
  }

  function ExprToken(e: Expr): TokenTree { NodeToken(NodeExpr(e)) }

  /** The optional `-> Type`: the type and the number of tokens it takes. */
  function ParseRetTy(ts: seq<TokenTree>): (r: Result<(Option<Type>, nat)>)
    ensures r.Ok? ==> r.value.1 <= |ts| && (r.value.0.None? <==> r.value.1 == 0)
  {
    if |ts| >= 2 && IsPunct(ts[0], '-') && IsPunct(ts[1], '>') then
      if |ts| >= 3 && ts[2].kind.NodeTok? && ts[2].kind.node.NodeType? then Ok((Some(ts[2].kind.node.ty), 3))
      else Err(ExpectedType)
    else Ok((None, 0))
  }

  /**
   * `Arg::parse`: a path, an optional `-> Type`, then optionally `,` and
   * comma-separated expressions up to the end. Returns the tokens read.
   */
  function ParseLogArg(ts: seq<TokenTree>): (r: Result<(LogArg, nat)>)
    ensures r.Ok? ==> r.value.1 <= |ts|
  {
    if ts == [] || !(ts[0].kind.NodeTok? && ts[0].kind.node.NodePath?) then Err(ExpectedPath)
    else
      var (retTy, n) :- ParseRetTy(ts[1..]);
      var rest := ts[1 + n..];
      if rest != [] && IsPunct(rest[0], ',') then
        var (prefix, trailing) :- ParseTerminated(rest[1..], AsExpr, "an expression");
        Ok((LogArg(ts[0].kind.node.path, retTy, prefix, trailing), |ts|))
      else Ok((LogArg(ts[0].kind.node.path, retTy, [], false), 1 + n))
  }

  function PrintRetTy(retTy: Option<Type>): seq<TokenTree> {
    if retTy.Some? then [Punct('-'), Punct('>'), NodeToken(NodeType(retTy.value))] else []
  }

  function PrintPrefix(prefix: seq<Expr>, trailing: bool): seq<TokenTree> {
    if prefix != [] then [Punct(',')] + PrintTerminated(prefix, ExprToken, trailing) else []
  }

  function PrintLogArg(a: LogArg): seq<TokenTree> {
    [NodeToken(NodePath(a.logger))] + PrintRetTy(a.retTy) + PrintPrefix(a.prefix, a.trailing)
  }

  lemma RetTyRoundTrip(retTy: Option<Type>, more: seq<TokenTree>)
    requires more == [] || IsPunct(more[0], ',')
    ensures ParseRetTy(PrintRetTy(retTy) + more) == Ok((retTy, |PrintRetTy(retTy)|))
  {
    if retTy.None? {
      assert PrintRetTy(retTy) + more == more;
    }
  }

  /** A written argument (a trailing comma only after a non-empty prefix) is read back whole. */
  lemma LogArgRoundTrip(a: LogArg)
    requires a.trailing ==> a.prefix != []
    ensures ParseLogArg(PrintLogArg(a)) == Ok((a, |PrintLogArg(a)|))
  {
    var ts := PrintLogArg(a);
    var tail := PrintPrefix(a.prefix, a.trailing);
    var n := |PrintRetTy(a.retTy)|;
    assert ts[1..] == PrintRetTy(a.retTy) + tail;
    RetTyRoundTrip(a.retTy, tail);
    assert ts[1 + n..] == tail;
    if a.prefix != [] {
      ParseTerminatedRoundTrip(a.prefix, ExprToken, AsExpr, a.trailing, "an expression");
      assert tail[1..] == PrintTerminated(a.prefix, ExprToken, a.trailing);
    }
  }

  // ------------------------------------------------------ generator state

  /** `push_punct` when the prefix is non-empty and has no trailing comma. */
  function WithTrailingComma(a: LogArg): (r: LogArg)
    ensures r.logger == a.logger && r.retTy == a.retTy && r.prefix == a.prefix
    ensures r.trailing == (a.trailing || a.prefix != [])
  {
    if a.prefix == [] || a.trailing then a else a.(trailing := true)
  }

  /** Once the comma is added, further calls add nothing. */
  lemma TrailingCommaSettles(a: LogArg)
    ensures WithTrailingComma(WithTrailingComma(a)) == WithTrailingComma(a)
  {
  }

  // ------------------------------------------------------------ functions

  const CfgDisabledMsg := "(cfg disabled)"

  /** `::portrait::DummyDebug("(cfg disabled)")` */
  const Placeholder: Expr :=
    ECall(EPath(Path(true, Segment("portrait", PathNone), [Segment("DummyDebug", PathNone)])), [ELit(LitStr(CfgDisabledMsg))])

  /** `attr.parse_args::<TokenStream>()` on a `cfg` attribute. */
  function CfgArgs(a: Attr): (r: Result<seq<TokenTree>>)
    ensures r.Ok? <==> a.meta.MetaList?
    ensures r.Ok? ==> r.value == a.meta.tokens
  {
    match a.meta
    case MetaList(tokens) => Ok(tokens)
    case MetaPath => Err("expected attribute arguments in parentheses: #[cfg(...)]")
    case MetaNameValue(_) => Err("expected parentheses: #[cfg(...)]")
  }

  /**
   * The value logged for a typed parameter: its pattern, or, when the
   * parameter has `cfg` attributes, a block choosing between the pattern
   * and the placeholder by the same conditions.
   */
  function FmtArg(attrs: seq<Attr>, pat: Pat): Result<Expr> {
    var cfg := CfgAttrs(attrs);
    if cfg == [] then Ok(EPat(pat))
    else
      var cfgArgs :- CollectResults(cfg, CfgArgs);
      Ok(ECfgGuarded(cfgArgs, EPat(pat), Placeholder))
  }

  /** The logged values, one per typed parameter in order; receivers are skipped. */
  function FmtArgs(inputs: seq<FnArg>): Result<seq<Expr>>
    decreases |inputs|
  {
    if inputs == [] then Ok([])
    else if inputs[0].Receiver? then FmtArgs(inputs[1..])
    else
      var e :- FmtArg(inputs[0].attrs, inputs[0].pat);
      var rest :- FmtArgs(inputs[1..]);
      Ok([e] + rest)
  }

  /** `{:?}` repeated `n` times, separated by `, `. */
  function Placeholders(n: nat): string {
    if n == 0 then "" else if n == 1 then "{:?}" else "{:?}, " + Placeholders(n - 1)
  }

  /** `format!("{}({})", name, placeholders)` */
  function FmtString(name: Ident, n: nat): string {
    name + "(" + Placeholders(n) + ")"
  }

  /** `generate_fn` for a given prefix state: the trait signature, the `cfg` attributes and one logger call. */
  function LogFn(a: LogArg, item: TraitFn): Result<ImplFn> {
    var fmtArgs :- FmtArgs(item.sig.inputs);
    Ok(ImplFn(CfgAttrs(item.attrs), item.sig,
              [SExpr(EMacroCall(a.logger, a.prefix, a.trailing, FmtString(item.sig.ident, |fmtArgs|), fmtArgs), false)]))
  }

  /** `generate_type`: the `-> Type` of the argument, else `()`. */
  function LogType(a: LogArg, item: TraitType): (r: ImplType)
    ensures r.attrs == CfgAttrs(item.attrs) && r.ident == item.ident && r.generics == item.generics
    ensures a.retTy.Some? ==> r.ty == a.retTy.value
    ensures a.retTy.None? ==> r.ty == UnitType
  {
    ImplType(CfgAttrs(item.attrs), item.ident, item.generics, a.retTy.GetOr(UnitType))
  }

  /**
   * `Generator(Arg)`: the argument is generator state, since `generate_fn`
   * adds the comma after the prefix on its first call.
   */
  class LogGenerator {
    var arg: LogArg

    constructor(arg: LogArg)
      ensures this.arg == arg
    {
      this.arg := arg;
    }

    method GenerateConst(ctx: ImplContext, item: TraitConst) returns (r: Result<ImplConst>)
      ensures r == Err(ConstMsg)
    {
      return Err(ConstMsg);
    }

    /** Adds the comma after a non-empty prefix, then builds the logger call. */
    method GenerateFn(ctx: ImplContext, item: TraitFn) returns (r: Result<ImplFn>)
      modifies this
      ensures arg == WithTrailingComma(old(arg))
      ensures r == LogFn(arg, item)
    {
      if !(arg.prefix == [] || arg.trailing) {
        arg := arg.(trailing := true);
      }
      var fmtArgs :- CollectFmtArgs(item.sig.inputs);
      return Ok(ImplFn(CfgAttrs(item.attrs), item.sig,
                       [SExpr(EMacroCall(arg.logger, arg.prefix, arg.trailing, FmtString(item.sig.ident, |fmtArgs|), fmtArgs), false)]));
    }

    method GenerateType(ctx: ImplContext, item: TraitType) returns (r: Result<ImplType>)
      ensures r.Ok? && r.value.attrs == CfgAttrs(item.attrs)
      ensures r.value.ident == item.ident && r.value.generics == item.generics
      ensures r.value.ty == (if arg.retTy.Some? then arg.retTy.value else UnitType)
    {
      return Ok(LogType(arg, item));
    }
  }

  /** The logged values when the first `i` inputs gave `acc`. */
  function FmtAcc(inputs: seq<FnArg>, i: nat, acc: seq<Expr>): Result<seq<Expr>>
    requires i <= |inputs|
  {
    var rest :- FmtArgs(inputs[i..]);
    Ok(acc + rest)
  }

  lemma FmtStart(inputs: seq<FnArg>)
    ensures FmtArgs(inputs) == FmtAcc(inputs, 0, [])
  {
    assert inputs[0..] == inputs;
    var all := FmtArgs(inputs);
    if all.Ok? {
      assert [] + all.value == all.value;
    }
  }

  /** One more input walked: a receiver adds nothing; a typed parameter fails there or adds its value. */
  lemma FmtStep(inputs: seq<FnArg>, i: nat, acc: seq<Expr>)
    requires i < |inputs|
    ensures inputs[i].Receiver? ==> FmtAcc(inputs, i, acc) == FmtAcc(inputs, i + 1, acc)
    ensures inputs[i].Typed? && FmtArg(inputs[i].attrs, inputs[i].pat).Err? ==>
      FmtAcc(inputs, i, acc) == Err(FmtArg(inputs[i].attrs, inputs[i].pat).msg)
    ensures inputs[i].Typed? && FmtArg(inputs[i].attrs, inputs[i].pat).Ok? ==>
      FmtAcc(inputs, i, acc) == FmtAcc(inputs, i + 1, acc + [FmtArg(inputs[i].attrs, inputs[i].pat).value])
  {
    assert inputs[i..][1..] == inputs[i + 1..];
    assert inputs[i..][0] == inputs[i];
    if inputs[i].Typed? {
      var e := FmtArg(inputs[i].attrs, inputs[i].pat);
      var rest := FmtArgs(inputs[i + 1..]);
      if e.Ok? && rest.Ok? {
        assert acc + ([e.value] + rest.value) == (acc + [e.value]) + rest.value;
      }
    }
  }

  lemma FmtEnd(inputs: seq<FnArg>, acc: seq<Expr>)
    ensures FmtAcc(inputs, |inputs|, acc) == Ok(acc)
  {
    assert inputs[|inputs|..] == [];
    assert acc + [] == acc;
  }

  /**
   * The loop of `generate_fn`: walks the signature's inputs, skipping
   * receivers and pushing one logged value per typed parameter.
   */
  method CollectFmtArgs(inputs: seq<FnArg>) returns (r: Result<seq<Expr>>)
    ensures r == FmtArgs(inputs)
  {
    var fmtArgs: seq<Expr> := [];
    var i := 0;
    FmtStart(inputs);
    while i < |inputs|
      invariant 0 <= i <= |inputs|
      invariant FmtArgs(inputs) == FmtAcc(inputs, i, fmtArgs)
    {
      FmtStep(inputs, i, fmtArgs);
      if inputs[i].Receiver? {
        i := i + 1;
        continue;
      }
      var e := FmtArg(inputs[i].attrs, inputs[i].pat);
      if e.Err? {
        return Err(e.msg);
      }
      fmtArgs := fmtArgs + [e.value];
      i := i + 1;
    }
    FmtEnd(inputs, fmtArgs);
    return Ok(fmtArgs);
  }

  /**
   * The generator as hooks for the impl completer: after the first function
   * the state no longer changes, so every function is generated with the
   * comma already added: the prefix is followed by a comma in every call
   * exactly when it is non-empty or already ended with one.
   */
  function LogImplGenerator(a: LogArg): (r: ImplGenerator)
    ensures forall ctx, item :: r.genFn(ctx, item).Ok? ==>
      r.genFn(ctx, item).value.body != [] && r.genFn(ctx, item).value.body[0].SExpr?
      && r.genFn(ctx, item).value.body[0].expr.EMacroCall?
      && r.genFn(ctx, item).value.body[0].expr.prefixTrailing == (a.prefix != [] || a.trailing)
    ensures forall ctx, c :: r.genConst(ctx, c) == Err(ConstMsg)
  {
    ImplGenerator((ctx, c) => Err(ConstMsg), (ctx, f) => LogFn(WithTrailingComma(a), f), (ctx, t) => Ok(LogType(a, t)))
  }

  // ------------------------------------------------------------ properties

  /** The number of `{:?}` placeholders in a string. */
  function CountPlaceholders(s: string): nat {
    if |s| < 4 then 0
    else if s[..4] == "{:?}" then 1 + CountPlaceholders(s[4..])
    else CountPlaceholders(s[1..])
  }

  /** Characters before the first `{` add no placeholder. */
  lemma {:induction false} CountAfterPlain(a: string, b: string)
    requires forall i :: 0 <= i < |a| ==> a[i] != '{'
    ensures CountPlaceholders(a + b) == CountPlaceholders(b)
    decreases |a|
  {
    if a != [] {
      var s := a + b;
      assert s[1..] == a[1..] + b;
      assert forall i :: 0 <= i < |a[1..]| ==> a[1..][i] == a[i + 1];
      CountAfterPlain(a[1..], b);
      if |s| >= 4 {
        assert s[..4][0] == a[0] != '{';
      } else {
        assert |b| < 4;
        ShortHasNone(b);
      }
    } else {
      assert a + b == b;
    }
  }

  lemma ShortHasNone(s: string)
    requires |s| < 4
    ensures CountPlaceholders(s) == 0
  {
  }

  /** `n` placeholders and the closing parenthesis hold exactly `n` placeholders. */
  lemma {:induction false} PlaceholdersCount(n: nat)
    ensures CountPlaceholders(Placeholders(n) + ")") == n
    decreases n
  {
    if n == 1 {
      var s := "{:?})";
      assert s[..4] == "{:?}";
      assert s[4..] == ")";
    } else if n > 1 {
      PlaceholdersCount(n - 1);
      var s := Placeholders(n) + ")";
      assert s == "{:?}" + (", " + (Placeholders(n - 1) + ")"));
      assert s[..4] == "{:?}";
      assert s[4..] == ", " + (Placeholders(n - 1) + ")");
      CountAfterPlain(", ", Placeholders(n - 1) + ")");
    }
  }

  /** The format string of a function without `{` in its name has exactly `n` placeholders. */
  lemma FmtStringPlaceholders(name: Ident, n: nat)
    requires forall i :: 0 <= i < |name| ==> name[i] != '{'
    ensures CountPlaceholders(FmtString(name, n)) == n
  {
    PlaceholdersCount(n);
    assert FmtString(name, n) == (name + "(") + (Placeholders(n) + ")");
    CountAfterPlain(name + "(", Placeholders(n) + ")");
  }

  /** The number of parameters other than the receiver. */
  function TypedCount(inputs: seq<FnArg>): nat {
    if inputs == [] then 0 else (if inputs[0].Typed? then 1 else 0) + TypedCount(inputs[1..])
  }

  /**
   * One logged value per typed parameter, in order: the pattern itself,
   * or the guarded block when the parameter has `cfg` attributes.
   */
  lemma {:induction false} FmtArgsShape(inputs: seq<FnArg>)
    ensures FmtArgs(inputs).Ok? ==> |FmtArgs(inputs).value| == TypedCount(inputs)
    ensures (forall i :: 0 <= i < |inputs| && inputs[i].Typed? ==> CfgAttrs(inputs[i].attrs) == []) ==>
      FmtArgs(inputs).Ok?
    decreases |inputs|
  {
    if inputs != [] {
      FmtArgsShape(inputs[1..]);
      assert forall i :: 1 <= i < |inputs| ==> inputs[1..][i - 1] == inputs[i];
    }
  }

  /**
   * The logger call has one placeholder per logged value and one logged
   * value per parameter other than the receiver.
   */
  lemma LogFnPlaceholders(a: LogArg, item: TraitFn)
    requires forall i :: 0 <= i < |item.sig.ident| ==> item.sig.ident[i] != '{'
    ensures LogFn(a, item).Ok? ==>
      var f := LogFn(a, item).value;
      var call := f.body[0].expr;
      f.attrs == CfgAttrs(item.attrs) && f.sig == item.sig
      && call.mac == a.logger && call.prefix == a.prefix
      && call.fmt == item.sig.ident + "(" + Placeholders(|call.args|) + ")"
      && |call.args| == TypedCount(item.sig.inputs)
      && CountPlaceholders(call.fmt) == |call.args|
  {
    FmtArgsShape(item.sig.inputs);
    if LogFn(a, item).Ok? {
      FmtStringPlaceholders(item.sig.ident, |FmtArgs(item.sig.inputs).value|);
    }
  }
}
