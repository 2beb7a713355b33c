/**
 * Abstract syntax shared by every part of the model.
 *
 * The macros work on Rust syntax trees (from the `syn` crate) and on token
 * streams (from `proc_macro2`). Only the shapes the macros inspect are
 * spelled out here. A whole sub-tree that `syn` parses or prints as one unit
 * (a type, a path, an expression, a trait item, an impl block, a derive input,
 * a use tree) appears inside a token stream as a single `NodeTok` leaf, so that
 * printing a node and parsing it back is the identity by construction.
 */
module Syntax {

  // ---------------------------------------------------------------- results

  datatype Option<+T> = None | Some(value: T) {
    function GetOr(default: T): T {
      if Some? then value else default
    }
  }

  /** `syn::Result`: a value or a diagnostic message. */
  datatype Result<+T> = Ok(value: T) | Err(msg: string) {
    predicate IsFailure() { Err? }
    function PropagateFailure<U>(): Result<U>
      requires Err?
    {
      Err(msg)
    }
    function Extract(): T
      requires Ok?
    {
      value
    }
  }

  /** `syn::Result<()>`. */
  datatype Outcome = Pass | Fail(msg: string) {
    predicate IsFailure() { Fail? }
    function PropagateFailure<U>(): Result<U>
      requires Fail?
    {
      Err(msg)
    }
  }

  // ----------------------------------------------------------------- tokens

  type Ident = string
  /** A source location; only `copy_ts_with_span` looks at it. */
  type Span = nat

  datatype Delimiter = Parenthesis | Brace | Bracket | NoDelim

  datatype Lit = LitBool(b: bool) | LitStr(s: string) | LitInt(n: nat)

  datatype TokenTree = TT(kind: TokenKind, span: Span)

  datatype TokenKind =
    | IdentTok(name: Ident)
    | PunctTok(ch: char)
    | LitTok(lit: Lit)
    | GroupTok(delim: Delimiter, stream: seq<TokenTree>)
    | NodeTok(node: SynNode)

  /** A syntax tree that `syn` parses, and `quote` prints, as one unit. */
  datatype SynNode =
    | NodeType(ty: Type)
    | NodePath(path: Path)
    | NodeExpr(expr: Expr)
    | NodeTraitItem(item: TraitItem)
    | NodeImpl(itemImpl: ItemImpl)
    | NodeDeriveInput(input: DeriveInput)
    | NodeUseTree(tree: UseTree)

  function Tok(k: TokenKind): TokenTree { TT(k, 0) }
  function Word(name: Ident): TokenTree { Tok(IdentTok(name)) }
  function Punct(c: char): TokenTree { Tok(PunctTok(c)) }
  function Braced(ts: seq<TokenTree>): TokenTree { Tok(GroupTok(Brace, ts)) }
  function Parened(ts: seq<TokenTree>): TokenTree { Tok(GroupTok(Parenthesis, ts)) }
  function NodeToken(n: SynNode): TokenTree { Tok(NodeTok(n)) }

  predicate IsPunct(t: TokenTree, c: char) { t.kind == PunctTok(c) }
  predicate IsWord(t: TokenTree, name: Ident) { t.kind == IdentTok(name) }
  predicate IsGroup(t: TokenTree, d: Delimiter) { t.kind.GroupTok? && t.kind.delim == d }

  // ------------------------------------------------------------------ paths

  /** A path always has at least one segment, as every path `syn` parses does. */
  datatype Path = Path(leadingColon: bool, head: PathSegment, tail: seq<PathSegment>) {
    function Segments(): seq<PathSegment> { [head] + tail }

    function Last(): PathSegment {
      if tail == [] then head else tail[|tail| - 1]
    }

    /** Replaces the last segment. */
    function WithLast(seg: PathSegment): (r: Path)
      ensures r.leadingColon == leadingColon && r.Last() == seg
      ensures |r.Segments()| == |Segments()|
      ensures r.Segments()[..|r.Segments()| - 1] == Segments()[..|Segments()| - 1]
    {
      if tail == [] then this.(head := seg) else this.(tail := tail[..|tail| - 1] + [seg])
    }

    /** `path.segments.push(seg)`. */
    function Push(seg: PathSegment): Path {
      this.(tail := tail + [seg])
    }

    /** `syn::Path::is_ident`: no leading `::`, one segment, no arguments. */
    predicate IsIdent(name: Ident) {
      !leadingColon && tail == [] && head.args == PathNone && head.ident == name
    }
  }

  datatype PathSegment = Segment(ident: Ident, args: PathArguments)

  datatype PathArguments =
    | PathNone
    | AngleBracketed(generic: seq<GenericArgument>)
    | Parenthesized(inputs: seq<Type>, output: Option<Type>)

  datatype GenericArgument =
    | ArgLifetime(name: Ident)
    | ArgType(ty: Type)
    | ArgConst(value: Expr)

  function SimplePath(name: Ident): Path {
    Path(false, Segment(name, PathNone), [])
  }

  // ------------------------------------------------------------------ types

  datatype Type =
    | TPath(path: Path)
    | TRef(mutable: bool, elem: Type)
    | TTuple(elems: seq<Type>)
    /** `<Q as Trait>::Member<args>` */
    | TQualified(qself: Type, traitPath: Path, member: Ident, args: seq<GenericArgument>)
    | TOther(id: nat)

  const UnitType: Type := TTuple([])
  const SelfType: Type := TPath(SimplePath("Self"))

  // ------------------------------------------------------------ attributes

  datatype Attr = Attr(path: Path, meta: Meta)

  datatype Meta = MetaPath | MetaList(tokens: seq<TokenTree>) | MetaNameValue(value: Expr)

  predicate IsCfg(a: Attr) { a.path.IsIdent("cfg") }

  /** The `cfg` attributes of a list, in order (the `filter(is_ident("cfg"))` idiom). */
  function CfgAttrs(attrs: seq<Attr>): (r: seq<Attr>)
    ensures forall a :: a in r <==> a in attrs && IsCfg(a)
    ensures |r| <= |attrs|
    ensures (forall a :: a in attrs ==> IsCfg(a)) ==> r == attrs
  {
    if attrs == [] then []
    else (if IsCfg(attrs[0]) then [attrs[0]] else []) + CfgAttrs(attrs[1..])
  }

  // ------------------------------------------------------- expressions etc.

  datatype Member = Named(name: Ident) | Unnamed(index: nat)

  datatype Pat =
    | PIdent(mutable: bool, name: Ident)
    | PStruct(path: Path, fields: seq<FieldPat>, rest: bool)
    | PPath(path: Path)
    | PWild
    | POther(id: nat)

  datatype FieldPat = FieldPat(attrs: seq<Attr>, member: Member, pat: Pat)

  datatype Expr =
    | EPath(path: Path)
    | ECall(func: Expr, args: seq<Expr>)
    /** `expr?` */
    | ETry(inner: Expr)
    | EBlock(stmts: seq<Stmt>)
    | EStruct(path: Path, fields: seq<FieldValue>)
    | EMatch(scrutinee: Expr, arms: seq<Arm>)
    /** `<Q as Trait>::member` */
    | EQualified(qself: Type, traitPath: Path, member: Ident)
    /** `#[attrs] & mut inner`, each prefix present or not */
    | EPrefixed(attrs: seq<Attr>, amp: bool, mutKw: bool, inner: Expr)
    /** a parameter pattern re-emitted as an expression */
    | EPat(pat: Pat)
    /** `{ #[cfg(all(args))] { inner } #[cfg(not(all(args)))] { placeholder } }` */
    | ECfgGuarded(cfgArgs: seq<seq<TokenTree>>, inner: Expr, placeholder: Expr)
    /** `mac!(prefix, fmt, args)`; `prefixTrailing` is the comma after the prefix */
    | EMacroCall(mac: Path, prefix: seq<Expr>, prefixTrailing: bool, fmt: string, args: seq<Expr>)
    | ELit(lit: Lit)
    /** an expression the macro only passes through */
    | EOpaque(id: nat)

  datatype Stmt = SLocal(pat: Pat, init: Expr) | SExpr(expr: Expr, semi: bool)

  datatype FieldValue = FieldValue(attrs: seq<Attr>, member: Member, expr: Expr)

  datatype Arm = Arm(attrs: seq<Attr>, pat: Pat, body: Expr)

  // ------------------------------------------------------------- signatures

  datatype FnArg =
    | Receiver(attrs: seq<Attr>, reference: bool, mutable: bool)
    | Typed(attrs: seq<Attr>, pat: Pat, ty: Type)

  datatype Signature = Signature(ident: Ident, generics: Generics, inputs: seq<FnArg>, output: Option<Type>)

  /** `Signature::receiver`: the first input, when it is a receiver. */
  predicate HasReceiver(sig: Signature) {
    |sig.inputs| > 0 && sig.inputs[0].Receiver?
  }

  datatype GenericParam =
    | GPLifetime(name: Ident)
    | GPType(name: Ident, bounds: seq<Path>)
    | GPConst(name: Ident, ty: Type)

  datatype WherePredicate = WPBound(bounded: Type, bound: Path) | WPOther(id: nat)

  /** `brackets` says whether the `<` `>` tokens are present. */
  datatype Generics = Generics(brackets: bool, params: seq<GenericParam>, whereClause: Option<seq<WherePredicate>>)

  const NoGenerics: Generics := Generics(false, [], None)

  /** The bare name of a generic parameter, as a generic argument. */
  function ParamArg(p: GenericParam): GenericArgument {
    match p
    case GPLifetime(n) => ArgLifetime(n)
    case GPType(n, _) => ArgType(TPath(SimplePath(n)))
    case GPConst(n, _) => ArgType(TPath(SimplePath(n)))
  }

  function ParamName(p: GenericParam): Ident {
    match p
    case GPLifetime(n) => n
    case GPType(n, _) => n
    case GPConst(n, _) => n
  }

  // ------------------------------------------------------------------ items

  datatype TraitConst = TraitConst(attrs: seq<Attr>, ident: Ident, generics: Generics, ty: Type, default: Option<Expr>)
  datatype TraitFn = TraitFn(attrs: seq<Attr>, sig: Signature, default: Option<seq<Stmt>>)
  datatype TraitType = TraitType(attrs: seq<Attr>, ident: Ident, generics: Generics, bounds: seq<Path>, default: Option<Type>)

  datatype TraitItem =
    | TIConst(c: TraitConst)
    | TIFn(f: TraitFn)
    | TIType(t: TraitType)
    /** macros and verbatim items: not members of any kind */
    | TIOther(id: nat)

  datatype ImplConst = ImplConst(attrs: seq<Attr>, ident: Ident, generics: Generics, ty: Type, expr: Expr)
  datatype ImplFn = ImplFn(attrs: seq<Attr>, sig: Signature, body: seq<Stmt>)
  datatype ImplType = ImplType(attrs: seq<Attr>, ident: Ident, generics: Generics, ty: Type)

  datatype ImplItem =
    | IIConst(c: ImplConst)
    | IIFn(f: ImplFn)
    | IIType(t: ImplType)
    | IIOther(id: nat)

  datatype TraitRef = TraitRef(negated: bool, path: Path)

  datatype ItemImpl = ItemImpl(attrs: seq<Attr>, generics: Generics, trait_: Option<TraitRef>, selfTy: Type, items: seq<ImplItem>)

  datatype Visibility = Inherited | Public | Restricted(inToken: bool, path: Path)

  datatype ItemTrait = ItemTrait(attrs: seq<Attr>, vis: Visibility, ident: Ident, generics: Generics, items: seq<TraitItem>)

  datatype Field = Field(attrs: seq<Attr>, ident: Option<Ident>, ty: Type)
  datatype Variant = Variant(attrs: seq<Attr>, ident: Ident, fields: seq<Field>)
  datatype Data = DStruct(fields: seq<Field>) | DEnum(variants: seq<Variant>) | DUnion(unionFields: seq<Field>)
  datatype DeriveInput = DeriveInput(attrs: seq<Attr>, vis: Visibility, ident: Ident, generics: Generics, data: Data)

  datatype UseTree = UsePath(path: Path) | UseOther(id: nat)

  /** The member a field is addressed by: its name, or its position. */
  function FieldMember(f: Field, ord: nat): Member {
    match f.ident
    case Some(name) => Named(name)
    case None => Unnamed(ord)
  }

  // ------------------------------------------------------------ syn helpers

  /**
   * `Punctuated::parse_terminated`: zero or more elements separated by
   * commas, with an optional trailing comma, up to the end of the stream.
   * Returns the elements and whether a trailing comma was present.
   */
  function ParseTerminated<T>(ts: seq<TokenTree>, elem: TokenTree -> Option<T>, what: string): (r: Result<(seq<T>, bool)>)
    ensures r.Ok? ==> |r.value.0| <= |ts|
    ensures r.Ok? && r.value.1 ==> r.value.0 != [] && IsPunct(ts[|ts| - 1], ',')
    decreases |ts|
  {
    if ts == [] then Ok(([], false))
    else match elem(ts[0])
      case None => Err("expected " + what)
      case Some(x) =>
        if |ts| == 1 then Ok(([x], false))
        else if !IsPunct(ts[1], ',') then Err("expected `,`")
        else if |ts| == 2 then Ok(([x], true))
        else
          var rest :- ParseTerminated(ts[2..], elem, what);
          Ok(([x] + rest.0, rest.1))
  }

  /** Prints elements separated by commas, with an optional trailing comma. */
  function PrintTerminated<T>(xs: seq<T>, render: T -> TokenTree, trailing: bool): seq<TokenTree> {
    if xs == [] then []
    else if |xs| == 1 then [render(xs[0])] + (if trailing then [Punct(',')] else [])
    else [render(xs[0]), Punct(',')] + PrintTerminated(xs[1..], render, trailing)
  }

  /** Parsing what was printed gives back the elements and the trailing comma. */
  lemma {:induction false} ParseTerminatedRoundTrip<T>(xs: seq<T>, render: T -> TokenTree, elem: TokenTree -> Option<T>, trailing: bool, what: string)
    requires forall x :: elem(render(x)) == Some(x)
    requires forall x :: !IsPunct(render(x), ',')
    ensures ParseTerminated(PrintTerminated(xs, render, trailing), elem, what) == Ok((xs, trailing && xs != []))
    decreases |xs|
  {
    if |xs| > 1 {
      ParseTerminatedRoundTrip(xs[1..], render, elem, trailing, what);
      var ts := PrintTerminated(xs, render, trailing);
      var rest := PrintTerminated(xs[1..], render, trailing);
      assert ts == [render(xs[0]), Punct(',')] + rest;
      assert |rest| >= 1 by { assert xs[1..] != []; }
      assert ts[2..] == rest;
      assert elem(ts[0]) == Some(xs[0]);
      assert IsPunct(ts[1], ',');
      assert [xs[0]] + xs[1..] == xs;
    } else if |xs| == 1 {
      var ts := PrintTerminated(xs, render, trailing);
      assert elem(ts[0]) == Some(xs[0]);
      assert [xs[0]] == xs;
      if trailing {
        assert |ts| == 2 && IsPunct(ts[1], ',');
      } else {
        assert |ts| == 1;
      }
    }
  }

  /**
   * `collect::<Result<Vec<_>>>()` over a mapped sequence: every result in
   * order, or the first error.
   */
  function CollectResults<A, B>(xs: seq<A>, f: A -> Result<B>): Result<seq<B>>
    decreases |xs|
  {
    if xs == [] then Ok([])
    else
      var y :- f(xs[0]);
      var ys :- CollectResults(xs[1..], f);
      Ok([y] + ys)
  }

  /**
   * Collecting succeeds exactly when every element maps to a value, and then
   * keeps one value per element, in order; otherwise the error is the first
   * element's that fails.
   */
  lemma {:induction false} CollectResultsShape<A, B>(xs: seq<A>, f: A -> Result<B>)
    ensures CollectResults(xs, f).Ok? <==> forall i :: 0 <= i < |xs| ==> f(xs[i]).Ok?
    ensures CollectResults(xs, f).Ok? ==>
      |CollectResults(xs, f).value| == |xs|
      && forall i :: 0 <= i < |xs| ==> CollectResults(xs, f).value[i] == f(xs[i]).value
    ensures CollectResults(xs, f).Err? ==>
      exists i :: 0 <= i < |xs| && f(xs[i]).Err? && CollectResults(xs, f).msg == f(xs[i]).msg
        && forall j :: 0 <= j < i ==> f(xs[j]).Ok?
    decreases |xs|
  {
    if xs != [] {
      CollectResultsShape(xs[1..], f);
      assert forall i :: 1 <= i < |xs| ==> xs[1..][i - 1] == xs[i];
      if f(xs[0]).Ok? && CollectResults(xs[1..], f).Err? {
        var i :| 0 <= i < |xs[1..]| && f(xs[1..][i]).Err? && CollectResults(xs[1..], f).msg == f(xs[1..][i]).msg
          && forall j :: 0 <= j < i ==> f(xs[1..][j]).Ok?;
        assert f(xs[i + 1]).Err?;
        assert forall j :: 1 <= j < i + 1 ==> f(xs[j]).Ok? by {
          forall j | 1 <= j < i + 1 ensures f(xs[j]).Ok? {
            assert xs[j] == xs[1..][j - 1];
          }
        }
      }
    }
  }

  // ------------------------------------------------------------ iteration

  /** `names` lists every key of `keys` exactly once. */
  ghost predicate Enumerates(names: seq<Ident>, keys: set<Ident>) {
    (forall i, j :: 0 <= i < j < |names| ==> names[i] != names[j])
    && (forall n :: n in names <==> n in keys)
  }

  /**
   * Some order in which the elements of a set can be visited (a `HashMap`
   * or `HashSet` iterates in an order the program does not fix).
   */
  ghost function Enumerate(keys: set<Ident>): (names: seq<Ident>)
    ensures Enumerates(names, keys)
    decreases keys
  {
    if keys == {} then []
    else
      var x :| x in keys;
      [x] + Enumerate(keys - {x})
  }

  // ----------------------------------------------------------------- names

  function DigitChar(d: nat): char
    requires d < 10
  {
    "0123456789"[d]
  }

  /** Decimal rendering, as `format!("{}", n)` produces for a `usize`. */
  function NatToString(n: nat): (r: string)
    ensures |r| >= 1
    ensures forall i :: 0 <= i < |r| ==> '0' <= r[i] <= '9'
    decreases n
  {
    if n < 10 then [DigitChar(n)] else NatToString(n / 10) + [DigitChar(n % 10)]
  }

  lemma {:induction false} NatToStringInjective(a: nat, b: nat)
    ensures NatToString(a) == NatToString(b) ==> a == b
    decreases a
  {
    var sa, sb := NatToString(a), NatToString(b);
    if a >= 10 && b >= 10 {
      assert sa[..|sa| - 1] == NatToString(a / 10);
      assert sb[..|sb| - 1] == NatToString(b / 10);
      NatToStringInjective(a / 10, b / 10);
    } else if a < 10 && b < 10 {
      assert sa[0] == DigitChar(a) && sb[0] == DigitChar(b);
    } else if a < 10 {
      assert |sb| == |NatToString(b / 10)| + 1;
    } else {
      assert |sa| == |NatToString(a / 10)| + 1;
    }
  }
}
