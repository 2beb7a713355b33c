/**
 * `#[portrait::make]` (codegen/src/make.rs): re-emits a trait unchanged and
 * records its items in a `macro_rules!` template, so that a later `#[fill]`
 * or derive invocation can hand them to a filler. Next to the trait it
 * declares the companion module `<snake_case name>_portrait`, whose
 * `imports` sub-module re-exports the names the trait items rely on.
 */
module Make {
  import opened Syntax
  import opened Util
  import opened Naming

  const ItemKeyMsg := "expected one of: `__debug_print`, `name`, `import`, `auto_imports`"
  const InvalidScopeMsg := "invalid visibility scope"
  const NoRuleMsg := "no rules expected this token in macro call"

  // -------------------------------------------------------------- ItemArgs

  /** The arguments of `#[portrait::make(...)]`. */
  datatype ItemArgs = ItemArgs(debugPrint: Once<bool>, name: Once<Ident>, imports: seq<UseTree>, autoImports: Once<bool>)

  const NoItemArgs: ItemArgs := ItemArgs(Unset(), Unset(), [], Unset())

  function UseTreeOf(t: TokenTree): Option<UseTree> {
    if t.kind.NodeTok? && t.kind.node.NodeUseTree? then Some(t.kind.node.tree) else None
  }

  /**
   * `ItemArgs::parse_once`, with `auto_imports` setting the `auto_imports`
   * slot: `__debug_print`, `name = ident` and `auto_imports` may each be
   * given once, `import(tree, ...)` may repeat and accumulates.
   */
  function ParseItemArg(args: ItemArgs, ts: seq<TokenTree>): (r: Result<(ItemArgs, nat)>)
    ensures r.Ok? ==> 1 <= r.value.1 <= |ts| && ts[0].kind.IdentTok?
    ensures r.Ok? ==> args.imports <= r.value.0.imports
    // each flag key sets its own slot and nothing else, and fails when that slot was already set
    ensures |ts| > 0 && IsWord(ts[0], "__debug_print") ==>
      (r.Ok? <==> args.debugPrint.TryGet().None?)
      && (r.Ok? ==> r.value.0.debugPrint.TryGet() == Some(true) && r.value.0.(debugPrint := args.debugPrint) == args)
    ensures |ts| > 0 && IsWord(ts[0], "auto_imports") ==>
      (r.Ok? <==> args.autoImports.TryGet().None?)
      && (r.Ok? ==> r.value.0.autoImports.TryGet() == Some(true) && r.value.0.(autoImports := args.autoImports) == args)
    ensures |ts| >= 3 && IsWord(ts[0], "name") && IsPunct(ts[1], '=') && ts[2].kind.IdentTok? ==>
      (r.Ok? <==> args.name.TryGet().None?)
    ensures r.Ok? && IsWord(ts[0], "name") ==>
      |ts| >= 3 && ts[2].kind.IdentTok? && args.name.TryGet().None? && r.value.0.name.TryGet() == Some(ts[2].kind.name)
      && r.value.0.(name := args.name) == args
    ensures r.Ok? && IsWord(ts[0], "import") ==> r.value.0.(imports := args.imports) == args
  {
    if ts == [] || !ts[0].kind.IdentTok? then Err(ItemKeyMsg)
    else if ts[0].kind.name == "__debug_print" then
      var o :- SetOnce(args.debugPrint, true, ts[0].span);
      Ok((args.(debugPrint := o), 1))
    else if ts[0].kind.name == "name" then
      if |ts| < 2 || !IsPunct(ts[1], '=') then Err(ExpectedEq)
      else if |ts| < 3 || !ts[2].kind.IdentTok? then Err(ExpectedIdent)
      else
        var o :- SetOnce(args.name, ts[2].kind.name, ts[0].span);
        Ok((args.(name := o), 3))
    else if ts[0].kind.name == "import" then
      if |ts| < 2 || !IsGroup(ts[1], Parenthesis) then Err(ExpectedParens)
      else
        var trees :- ParseTerminated(ts[1].kind.stream, UseTreeOf, "use tree");
        Ok((args.(imports := args.imports + trees.0), 2))
    else if ts[0].kind.name == "auto_imports" then
      var o :- SetOnce(args.autoImports, true, ts[0].span);
      Ok((args.(autoImports := o), 1))
    else Err(ItemKeyMsg)
  }

  /**
   * `ItemArgs::parse_once` as written: the `auto_imports` branch sets the
   * `debug_print` slot instead of `auto_imports`.
   */
  function ParseItemArgAsWritten(args: ItemArgs, ts: seq<TokenTree>): (r: Result<(ItemArgs, nat)>)
    ensures r.Ok? ==> r.value.0.autoImports == args.autoImports
    ensures |ts| > 0 && IsWord(ts[0], "auto_imports") ==>
      (r.Ok? <==> args.debugPrint.TryGet().None?)
      && (r.Ok? ==> r.value.0.debugPrint.TryGet() == Some(true) && r.value.0.(debugPrint := args.debugPrint) == args)
  {
    if |ts| >= 1 && IsWord(ts[0], "auto_imports") then
      var o :- SetOnce(args.debugPrint, true, ts[0].span);
      Ok((args.(debugPrint := o), 1))
    else ParseItemArg(args, ts)
  }

  /** As written, `auto_imports` never enables import collection and clashes with `__debug_print`. */
  lemma AutoImportsAsWritten(s1: Span, s2: Span)
    ensures var r := ParseArgsSpec([TT(IdentTok("auto_imports"), s1)], NoItemArgs, ParseItemArgAsWritten);
      r.Ok? && r.value.autoImports.TryGet() == None && r.value.debugPrint.TryGet() == Some(true)
    ensures ParseArgsSpec([TT(IdentTok("__debug_print"), s1), Punct(','), TT(IdentTok("auto_imports"), s2)],
                          NoItemArgs, ParseItemArgAsWritten) == Err(TwiceMsg)
  {
    var ts := [TT(IdentTok("__debug_print"), s1), Punct(','), TT(IdentTok("auto_imports"), s2)];
    assert Drop(ts, 1)[1..] == [TT(IdentTok("auto_imports"), s2)];
  }

  /** With the slot corrected, `auto_imports` enables collection and combines with `__debug_print`. */
  lemma AutoImportsEnables(s1: Span, s2: Span)
    ensures var r := ParseArgsSpec([TT(IdentTok("auto_imports"), s1)], NoItemArgs, ParseItemArg);
      r.Ok? && r.value.autoImports.TryGet() == Some(true) && r.value.debugPrint.TryGet() == None
    ensures var r := ParseArgsSpec([TT(IdentTok("__debug_print"), s1), Punct(','), TT(IdentTok("auto_imports"), s2)],
                                   NoItemArgs, ParseItemArg);
      r.Ok? && r.value.autoImports.TryGet() == Some(true) && r.value.debugPrint.TryGet() == Some(true)
  {
    var ts := [TT(IdentTok("__debug_print"), s1), Punct(','), TT(IdentTok("auto_imports"), s2)];
    assert Drop(ts, 1)[1..] == [TT(IdentTok("auto_imports"), s2)];
  }

  /** A second `name` is refused. */
  lemma NameTwice(a: Ident, b: Ident)
    ensures var first := ParseItemArg(NoItemArgs, [Word("name"), Punct('='), Word(a)]);
      first.Ok? && first.value.0.name.TryGet() == Some(a)
      && ParseItemArg(first.value.0, [Word("name"), Punct('='), Word(b)]) == Err(TwiceMsg)
  {
  }

  /** Any other key is refused. */
  lemma UnknownItemKey(args: ItemArgs, key: Ident, more: seq<TokenTree>)
    requires key !in {"__debug_print", "name", "import", "auto_imports"}
    ensures ParseItemArg(args, [Word(key)] + more) == Err(ItemKeyMsg)
  {
  }

  function UseTreeTok(u: UseTree): TokenTree { NodeToken(NodeUseTree(u)) }

  /** `import(...)` as written in the attribute. */
  function ImportEntry(trees: seq<UseTree>): seq<TokenTree> {
    [Word("import"), Parened(PrintTerminated(trees, UseTreeTok, false))]
  }

  function ImportEntries(lists: seq<seq<UseTree>>): (r: seq<seq<TokenTree>>)
    ensures |r| == |lists| && forall i :: 0 <= i < |lists| ==> r[i] == ImportEntry(lists[i])
  {
    seq(|lists|, i requires 0 <= i < |lists| => ImportEntry(lists[i]))
  }

  function Concat<T>(xss: seq<seq<T>>): seq<T>
    decreases |xss|
  {
    if xss == [] then [] else Concat(xss[..|xss| - 1]) + xss[|xss| - 1]
  }

  /**
   * Repeated `import(...)` entries accumulate: the imports are every list,
   * in the order written.
   */
  lemma ImportsAccumulate(lists: seq<seq<UseTree>>, trailing: bool)
    ensures ParseArgsSpec(JoinEntries(ImportEntries(lists), trailing), NoItemArgs, ParseItemArg)
         == Ok(NoItemArgs.(imports := Concat(lists)))
  {
    var entries := ImportEntries(lists);
    var states := seq(|lists| + 1, i requires 0 <= i <= |lists| => NoItemArgs.(imports := Concat(lists[..i])));
    forall i | 0 <= i < |entries| ensures StepReads(ParseItemArg, states[i], entries[i], states[i + 1]) {
      ParseTerminatedRoundTrip(lists[i], UseTreeTok, UseTreeOf, false, "use tree");
      assert lists[..i + 1][..i] == lists[..i];
      forall suffix: seq<TokenTree> | suffix == [] || IsPunct(suffix[0], ',')
        ensures ParseItemArg(states[i], entries[i] + suffix) == Ok((states[i + 1], |entries[i]|))
      {
        var ts := entries[i] + suffix;
        assert ts[0] == Word("import") && ts[1] == entries[i][1];
      }
    }
    ParseArgsJoin(entries, states, ParseItemArg, trailing);
    assert lists[..|lists|] == lists;
  }

  // ---------------------------------------------------- import visibility

  /** `super::super::...`, `n` times. */
  function Supers(n: nat): Path
    requires n >= 1
  {
    Path(false, Segment("super", PathNone), seq(n - 1, _ => Segment("super", PathNone)))
  }

  /**
   * The visibility of the re-exports in `<mod_name>::imports`, which sits
   * two modules below the trait, as written: relative forms without `in`
   * are moved up two levels, `pub(in path)` is kept unchanged.
   */
  function ImportVisAsWritten(vis: Visibility): Result<Visibility> {
    match vis
    case Inherited => Ok(Restricted(true, Supers(2)))
    case Public => Ok(vis)
    case Restricted(inToken, p) =>
      if inToken then Ok(vis)
      else if p.IsIdent("self") then Ok(Restricted(true, Supers(2)))
      else if p.IsIdent("super") then Ok(Restricted(true, Supers(3)))
      else if p.IsIdent("crate") then Ok(vis)
      else Err(InvalidScopeMsg)
  }

  /** A `pub(in path)` path starting at `self` or `super`, moved up two modules. */
  function Rebase(p: Path): Path {
    if p.leadingColon then p
    else if p.head.ident == "self" then Path(false, Segment("super", PathNone), [Segment("super", PathNone)] + p.tail)
    else if p.head.ident == "super" then Path(false, Segment("super", PathNone), [Segment("super", PathNone), Segment("super", PathNone)] + p.tail)
    else p
  }

  /** The import visibility, with relative `pub(in path)` paths moved up two modules as well. */
  function ImportVis(vis: Visibility): Result<Visibility> {
    if vis.Restricted? && vis.inToken then Ok(Restricted(true, Rebase(vis.path)))
    else ImportVisAsWritten(vis)
  }

  /** Where an item can be named from: anywhere, or inside one module (a path from the crate root). */
  datatype Scope = Everywhere | Within(modPath: seq<Ident>)

  function Parent(m: seq<Ident>): Option<seq<Ident>> {
    if m == [] then None else Some(m[..|m| - 1])
  }

  /** Walks `segs` from module `m`: `super` goes up, any other name goes down. */
  function Descend(m: seq<Ident>, segs: seq<PathSegment>): Option<seq<Ident>>
    decreases |segs|
  {
    if segs == [] then Some(m)
    else
      var next := if segs[0].ident == "super" then Parent(m) else Some(m + [segs[0].ident]);
      if next.None? then None else Descend(next.value, segs[1..])
  }

  /** The module a visibility path names, seen from module `m` (it starts with `crate`, `self` or `super`). */
  function ResolvePath(p: Path, m: seq<Ident>): Option<seq<Ident>> {
    if p.leadingColon then None
    else
      var start :=
        if p.head.ident == "crate" then Some([])
        else if p.head.ident == "self" then Some(m)
        else if p.head.ident == "super" then Parent(m)
        else None;
      if start.None? then None else Descend(start.value, p.tail)
  }

  /** The scope a visibility gives an item declared in module `m`. */
  function VisScope(vis: Visibility, m: seq<Ident>): Option<Scope> {
    match vis
    case Inherited => Some(Within(m))
    case Public => Some(Everywhere)
    case Restricted(_, p) =>
      var s := ResolvePath(p, m);
      if s.None? then None else Some(Within(s.value))
  }

  lemma DescendSupers(m: seq<Ident>, n: Ident, k: nat, rest: seq<PathSegment>)
    ensures Descend(m + [n, "imports"], seq(k, _ => Segment("super", PathNone)) + rest)
         == (if k == 0 then Descend(m + [n, "imports"], rest)
             else if k == 1 then Descend(m + [n], rest)
             else Descend(m, seq(k - 2, _ => Segment("super", PathNone)) + rest))
  {
    var sup := Segment("super", PathNone);
    if k >= 1 {
      var segs := seq(k, _ => sup) + rest;
      assert segs[0] == sup;
      assert (m + [n, "imports"])[..|m| + 1] == m + [n];
      assert segs[1..] == seq(k - 1, _ => sup) + rest;
      if k == 1 {
        assert seq(k - 1, _ => sup) + rest == rest;
      } else {
        var segs1 := seq(k - 1, _ => sup) + rest;
        assert segs1[0] == sup;
        assert (m + [n])[..|m|] == m;
        assert segs1[1..] == seq(k - 2, _ => sup) + rest;
      }
    } else {
      assert seq(k, _ => sup) + rest == rest;
    }
  }

  /**
   * The re-exports, declared in `<mod_name>::imports`, reach exactly the
   * scope the trait reaches from its own module `m`.
   */
  lemma ImportVisKeepsScope(vis: Visibility, m: seq<Ident>, modName: Ident)
    requires ImportVis(vis).Ok?
    ensures VisScope(ImportVis(vis).value, m + [modName, "imports"]) == VisScope(vis, m)
  {
    var sup := Segment("super", PathNone);
    var im := m + [modName, "imports"];
    assert im[..|im| - 1] == m + [modName];
    assert (m + [modName])[..|m|] == m;
    match vis
    case Inherited =>
      DescendSupers(m, modName, 2, []);
      assert Supers(2).tail == seq(1, _ => sup);
      assert [sup] + Supers(2).tail == seq(2, _ => sup) + [];
      assert Descend(m, seq(0, _ => sup) + []) == Some(m);
    case Public =>
    case Restricted(inToken, p) =>
      if !inToken && p.IsIdent("self") {
        DescendSupers(m, modName, 2, []);
        assert [sup] + Supers(2).tail == seq(2, _ => sup) + [];
        assert Descend(m, seq(0, _ => sup) + []) == Some(m);
      } else if !inToken && p.IsIdent("super") {
        DescendSupers(m, modName, 3, []);
        assert [sup] + Supers(3).tail == seq(3, _ => sup) + [];
        assert seq(1, _ => sup) + [] == [sup];
      } else if inToken && !p.leadingColon && (p.head.ident == "self" || p.head.ident == "super") {
        RebaseKeepsScope(p, m, modName);
      }
  }

  /** A `pub(in self::..)` or `pub(in super::..)` path moved up two modules names the same module. */
  lemma RebaseKeepsScope(p: Path, m: seq<Ident>, modName: Ident)
    requires !p.leadingColon && (p.head.ident == "self" || p.head.ident == "super")
    ensures ResolvePath(Rebase(p), m + [modName, "imports"]) == ResolvePath(p, m)
  {
    var sup := Segment("super", PathNone);
    var im := m + [modName, "imports"];
    assert im[..|im| - 1] == m + [modName];
    assert (m + [modName])[..|m|] == m;
    var q := Rebase(p);
    if p.head.ident == "self" {
      assert [sup] + q.tail == seq(2, _ => sup) + p.tail;
      DescendSupers(m, modName, 2, p.tail);
      assert seq(0, _ => sup) + p.tail == p.tail;
    } else {
      assert [sup] + q.tail == seq(3, _ => sup) + p.tail;
      DescendSupers(m, modName, 3, p.tail);
      assert seq(1, _ => sup) + p.tail == [sup] + p.tail;
      assert ([sup] + p.tail)[1..] == p.tail;
    }
  }

  /** The mapping fails exactly for a restricted form without `in` other than `self`, `super` and `crate`. */
  lemma ImportVisFails(vis: Visibility)
    ensures ImportVis(vis).Err? <==>
      vis.Restricted? && !vis.inToken && !vis.path.IsIdent("self") && !vis.path.IsIdent("super") && !vis.path.IsIdent("crate")
    ensures ImportVis(vis).Err? ==> ImportVis(vis).msg == InvalidScopeMsg
    ensures ImportVisAsWritten(vis) == (if ImportVis(vis).Err? then ImportVis(vis) else ImportVisAsWritten(vis))
    ensures ImportVisAsWritten(vis).Err? <==> ImportVis(vis).Err?
  {
  }

  /**
   * As written, a trait declared `pub(in super)` in module `a` is visible in
   * the crate root, while its re-exports are only visible inside the
   * companion module itself.
   */
  lemma ImportVisAsWrittenNarrows()
    ensures var vis := Restricted(true, SimplePath("super"));
      ImportVisAsWritten(vis) == Ok(vis)
      && VisScope(vis, ["a"]) == Some(Within([]))
      && VisScope(vis, ["a", "t_portrait", "imports"]) == Some(Within(["a", "t_portrait"]))
  {
    assert ["a"][..0] == [];
    assert ["a", "t_portrait", "imports"][..2] == ["a", "t_portrait"];
  }

  // ------------------------------------------------------- import collector

  /** The paths `syn::visit` reaches in a path: itself, then those in its generic arguments. */
  function PathsOfPath(p: Path): seq<Path>
    decreases p, 2
  {
    [p] + PathsOfSegment(p.head) + PathsOfSegments(p.tail)
  }

  function PathsOfSegments(segs: seq<PathSegment>): seq<Path>
    decreases segs, 1
  {
    if segs == [] then [] else PathsOfSegment(segs[0]) + PathsOfSegments(segs[1..])
  }

  function PathsOfSegment(s: PathSegment): seq<Path>
    decreases s, 1
  {
    match s.args
    case PathNone => []
    case AngleBracketed(gs) => PathsOfGenericArgs(gs)
    case Parenthesized(ins, out) => PathsOfTypes(ins) + (if out.Some? then PathsOfType(out.value) else [])
  }

  function PathsOfGenericArgs(gs: seq<GenericArgument>): seq<Path>
    decreases gs, 1
  {
    if gs == [] then []
    else
PathsOfGenericArg(gs[0]) + PathsOfGenericArgs(gs[1..])
  }

  function PathsOfGenericArg(g: GenericArgument): seq<Path>
    decreases g, 1
  {
    if g.ArgType? then PathsOfType(g.ty) else []
  }

  function PathsOfTypes(ts: seq<Type>): seq<Path>
    decreases ts, 1
  {
    if ts == [] then [] else PathsOfType(ts[0]) + PathsOfTypes(ts[1..])
  }

  function PathsOfType(t: Type): seq<Path>
    decreases t, 0
  {
    match t
    case TPath(p) => PathsOfPath(p)
    case TRef(_, elem) => PathsOfType(elem)
    case TTuple(elems) => PathsOfTypes(elems)
    case TQualified(q, tp, _, args) => PathsOfType(q) + PathsOfPath(tp) + PathsOfGenericArgs(args)
    case TOther(_) => []
  }

  function FlatMap<T>(xs: seq<T>, f: T -> seq<Path>): seq<Path>
    decreases |xs|
  {
    if xs == [] then [] else f(xs[0]) + FlatMap(xs[1..], f)
  }

  function PathsOfAttrs(attrs: seq<Attr>): seq<Path> {
    FlatMap(attrs, (a: Attr) => PathsOfPath(a.path))
  }

  function PathsOfGenerics(g: Generics): seq<Path> {
    FlatMap(g.params, (p: GenericParam) =>
      match p
      case GPLifetime(_) => []
      case GPType(_, bounds) => FlatMap(bounds, PathsOfPath)
      case GPConst(_, ty) => PathsOfType(ty))
    + (if g.whereClause.None? then []
       else FlatMap(g.whereClause.value, (w: WherePredicate) =>
         match w
         case WPBound(bounded, bound) => PathsOfType(bounded) + PathsOfPath(bound)
         case WPOther(_) => []))
  }

  function PathsOfSignature(sig: Signature): seq<Path> {
    PathsOfGenerics(sig.generics)
    + FlatMap(sig.inputs, (a: FnArg) =>
        match a
        case Receiver(attrs, _, _) => PathsOfAttrs(attrs)
        case Typed(attrs, _, ty) => PathsOfAttrs(attrs) + PathsOfType(ty))
    + (if sig.output.Some? then PathsOfType(sig.output.value) else [])
  }

  /**
   * The paths `visit_trait_item` reaches in a trait item, in the positions
   * the model spells out (attributes, generics, signatures and types).
   */
  function PathsOfTraitItem(item: TraitItem): seq<Path> {
    match item
    case TIConst(c) => PathsOfAttrs(c.attrs) + PathsOfGenerics(c.generics) + PathsOfType(c.ty)
    case TIFn(f) => PathsOfAttrs(f.attrs) + PathsOfSignature(f.sig)
    case TIType(t) =>
      PathsOfAttrs(t.attrs) + PathsOfGenerics(t.generics) + FlatMap(t.bounds, PathsOfPath)
      + (if t.default.Some? then PathsOfType(t.default.value) else [])
    case TIOther(_) => []
  }

  /** The first segment of every path without a leading `::`. */
  function Heads(ps: seq<Path>): set<Ident> {
    set p | p in ps && !p.leadingColon :: p.head.ident
  }

  lemma HeadsSnoc(ps: seq<Path>, p: Path)
    ensures Heads(ps + [p]) == Heads(ps) + (if p.leadingColon then {} else {p.head.ident})
  {
    assert forall q :: q in ps + [p] <==> q in ps || q == p;
  }

  /** The names `auto_imports` collects: the first identifier of every path, in any item, without a leading `::`. */
  function AutoImportNames(items: seq<TraitItem>): set<Ident> {
    set i, p | 0 <= i < |items| && p in PathsOfTraitItem(items[i]) && !p.leadingColon :: p.head.ident
  }

  lemma AutoImportNamesSnoc(items: seq<TraitItem>, item: TraitItem)
    ensures AutoImportNames(items + [item]) == AutoImportNames(items) + Heads(PathsOfTraitItem(item))
  {
    var all := items + [item];
    forall x | x in AutoImportNames(all) ensures x in AutoImportNames(items) + Heads(PathsOfTraitItem(item)) {
      var i, p :| 0 <= i < |all| && p in PathsOfTraitItem(all[i]) && !p.leadingColon && p.head.ident == x;
      if i < |items| {
        assert all[i] == items[i];
      }
    }
    forall x | x in AutoImportNames(items) ensures x in AutoImportNames(all) {
      var i, p :| 0 <= i < |items| && p in PathsOfTraitItem(items[i]) && !p.leadingColon && p.head.ident == x;
      assert all[i] == items[i];
    }
    forall x | x in Heads(PathsOfTraitItem(item)) ensures x in AutoImportNames(all) {
      var p :| p in PathsOfTraitItem(item) && !p.leadingColon && p.head.ident == x;
      assert all[|items|] == item;
    }
  }

  /** `ImportCollector`: the set of leading identifiers of the visited paths. */
  class ImportCollector {
    var idents: set<Ident>

    constructor ()
      ensures idents == {}
    {
      idents := {};
    }

    /** `visit_path`: a path without a leading `::` contributes its first identifier. */
    method VisitPath(path: Path)
      modifies this
      ensures idents == old(idents) + (if path.leadingColon then {} else {path.head.ident})
    {
      if !path.leadingColon {
        idents := idents + {path.head.ident};
      }
    }

    /** `visit_trait_item`: `visit_path` on every path the item holds. */
    method VisitTraitItem(item: TraitItem)
      modifies this
      ensures idents == old(idents) + Heads(PathsOfTraitItem(item))
    {
      VisitPaths(PathsOfTraitItem(item));
    }

    /** `visit_path` on each path in turn. */
    method VisitPaths(paths: seq<Path>)
      modifies this
      ensures idents == old(idents) + Heads(paths)
    {
      ghost var start := idents;
      assert Heads(paths[..0]) == {};
      for i := 0 to |paths|
        invariant idents == start + Heads(paths[..i])
      {
        assert paths[..i + 1] == paths[..i] + [paths[i]];
        HeadsSnoc(paths[..i], paths[i]);
        VisitPath(paths[i]);
      }
      assert paths[..|paths|] == paths;
    }
  }

  // --------------------------------------------------------------- output

  /** `super::super::name`: a name of the trait's module, seen from `<mod_name>::imports`. */
  function SuperImport(name: Ident): UseTree {
    UsePath(Path(false, Segment("super", PathNone), [Segment("super", PathNone), Segment(name, PathNone)]))
  }

  function SuperImports(names: seq<Ident>): (r: seq<UseTree>)
    ensures |r| == |names| && forall i :: 0 <= i < |names| ==> r[i] == SuperImport(names[i])
  {
    seq(|names|, i requires 0 <= i < |names| => SuperImport(names[i]))
  }

  /**
   * What `make` emits besides the trait itself (`item`, unchanged):
   * `#[macro_export]` or not, the template macro holding the portrait, the
   * `use` that names the macro after the trait, and the companion module
   * with its re-exports.
   */
  datatype MakeOutput = MakeOutput(
    item: ItemTrait,
    macroExport: bool,
    macroName: Ident,
    portrait: seq<TraitItem>,
    alias: Ident,
    modName: Ident,
    importVis: Visibility,
    imports: seq<UseTree>,
    /** whether the output is printed at compile time */
    debugPrint: bool)

  /**
   * `make::run` on a parsed trait. The template macro's random name is
   * `macroName`; nothing is stated about it. The entry parser and the
   * visibility mapping are parameters: `make::run` as written is
   * `Run(attr, item, macroName, ParseItemArgAsWritten, ImportVisAsWritten)`,
   * and `Run(.., ParseItemArg, ImportVis)` is the corrected macro.
   */
  method Run(attr: seq<TokenTree>, item: ItemTrait, macroName: Ident,
             parseEntry: ArgStep<ItemArgs>, importVis: Visibility -> Result<Visibility>) returns (r: Result<MakeOutput>)
    ensures ParseArgsSpec(attr, NoItemArgs, parseEntry).Err? ==> r == Err(ParseArgsSpec(attr, NoItemArgs, parseEntry).msg)
    ensures ParseArgsSpec(attr, NoItemArgs, parseEntry).Ok? && importVis(item.vis).Err? ==> r == Err(importVis(item.vis).msg)
    ensures r.Ok? <==> ParseArgsSpec(attr, NoItemArgs, parseEntry).Ok? && importVis(item.vis).Ok?
    ensures r.Ok? ==>
      var args := ParseArgsSpec(attr, NoItemArgs, parseEntry).value;
      && r.value.item == item
      && r.value.portrait == item.items
      && r.value.macroExport == item.vis.Public?
      && r.value.alias == item.ident
      && r.value.modName == args.name.GetOr(CompanionModName(item.ident))
      && r.value.importVis == importVis(item.vis).value
      && (args.autoImports.GetOr(false) ==>
            exists names :: Enumerates(names, AutoImportNames(item.items))
              && r.value.imports == args.imports + SuperImports(names))
      && (!args.autoImports.GetOr(false) ==> r.value.imports == args.imports)
      && r.value.debugPrint == args.debugPrint.GetOr(false)
  {
    var parsed := ParseArgs(attr, NoItemArgs, parseEntry);
    if parsed.Err? {
      return Err(parsed.msg);
    }
    var args := parsed.value;
    var modName := args.name.GetOr(CompanionModName(item.ident));
    var imports := args.imports;
    if args.autoImports.GetOr(false) {
      var idents := CollectImportNames(item.items);
      imports := AppendSuperImports(imports, idents);
    }
    var vis := importVis(item.vis);
    if vis.Err? {
      return Err(vis.msg);
    }
    return Ok(MakeOutput(item, item.vis.Public?, macroName, item.items, item.ident, modName, vis.value, imports, args.debugPrint.GetOr(false)));
  }

  /** Runs one `ImportCollector` over every trait item. */
  method CollectImportNames(items: seq<TraitItem>) returns (idents: set<Ident>)
    ensures idents == AutoImportNames(items)
  {
    var collector := new ImportCollector();
    for i := 0 to |items|
      invariant collector.idents == AutoImportNames(items[..i])
    {
      assert items[..i + 1] == items[..i] + [items[i]];
      AutoImportNamesSnoc(items[..i], items[i]);
      collector.VisitTraitItem(items[i]);
    }
    assert items[..|items|] == items;
    return collector.idents;
  }

  /** One `super::super::name` import per collected name, in the set's (unspecified) iteration order. */
  method AppendSuperImports(imports: seq<UseTree>, idents: set<Ident>) returns (r: seq<UseTree>)
    ensures exists names :: Enumerates(names, idents) && r == imports + SuperImports(names)
  {
    r := imports;
    var todo := idents;
    ghost var names: seq<Ident> := [];
    while todo != {}
      invariant todo <= idents
      invariant Enumerates(names, idents - todo)
      invariant r == imports + SuperImports(names)
      decreases todo
    {
      var n :| n in todo;  // HashSet iteration order is unspecified
      r := r + [SuperImport(n)];
      names := names + [n];
      todo := todo - {n};
    }
    assert idents - todo == idents;
  }

  /** Without `name = ...`, the companion module is the snake-case trait name with `_portrait` appended. */
  lemma DefaultModName(item: ItemTrait, macroName: Ident)
    ensures ParseArgsSpec([], NoItemArgs, ParseItemArg) == Ok(NoItemArgs)
    ensures NoItemArgs.name.GetOr(CompanionModName(item.ident)) == SnakeCase(item.ident) + PortraitSuffix
  {
  }

  // ------------------------------------------------------------- template

  /** The input the template's single `macro_rules!` arm accepts. */
  datatype Invocation = Invocation(target: Path, args: seq<TokenTree>, impl_: seq<TokenTree>, debugPrint: Lit)

  /** `@TARGET {path} @ARGS {..} @IMPL {..} @DEBUG_PRINT_FILLER_OUTPUT {literal}`. */
  function InvocationTokens(inv: Invocation): seq<TokenTree> {
    [Punct('@'), Word("TARGET"), Braced([NodeToken(NodePath(inv.target))]),
     Punct('@'), Word("ARGS"), Braced(inv.args),
     Punct('@'), Word("IMPL"), Braced(inv.impl_),
     Punct('@'), Word("DEBUG_PRINT_FILLER_OUTPUT"), Braced([Tok(LitTok(inv.debugPrint))])]
  }

  predicate IsBracedWith(t: TokenTree, n: nat) {
    IsGroup(t, Brace) && |t.kind.stream| == n
  }

  /** Matching against the arm's pattern. */
  function MatchInvocation(ts: seq<TokenTree>): (r: Result<Invocation>)
    ensures r.Ok? ==> |ts| == 12 && IsGroup(ts[5], Brace) && IsGroup(ts[8], Brace) && r.value.args == ts[5].kind.stream && r.value.impl_ == ts[8].kind.stream
  {
    if |ts| == 12
       && IsPunct(ts[0], '@') && IsWord(ts[1], "TARGET") && IsBracedWith(ts[2], 1)
       && ts[2].kind.stream[0].kind.NodeTok? && ts[2].kind.stream[0].kind.node.NodePath?
       && IsPunct(ts[3], '@') && IsWord(ts[4], "ARGS") && IsGroup(ts[5], Brace)
       && IsPunct(ts[6], '@') && IsWord(ts[7], "IMPL") && IsGroup(ts[8], Brace)
       && IsPunct(ts[9], '@') && IsWord(ts[10], "DEBUG_PRINT_FILLER_OUTPUT") && IsBracedWith(ts[11], 1)
       && ts[11].kind.stream[0].kind.LitTok?
    then
      Ok(Invocation(ts[2].kind.stream[0].kind.node.path, ts[5].kind.stream, ts[8].kind.stream, ts[11].kind.stream[0].kind.lit))
    else Err(NoRuleMsg)
  }

  /** The arm accepts every invocation of its shape and reads back its parts. */
  lemma MatchInvocationTokens(inv: Invocation)
    ensures MatchInvocation(InvocationTokens(inv)) == Ok(inv)
  {
  }

  /** One brace group per trait item, in declaration order. */
  function PortraitGroups(items: seq<TraitItem>): (r: seq<TokenTree>)
    ensures |r| == |items| && forall i :: 0 <= i < |items| ==> r[i] == Braced([NodeToken(NodeTraitItem(items[i]))])
  {
    seq(|items|, i requires 0 <= i < |items| => Braced([NodeToken(NodeTraitItem(items[i]))]))
  }

  /**
   * Expanding the template macro: the target macro to call and its input,
   * `TRAIT_PORTRAIT {{item} ...} ARGS {..} IMPL {..} DEBUG_PRINT_FILLER_OUTPUT {literal}`.
   */
  function Expand(portrait: seq<TraitItem>, ts: seq<TokenTree>): (r: Result<(Path, seq<TokenTree>)>)
    ensures r.Ok? <==> MatchInvocation(ts).Ok?
  {
    var inv :- MatchInvocation(ts);
    Ok((inv.target,
        [Word("TRAIT_PORTRAIT"), Braced(PortraitGroups(portrait)),
         Word("ARGS"), Braced(inv.args),
         Word("IMPL"), Braced(inv.impl_),
         Word("DEBUG_PRINT_FILLER_OUTPUT"), Braced([Tok(LitTok(inv.debugPrint))])]))
  }

  /**
   * The template forwards the target, the arguments, the impl and the
   * debug literal verbatim, and embeds every trait item in its own group.
   */
  lemma ExpandForwards(portrait: seq<TraitItem>, inv: Invocation)
    ensures var r := Expand(portrait, InvocationTokens(inv));
      r.Ok? && r.value.0 == inv.target
      && |r.value.1| == 8
      && r.value.1[1].kind.stream == PortraitGroups(portrait)
      && r.value.1[3].kind.stream == inv.args
      && r.value.1[5].kind.stream == inv.impl_
      && r.value.1[7].kind.stream == [Tok(LitTok(inv.debugPrint))]
  {
    MatchInvocationTokens(inv);
  }

  // ------------------------------------------------ the derive invocation

  /**
   * What `#[portrait::derive]` passes to the template:
   * `@TARGET {path} @TRAIT_PATH {path} @ARGS {..} @INPUT {..} @DEBUG_PRINT_FILLER_OUTPUT {literal}`.
   */
  datatype DeriveInvocation = DeriveInvocation(target: Path, traitPath: Path, args: seq<TokenTree>, input: seq<TokenTree>, debugPrint: Lit)

  function DeriveInvocationTokens(inv: DeriveInvocation): seq<TokenTree> {
    [Punct('@'), Word("TARGET"), Braced([NodeToken(NodePath(inv.target))]),
     Punct('@'), Word("TRAIT_PATH"), Braced([NodeToken(NodePath(inv.traitPath))]),
     Punct('@'), Word("ARGS"), Braced(inv.args),
     Punct('@'), Word("INPUT"), Braced(inv.input),
     Punct('@'), Word("DEBUG_PRINT_FILLER_OUTPUT"), Braced([Tok(LitTok(inv.debugPrint))])]
  }

  /** The template as generated has one arm, and it does not accept a derive invocation. */
  lemma DeriveInvocationUnmatched(portrait: seq<TraitItem>, inv: DeriveInvocation)
    ensures Expand(portrait, DeriveInvocationTokens(inv)) == Err(NoRuleMsg)
  {
  }

  predicate IsPathGroup(t: TokenTree) {
    IsBracedWith(t, 1) && t.kind.stream[0].kind.NodeTok? && t.kind.stream[0].kind.node.NodePath?
  }

  /** Matching against a second arm for derive invocations. */
  function MatchDeriveInvocation(ts: seq<TokenTree>): (r: Result<DeriveInvocation>)
    ensures r.Ok? ==>
      |ts| == 15 && IsGroup(ts[8], Brace) && IsGroup(ts[11], Brace)
      && r.value.args == ts[8].kind.stream && r.value.input == ts[11].kind.stream
  {
    if |ts| == 15
       && IsPunct(ts[0], '@') && IsWord(ts[1], "TARGET") && IsPathGroup(ts[2])
       && IsPunct(ts[3], '@') && IsWord(ts[4], "TRAIT_PATH") && IsPathGroup(ts[5])
       && IsPunct(ts[6], '@') && IsWord(ts[7], "ARGS") && IsGroup(ts[8], Brace)
       && IsPunct(ts[9], '@') && IsWord(ts[10], "INPUT") && IsGroup(ts[11], Brace)
       && IsPunct(ts[12], '@') && IsWord(ts[13], "DEBUG_PRINT_FILLER_OUTPUT") && IsBracedWith(ts[14], 1)
       && ts[14].kind.stream[0].kind.LitTok?
    then
      Ok(DeriveInvocation(ts[2].kind.stream[0].kind.node.path, ts[5].kind.stream[0].kind.node.path,
                          ts[8].kind.stream, ts[11].kind.stream, ts[14].kind.stream[0].kind.lit))
    else Err(NoRuleMsg)
  }

  /** The second arm accepts every derive invocation and reads back its parts. */
  lemma MatchDeriveInvocationTokens(inv: DeriveInvocation)
    ensures MatchDeriveInvocation(DeriveInvocationTokens(inv)) == Ok(inv)
  {
  }

  /**
   * The template with both arms: impl invocations expand as before; derive
   * invocations call the filler with
   * `TRAIT_PORTRAIT {{item} ...} TRAIT_PATH {path} ARGS {..} INPUT {..} DEBUG_PRINT_FILLER_OUTPUT {literal}`.
   */
  function ExpandTemplate(portrait: seq<TraitItem>, ts: seq<TokenTree>): (r: Result<(Path, seq<TokenTree>)>)
    ensures MatchInvocation(ts).Ok? ==> r == Expand(portrait, ts)
    ensures r.Ok? <==> MatchInvocation(ts).Ok? || MatchDeriveInvocation(ts).Ok?
  {
    if MatchInvocation(ts).Ok? then Expand(portrait, ts)
    else
      var inv :- MatchDeriveInvocation(ts);
      Ok((inv.target,
          [Word("TRAIT_PORTRAIT"), Braced(PortraitGroups(portrait)),
           Word("TRAIT_PATH"), Braced([NodeToken(NodePath(inv.traitPath))]),
           Word("ARGS"), Braced(inv.args),
           Word("INPUT"), Braced(inv.input),
           Word("DEBUG_PRINT_FILLER_OUTPUT"), Braced([Tok(LitTok(inv.debugPrint))])]))
  }

  /** With the second arm, a derive invocation is forwarded verbatim, the portrait added in front. */
  lemma ExpandTemplateForwardsDerive(portrait: seq<TraitItem>, inv: DeriveInvocation)
    ensures var r := ExpandTemplate(portrait, DeriveInvocationTokens(inv));
      r.Ok? && r.value.0 == inv.target
      && |r.value.1| == 10
      && r.value.1[1].kind.stream == PortraitGroups(portrait)
      && r.value.1[3].kind.stream == [NodeToken(NodePath(inv.traitPath))]
      && r.value.1[5].kind.stream == inv.args
      && r.value.1[7].kind.stream == inv.input
      && r.value.1[9].kind.stream == [Tok(LitTok(inv.debugPrint))]
  {
    MatchDeriveInvocationTokens(inv);
  }
}
