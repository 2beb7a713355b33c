/**
 * Per-kind name indexes of trait and impl items, and their difference
 * (framework/src/item_map.rs). Constants, functions and types are three
 * separate namespaces; in each, a later item with the same name replaces an
 * earlier one, as `HashMap::insert` does.
 */
module ItemMap {
  import opened Syntax

  datatype Kind = ConstKind | FnKind | TypeKind

  /** The namespace and name a trait item is indexed under; `None` for other items. */
  function TraitKey(item: TraitItem): Option<(Kind, Ident)> {
    match item
    case TIConst(c) => Some((ConstKind, c.ident))
    case TIFn(f) => Some((FnKind, f.sig.ident))
    case TIType(t) => Some((TypeKind, t.ident))
    case TIOther(_) => None
  }

  function ImplKey(item: ImplItem): Option<(Kind, Ident)> {
    match item
    case IIConst(c) => Some((ConstKind, c.ident))
    case IIFn(f) => Some((FnKind, f.sig.ident))
    case IIType(t) => Some((TypeKind, t.ident))
    case IIOther(_) => None
  }

  /**
   * The map that inserting every item whose key has kind `k`, in order,
   * into an empty `HashMap` builds.
   */
  function Index<T>(items: seq<T>, key: T -> Option<(Kind, Ident)>, k: Kind): map<Ident, T>
    decreases |items|
  {
    if items == [] then map[]
    else
      var m := Index(items[..|items| - 1], key, k);
      var last := items[|items| - 1];
      if key(last).Some? && key(last).value.0 == k then m[key(last).value.1 := last] else m
  }

  /**
   * The index holds exactly the names of the items of kind `k`, each mapped
   * to an item of that name and kind.
   */
  lemma {:induction false} IndexKeys<T>(items: seq<T>, key: T -> Option<(Kind, Ident)>, k: Kind)
    ensures forall n :: n in Index(items, key, k) <==> exists i :: 0 <= i < |items| && key(items[i]) == Some((k, n))
    ensures forall n :: n in Index(items, key, k) ==>
      key(Index(items, key, k)[n]) == Some((k, n)) && Index(items, key, k)[n] in items
    decreases |items|
  {
    if items != [] {
      var init := items[..|items| - 1];
      IndexKeys(init, key, k);
      assert items == init + [items[|items| - 1]];
      assert forall i :: 0 <= i < |init| ==> init[i] == items[i];
    }
  }

  /** Appending one item inserts it into the map of its own kind only. */
  lemma IndexSnoc<T>(items: seq<T>, x: T, key: T -> Option<(Kind, Ident)>, k: Kind)
    ensures Index(items + [x], key, k)
         == if key(x).Some? && key(x).value.0 == k then Index(items, key, k)[key(x).value.1 := x] else Index(items, key, k)
  {
    assert (items + [x])[..|items|] == items;
  }

  /** Of several items with the same name and kind, the last one is kept. */
  lemma {:induction false} IndexKeepsLast<T>(items: seq<T>, key: T -> Option<(Kind, Ident)>, k: Kind, i: nat)
    requires i < |items| && key(items[i]).Some? && key(items[i]).value.0 == k
    requires forall j :: i < j < |items| ==> key(items[j]) != key(items[i])
    ensures key(items[i]).value.1 in Index(items, key, k)
    ensures Index(items, key, k)[key(items[i]).value.1] == items[i]
    decreases |items|
  {
    var init := items[..|items| - 1];
    if i < |items| - 1 {
      assert init[i] == items[i];
      IndexKeepsLast(init, key, k, i);
    }
  }

  /** The map `TraitItemMap::new` builds for kind `k`. */
  function TraitIndex(items: seq<TraitItem>, k: Kind): map<Ident, TraitItem> {
    Index(items, TraitKey, k)
  }

  /** The map `ImplItemMap::new` builds for kind `k`. */
  function ImplIndex(items: seq<ImplItem>, k: Kind): map<Ident, ImplItem> {
    Index(items, ImplKey, k)
  }

  /** The diagnostic for an impl member the trait does not declare, naming the member. */
  function MissingMsg(k: Kind, n: Ident): string {
    "no associated " + KindNoun(k) + " called " + n + " in trait"
  }

  function KindNoun(k: Kind): string {
    match k
    case ConstKind => "constant"
    case FnKind => "function"
    case TypeKind => "type"
  }

  /**
   * The diagnostic exactly as item_map.rs writes it: the `{ident}`
   * placeholder sits in a plain string literal that is never formatted.
   */
  function MissingMsgAsWritten(k: Kind, n: Ident): string {
    "no associated " + KindNoun(k) + " called {ident} in trait"
  }

  /** As written, two different missing members get the same message. */
  lemma MissingMsgAsWrittenOmitsName()
    ensures MissingMsgAsWritten(ConstKind, "EXTRA") == MissingMsgAsWritten(ConstKind, "OTHER")
    ensures MissingMsgAsWritten(ConstKind, "EXTRA") == "no associated constant called {ident} in trait"
  {
  }

  /** The corrected message tells every missing member apart. */
  lemma {:induction false} MissingMsgNamesMember(k: Kind, a: Ident, b: Ident)
    ensures MissingMsg(k, a) == MissingMsg(k, b) ==> a == b
  {
    var pre := "no associated " + KindNoun(k) + " called ";
    var post := " in trait";
    var ma, mb := MissingMsg(k, a), MissingMsg(k, b);
    assert ma == pre + a + post;
    assert mb == pre + b + post;
    if ma == mb {
      assert |a| == |b|;
      assert a == ma[|pre|..|pre| + |a|];
      assert b == mb[|pre|..|pre| + |b|];
    }
  }

  const Kinds: seq<Kind> := [ConstKind, FnKind, TypeKind]

  /** `ImplItemMap`: the impl block's members, indexed per kind. */
  class ImplItemMap {
    var consts: map<Ident, ImplItem>
    var fns: map<Ident, ImplItem>
    var types: map<Ident, ImplItem>

    function Get(k: Kind): map<Ident, ImplItem>
      reads this
    {
      match k
      case ConstKind => consts
      case FnKind => fns
      case TypeKind => types
    }

    /** `ImplItemMap::new`: one insertion per const, fn and type item, in order. */
    constructor (implBlock: ItemImpl)
      ensures forall k :: Get(k) == ImplIndex(implBlock.items, k)
    {
      var items := implBlock.items;
      consts, fns, types := map[], map[], map[];
      new;
      for i := 0 to |items|
        invariant consts == ImplIndex(items[..i], ConstKind)
        invariant fns == ImplIndex(items[..i], FnKind)
        invariant types == ImplIndex(items[..i], TypeKind)
      {
        assert items[..i + 1] == items[..i] + [items[i]];
        forall k {
          IndexSnoc(items[..i], items[i], ImplKey, k);
        }
        match items[i]
        case IIConst(c) => consts := consts[c.ident := items[i]];

        case IIFn(f) => fns := fns[f.sig.ident := items[i]];
        case IIType(t) => types := types[t.ident := items[i]];
        case IIOther(_) =>
      }
      assert items[..|items|] == items;
    }
  }

  /** `TraitItemMap`: the trait's members, indexed per kind. */
  class TraitItemMap {
    var consts: map<Ident, TraitItem>
    var fns: map<Ident, TraitItem>
    var types: map<Ident, TraitItem>

    function Get(k: Kind): map<Ident, TraitItem>
      reads this
    {
      match k
      case ConstKind => consts
      case FnKind => fns
      case TypeKind => types
    }

    /** `TraitItemMap::new`: one insertion per const, fn and type item, in order. */
    constructor (items: seq<TraitItem>)
      ensures forall k :: Get(k) == TraitIndex(items, k)
    {
      consts, fns, types := map[], map[], map[];
      new;
      for i := 0 to |items|
        invariant consts == TraitIndex(items[..i], ConstKind)
        invariant fns == TraitIndex(items[..i], FnKind)
        invariant types == TraitIndex(items[..i], TypeKind)
      {
        assert items[..i + 1] == items[..i] + [items[i]];
        forall k {
          IndexSnoc(items[..i], items[i], TraitKey, k);
        }
        match items[i]
        case TIConst(c) => consts := consts[c.ident := items[i]];
        case TIFn(f) => fns := fns[f.sig.ident := items[i]];
        case TIType(t) => types := types[t.ident := items[i]];
        case TIOther(_) =>
      }
      assert items[..|items|] == items;
    }

    /**
     * One loop of `minus`: removes every name in `names` from kind `k`, in
     * an unspecified order, and stops at the first name that is absent.
     */
    method MinusKind(k: Kind, names: set<Ident>) returns (r: Outcome)
      modifies this
      ensures forall k2 :: k2 != k ==> Get(k2) == old(Get(k2))
      ensures r.Pass? <==> names <= old(Get(k)).Keys
      ensures r.Pass? ==> Get(k) == old(Get(k)) - names
      ensures r.Fail? ==> exists n :: n in names && n !in old(Get(k)) && r.msg == MissingMsg(k, n)
      ensures Get(k).Keys <= old(Get(k)).Keys
      ensures forall n :: n in Get(k) ==> Get(k)[n] == old(Get(k))[n]
    {
      var todo := names;
      while todo != {}
        invariant todo <= names
        invariant forall k2 :: k2 != k ==> Get(k2) == old(Get(k2))
        invariant names - todo <= old(Get(k)).Keys
        invariant Get(k) == old(Get(k)) - (names - todo)
        decreases todo
      {
        var n :| n in todo;  // HashMap iteration order is unspecified
        var m := Get(k);
        if n !in m {
          assert n !in old(Get(k));
          return Fail(MissingMsg(k, n));
        }
        match k {
          case ConstKind => consts := consts - {n};
          case FnKind => fns := fns - {n};
          case TypeKind => types := types - {n};
        }
        todo := todo - {n};
      }
      return Pass;
    }

    /**
     * `TraitItemMap::minus`: consts, then fns, then types; the first impl
     * member the trait lacks ends the call with an error naming it.
     */
    method Minus(impl: ImplItemMap) returns (r: Outcome)
      modifies this
      ensures r.Pass? <==> forall k :: impl.Get(k).Keys <= old(Get(k)).Keys
      ensures r.Pass? ==> forall k :: Get(k) == old(Get(k)) - impl.Get(k).Keys
      ensures r.Fail? ==>
        exists k, n :: FirstUncovered(k, impl, old(Get(ConstKind)), old(Get(FnKind)))
          && n in impl.Get(k) && n !in old(Get(k)) && r.msg == MissingMsg(k, n)
      ensures forall k, n :: n in Get(k) ==> n in old(Get(k)) && Get(k)[n] == old(Get(k))[n]
    {
      r := MinusKind(ConstKind, impl.consts.Keys);
      if r.Fail? {
        return;
      }
      r := MinusKind(FnKind, impl.fns.Keys);
      if r.Fail? {
        return;
      }
      r := MinusKind(TypeKind, impl.types.Keys);
    }
  }

  /** `k` is the first kind, in the order consts, fns, types, whose impl names the trait lacks. */
  ghost predicate FirstUncovered(k: Kind, impl: ImplItemMap, consts: map<Ident, TraitItem>, fns: map<Ident, TraitItem>)
    reads impl
  {
    (k != ConstKind ==> impl.consts.Keys <= consts.Keys)
    && (k == TypeKind ==> impl.fns.Keys <= fns.Keys)
  }

  /** The impl names no `k` member that the trait lacks. */
  predicate Covered(traitItems: seq<TraitItem>, implBlock: ItemImpl, k: Kind) {
    ImplIndex(implBlock.items, k).Keys <= TraitIndex(traitItems, k).Keys
  }

  /** The trait's `k` members the impl leaves out. */
  function Unimplemented(traitItems: seq<TraitItem>, implBlock: ItemImpl, k: Kind): map<Ident, TraitItem> {
    TraitIndex(traitItems, k) - ImplIndex(implBlock.items, k).Keys
  }

  /**
   * A name is left to implement exactly when the trait declares a `k`
   * member by that name and the impl does not; each maps to such a member.
   */
  lemma UnimplementedKeys(traitItems: seq<TraitItem>, implBlock: ItemImpl, k: Kind)
    ensures forall n :: n in Unimplemented(traitItems, implBlock, k) <==>
      (exists i :: 0 <= i < |traitItems| && TraitKey(traitItems[i]) == Some((k, n)))
      && !(exists i :: 0 <= i < |implBlock.items| && ImplKey(implBlock.items[i]) == Some((k, n)))
    ensures forall n :: n in Unimplemented(traitItems, implBlock, k) ==>
      TraitKey(Unimplemented(traitItems, implBlock, k)[n]) == Some((k, n))
      && Unimplemented(traitItems, implBlock, k)[n] in traitItems
  {
    IndexKeys(traitItems, TraitKey, k);
    IndexKeys(implBlock.items, ImplKey, k);
  }

  /** The three per-kind maps `subtract_items` returns. */
  datatype Remaining = Remaining(consts: map<Ident, TraitItem>, fns: map<Ident, TraitItem>, types: map<Ident, TraitItem>) {
    function Get(k: Kind): map<Ident, TraitItem> {
      match k
      case ConstKind => consts
      case FnKind => fns
      case TypeKind => types
    }
  }

  /**
   * What `subtract_items` may return: the unimplemented members of every
   * kind when the impl names nothing the trait lacks, otherwise an error
   * naming a missing member of the first uncovered kind.
   */
  ghost predicate SubtractResult(traitItems: seq<TraitItem>, implBlock: ItemImpl, r: Result<Remaining>) {
    (r.Ok? <==> forall k :: Covered(traitItems, implBlock, k))
    && (r.Ok? ==> forall k :: r.value.Get(k) == Unimplemented(traitItems, implBlock, k))
    && (r.Err? ==> exists k, n ::
          (k != ConstKind ==> Covered(traitItems, implBlock, ConstKind))
          && (k == TypeKind ==> Covered(traitItems, implBlock, FnKind))
          && n in ImplIndex(implBlock.items, k) && n !in TraitIndex(traitItems, k)
          && r.msg == MissingMsg(k, n))
  }

  /** `subtract_items`: `TraitItemMap::new` followed by `minus`, the error passed on. */
  method SubtractItems(traitItems: seq<TraitItem>, implBlock: ItemImpl) returns (r: Result<Remaining>)
    ensures SubtractResult(traitItems, implBlock, r)
  {
    var items := new TraitItemMap(traitItems);
    var implItems := new ImplItemMap(implBlock);
    ghost var before := Remaining(items.consts, items.fns, items.types);
    assert forall k :: before.Get(k) == TraitIndex(traitItems, k) by {
      assert items.Get(ConstKind) == before.consts;
      assert items.Get(FnKind) == before.fns;
      assert items.Get(TypeKind) == before.types;
    }
    var o := items.Minus(implItems);
    assert forall k :: implItems.Get(k) == ImplIndex(implBlock.items, k);
    if o.Fail? {
      ghost var k :| !(implItems.Get(k).Keys <= before.Get(k).Keys);
      assert !Covered(traitItems, implBlock, k);
      return Err(o.msg);
    }
    return Ok(Remaining(items.consts, items.fns, items.types));
  }

  /** The unimplemented members are exactly the trait's members minus the impl's, kind by kind. */
  lemma {:induction false} RemainingIsDifference(traitItems: seq<TraitItem>, implBlock: ItemImpl, r: Result<Remaining>, k: Kind)
    requires SubtractResult(traitItems, implBlock, r) && r.Ok?
    ensures r.value.Get(k).Keys + ImplIndex(implBlock.items, k).Keys == TraitIndex(traitItems, k).Keys
    ensures r.value.Get(k).Keys !! ImplIndex(implBlock.items, k).Keys
  {
    assert Covered(traitItems, implBlock, k);
  }

  /** Namespaces are separate: adding a function never changes the constants left to implement. */
  lemma {:induction false} KindsAreSeparate(traitItems: seq<TraitItem>, implBlock: ItemImpl, f: ImplFn)
    ensures Unimplemented(traitItems, implBlock.(items := implBlock.items + [IIFn(f)]), ConstKind)
         == Unimplemented(traitItems, implBlock, ConstKind)
    ensures Covered(traitItems, implBlock.(items := implBlock.items + [IIFn(f)]), ConstKind)
        <==> Covered(traitItems, implBlock, ConstKind)
  {
    var items := implBlock.items + [IIFn(f)];
    assert items[..|items| - 1] == implBlock.items;
    assert ImplIndex(items, ConstKind) == ImplIndex(implBlock.items, ConstKind);
  }

  /** An impl member the trait does not declare makes the subtraction fail. */
  lemma ExtraMemberFails(traitItems: seq<TraitItem>, implBlock: ItemImpl, r: Result<Remaining>, i: nat)
    requires SubtractResult(traitItems, implBlock, r)
    requires i < |implBlock.items| && ImplKey(implBlock.items[i]).Some?
    requires ImplKey(implBlock.items[i]).value.1 !in TraitIndex(traitItems, ImplKey(implBlock.items[i]).value.0)
    ensures r.Err?
  {
    var key := ImplKey(implBlock.items[i]).value;
    assert ImplKey(implBlock.items[i]) == Some((key.0, key.1));
    IndexKeys(implBlock.items, ImplKey, key.0);
    assert key.1 in ImplIndex(implBlock.items, key.0);
    assert !Covered(traitItems, implBlock, key.0);
  }
}
