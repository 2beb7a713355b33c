/**
 * Completion of a partial trait impl (framework/src/impl_completer.rs): the
 * impl block is cloned and one generated item is appended for every trait
 * member it leaves out, all constants first, then all functions, then all
 * types. Within a kind, members come in `HashMap` iteration order, which the
 * model leaves unspecified: every contract holds for every order.
 */
module ImplCompleter {
  import opened Syntax
  import opened ItemMap

  /** `ImplContext`: what every generator call can see. */
  datatype ImplContext = ImplContext(allTraitItems: seq<TraitItem>, implBlock: ItemImpl)

  /** `GenerateImpl`: one hook per member kind. */
  datatype ImplGenerator = ImplGenerator(
    genConst: (ImplContext, TraitConst) -> Result<ImplConst>,
    genFn: (ImplContext, TraitFn) -> Result<ImplFn>,
    genType: (ImplContext, TraitType) -> Result<ImplType>)

  predicate IsMember(item: TraitItem) { !item.TIOther? }

  /** The hook for the item's kind, its result wrapped as an impl item. */
  function GenerateOne(gen: ImplGenerator, ctx: ImplContext, item: TraitItem): (r: Result<ImplItem>)
    requires IsMember(item)
    ensures r.Ok? ==> r.value.IIConst? == item.TIConst? && r.value.IIFn? == item.TIFn? && r.value.IIType? == item.TIType?
  {
    match item
    case TIConst(c) => var x :- gen.genConst(ctx, c); Ok(IIConst(x))
    case TIFn(f) => var x :- gen.genFn(ctx, f); Ok(IIFn(x))
    case TIType(t) => var x :- gen.genType(ctx, t); Ok(IIType(x))
  }

  /** Generates the items in order; the first failure ends the run. */
  function GenerateSeq(gen: ImplGenerator, ctx: ImplContext, items: seq<TraitItem>): Result<seq<ImplItem>>
    requires forall i :: 0 <= i < |items| ==> IsMember(items[i])
    decreases |items|
  {
    if items == [] then Ok([])
    else
      var first :- GenerateOne(gen, ctx, items[0]);
      var rest :- GenerateSeq(gen, ctx, items[1..]);
      Ok([first] + rest)
  }

  /**
   * A run succeeds exactly when every member's hook succeeds, and then holds
   * one item per member, in the members' order.
   */
  lemma {:induction false} GenerateSeqItems(gen: ImplGenerator, ctx: ImplContext, items: seq<TraitItem>)
    requires forall i :: 0 <= i < |items| ==> IsMember(items[i])
    ensures GenerateSeq(gen, ctx, items).Ok? <==> forall i :: 0 <= i < |items| ==> GenerateOne(gen, ctx, items[i]).Ok?
    ensures GenerateSeq(gen, ctx, items).Ok? ==>
      |GenerateSeq(gen, ctx, items).value| == |items|
      && forall i :: 0 <= i < |items| ==> GenerateSeq(gen, ctx, items).value[i] == GenerateOne(gen, ctx, items[i]).value
    decreases |items|
  {
    if items != [] {
      GenerateSeqItems(gen, ctx, items[1..]);
      assert forall i :: 1 <= i < |items| ==> items[1..][i - 1] == items[i];
    }
  }

  /** Generating a concatenation is generating each part, stopping at the first failure. */
  lemma {:induction false} GenerateSeqAppend(gen: ImplGenerator, ctx: ImplContext, xs: seq<TraitItem>, ys: seq<TraitItem>)
    requires forall i :: 0 <= i < |xs| ==> IsMember(xs[i])
    requires forall i :: 0 <= i < |ys| ==> IsMember(ys[i])
    ensures forall i :: 0 <= i < |xs + ys| ==> IsMember((xs + ys)[i])
    ensures GenerateSeq(gen, ctx, xs + ys)
         == (var a :- GenerateSeq(gen, ctx, xs); var b :- GenerateSeq(gen, ctx, ys); Ok(a + b))
    decreases |xs|
  {
    if xs != [] {
      assert (xs + ys)[1..] == xs[1..] + ys;
      GenerateSeqAppend(gen, ctx, xs[1..], ys);
      var a := GenerateSeq(gen, ctx, xs[1..]);
      var b := GenerateSeq(gen, ctx, ys);
      if GenerateOne(gen, ctx, xs[0]).Ok? && a.Ok? && b.Ok? {
        assert [GenerateOne(gen, ctx, xs[0]).value] + (a.value + b.value)
            == ([GenerateOne(gen, ctx, xs[0]).value] + a.value) + b.value;
      }
    } else {
      assert xs + ys == ys;
      var b := GenerateSeq(gen, ctx, ys);
      if b.Ok? {
        assert [] + b.value == b.value;
      }
    }
  }

  // ------------------------------------------------------ iteration orders

  function Lookup(m: map<Ident, TraitItem>, names: seq<Ident>): (r: seq<TraitItem>)
    requires forall n :: n in names ==> n in m
    ensures |r| == |names| && forall i :: 0 <= i < |names| ==> r[i] == m[names[i]]
  {
    seq(|names|, i requires 0 <= i < |names| => m[names[i]])
  }

  /** Every value of an unimplemented-member map is a member of that kind. */
  ghost predicate KindMap(m: map<Ident, TraitItem>, k: Kind) {
    forall n :: n in m ==> TraitKey(m[n]) == Some((k, n))
  }

  /** The order in which a completion visits the missing members, per kind. */
  ghost predicate OrderOf(traitItems: seq<TraitItem>, implBlock: ItemImpl, order: seq<TraitItem>, nc: seq<Ident>, nf: seq<Ident>, nt: seq<Ident>) {
    Enumerates(nc, Unimplemented(traitItems, implBlock, ConstKind).Keys)
    && Enumerates(nf, Unimplemented(traitItems, implBlock, FnKind).Keys)
    && Enumerates(nt, Unimplemented(traitItems, implBlock, TypeKind).Keys)
    && order == Lookup(Unimplemented(traitItems, implBlock, ConstKind), nc)
              + Lookup(Unimplemented(traitItems, implBlock, FnKind), nf)
              + Lookup(Unimplemented(traitItems, implBlock, TypeKind), nt)
  }

  /**
   * `order` visits the unimplemented constants, then functions, then types,
   * each kind in some order that lists each of its members exactly once.
   */
  ghost predicate ValidOrder(traitItems: seq<TraitItem>, implBlock: ItemImpl, order: seq<TraitItem>) {
    exists nc, nf, nt :: OrderOf(traitItems, implBlock, order, nc, nf, nt)
  }

  ghost predicate AllMembers(items: seq<TraitItem>) {
    forall i :: 0 <= i < |items| ==> IsMember(items[i])
  }

  /** Where each missing member sits in an order, and which member it is. */
  lemma OrderKeys(traitItems: seq<TraitItem>, implBlock: ItemImpl, order: seq<TraitItem>, nc: seq<Ident>, nf: seq<Ident>, nt: seq<Ident>)
    requires OrderOf(traitItems, implBlock, order, nc, nf, nt)
    ensures |order| == |nc| + |nf| + |nt|
    ensures forall j :: 0 <= j < |nc| ==>
      nc[j] in Unimplemented(traitItems, implBlock, ConstKind)
      && order[j] == Unimplemented(traitItems, implBlock, ConstKind)[nc[j]]
      && TraitKey(order[j]) == Some((ConstKind, nc[j]))
    ensures forall j :: 0 <= j < |nf| ==>
      nf[j] in Unimplemented(traitItems, implBlock, FnKind)
      && order[|nc| + j] == Unimplemented(traitItems, implBlock, FnKind)[nf[j]]
      && TraitKey(order[|nc| + j]) == Some((FnKind, nf[j]))
    ensures forall j :: 0 <= j < |nt| ==>
      nt[j] in Unimplemented(traitItems, implBlock, TypeKind)
      && order[|nc| + |nf| + j] == Unimplemented(traitItems, implBlock, TypeKind)[nt[j]]
      && TraitKey(order[|nc| + |nf| + j]) == Some((TypeKind, nt[j]))
    ensures AllMembers(order)
  {
    var c, f := |nc|, |nf|;
    OrderSegment(traitItems, implBlock, order, nc, nf, nt, ConstKind, 0, nc);
    OrderSegment(traitItems, implBlock, order, nc, nf, nt, FnKind, c, nf);
    OrderSegment(traitItems, implBlock, order, nc, nf, nt, TypeKind, c + f, nt);
    forall i | 0 <= i < |order| ensures IsMember(order[i]) {
      if i < c {
        assert IsMember(order[0 + i]);
      } else if i < c + f {
        assert IsMember(order[c + (i - c)]);
      } else {
        assert IsMember(order[c + f + (i - c - f)]);
      }
    }
  }

  /** The stretch of an order holding one kind's missing members. */
  lemma OrderSegment(traitItems: seq<TraitItem>, implBlock: ItemImpl, order: seq<TraitItem>, nc: seq<Ident>, nf: seq<Ident>, nt: seq<Ident>,
                     k: Kind, off: nat, names: seq<Ident>)
    requires OrderOf(traitItems, implBlock, order, nc, nf, nt)
    requires (k, off, names) in {(ConstKind, 0, nc), (FnKind, |nc|, nf), (TypeKind, |nc| + |nf|, nt)}
    ensures |order| == |nc| + |nf| + |nt|
    ensures forall j :: 0 <= j < |names| ==>
      names[j] in Unimplemented(traitItems, implBlock, k) && order[off + j] == Unimplemented(traitItems, implBlock, k)[names[j]]
      && TraitKey(order[off + j]) == Some((k, names[j])) && IsMember(order[off + j])
  {
    var m := Unimplemented(traitItems, implBlock, k);
    UnimplementedKinds(traitItems, implBlock, k);
    var lc, lf, lt := Lookup(Unimplemented(traitItems, implBlock, ConstKind), nc), Lookup(Unimplemented(traitItems, implBlock, FnKind), nf),
                      Lookup(Unimplemented(traitItems, implBlock, TypeKind), nt);
    assert order == lc + lf + lt;
    assert order[off..off + |names|] == Lookup(m, names);
    SegmentKeys(order, off, m, k, names);
  }

  /** A stretch of an order that looks up an enumeration of one kind's map. */
  lemma SegmentKeys(order: seq<TraitItem>, off: nat, m: map<Ident, TraitItem>, k: Kind, names: seq<Ident>)
    requires KindMap(m, k) && Enumerates(names, m.Keys)
    requires off + |names| <= |order| && order[off..off + |names|] == Lookup(m, names)
    ensures forall j :: 0 <= j < |names| ==>
      names[j] in m && order[off + j] == m[names[j]] && TraitKey(order[off + j]) == Some((k, names[j]))
      && IsMember(order[off + j])
  {
    forall j | 0 <= j < |names|
      ensures names[j] in m && order[off + j] == m[names[j]] && TraitKey(m[names[j]]) == Some((k, names[j]))
    {
      assert names[j] in names;
      assert order[off..off + |names|][j] == order[off + j];
    }
  }

  lemma ValidOrderMembers(traitItems: seq<TraitItem>, implBlock: ItemImpl, order: seq<TraitItem>)
    requires ValidOrder(traitItems, implBlock, order)
    ensures AllMembers(order)
  {
    var nc, nf, nt :| OrderOf(traitItems, implBlock, order, nc, nf, nt);
    OrderKeys(traitItems, implBlock, order, nc, nf, nt);
  }

  /**
   * What `complete_impl` returns once subtraction succeeded and the missing
   * members are visited in `order`: the input impl with the generated items
   * appended, or the first generator error.
   */
  function CompletionSpec(traitItems: seq<TraitItem>, implBlock: ItemImpl, gen: ImplGenerator, order: seq<TraitItem>): Result<ItemImpl>
    requires forall i :: 0 <= i < |order| ==> IsMember(order[i])
  {
    var generated :- GenerateSeq(gen, ImplContext(traitItems, implBlock), order);
    Ok(implBlock.(items := implBlock.items + generated))
  }

  ghost predicate SubtractionFails(traitItems: seq<TraitItem>, implBlock: ItemImpl) {
    !forall k :: Covered(traitItems, implBlock, k)
  }

  // --------------------------------------------------------- complete_impl

  /** `names` lists distinct keys of `m`: those not in `todo`. */
  ghost predicate Visited(names: seq<Ident>, todo: set<Ident>, m: map<Ident, TraitItem>) {
    todo <= m.Keys
    && (forall n :: n in names ==> n in m)
    && (forall n :: n in names <==> n in m.Keys - todo)
    && (forall i, j :: 0 <= i < j < |names| ==> names[i] != names[j])
  }

  /** Visiting one more member extends the generated items by its item. */
  lemma LookupStep(gen: ImplGenerator, ctx: ImplContext, m: map<Ident, TraitItem>, k: Kind, names: seq<Ident>, n: Ident)
    requires KindMap(m, k) && n in m && forall x :: x in names ==> x in m
    requires AllMembers(Lookup(m, names))
    ensures AllMembers(Lookup(m, names + [n]))
    ensures GenerateSeq(gen, ctx, Lookup(m, names + [n]))
         == (var a :- GenerateSeq(gen, ctx, Lookup(m, names));
             var b :- GenerateOne(gen, ctx, m[n]);
             Ok(a + [b]))
  {
    assert TraitKey(m[n]) == Some((k, n));
    assert Lookup(m, names + [n]) == Lookup(m, names) + [m[n]];
    GenerateSeqAppend(gen, ctx, Lookup(m, names), [m[n]]);
    assert [m[n]][1..] == [];
    var b := GenerateOne(gen, ctx, m[n]);
    var a := GenerateSeq(gen, ctx, Lookup(m, names));
    if b.Ok? {
      assert GenerateSeq(gen, ctx, [m[n]]) == Ok([b.value] + []);
      assert [b.value] + [] == [b.value];
    }
  }

  /** Once a member has failed, whatever is visited after it does not change the result. */
  lemma FailureSticks(gen: ImplGenerator, ctx: ImplContext, m: map<Ident, TraitItem>, k: Kind, names: seq<Ident>, rest: seq<Ident>)
    requires KindMap(m, k) && (forall x :: x in names ==> x in m) && (forall x :: x in rest ==> x in m)
    requires AllMembers(Lookup(m, names))
    requires GenerateSeq(gen, ctx, Lookup(m, names)).Err?
    ensures AllMembers(Lookup(m, names + rest))
    ensures GenerateSeq(gen, ctx, Lookup(m, names + rest)) == GenerateSeq(gen, ctx, Lookup(m, names))
  {
    var lr := Lookup(m, rest);
    assert AllMembers(lr) by {
      forall i | 0 <= i < |lr| ensures IsMember(lr[i]) {
        assert TraitKey(m[rest[i]]) == Some((k, rest[i]));
      }
    }
    assert Lookup(m, names + rest) == Lookup(m, names) + lr;
    GenerateSeqAppend(gen, ctx, Lookup(m, names), lr);
  }

  /** Visiting a member not yet visited keeps the visited names distinct. */
  lemma VisitStep(names: seq<Ident>, todo: set<Ident>, m: map<Ident, TraitItem>, n: Ident)
    requires Visited(names, todo, m) && n in todo
    ensures Visited(names + [n], todo - {n}, m)
  {
    var all := names + [n];
    forall i, j | 0 <= i < j < |all| ensures all[i] != all[j] {
      if j == |names| {
        assert all[i] in names;
      }
    }
  }

  /** Joining the visited names, a fresh one and an order of the others enumerates the keys. */
  lemma FinishOrder(names: seq<Ident>, todo: set<Ident>, m: map<Ident, TraitItem>, n: Ident, rest: seq<Ident>)
    requires Visited(names, todo, m) && n in todo && Enumerates(rest, todo - {n})
    ensures Enumerates(names + [n] + rest, m.Keys)
  {
    var all := names + [n] + rest;
    forall i, j | 0 <= i < j < |all| ensures all[i] != all[j] {
      if j < |names| {
      } else if i < |names| {
        assert all[i] in names;
        assert all[j] == n || all[j] in rest;
      } else if i == |names| {
        assert all[j] in rest;
      } else {
        assert all[i] == rest[i - |names| - 1] && all[j] == rest[j - |names| - 1];
      }
    }
  }

  /**
   * One of the three loops of `complete_impl`: generates an item for every
   * member in `m`, in an unspecified order, and appends it to `output`.
   */
  method AppendGenerated(gen: ImplGenerator, ctx: ImplContext, m: map<Ident, TraitItem>, ghost k: Kind, output: ItemImpl)
    returns (r: Result<ItemImpl>, ghost names: seq<Ident>)
    requires KindMap(m, k)
    ensures Enumerates(names, m.Keys)
    ensures forall n :: n in names ==> n in m
    ensures AllMembers(Lookup(m, names))
    ensures r == Appended(gen, ctx, output, Lookup(m, names))
  {
    var todo := m.Keys;
    var out := output;
    names := [];
    ghost var generated: seq<ImplItem> := [];
    while todo != {}
      invariant Visited(names, todo, m)
      invariant AllMembers(Lookup(m, names))
      invariant GenerateSeq(gen, ctx, Lookup(m, names)) == Ok(generated)
      invariant out == output.(items := output.items + generated)
      decreases todo
    {
      var n :| n in todo;  // HashMap iteration order is unspecified
      var g := GenerateOne(gen, ctx, m[n]);
      LookupStep(gen, ctx, m, k, names, n);
      if g.Err? {
        ghost var rest := Enumerate(todo - {n});
        FailureSticks(gen, ctx, m, k, names + [n], rest);
        FinishOrder(names, todo, m, n, rest);
        names := names + [n] + rest;
        return Err(g.msg), names;
      }
      out := out.(items := out.items + [g.value]);
      generated := generated + [g.value];
      VisitStep(names, todo, m, n);
      todo := todo - {n};
      names := names + [n];
    }
    return Ok(out), names;
  }

  /**
   * `complete_impl`: subtracts the impl's members from the trait's, then
   * appends one generated item per missing constant, function and type.
   */
  method CompleteImpl(traitItems: seq<TraitItem>, implBlock: ItemImpl, gen: ImplGenerator) returns (r: Result<ItemImpl>)
    ensures SubtractionFails(traitItems, implBlock) ==> r.Err? && SubtractResult(traitItems, implBlock, Err(r.msg))
    ensures !SubtractionFails(traitItems, implBlock) ==>
      exists order :: ValidOrder(traitItems, implBlock, order) && AllMembers(order)
        && r == CompletionSpec(traitItems, implBlock, gen, order)
  {
    var items := SubtractItems(traitItems, implBlock);
    if items.Err? {
      return Err(items.msg);
    }
    r := AppendMissing(traitItems, implBlock, gen, items.value);
  }

  /** The three loops of `complete_impl`, on the members subtraction left. */
  method AppendMissing(traitItems: seq<TraitItem>, implBlock: ItemImpl, gen: ImplGenerator, rem: Remaining) returns (r: Result<ItemImpl>)
    requires forall k :: rem.Get(k) == Unimplemented(traitItems, implBlock, k)
    ensures exists order ::
      ValidOrder(traitItems, implBlock, order) && AllMembers(order)
      && r == CompletionSpec(traitItems, implBlock, gen, order)
  {
    var output := implBlock;
    var ctx := ImplContext(traitItems, implBlock);
    forall k ensures KindMap(rem.Get(k), k) {
      UnimplementedKeys(traitItems, implBlock, k);
    }
    assert rem.consts == rem.Get(ConstKind) && rem.fns == rem.Get(FnKind) && rem.types == rem.Get(TypeKind);
    var rc, nc := AppendGenerated(gen, ctx, rem.consts, ConstKind, output);
    ghost var nf, nt := Enumerate(rem.fns.Keys), Enumerate(rem.types.Keys);
    var rf, rt := rc, rc;
    if rc.Ok? {
      rf, nf := AppendGenerated(gen, ctx, rem.fns, FnKind, rc.value);
      if rf.Ok? {
        rt, nt := AppendGenerated(gen, ctx, rem.types, TypeKind, rf.value);
      }
    }
    r := if rc.Err? then rc else if rf.Err? then rf else rt;
    Assemble(traitItems, implBlock, gen, rem, nc, nf, nt, rc, rf, rt);
  }

  /** The three loops' results, put together, are a completion in a valid order. */
  lemma Assemble(traitItems: seq<TraitItem>, implBlock: ItemImpl, gen: ImplGenerator, rem: Remaining,
                 nc: seq<Ident>, nf: seq<Ident>, nt: seq<Ident>, rc: Result<ItemImpl>, rf: Result<ItemImpl>, rt: Result<ItemImpl>)
    requires forall k :: rem.Get(k) == Unimplemented(traitItems, implBlock, k)
    requires forall k :: KindMap(rem.Get(k), k)
    requires Enumerates(nc, rem.consts.Keys) && Enumerates(nf, rem.fns.Keys) && Enumerates(nt, rem.types.Keys)
    requires forall n :: n in nc ==> n in rem.consts
    requires forall n :: n in nf ==> n in rem.fns
    requires forall n :: n in nt ==> n in rem.types
    requires AllMembers(Lookup(rem.consts, nc))
    requires rc == Appended(gen, ImplContext(traitItems, implBlock), implBlock, Lookup(rem.consts, nc))
    requires rc.Ok? ==> AllMembers(Lookup(rem.fns, nf)) && rf == Appended(gen, ImplContext(traitItems, implBlock), rc.value, Lookup(rem.fns, nf))
    requires rc.Ok? && rf.Ok? ==>
      AllMembers(Lookup(rem.types, nt)) && rt == Appended(gen, ImplContext(traitItems, implBlock), rf.value, Lookup(rem.types, nt))
    ensures exists order ::
      ValidOrder(traitItems, implBlock, order) && AllMembers(order)
      && (if rc.Err? then rc else if rf.Err? then rf else rt) == CompletionSpec(traitItems, implBlock, gen, order)
  {
    var ctx := ImplContext(traitItems, implBlock);
    assert rem.consts == rem.Get(ConstKind) && rem.fns == rem.Get(FnKind) && rem.types == rem.Get(TypeKind);
    var lc, lf, lt := Lookup(rem.consts, nc), Lookup(rem.fns, nf), Lookup(rem.types, nt);
    KindOrderMembers(rem.fns, FnKind, nf);
    KindOrderMembers(rem.types, TypeKind, nt);
    Chain(gen, ctx, implBlock, lc, lf, lt, rc, rf, rt);
    Witness(traitItems, implBlock, rem, nc, nf, nt);
    ValidOrderMembers(traitItems, implBlock, lc + lf + lt);
    assert Appended(gen, ctx, implBlock, lc + lf + lt) == CompletionSpec(traitItems, implBlock, gen, lc + lf + lt);
  }

  lemma KindOrderMembers(m: map<Ident, TraitItem>, k: Kind, names: seq<Ident>)
    requires KindMap(m, k) && forall n :: n in names ==> n in m
    ensures AllMembers(Lookup(m, names))
  {
    forall i | 0 <= i < |names| ensures IsMember(Lookup(m, names)[i]) {
      assert TraitKey(m[names[i]]) == Some((k, names[i]));
    }
  }

  /** `out` with the items generated for `l` appended, or the first error. */
  function Appended(gen: ImplGenerator, ctx: ImplContext, out: ItemImpl, l: seq<TraitItem>): Result<ItemImpl>
    requires AllMembers(l)
  {
    var g :- GenerateSeq(gen, ctx, l);
    Ok(out.(items := out.items + g))
  }

  /** Two loops, the second continuing from the first one's output, generate the concatenation. */
  lemma ChainTwo(gen: ImplGenerator, ctx: ImplContext, output: ItemImpl, l1: seq<TraitItem>, l2: seq<TraitItem>,
                 r1: Result<ItemImpl>, r2: Result<ItemImpl>)
    requires AllMembers(l1) && AllMembers(l2)
    requires r1 == Appended(gen, ctx, output, l1)
    requires r1.Ok? ==> r2 == Appended(gen, ctx, r1.value, l2)
    ensures AllMembers(l1 + l2)
    ensures (if r1.Err? then r1 else r2) == Appended(gen, ctx, output, l1 + l2)
  {
    GenerateSeqAppend(gen, ctx, l1, l2);
    var g1, g2 := GenerateSeq(gen, ctx, l1), GenerateSeq(gen, ctx, l2);
    if g1.Err? {
      assert r1 == Err(g1.msg);
      assert GenerateSeq(gen, ctx, l1 + l2) == Err(g1.msg);
    } else if g2.Err? {
      assert r2 == Err(g2.msg);
      assert GenerateSeq(gen, ctx, l1 + l2) == Err(g2.msg);
    } else {
      assert GenerateSeq(gen, ctx, l1 + l2) == Ok(g1.value + g2.value);
      assert output.items + g1.value + g2.value == output.items + (g1.value + g2.value);
    }
  }

  /** Three loops, each continuing from the last one's output, generate the concatenation. */
  lemma Chain(gen: ImplGenerator, ctx: ImplContext, output: ItemImpl, l1: seq<TraitItem>, l2: seq<TraitItem>, l3: seq<TraitItem>,
              r1: Result<ItemImpl>, r2: Result<ItemImpl>, r3: Result<ItemImpl>)
    requires AllMembers(l1) && AllMembers(l2) && AllMembers(l3)
    requires r1 == Appended(gen, ctx, output, l1)
    requires r1.Ok? ==> r2 == Appended(gen, ctx, r1.value, l2)
    requires r1.Ok? && r2.Ok? ==> r3 == Appended(gen, ctx, r2.value, l3)
    ensures AllMembers(l1 + l2 + l3)
    ensures (if r1.Err? then r1 else if r2.Err? then r2 else r3) == Appended(gen, ctx, output, l1 + l2 + l3)
  {
    ChainTwo(gen, ctx, output, l1, l2, r1, r2);
    var r12 := if r1.Err? then r1 else r2;
    ChainTwo(gen, ctx, output, l1 + l2, l3, r12, r3);
  }

  /** The three per-kind orders put together form a valid completion order. */
  lemma Witness(traitItems: seq<TraitItem>, implBlock: ItemImpl, rem: Remaining, nc: seq<Ident>, nf: seq<Ident>, nt: seq<Ident>)
    requires forall k :: rem.Get(k) == Unimplemented(traitItems, implBlock, k)
    requires Enumerates(nc, rem.consts.Keys) && Enumerates(nf, rem.fns.Keys) && Enumerates(nt, rem.types.Keys)
    ensures ValidOrder(traitItems, implBlock, Lookup(rem.consts, nc) + Lookup(rem.fns, nf) + Lookup(rem.types, nt))
  {
    assert rem.consts == rem.Get(ConstKind) && rem.fns == rem.Get(FnKind) && rem.types == rem.Get(TypeKind);
    assert OrderOf(traitItems, implBlock, Lookup(rem.consts, nc) + Lookup(rem.fns, nf) + Lookup(rem.types, nt), nc, nf, nt);
  }

  // ------------------------------------------------ properties of completion

  /** A list of distinct names has as many elements as the set it enumerates. */
  lemma {:induction false} EnumerationSize(names: seq<Ident>, keys: set<Ident>)
    requires Enumerates(names, keys)
    ensures |names| == |keys|
    decreases |names|
  {
    if names != [] {
      var rest := names[1..];
      assert Enumerates(rest, keys - {names[0]}) by {
        forall n ensures n in rest <==> n in keys - {names[0]} {
          if n in rest {
            var i :| 0 <= i < |rest| && rest[i] == n;
            assert names[i + 1] == n && names[0] != names[i + 1];
          }
        }
      }
      EnumerationSize(rest, keys - {names[0]});
    } else {
      assert forall n :: n !in keys;
    }
  }

  /** The input impl is kept as it is: its attributes, header and items, in place. */
  lemma CompletionKeepsProvided(traitItems: seq<TraitItem>, implBlock: ItemImpl, gen: ImplGenerator, order: seq<TraitItem>)
    requires AllMembers(order)
    ensures var r := CompletionSpec(traitItems, implBlock, gen, order);
      r.Ok? ==>
        r.value.attrs == implBlock.attrs && r.value.generics == implBlock.generics
        && r.value.trait_ == implBlock.trait_ && r.value.selfTy == implBlock.selfTy
        && |implBlock.items| <= |r.value.items| && r.value.items[..|implBlock.items|] == implBlock.items
  {
  }

  /** An order holds the constants, then the functions, then the types. */
  lemma OrderKinds(traitItems: seq<TraitItem>, implBlock: ItemImpl, order: seq<TraitItem>, nc: seq<Ident>, nf: seq<Ident>, nt: seq<Ident>)
    requires OrderOf(traitItems, implBlock, order, nc, nf, nt)
    ensures |order| == |nc| + |nf| + |nt|
    ensures forall j :: 0 <= j < |nc| ==> order[j].TIConst?
    ensures forall j :: |nc| <= j < |nc| + |nf| ==> order[j].TIFn?
    ensures forall j :: |nc| + |nf| <= j < |order| ==> order[j].TIType?
  {
    var uc, uf, ut := Unimplemented(traitItems, implBlock, ConstKind), Unimplemented(traitItems, implBlock, FnKind),
                      Unimplemented(traitItems, implBlock, TypeKind);
    UnimplementedKinds(traitItems, implBlock, ConstKind);
    UnimplementedKinds(traitItems, implBlock, FnKind);
    UnimplementedKinds(traitItems, implBlock, TypeKind);
    var lc, lf, lt := Lookup(uc, nc), Lookup(uf, nf), Lookup(ut, nt);
    var c, f := |nc|, |nf|;
    forall j | 0 <= j < c ensures order[j].TIConst? {
      assert order[j] == lc[j] && nc[j] in nc;
      assert TraitKey(uc[nc[j]]) == Some((ConstKind, nc[j]));
    }
    forall j | c <= j < c + f ensures order[j].TIFn? {
      assert order[j] == lf[j - c] && nf[j - c] in nf;
      assert TraitKey(uf[nf[j - c]]) == Some((FnKind, nf[j - c]));
    }
    forall j | c + f <= j < |order| ensures order[j].TIType? {
      assert order[j] == lt[j - c - f] && nt[j - c - f] in nt;
      assert TraitKey(ut[nt[j - c - f]]) == Some((TypeKind, nt[j - c - f]));
    }
  }

  lemma UnimplementedKinds(traitItems: seq<TraitItem>, implBlock: ItemImpl, k: Kind)
    ensures KindMap(Unimplemented(traitItems, implBlock, k), k)
  {
    UnimplementedKeys(traitItems, implBlock, k);
  }

  /**
   * One item is appended per missing member: first one per missing
   * constant, then one per missing function, then one per missing type.
   */
  lemma CompletionOnePerMember(traitItems: seq<TraitItem>, implBlock: ItemImpl, gen: ImplGenerator, order: seq<TraitItem>)
    requires ValidOrder(traitItems, implBlock, order)
    ensures AllMembers(order)
    ensures var r := CompletionSpec(traitItems, implBlock, gen, order);
      var base := |implBlock.items|;
      var c := |Unimplemented(traitItems, implBlock, ConstKind)|;
      var f := |Unimplemented(traitItems, implBlock, FnKind)|;
      var t := |Unimplemented(traitItems, implBlock, TypeKind)|;
      r.Ok? ==>
        |r.value.items| == base + c + f + t
        && (forall i :: base <= i < base + c ==> r.value.items[i].IIConst?)
        && (forall i :: base + c <= i < base + c + f ==> r.value.items[i].IIFn?)
        && (forall i :: base + c + f <= i < |r.value.items| ==> r.value.items[i].IIType?)
  {
    var nc, nf, nt :| OrderOf(traitItems, implBlock, order, nc, nf, nt);
    ValidOrderMembers(traitItems, implBlock, order);
    OrderKinds(traitItems, implBlock, order, nc, nf, nt);
    EnumerationSize(nc, Unimplemented(traitItems, implBlock, ConstKind).Keys);
    EnumerationSize(nf, Unimplemented(traitItems, implBlock, FnKind).Keys);
    EnumerationSize(nt, Unimplemented(traitItems, implBlock, TypeKind).Keys);
    var ctx := ImplContext(traitItems, implBlock);
    var r := CompletionSpec(traitItems, implBlock, gen, order);
    if r.Ok? {
      var g := GenerateSeq(gen, ctx, order).value;
      GeneratedKinds(gen, ctx, order);
      assert r.value.items == implBlock.items + g;
      KindsCarryOver(order, implBlock.items, g, |nc|, |nf|);
    }
  }

  /** Each generated item has the kind of the member it was generated for. */
  lemma GeneratedKinds(gen: ImplGenerator, ctx: ImplContext, order: seq<TraitItem>)
    requires AllMembers(order)
    ensures var r := GenerateSeq(gen, ctx, order);
      r.Ok? ==>
        |r.value| == |order|
        && forall i :: 0 <= i < |order| ==>
          r.value[i].IIConst? == order[i].TIConst? && r.value[i].IIFn? == order[i].TIFn? && r.value[i].IIType? == order[i].TIType?
  {
    GenerateSeqItems(gen, ctx, order);
    var r := GenerateSeq(gen, ctx, order);
    if r.Ok? {
      forall i | 0 <= i < |order|
        ensures r.value[i].IIConst? == order[i].TIConst? && r.value[i].IIFn? == order[i].TIFn? && r.value[i].IIType? == order[i].TIType?
      {
        assert r.value[i] == GenerateOne(gen, ctx, order[i]).value;
      }
    }
  }

  /** Generated items, appended after the provided ones, sit where the members they implement sit in the order. */
  lemma KindsCarryOver(order: seq<TraitItem>, pre: seq<ImplItem>, g: seq<ImplItem>, c: nat, f: nat)
    requires |g| == |order| && c + f <= |order|
    requires forall i :: 0 <= i < |g| ==>
      g[i].IIConst? == order[i].TIConst? && g[i].IIFn? == order[i].TIFn? && g[i].IIType? == order[i].TIType?
    requires forall j :: 0 <= j < c ==> order[j].TIConst?
    requires forall j :: c <= j < c + f ==> order[j].TIFn?
    requires forall j :: c + f <= j < |order| ==> order[j].TIType?
    ensures forall i :: |pre| <= i < |pre| + c ==> (pre + g)[i].IIConst?
    ensures forall i :: |pre| + c <= i < |pre| + c + f ==> (pre + g)[i].IIFn?
    ensures forall i :: |pre| + c + f <= i < |pre + g| ==> (pre + g)[i].IIType?
  {
    forall i | |pre| <= i < |pre + g| ensures (pre + g)[i] == g[i - |pre|] {}
  }

  /**
   * Whether completion fails does not depend on the order: it fails exactly
   * when the hook fails on some missing member.
   */
  lemma CompletionFailsIff(traitItems: seq<TraitItem>, implBlock: ItemImpl, gen: ImplGenerator, order: seq<TraitItem>)
    requires ValidOrder(traitItems, implBlock, order)
    ensures AllMembers(order)
    ensures CompletionSpec(traitItems, implBlock, gen, order).Err?
        <==> exists k, n :: n in Unimplemented(traitItems, implBlock, k)
               && IsMember(Unimplemented(traitItems, implBlock, k)[n])
               && GenerateOne(gen, ImplContext(traitItems, implBlock), Unimplemented(traitItems, implBlock, k)[n]).Err?
  {
    ValidOrderMembers(traitItems, implBlock, order);
    var ctx := ImplContext(traitItems, implBlock);
    GenerateSeqItems(gen, ctx, order);
    OrderVisits(traitItems, implBlock, order);
  }

  /** An order visits exactly the missing members. */
  lemma OrderVisits(traitItems: seq<TraitItem>, implBlock: ItemImpl, order: seq<TraitItem>)
    requires ValidOrder(traitItems, implBlock, order)
    ensures forall j :: 0 <= j < |order| ==>
      TraitKey(order[j]).Some?
      && TraitKey(order[j]).value.1 in Unimplemented(traitItems, implBlock, TraitKey(order[j]).value.0)
      && order[j] == Unimplemented(traitItems, implBlock, TraitKey(order[j]).value.0)[TraitKey(order[j]).value.1]
    ensures forall k, n :: n in Unimplemented(traitItems, implBlock, k) ==>
      exists j :: 0 <= j < |order| && order[j] == Unimplemented(traitItems, implBlock, k)[n]
  {
    var nc, nf, nt :| OrderOf(traitItems, implBlock, order, nc, nf, nt);
    OrderKeys(traitItems, implBlock, order, nc, nf, nt);
    OrderVisitsOnlyMissing(traitItems, implBlock, order, nc, nf, nt);
    OrderVisitsAllMissing(traitItems, implBlock, order, nc, nf, nt);
  }

  lemma OrderVisitsOnlyMissing(traitItems: seq<TraitItem>, implBlock: ItemImpl, order: seq<TraitItem>, nc: seq<Ident>, nf: seq<Ident>, nt: seq<Ident>)
    requires OrderOf(traitItems, implBlock, order, nc, nf, nt)
    ensures forall j :: 0 <= j < |order| ==>
      TraitKey(order[j]).Some?
      && TraitKey(order[j]).value.1 in Unimplemented(traitItems, implBlock, TraitKey(order[j]).value.0)
      && order[j] == Unimplemented(traitItems, implBlock, TraitKey(order[j]).value.0)[TraitKey(order[j]).value.1]
  {
    OrderKeys(traitItems, implBlock, order, nc, nf, nt);
    var c, f := |nc|, |nf|;
    forall j | 0 <= j < |order|
      ensures TraitKey(order[j]).Some?
      ensures TraitKey(order[j]).value.1 in Unimplemented(traitItems, implBlock, TraitKey(order[j]).value.0)
      ensures order[j] == Unimplemented(traitItems, implBlock, TraitKey(order[j]).value.0)[TraitKey(order[j]).value.1]
    {
      if j < c {
        assert TraitKey(order[j]) == Some((ConstKind, nc[j]));
      } else if j < c + f {
        var i := j - c;
        assert TraitKey(order[c + i]) == Some((FnKind, nf[i]));
      } else {
        var i := j - c - f;
        assert TraitKey(order[c + f + i]) == Some((TypeKind, nt[i]));
      }
    }
  }

  lemma OrderVisitsAllMissing(traitItems: seq<TraitItem>, implBlock: ItemImpl, order: seq<TraitItem>, nc: seq<Ident>, nf: seq<Ident>, nt: seq<Ident>)
    requires OrderOf(traitItems, implBlock, order, nc, nf, nt)
    ensures forall k, n :: n in Unimplemented(traitItems, implBlock, k) ==>
      exists j :: 0 <= j < |order| && order[j] == Unimplemented(traitItems, implBlock, k)[n]
  {
    OrderKeys(traitItems, implBlock, order, nc, nf, nt);
    var c, f := |nc|, |nf|;
    forall k, n | n in Unimplemented(traitItems, implBlock, k)
      ensures exists j :: 0 <= j < |order| && order[j] == Unimplemented(traitItems, implBlock, k)[n]
    {
      match k
      case ConstKind =>
        assert n in nc;
        var i :| 0 <= i < |nc| && nc[i] == n;
        assert order[i] == Unimplemented(traitItems, implBlock, k)[n];
      case FnKind =>
        assert n in nf;
        var i :| 0 <= i < |nf| && nf[i] == n;
        assert order[c + i] == Unimplemented(traitItems, implBlock, k)[n];
      case TypeKind =>
        assert n in nt;
        var i :| 0 <= i < |nt| && nt[i] == n;
        assert order[c + f + i] == Unimplemented(traitItems, implBlock, k)[n];
    }
  }

  /** Every hook names its output after the member it implements. */
  ghost predicate NamePreserving(gen: ImplGenerator) {
    (forall ctx, c :: gen.genConst(ctx, c).Ok? ==> gen.genConst(ctx, c).value.ident == c.ident)
    && (forall ctx, f :: gen.genFn(ctx, f).Ok? ==> gen.genFn(ctx, f).value.sig.ident == f.sig.ident)
    && (forall ctx, t :: gen.genType(ctx, t).Ok? ==> gen.genType(ctx, t).value.ident == t.ident)
  }

  /** The names of kind `k` after appending are those before and those of the appended items. */
  lemma IndexAppend(xs: seq<ImplItem>, ys: seq<ImplItem>, k: Kind)
    ensures forall n :: n in ImplIndex(xs + ys, k) <==>
      n in ImplIndex(xs, k) || exists j :: 0 <= j < |ys| && ImplKey(ys[j]) == Some((k, n))
  {
    IndexKeys(xs + ys, ImplKey, k);
    IndexKeys(xs, ImplKey, k);
    forall n | n in ImplIndex(xs + ys, k)
      ensures n in ImplIndex(xs, k) || exists j :: 0 <= j < |ys| && ImplKey(ys[j]) == Some((k, n))
    {
      var i :| 0 <= i < |xs + ys| && ImplKey((xs + ys)[i]) == Some((k, n));
      if i >= |xs| {
        assert ys[i - |xs|] == (xs + ys)[i];
      } else {
        assert xs[i] == (xs + ys)[i];
      }
    }
    forall n | n in ImplIndex(xs, k) ensures n in ImplIndex(xs + ys, k) {
      var i :| 0 <= i < |xs| && ImplKey(xs[i]) == Some((k, n));
      assert (xs + ys)[i] == xs[i];
    }
    forall n, j | 0 <= j < |ys| && ImplKey(ys[j]) == Some((k, n)) ensures n in ImplIndex(xs + ys, k) {
      assert (xs + ys)[|xs| + j] == ys[j];
    }
  }

  /** A name-keeping hook's item has the member's own kind and name. */
  lemma GenerateOneKey(gen: ImplGenerator, ctx: ImplContext, item: TraitItem)
    requires NamePreserving(gen) && IsMember(item) && GenerateOne(gen, ctx, item).Ok?
    ensures ImplKey(GenerateOne(gen, ctx, item).value) == TraitKey(item)
  {
  }

  /** With name-keeping hooks, the generated items carry exactly the missing members' names. */
  lemma GeneratedNames(traitItems: seq<TraitItem>, implBlock: ItemImpl, gen: ImplGenerator, order: seq<TraitItem>, k: Kind)
    requires ValidOrder(traitItems, implBlock, order)
    requires NamePreserving(gen)
    ensures AllMembers(order)
    ensures var g := GenerateSeq(gen, ImplContext(traitItems, implBlock), order);
      g.Ok? ==> forall n :: (exists j :: 0 <= j < |g.value| && ImplKey(g.value[j]) == Some((k, n)))
                           <==> n in Unimplemented(traitItems, implBlock, k)
  {
    ValidOrderMembers(traitItems, implBlock, order);
    var ctx := ImplContext(traitItems, implBlock);
    var gr := GenerateSeq(gen, ctx, order);
    if gr.Ok? {
      GenerateSeqItems(gen, ctx, order);
      OrderVisits(traitItems, implBlock, order);
      UnimplementedKeys(traitItems, implBlock, k);
      var g := gr.value;
      var u := Unimplemented(traitItems, implBlock, k);
      forall j | 0 <= j < |g| ensures ImplKey(g[j]) == TraitKey(order[j]) {
        GenerateOneKey(gen, ctx, order[j]);
      }
      forall n ensures (exists j :: 0 <= j < |g| && ImplKey(g[j]) == Some((k, n))) <==> n in u {
        if n in u {
          var j :| 0 <= j < |order| && order[j] == u[n];
          assert ImplKey(g[j]) == Some((k, n));
        }
      }
    }
  }

  /**
   * With hooks that keep member names, a completed impl declares exactly the
   * trait's members: per kind, the same set of names as the trait.
   */
  lemma CompletionDeclaresTrait(traitItems: seq<TraitItem>, implBlock: ItemImpl, gen: ImplGenerator, order: seq<TraitItem>, k: Kind)
    requires ValidOrder(traitItems, implBlock, order)
    requires forall k :: Covered(traitItems, implBlock, k)
    requires NamePreserving(gen)
    ensures AllMembers(order)
    ensures var r := CompletionSpec(traitItems, implBlock, gen, order);
      r.Ok? ==> ImplIndex(r.value.items, k).Keys == TraitIndex(traitItems, k).Keys
  {
    ValidOrderMembers(traitItems, implBlock, order);
    var ctx := ImplContext(traitItems, implBlock);
    var r := CompletionSpec(traitItems, implBlock, gen, order);
    if r.Ok? {
      assert GenerateSeq(gen, ctx, order).Ok?;
      var g := GenerateSeq(gen, ctx, order).value;
      GeneratedNames(traitItems, implBlock, gen, order, k);
      IndexAppend(implBlock.items, g, k);
      assert r.value.items == implBlock.items + g;
      assert Covered(traitItems, implBlock, k);
      var u := Unimplemented(traitItems, implBlock, k);
      forall n ensures n in ImplIndex(r.value.items, k) <==> n in TraitIndex(traitItems, k) {
        assert n in ImplIndex(implBlock.items + g, k) <==>
          n in ImplIndex(implBlock.items, k) || exists j :: 0 <= j < |g| && ImplKey(g[j]) == Some((k, n));
        assert (exists j :: 0 <= j < |g| && ImplKey(g[j]) == Some((k, n))) <==> n in u;
      }
    }
  }
}
