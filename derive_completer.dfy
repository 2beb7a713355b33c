/**
 * Building a whole trait impl for a derive input
 * (framework/src/derive_completer.rs): every trait member gets one generated
 * item, in the order the trait declares them; the generics and where clause
 * start as the input's own and the generator may add to them; the self type
 * is the input's name applied to its parameter names.
 */
module DeriveCompleter {
  import opened Syntax

  /** `DeriveContext`: what every generator call can see. */
  datatype DeriveContext = DeriveContext(traitPath: Path, allTraitItems: seq<TraitItem>, input: DeriveInput)

  /**
   * `GenerateDerive`. The two `extend_*` hooks return what they append to
   * the parameter, where-predicate and attribute lists.
   */
  datatype DeriveGenerator = DeriveGenerator(
    genConst: (DeriveContext, TraitConst) -> Result<ImplConst>,
    genFn: (DeriveContext, TraitFn) -> Result<ImplFn>,
    genType: (DeriveContext, TraitType) -> Result<ImplType>,
    extendGenerics: (DeriveContext, seq<GenericParam>, seq<WherePredicate>) -> Result<(seq<GenericParam>, seq<WherePredicate>)>,
    extendAttrs: (DeriveContext, seq<Attr>) -> Result<seq<Attr>>)

  /** The default `extend_generics` and `extend_attrs`: add nothing. */
  function NoExtraGenerics(ctx: DeriveContext, params: seq<GenericParam>, preds: seq<WherePredicate>): Result<(seq<GenericParam>, seq<WherePredicate>)> {
    Ok(([], []))
  }

  function NoExtraAttrs(ctx: DeriveContext, attrs: seq<Attr>): Result<seq<Attr>> {
    Ok([])
  }

  /** The where-clause predicates of a generics list, none when there is no clause. */
  function WherePredicates(g: Generics): seq<WherePredicate> {
    if g.whereClause.Some? then g.whereClause.value else []
  }

  /**
   * The implemented type: the input's name followed by the bare names of
   * its generic parameters, without brackets when there are none.
   */
  function SelfTy(input: DeriveInput): (r: Type)
    ensures r.TPath? && !r.path.leadingColon && r.path.tail == [] && r.path.head.ident == input.ident
    ensures input.generics.params == [] <==> r.path.head.args == PathNone
    ensures input.generics.params != [] ==>
      r.path.head.args.AngleBracketed?
      && |r.path.head.args.generic| == |input.generics.params|
      && forall i :: 0 <= i < |input.generics.params| ==> r.path.head.args.generic[i] == ParamArg(input.generics.params[i])
  {
    var params := input.generics.params;
    var args := if params == [] then PathNone else AngleBracketed(seq(|params|, i requires 0 <= i < |params| => ParamArg(params[i])));
    TPath(Path(false, Segment(input.ident, args), []))
  }

  /** The trait's members, other items left out, in declaration order. */
  function Members(items: seq<TraitItem>): (r: seq<TraitItem>)
    ensures forall i :: 0 <= i < |r| ==> !r[i].TIOther?
    ensures |r| <= |items|
  {
    if items == [] then []
    else Members(items[..|items| - 1]) + (if items[|items| - 1].TIOther? then [] else [items[|items| - 1]])
  }

  /** The hook for one trait item; `None` for items that are not members. */
  function DeriveOne(gen: DeriveGenerator, ctx: DeriveContext, item: TraitItem): (r: Option<Result<ImplItem>>)
    ensures r.None? <==> item.TIOther?
    ensures r.Some? && r.value.Ok? ==>
      r.value.value.IIConst? == item.TIConst? && r.value.value.IIFn? == item.TIFn? && r.value.value.IIType? == item.TIType?
  {
    match item
    case TIConst(c) => Some(var x :- gen.genConst(ctx, c); Ok(IIConst(x)))
    case TIFn(f) => Some(var x :- gen.genFn(ctx, f); Ok(IIFn(x)))
    case TIType(t) => Some(var x :- gen.genType(ctx, t); Ok(IIType(x)))
    case TIOther(_) => None
  }

  /** The item loop of `complete_derive`: one item per member, the first failure ending it. */
  function DeriveItems(gen: DeriveGenerator, ctx: DeriveContext, items: seq<TraitItem>): Result<seq<ImplItem>>
    decreases |items|
  {
    if items == [] then Ok([])
    else
      var init :- DeriveItems(gen, ctx, items[..|items| - 1]);
      var g := DeriveOne(gen, ctx, items[|items| - 1]);
      if g.None? then Ok(init)
      else
        var x :- g.value;
        Ok(init + [x])
  }

  /** `complete_derive`, from the hooks' results. */
  function DeriveSpec(traitPath: Path, traitItems: seq<TraitItem>, input: DeriveInput, gen: DeriveGenerator): Result<ItemImpl> {
    var ctx := DeriveContext(traitPath, traitItems, input);
    var params := input.generics.params;
    var preds := WherePredicates(input.generics);
    var extra :- gen.extendGenerics(ctx, params, preds);
    var items :- DeriveItems(gen, ctx, traitItems);
    var more :- gen.extendAttrs(ctx, CfgAttrs(input.attrs));
    Ok(AssembleImpl(traitPath, input, params + extra.0, preds + extra.1, CfgAttrs(input.attrs) + more, items))
  }

  /** The final `ItemImpl`: brackets only around a non-empty parameter list, a where clause only for predicates. */
  function AssembleImpl(traitPath: Path, input: DeriveInput, params: seq<GenericParam>, preds: seq<WherePredicate>,
                        attrs: seq<Attr>, items: seq<ImplItem>): ItemImpl {
    ItemImpl(attrs, Generics(params != [], params, if preds == [] then None else Some(preds)),
             Some(TraitRef(false, traitPath)), SelfTy(input), items)
  }

  /** `complete_derive`: the generics hook, the item loop, then the attribute hook. */
  method CompleteDerive(traitPath: Path, traitItems: seq<TraitItem>, input: DeriveInput, gen: DeriveGenerator) returns (r: Result<ItemImpl>)
    ensures r == DeriveSpec(traitPath, traitItems, input, gen)
  {
    var ctx := DeriveContext(traitPath, traitItems, input);
    var params := input.generics.params;
    var preds := WherePredicates(input.generics);
    var extra := gen.extendGenerics(ctx, params, preds);
    if extra.Err? {
      return Err(extra.msg);
    }
    params := params + extra.value.0;
    preds := preds + extra.value.1;
    var selfTy := SelfTy(input);
    var items: seq<ImplItem> := [];
    for i := 0 to |traitItems|
      invariant DeriveItems(gen, ctx, traitItems[..i]) == Ok(items)
    {
      assert traitItems[..i + 1][..i] == traitItems[..i];
      match traitItems[i] {
        case TIConst(c) =>
          var x := gen.genConst(ctx, c);
          if x.Err? {
            FirstFailure(gen, ctx, traitItems, i + 1);
            return Err(x.msg);
          }
          items := items + [IIConst(x.value)];
        case TIFn(f) =>
          var x := gen.genFn(ctx, f);
          if x.Err? {
            FirstFailure(gen, ctx, traitItems, i + 1);
            return Err(x.msg);
          }
          items := items + [IIFn(x.value)];
        case TIType(t) =>
          var x := gen.genType(ctx, t);
          if x.Err? {
            FirstFailure(gen, ctx, traitItems, i + 1);
            return Err(x.msg);
          }
          items := items + [IIType(x.value)];
        case TIOther(_) =>
      }
    }
    assert traitItems[..|traitItems|] == traitItems;
    var attrs := CfgAttrs(input.attrs);
    var more := gen.extendAttrs(ctx, attrs);
    if more.Err? {
      return Err(more.msg);
    }
    attrs := attrs + more.value;
    return Ok(ItemImpl(attrs, Generics(params != [], params, if preds == [] then None else Some(preds)),
                       Some(TraitRef(false, traitPath)), selfTy, items));
  }

  /** Once an item fails, the loop's result is that failure. */
  lemma {:induction false} FirstFailure(gen: DeriveGenerator, ctx: DeriveContext, items: seq<TraitItem>, i: nat)
    requires 0 < i <= |items| && DeriveItems(gen, ctx, items[..i - 1]).Ok?
    requires DeriveOne(gen, ctx, items[i - 1]).Some? && DeriveOne(gen, ctx, items[i - 1]).value.Err?
    ensures DeriveItems(gen, ctx, items) == Err(DeriveOne(gen, ctx, items[i - 1]).value.msg)
    decreases |items|
  {
    if i == |items| {
      assert items[..i - 1] == items[..|items| - 1];
    } else {
      var init := items[..|items| - 1];
      assert init[..i - 1] == items[..i - 1] && init[i - 1] == items[i - 1];
      FirstFailure(gen, ctx, init, i);
    }
  }

  // ------------------------------------------------------------ properties

  /**
   * The item loop succeeds exactly when every member's hook does, and then
   * yields one item per member, in declaration order, of the member's kind.
   */
  lemma {:induction false} DeriveItemsShape(gen: DeriveGenerator, ctx: DeriveContext, items: seq<TraitItem>)
    ensures DeriveItems(gen, ctx, items).Ok? <==>
      forall i :: 0 <= i < |Members(items)| ==> DeriveOne(gen, ctx, Members(items)[i]).value.Ok?
    ensures DeriveItems(gen, ctx, items).Ok? ==>
      |DeriveItems(gen, ctx, items).value| == |Members(items)|
      && forall i :: 0 <= i < |Members(items)| ==>
        DeriveItems(gen, ctx, items).value[i] == DeriveOne(gen, ctx, Members(items)[i]).value.value
    decreases |items|
  {
    if items != [] {
      var init := items[..|items| - 1];
      var last := items[|items| - 1];
      DeriveItemsShape(gen, ctx, init);
      var m := Members(init);
      assert Members(items) == m + (if last.TIOther? then [] else [last]);
      if !last.TIOther? {
        assert Members(items)[|m|] == last;
        assert forall i :: 0 <= i < |m| ==> Members(items)[i] == m[i];
        if DeriveOne(gen, ctx, last).value.Err? {
          assert !DeriveOne(gen, ctx, Members(items)[|m|]).value.Ok?;
        }
      } else {
        assert Members(items) == m;
      }
    }
  }

  /** Every member of the trait is in `Members`, and nothing else is. */
  lemma {:induction false} MembersAreMembers(items: seq<TraitItem>)
    ensures forall x :: x in Members(items) <==> x in items && !x.TIOther?
    decreases |items|
  {
    if items != [] {
      var init := items[..|items| - 1];
      MembersAreMembers(init);
      assert items == init + [items[|items| - 1]];
    }
  }

  /**
   * What a successful `complete_derive` builds: the generics are the
   * input's followed by the hook's, bracketed exactly when non-empty; the
   * where clause is present exactly when there are predicates; the
   * attributes are the input's `cfg` attributes followed by the hook's; the
   * trait reference is the given path, not negated.
   */
  lemma DeriveHeader(traitPath: Path, traitItems: seq<TraitItem>, input: DeriveInput, gen: DeriveGenerator)
    ensures var r := DeriveSpec(traitPath, traitItems, input, gen);
      var ctx := DeriveContext(traitPath, traitItems, input);
      r.Ok? ==>
        var extra := gen.extendGenerics(ctx, input.generics.params, WherePredicates(input.generics));
        extra.Ok?
        && r.value.generics.params == input.generics.params + extra.value.0
        && (r.value.generics.brackets <==> r.value.generics.params != [])
        && WherePredicates(r.value.generics) == WherePredicates(input.generics) + extra.value.1
        && (r.value.generics.whereClause.Some? <==> WherePredicates(r.value.generics) != [])
        && |CfgAttrs(input.attrs)| <= |r.value.attrs|
        && r.value.attrs[..|CfgAttrs(input.attrs)|] == CfgAttrs(input.attrs)
        && r.value.trait_ == Some(TraitRef(false, traitPath))
        && r.value.selfTy == SelfTy(input)
  {
  }

  /** With hooks that add nothing, the impl keeps exactly the input's generics and `cfg` attributes. */
  lemma DeriveKeepsInputGenerics(traitPath: Path, traitItems: seq<TraitItem>, input: DeriveInput, gen: DeriveGenerator)
    requires gen.extendGenerics == NoExtraGenerics && gen.extendAttrs == NoExtraAttrs
    ensures var r := DeriveSpec(traitPath, traitItems, input, gen);
      r.Ok? ==>
        r.value.generics.params == input.generics.params
        && WherePredicates(r.value.generics) == WherePredicates(input.generics)
        && r.value.attrs == CfgAttrs(input.attrs)
  {
    var r := DeriveSpec(traitPath, traitItems, input, gen);
    if r.Ok? {
      assert input.generics.params + [] == input.generics.params;
      assert WherePredicates(input.generics) + [] == WherePredicates(input.generics);
      assert CfgAttrs(input.attrs) + [] == CfgAttrs(input.attrs);
    }
  }

  /**
   * `complete_derive` fails exactly when a hook fails, and then produces no
   * impl; otherwise the impl holds one item per member, in trait order.
   */
  lemma DeriveFailsIff(traitPath: Path, traitItems: seq<TraitItem>, input: DeriveInput, gen: DeriveGenerator)
    ensures var ctx := DeriveContext(traitPath, traitItems, input);
      DeriveSpec(traitPath, traitItems, input, gen).Err? <==>
        gen.extendGenerics(ctx, input.generics.params, WherePredicates(input.generics)).Err?
        || (exists i :: 0 <= i < |Members(traitItems)| && DeriveOne(gen, ctx, Members(traitItems)[i]).value.Err?)
        || gen.extendAttrs(ctx, CfgAttrs(input.attrs)).Err?
    ensures var r := DeriveSpec(traitPath, traitItems, input, gen);
      r.Ok? ==>
        |r.value.items| == |Members(traitItems)|
        && forall i :: 0 <= i < |Members(traitItems)| ==>
          r.value.items[i] == DeriveOne(gen, DeriveContext(traitPath, traitItems, input), Members(traitItems)[i]).value.value
  {
    DeriveItemsShape(gen, DeriveContext(traitPath, traitItems, input), traitItems);
  }
}
