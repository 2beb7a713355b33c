/**
 * Argument-parsing helpers shared by the macros (codegen/src/util.rs):
 * the set-once slot, the comma-separated argument loop, the selection of
 * `#[portrait(group(...))]` attributes, attribute stripping and span
 * rewriting of token streams.
 */
module Util {
  import opened Syntax

  const TwiceMsg := "Argument cannot be set twice"

  /** `Once<T>`: an argument slot that may be set at most once. */
  datatype Once<T> = Once(slot: Option<(Span, T)>) {

    /**
     * `Once::set`. The new value is stored whatever happens (the old one is
     * replaced before it is inspected), and the call fails when a value was there.
     */
    function Set(value: T, span: Span): (r: (Once<T>, Outcome))
      ensures r.0.TryGet() == Some(value)
      ensures r.1.Pass? <==> TryGet().None?
      ensures r.1.Fail? ==> r.1.msg == TwiceMsg
    {
      (Once(Some((span, value))), if slot.Some? then Fail(TwiceMsg) else Pass)
    }

    /** `Once::try_get`: the stored value, if any. */
    function TryGet(): Option<T> {
      if slot.Some? then Some(slot.value.1) else None
    }

    /** `Once::get_or`: the stored value, or the default when nothing was stored. */
    function GetOr(default: T): (r: T)
      ensures TryGet().Some? ==> r == TryGet().value
      ensures TryGet().None? ==> r == default
    {
      TryGet().GetOr(default)
    }
  }

  /** `slot.set(value, span)?`: the updated slot, or the error of a second set. */
  function SetOnce<T>(slot: Once<T>, value: T, span: Span): (r: Result<Once<T>>)
    ensures r.Ok? <==> slot.TryGet().None?
    ensures r.Ok? ==> r.value.TryGet() == Some(value)
    ensures r.Err? ==> r.msg == TwiceMsg
  {
    var (o, outcome) := slot.Set(value, span);
    if outcome.Fail? then Err(outcome.msg) else Ok(o)
  }

  /** The initial state of a slot (`Once::default`). */
  function Unset<T>(): Once<T> { Once(None) }

  /** The first `set` succeeds; every later one fails, and the newest value wins. */
  lemma OnceSetTwice<T>(a: T, b: T, s1: Span, s2: Span)
    ensures Unset<T>().Set(a, s1).1 == Pass
    ensures Unset<T>().Set(a, s1).0.Set(b, s2).1 == Fail(TwiceMsg)
    ensures Unset<T>().Set(a, s1).0.Set(b, s2).0.GetOr(a) == b
  {
  }

  // ------------------------------------------------------------ parse_args

  /**
   * One call of `ParseArgs::parse_once`: reads one entry from the front of
   * the stream and returns the updated arguments and the number of tokens
   * it read. A count beyond the end of the stream reads the whole stream.
   */
  type ArgStep<!A> = (A, seq<TokenTree>) -> Result<(A, nat)>

  function Drop(ts: seq<TokenTree>, n: nat): (r: seq<TokenTree>)
    ensures |r| <= |ts|
    ensures n > 0 && ts != [] ==> |r| < |ts|
  {
    if n <= |ts| then ts[n..] else []
  }

  const ExpectedComma := "expected `,`"

  /** `parse_args`: entries separated by commas, a trailing comma allowed. */
  function ParseArgsSpec<A>(ts: seq<TokenTree>, args: A, step: ArgStep<A>): Result<A>
    decreases |ts|
  {
    if ts == [] then Ok(args)
    else
      var p :- step(args, ts);
      var rest := Drop(ts, p.1);
      if rest == [] then Ok(p.0)
      else if IsPunct(rest[0], ',') then ParseArgsSpec(rest[1..], p.0, step)
      else Err(ExpectedComma)
  }

  /** `parse_args`, entry by entry, on the arguments accumulated so far. */
  method ParseArgs<A>(ts: seq<TokenTree>, args: A, step: ArgStep<A>) returns (r: Result<A>)
    ensures r == ParseArgsSpec(ts, args, step)
  {
    var rest, cur := ts, args;
    while rest != []
      invariant ParseArgsSpec(rest, cur, step) == ParseArgsSpec(ts, args, step)
      decreases |rest|
    {
      var p := step(cur, rest);
      if p.Err? {
        return Err(p.msg);
      }
      cur := p.value.0;
      rest := Drop(rest, p.value.1);
      if rest != [] {
        if IsPunct(rest[0], ',') {
          rest := rest[1..];
        } else {
          return Err(ExpectedComma);
        }
      }
    }
    return Ok(cur);
  }

  /** Entries written one after another, separated by commas. */
  function JoinEntries(entries: seq<seq<TokenTree>>, trailing: bool): seq<TokenTree> {
    if entries == [] then []
    else if |entries| == 1 then entries[0] + (if trailing then [Punct(',')] else [])
    else entries[0] + [Punct(',')] + JoinEntries(entries[1..], trailing)
  }

  /**
   * `parse_once` reads exactly the tokens `e`, taking the arguments from `a`
   * to `a2`, whenever `e` is followed by a comma or by the end of the stream.
   */
  ghost predicate StepReads<A>(step: ArgStep<A>, a: A, e: seq<TokenTree>, a2: A) {
    forall suffix: seq<TokenTree> {:trigger step(a, e + suffix)} ::
      (suffix == [] || IsPunct(suffix[0], ',')) ==> step(a, e + suffix) == Ok((a2, |e|))
  }

  /**
   * Comma-separated entries, with or without a trailing comma, are each
   * passed to `parse_once` once, in order.
   */
  lemma {:induction false} ParseArgsJoin<A>(entries: seq<seq<TokenTree>>, states: seq<A>, step: ArgStep<A>, trailing: bool)
    requires |states| == |entries| + 1
    requires forall i :: 0 <= i < |entries| ==> entries[i] != []
    requires forall i :: 0 <= i < |entries| ==> StepReads(step, states[i], entries[i], states[i + 1])
    ensures ParseArgsSpec(JoinEntries(entries, trailing), states[0], step) == Ok(states[|entries|])
    decreases |entries|
  {
    if entries == [] {
      return;
    }
    var ts := JoinEntries(entries, trailing);
    var e := entries[0];
    var suffix := ts[|e|..];
    assert ts == e + suffix;
    assert StepReads(step, states[0], e, states[1]);
    if |entries| == 1 {
      assert suffix == [] || IsPunct(suffix[0], ',');
      assert step(states[0], e + suffix) == Ok((states[1], |e|));
    } else {
      var tail := JoinEntries(entries[1..], trailing);
      assert suffix == [Punct(',')] + tail;
      assert step(states[0], e + suffix) == Ok((states[1], |e|));
      assert Drop(ts, |e|) == suffix;
      assert suffix[1..] == tail;
      assert entries[1..][0] == entries[1];
      assert tail != [] by {
        assert |entries[1..][0]| > 0;
        JoinEntriesPrefix(entries[1..], trailing);
      }
      ParseArgsJoin(entries[1..], states[1..], step, trailing);
    }
  }

  lemma JoinEntriesPrefix(entries: seq<seq<TokenTree>>, trailing: bool)
    requires entries != []
    ensures entries[0] <= JoinEntries(entries, trailing)
  {
  }

  /** An entry followed by anything but a comma is an error. */
  lemma ParseArgsMissingComma<A>(e: seq<TokenTree>, t: TokenTree, more: seq<TokenTree>, a: A, a2: A, step: ArgStep<A>)
    requires step(a, e + [t] + more) == Ok((a2, |e|))
    requires !IsPunct(t, ',')
    ensures ParseArgsSpec(e + [t] + more, a, step) == Err(ExpectedComma)
  {
    assert Drop(e + [t] + more, |e|) == [t] + more;
  }

  // ---------------------------------------------------- parse_grouped_attr

  const TrailingMsg := "trailing tokens"
  const ExpectedIdent := "expected identifier"
  const ExpectedParens := "expected parentheses"
  const ExpectedExpr := "expected an expression"
  const ExpectedEq := "expected `=`"
  const ExpectedListMsg := "expected attribute arguments in parentheses: #[portrait(...)]"

  predicate IsPortrait(a: Attr) { a.path.IsIdent("portrait") }

  /**
   * One entry of a `#[portrait(...)]` attribute: the selected group is
   * parsed with `parse_args`, any other group (`name`, `name = expr` or
   * `name(...)`) is skipped. Returns the arguments and the tokens read.
   */
  function GroupEntry<A>(ts: seq<TokenTree>, group: Ident, args: A, step: ArgStep<A>): (r: Result<(A, nat)>)
    ensures r.Ok? ==> 1 <= r.value.1 <= |ts|
    ensures r.Ok? ==> ts[0].kind.IdentTok? && (ts[0].kind.name != group ==> r.value.0 == args)
  {
    if ts == [] || !ts[0].kind.IdentTok? then Err(ExpectedIdent)
    else if ts[0].kind.name == group then
      if |ts| < 2 || !IsGroup(ts[1], Parenthesis) then Err(ExpectedParens)
      else
        var a :- ParseArgsSpec(ts[1].kind.stream, args, step);
        Ok((a, 2))
    else if |ts| >= 2 && IsPunct(ts[1], '=') then
      if |ts| < 3 || !(ts[2].kind.NodeTok? && ts[2].kind.node.NodeExpr?) then Err(ExpectedExpr)
      else Ok((args, 3))
    else if |ts| >= 2 && IsGroup(ts[1], Parenthesis) then Ok((args, 2))
    else Ok((args, 1))
  }

  /** The body of one `#[portrait(...)]` attribute: entries separated by commas. */
  function GroupedBodySpec<A>(ts: seq<TokenTree>, group: Ident, args: A, step: ArgStep<A>): Result<A>
    decreases |ts|
  {
    var p :- GroupEntry(ts, group, args, step);
    var rest := ts[p.1..];
    if rest == [] then Ok(p.0)
    else if !IsPunct(rest[0], ',') then Err(TrailingMsg)
    else if rest[1..] == [] then Ok(p.0)
    else GroupedBodySpec(rest[1..], group, p.0, step)
  }

  /** One attribute: only `portrait` attributes are read. */
  function AttrSpec<A>(attr: Attr, group: Ident, args: A, step: ArgStep<A>): Result<A> {
    if !IsPortrait(attr) then Ok(args)
    else if !attr.meta.MetaList? then Err(ExpectedListMsg)
    else GroupedBodySpec(attr.meta.tokens, group, args, step)
  }

  /** `parse_grouped_attr`: every attribute in turn, on one accumulating argument value. */
  function GroupedAttrSpec<A>(attrs: seq<Attr>, group: Ident, args: A, step: ArgStep<A>): Result<A>
    decreases |attrs|
  {
    if attrs == [] then Ok(args)
    else
      var a :- AttrSpec(attrs[0], group, args, step);
      GroupedAttrSpec(attrs[1..], group, a, step)
  }

  /** `parse_grouped_attr`, starting from the default arguments `init`. */
  method ParseGroupedAttr<A>(attrs: seq<Attr>, group: Ident, init: A, step: ArgStep<A>) returns (r: Result<A>)
    ensures r == GroupedAttrSpec(attrs, group, init, step)
  {
    var args := init;
    for i := 0 to |attrs|
      invariant GroupedAttrSpec(attrs[i..], group, args, step) == GroupedAttrSpec(attrs, group, init, step)
    {
      assert attrs[i..][1..] == attrs[i + 1..];
      var attr := attrs[i];
      if IsPortrait(attr) {
        if !attr.meta.MetaList? {
          return Err(ExpectedListMsg);
        }
        var ts := attr.meta.tokens;
        var before := args;
        while true
          invariant GroupedBodySpec(ts, group, args, step) == GroupedBodySpec(attr.meta.tokens, group, before, step)
          decreases |ts|
        {
          if ts == [] || !ts[0].kind.IdentTok? {
            return Err(ExpectedIdent);
          }
          var n := 1;
          if ts[0].kind.name == group {
            if |ts| < 2 || !IsGroup(ts[1], Parenthesis) {
              return Err(ExpectedParens);
            }
            var inner := ParseArgs(ts[1].kind.stream, args, step);
            if inner.Err? {
              return Err(inner.msg);
            }
            args, n := inner.value, 2;
          } else if |ts| >= 2 && IsPunct(ts[1], '=') {
            if |ts| < 3 || !(ts[2].kind.NodeTok? && ts[2].kind.node.NodeExpr?) {
              return Err(ExpectedExpr);
            }
            n := 3;
          } else if |ts| >= 2 && IsGroup(ts[1], Parenthesis) {
            n := 2;
          }
          ts := ts[n..];
          if ts != [] && IsPunct(ts[0], ',') {
            ts := ts[1..];
            if ts == [] {
              break;
            }
          } else {
            if ts != [] {
              return Err(TrailingMsg);
            }
            break;
          }
        }
      }
    }
    return Ok(args);
  }

  /** Attributes other than `portrait` never change the outcome. */
  lemma {:induction false} GroupedAttrIgnoresOthers<A>(attrs: seq<Attr>, group: Ident, args: A, step: ArgStep<A>)
    ensures GroupedAttrSpec(attrs, group, args, step) == GroupedAttrSpec(PortraitAttrs(attrs), group, args, step)
    decreases |attrs|
  {
    if attrs != [] {
      var a := AttrSpec(attrs[0], group, args, step);
      var ps := PortraitAttrs(attrs);
      if IsPortrait(attrs[0]) {
        assert ps[0] == attrs[0] && ps[1..] == PortraitAttrs(attrs[1..]);
      } else {
        assert ps == PortraitAttrs(attrs[1..]);
      }
      if a.Ok? {
        GroupedAttrIgnoresOthers(attrs[1..], group, a.value, step);
      }
    }
  }

  function PortraitAttrs(attrs: seq<Attr>): (r: seq<Attr>)
    ensures forall a :: a in r <==> a in attrs && IsPortrait(a)
  {
    if attrs == [] then []
    else (if IsPortrait(attrs[0]) then [attrs[0]] else []) + PortraitAttrs(attrs[1..])
  }

  /**
   * One argument value accumulates across attributes: reading two lists of
   * attributes is reading the first and continuing from its result.
   */
  lemma {:induction false} GroupedAttrAppend<A>(xs: seq<Attr>, ys: seq<Attr>, group: Ident, args: A, step: ArgStep<A>)
    ensures GroupedAttrSpec(xs + ys, group, args, step)
         == (var a :- GroupedAttrSpec(xs, group, args, step); GroupedAttrSpec(ys, group, a, step))
    decreases |xs|
  {
    if xs == [] {
      assert xs + ys == ys;
    } else {
      assert (xs + ys)[1..] == xs[1..] + ys;
      var a := AttrSpec(xs[0], group, args, step);
      if a.Ok? {
        GroupedAttrAppend(xs[1..], ys, group, a.value, step);
      }
    }
  }

  /**
   * `#[portrait(other, group(inner))]` reads exactly `inner`: the other group
   * is skipped, whatever form it takes.
   */
  lemma SkipOtherGroup<A>(other: seq<TokenTree>, group: Ident, inner: seq<TokenTree>, args: A, step: ArgStep<A>)
    requires |other| >= 1 && other[0].kind.IdentTok? && other[0].kind.name != group
    requires |other| == 1
          || (|other| == 2 && IsGroup(other[1], Parenthesis))
          || (|other| == 3 && IsPunct(other[1], '=') && other[2].kind.NodeTok? && other[2].kind.node.NodeExpr?)
    ensures GroupedBodySpec(other + [Punct(','), Word(group), Parened(inner)], group, args, step)
         == ParseArgsSpec(inner, args, step)
  {
    var ts := other + [Punct(','), Word(group), Parened(inner)];
    assert GroupEntry(ts, group, args, step) == Ok((args, |other|));
    var rest := ts[|other|..];
    assert rest == [Punct(','), Word(group), Parened(inner)];
    var last := rest[1..];
    assert last == [Word(group), Parened(inner)];
    assert last[1].kind.stream == inner;
    assert last[2..] == [];
  }

  /** Two names without a comma between them are rejected. */
  lemma GroupedTrailingTokens<A>(x: Ident, y: Ident, group: Ident, args: A, step: ArgStep<A>)
    requires x != group
    ensures GroupedBodySpec([Word(x), Word(y)], group, args, step) == Err(TrailingMsg)
  {
    var ts := [Word(x), Word(y)];
    assert GroupEntry(ts, group, args, step) == Ok((args, 1));
    assert ts[1..] == [Word(y)];
  }

  // ------------------------------------------------------------ strip_attr

  /** `cfg(all())`, the attribute that is always enabled. */
  const CfgAll: Attr := Attr(SimplePath("cfg"), MetaList([Word("all"), Parened([])]))

  /** `StripAttrVisitor::visit_attribute_mut` on one attribute. */
  function StripOne(name: Ident, a: Attr): (r: Attr)
    ensures a.path.IsIdent(name) ==> r == CfgAll
    ensures !a.path.IsIdent(name) ==> r == a
  {
    if a.path.IsIdent(name) then CfgAll else a
  }

  function StripAttrs(name: Ident, attrs: seq<Attr>): (r: seq<Attr>)
    ensures |r| == |attrs|
    ensures forall i :: 0 <= i < |attrs| ==> r[i] == StripOne(name, attrs[i])
  {
    seq(|attrs|, i requires 0 <= i < |attrs| => StripOne(name, attrs[i]))
  }

  function StripField(name: Ident, f: Field): Field {
    f.(attrs := StripAttrs(name, f.attrs))
  }

  function StripFields(name: Ident, fs: seq<Field>): (r: seq<Field>)
    ensures |r| == |fs|
    ensures forall i :: 0 <= i < |fs| ==> r[i] == StripField(name, fs[i])
  {
    seq(|fs|, i requires 0 <= i < |fs| => StripField(name, fs[i]))
  }

  function StripVariant(name: Ident, v: Variant): Variant {
    v.(attrs := StripAttrs(name, v.attrs), fields := StripFields(name, v.fields))
  }

  function StripData(name: Ident, d: Data): Data {
    match d
    case DStruct(fs) => DStruct(StripFields(name, fs))
    case DUnion(fs) => DUnion(StripFields(name, fs))
    case DEnum(vs) => DEnum(seq(|vs|, i requires 0 <= i < |vs| => StripVariant(name, vs[i])))
  }

  /**
   * `strip_attr` on a derive input: a copy in which every attribute named
   * `name` (on the item, its variants and its fields) becomes `cfg(all())`.
   */
  function StripAttr(name: Ident, item: DeriveInput): DeriveInput {
    item.(attrs := StripAttrs(name, item.attrs), data := StripData(name, item.data))
  }

  /** No attribute of a derive input (on the item, a variant or a field) is named `name`. */
  ghost predicate NoAttrNamed(item: DeriveInput, name: Ident) {
    (forall a :: a in item.attrs ==> !a.path.IsIdent(name))
    && (item.data.DStruct? ==> forall f, a :: f in item.data.fields && a in f.attrs ==> !a.path.IsIdent(name))
    && (item.data.DUnion? ==> forall f, a :: f in item.data.unionFields && a in f.attrs ==> !a.path.IsIdent(name))
    && (item.data.DEnum? ==> forall v, a :: v in item.data.variants && a in v.attrs ==> !a.path.IsIdent(name))
    && (item.data.DEnum? ==>
          forall v, f, a :: v in item.data.variants && f in v.fields && a in f.attrs ==> !a.path.IsIdent(name))
  }

  /** After stripping, no attribute named `name` remains anywhere. */
  lemma StripAttrRemovesAll(name: Ident, item: DeriveInput)
    requires name != "cfg"
    ensures NoAttrNamed(StripAttr(name, item), name)
  {
    var r := StripAttr(name, item);
    forall a | a in r.attrs ensures !a.path.IsIdent(name) {
      var i :| 0 <= i < |r.attrs| && r.attrs[i] == a;
    }
    match item.data
    case DStruct(fs) =>
      forall f, a | f in r.data.fields && a in f.attrs ensures !a.path.IsIdent(name) {
        var j :| 0 <= j < |r.data.fields| && r.data.fields[j] == f;
        var i :| 0 <= i < |f.attrs| && f.attrs[i] == a;
      }
    case DUnion(fs) =>
      forall f, a | f in r.data.unionFields && a in f.attrs ensures !a.path.IsIdent(name) {
        var j :| 0 <= j < |r.data.unionFields| && r.data.unionFields[j] == f;
        var i :| 0 <= i < |f.attrs| && f.attrs[i] == a;
      }
    case DEnum(vs) =>
      forall v, a | v in r.data.variants && a in v.attrs ensures !a.path.IsIdent(name) {
        var j :| 0 <= j < |r.data.variants| && r.data.variants[j] == v;
        var i :| 0 <= i < |v.attrs| && v.attrs[i] == a;
      }
      forall v, f, a | v in r.data.variants && f in v.fields && a in f.attrs ensures !a.path.IsIdent(name) {
        var j :| 0 <= j < |r.data.variants| && r.data.variants[j] == v;
        var k :| 0 <= k < |v.fields| && v.fields[k] == f;
        var i :| 0 <= i < |f.attrs| && f.attrs[i] == a;
      }
  }

  /** Stripping touches attributes only: names, visibility, generics and field types are kept. */
  lemma StripAttrKeepsShape(name: Ident, item: DeriveInput)
    ensures var r := StripAttr(name, item);
      r.ident == item.ident && r.vis == item.vis && r.generics == item.generics
      && r.data.DStruct? == item.data.DStruct? && r.data.DEnum? == item.data.DEnum?
      && (item.data.DStruct? ==>
            |r.data.fields| == |item.data.fields|
            && forall i :: 0 <= i < |item.data.fields| ==>
                 r.data.fields[i].ident == item.data.fields[i].ident && r.data.fields[i].ty == item.data.fields[i].ty)
      && (item.data.DEnum? ==>
            |r.data.variants| == |item.data.variants|
            && forall i :: 0 <= i < |item.data.variants| ==>
                 r.data.variants[i].ident == item.data.variants[i].ident
                 && |r.data.variants[i].fields| == |item.data.variants[i].fields|)
  {
  }

  /** Stripping twice is stripping once. */
  lemma StripAttrIdempotent(name: Ident, item: DeriveInput)
    requires name != "cfg"
    ensures StripAttr(name, StripAttr(name, item)) == StripAttr(name, item)
  {
    var r := StripAttr(name, item);
    assert forall attrs: seq<Attr> :: StripAttrs(name, StripAttrs(name, attrs)) == StripAttrs(name, attrs);
    assert forall fs: seq<Field> :: StripFields(name, StripFields(name, fs)) == StripFields(name, fs);
    if item.data.DEnum? {
      var vs := item.data.variants;
      var once := r.data.variants;
      assert StripData(name, r.data).variants == once;
    }
  }

  // ----------------------------------------------------- copy_ts_with_span

  /** A token stream with every span set to 0, at every depth. */
  function EraseTs(ts: seq<TokenTree>): seq<TokenTree>
    decreases ts
  {
    if ts == [] then [] else [EraseTt(ts[0])] + EraseTs(ts[1..])
  }

  function EraseTt(t: TokenTree): TokenTree
    decreases t
  {
    match t.kind
    case GroupTok(d, s) => TT(GroupTok(d, EraseTs(s)), 0)
    case _ => TT(t.kind, 0)
  }

  /** Every token, at every depth, carries `span`. */
  predicate AllSpans(ts: seq<TokenTree>, span: Span)
    decreases ts
  {
    ts == [] || (ts[0].span == span && AllSpansTt(ts[0], span) && AllSpans(ts[1..], span))
  }

  predicate AllSpansTt(t: TokenTree, span: Span)
    decreases t
  {
    t.span == span && (t.kind.GroupTok? ==> AllSpans(t.kind.stream, span))
  }

  /**
   * `copy_ts_with_span`: the same tokens and group structure, with every
   * token (groups and their contents) moved to `span`.
   */
  function CopyTsWithSpan(ts: seq<TokenTree>, span: Span): (r: seq<TokenTree>)
    ensures |r| == |ts|
    ensures AllSpans(r, span)
    ensures EraseTs(r) == EraseTs(ts)
    decreases ts
  {
    if ts == [] then []
    else
      var rest := CopyTsWithSpan(ts[1..], span);
      var r := [CopyTtWithSpan(ts[0], span)] + rest;
      assert r[1..] == rest;
      r
  }

  function CopyTtWithSpan(t: TokenTree, span: Span): (r: TokenTree)
    ensures AllSpansTt(r, span)
    ensures EraseTt(r) == EraseTt(t)
    ensures r.kind.GroupTok? == t.kind.GroupTok?
    ensures !t.kind.GroupTok? ==> r.kind == t.kind
    ensures t.kind.GroupTok? ==> r.kind.delim == t.kind.delim
    decreases t
  {
    match t.kind
    case GroupTok(d, s) => TT(GroupTok(d, CopyTsWithSpan(s, span)), span)
    case _ => TT(t.kind, span)
  }
}
