/** The swap-remove pools of scripts/gen_itch50_scale.py: a list of live references per symbol,
    the position of each reference in its list, and what is known of each order. */
module Pool {
  import opened Itch
  import opened Options
  import G = Generator
  import Engine
  import Tr = Translation

  datatype Info = Info(loc: nat, side: char, price: u32, qty: u32)

  type Lists = map<nat, seq<u64>>
  type Places = map<u64, nat>
  type Known = map<u64, Info>

  /** The list with position i taken by the last element and the end dropped. */
  function SwapRemoved(p: seq<u64>, i: nat): seq<u64>
    requires i < |p|
  {
    p[i := p[|p| - 1]][..|p| - 1]
  }

  /** A known reference is in its symbol's list, where the index says. */
  ghost predicate Placed(pool: Lists, idx: Places, info: Known, r: u64)
    requires r in info
  {
    && r in idx && info[r].loc in pool
    && idx[r] < |pool[info[r].loc]| && pool[info[r].loc][idx[r]] == r
  }

  /** A listed reference is known to be of that symbol and indexed at its position. */
  ghost predicate Indexed(p: seq<u64>, l: nat, idx: Places, info: Known) {
    forall i :: 0 <= i < |p| ==> p[i] in idx && idx[p[i]] == i && p[i] in info && info[p[i]].loc == l
  }

  /** The index is the exact inverse of the lists, and exactly the listed references are known. */
  ghost predicate Inverse(pool: Lists, idx: Places, info: Known) {
    && idx.Keys == info.Keys
    && (forall r :: r in info ==> Placed(pool, idx, info, r))
    && (forall l :: l in pool ==> Indexed(pool[l], l, idx, info))
  }

  /** The live orders of one symbol. */
  ghost function OrdersOf(info: Known, l: nat): Table {
    map r | r in info && info[r].loc == l :: Order(info[r].side, info[r].price, info[r].qty)
  }

  lemma AddInverse(pool: Lists, idx: Places, info: Known, l: nat, r: u64, x: Info, p: seq<u64>)
    requires Inverse(pool, idx, info) && l in pool && r !in info && x.loc == l && p == pool[l] + [r]
    ensures Inverse(pool[l := p], idx[r := |p| - 1], info[r := x])
  {
    var pool', idx', info' := pool[l := p], idx[r := |p| - 1], info[r := x];
    forall k | k in pool' ensures Indexed(pool'[k], k, idx', info') {
      assert Indexed(pool[k], k, idx, info);
    }
    forall q | q in info' ensures Placed(pool', idx', info', q) {
      if q != r {
        assert Placed(pool, idx, info, q);
      }
    }
  }

  /** Both ways of finding the slot give the indexed one. */
  lemma SlotUnique(p: seq<u64>, l: nat, idx: Places, info: Known, i: nat)
    requires Indexed(p, l, idx, info) && i < |p|
    ensures p[i] in idx && idx[p[i]] == i
  {
  }

  lemma DropList(p: seq<u64>, l: nat, idx: Places, info: Known, i: nat, idx': Places, info': Known)
    requires Indexed(p, l, idx, info) && i < |p|
    requires idx' == idx[p[|p| - 1] := i] - {p[i]} && info' == info - {p[i]}
    ensures Indexed(SwapRemoved(p, i), l, idx', info')
  {
    var q := SwapRemoved(p, i);
    forall j | 0 <= j < |q|
      ensures q[j] in idx' && idx'[q[j]] == j && q[j] in info' && info'[q[j]].loc == l
    {
      if j == i {
        assert q[j] == p[|p| - 1];
      } else {
        assert q[j] == p[j];
      }
    }
  }

  lemma OtherList(p: seq<u64>, k: nat, l: nat, idx: Places, info: Known, last: u64, r: u64, i: nat)
    requires Indexed(p, k, idx, info) && k != l && last in info && r in info && info[last].loc == l && info[r].loc == l
    ensures Indexed(p, k, idx[last := i] - {r}, info - {r})
  {
  }

  lemma DropPlaced(pool: Lists, idx: Places, info: Known, l: nat, i: nat, last: u64, r: u64, q: u64)
    requires Inverse(pool, idx, info) && l in pool && i < |pool[l]| && r == pool[l][i] && last == pool[l][|pool[l]| - 1]
    requires q in info && q != r
    ensures Placed(pool[l := SwapRemoved(pool[l], i)], idx[last := i] - {r}, info - {r}, q)
  {
    assert Placed(pool, idx, info, q);
    assert Indexed(pool[l], l, idx, info);
    if info[q].loc == l {
      var p := SwapRemoved(pool[l], i);
      if q == last {
        assert p[i] == last;
      } else {
        assert idx[last] == |pool[l]| - 1;
        assert p[idx[q]] == q;
      }
    }
  }

  lemma DropInverse(pool: Lists, idx: Places, info: Known, l: nat, i: nat)
    requires Inverse(pool, idx, info) && l in pool && i < |pool[l]|
    ensures var r, last := pool[l][i], pool[l][|pool[l]| - 1];
            Inverse(pool[l := SwapRemoved(pool[l], i)], idx[last := i] - {r}, info - {r})
  {
    var p := pool[l];
    var r, last := p[i], p[|p| - 1];
    assert Indexed(p, l, idx, info);
    assert last in info && info[last].loc == l && r in info && info[r].loc == l;
    var pool', idx', info' := pool[l := SwapRemoved(p, i)], idx[last := i] - {r}, info - {r};
    assert idx'.Keys == info'.Keys;
    forall k | k in pool' ensures Indexed(pool'[k], k, idx', info') {
      if k == l {
        DropList(p, l, idx, info, i, idx', info');
      } else {
        OtherList(pool[k], k, l, idx, info, last, r, i);
      }
    }
    forall q | q in info' ensures Placed(pool', idx', info', q) {
      DropPlaced(pool, idx, info, l, i, last, r, q);
    }
  }

  lemma OrdersAdd(info: Known, r: u64, x: Info, k: nat)
    requires r !in info
    ensures OrdersOf(info[r := x], k) ==
            if x.loc == k then OrdersOf(info, k)[r := Order(x.side, x.price, x.qty)] else OrdersOf(info, k)
  {
  }

  lemma OrdersDrop(info: Known, r: u64, k: nat)
    ensures OrdersOf(info - {r}, k) == OrdersOf(info, k) - {r}
  {
  }

  /** The position of the first occurrence; list.index. */
  method IndexIn(p: seq<u64>, r: u64) returns (i: nat)
    requires r in p
    ensures i < |p| && p[i] == r && forall j :: 0 <= j < i ==> p[j] != r
  {
    i := 0;
    while p[i] != r
      invariant i < |p| && forall j :: 0 <= j < i ==> p[j] != r
      decreases |p| - i
    {
      i := i + 1;
    }
  }

  class Pools {
    var pool: Lists
    var idx: Places
    var info: Known

    ghost predicate Valid()
      reads this
    {
      Inverse(pool, idx, info)
    }

    constructor (symbols: set<nat>)
      ensures Valid() && pool.Keys == symbols && info == map[] && forall l :: l in pool ==> pool[l] == []
    {
      pool := map l | l in symbols :: [];
      idx, info := map[], map[];
    }

    /** info[r] = ...; add_to_pool(l, r). */
    method Add(l: nat, r: u64, side: char, price: u32, qty: u32)
      requires Valid() && l in pool && r !in info
      modifies this
      ensures Valid() && pool == old(pool)[l := old(pool)[l] + [r]]
      ensures info == old(info)[r := Info(l, side, price, qty)]
    {
      hide Inverse;
      AddInverse(pool, idx, info, l, r, Info(l, side, price, qty), pool[l] + [r]);
      info := info[r := Info(l, side, price, qty)];
      pool := pool[l := pool[l] + [r]];
      idx := idx[r := |pool[l]| - 1];
    }

    /** drop(l, r): short lists are searched, long ones use the index; either way the slot is
        the indexed one and takes the last reference, also when the dropped one is last. */
    method Drop(l: nat, r: u64)
      requires Valid() && l in pool && r in pool[l]
      modifies this
      ensures Valid() && info == old(info) - {r}
      ensures r in old(idx) && old(idx)[r] < |old(pool)[l]| && old(pool)[l][old(idx)[r]] == r
      ensures pool == old(pool)[l := SwapRemoved(old(pool)[l], old(idx)[r])]
    {
      var p := pool[l];
      assert Indexed(p, l, idx, info);
      ghost var k := IndexIn0(p, r);
      SlotUnique(p, l, idx, info, k);
      var i: nat;
      if |p| < 64 {
        i := IndexIn(p, r);
        SlotUnique(p, l, idx, info, i);
      } else {
        i := idx[r];
      }
      hide Inverse, Indexed;
      DropInverse(pool, idx, info, l, i);
      var last := p[|p| - 1];
      p := p[i := last];
      idx := idx[last := i];
      p := p[..|p| - 1];
      idx := idx - {r};
      info := info - {r};
      pool := pool[l := p];
    }
  }

  lemma IndexIn0(p: seq<u64>, r: u64) returns (k: nat)
    requires r in p
    ensures k < |p| && p[k] == r
  {
    k :| 0 <= k < |p| && p[k] == r;
  }

  // ---- The generator on top of the pools ----

  lemma OrdersResize(info: Known, r: u64, qty: u32, k: nat)
    requires r in info
    ensures OrdersOf(info[r := info[r].(qty := qty)], k) ==
            if info[r].loc == k then OrdersOf(info, k)[r := Order(info[r].side, info[r].price, qty)]
                else OrdersOf(info, k)
  {
  }

  lemma ResizeInverse(pool: Lists, idx: Places, info: Known, r: u64, qty: u32)
    requires Inverse(pool, idx, info) && r in info
    ensures Inverse(pool, idx, info[r := info[r].(qty := qty)])
  {
    var info' := info[r := info[r].(qty := qty)];
    forall q | q in info' ensures Placed(pool, idx, info', q) {
      assert Placed(pool, idx, info, q);
    }
    forall l | l in pool ensures Indexed(pool[l], l, idx, info') {
      assert Indexed(pool[l], l, idx, info);
    }
  }

  lemma ListedIsLive(pool: Lists, idx: Places, info: Known, l: nat, i: nat)
    requires Inverse(pool, idx, info) && l in pool && i < |pool[l]|
    ensures pool[l][i] in info && info[pool[l][i]].loc == l
    ensures pool[l][i] in OrdersOf(info, l)
    ensures var x := info[pool[l][i]]; OrdersOf(info, l)[pool[l][i]] == Order(x.side, x.price, x.qty)
  {
    assert Indexed(pool[l], l, idx, info);
  }

  /** The event's effect on one symbol's table, and on no other. */
  ghost predicate Follows(before: Known, after: Known, l: nat, e: Event) {
    && OrdersOf(after, l) == TableStep(OrdersOf(before, l), e)
    && forall k :: k != l ==> OrdersOf(after, k) == OrdersOf(before, k)
  }

  lemma AddFollows(info: Known, l: nat, r: u64, side: char, price: u32, qty: u32)
    requires r !in info
    ensures Follows(info, info[r := Info(l, side, price, qty)], l, Add(r, side, price, qty))
  {
    hide OrdersOf;
    var x := Info(l, side, price, qty);
    forall k: nat {
      OrdersAdd(info, r, x, k);
    }
    NotListed(info, r, l);
  }

  lemma NotListed(info: Known, r: u64, l: nat)
    requires r !in info
    ensures r !in OrdersOf(info, l)
  {
  }

  lemma DropFollows(info: Known, l: nat, r: u64, e: Event)
    requires r in info && info[r].loc == l
    requires e == Delete(r) || (e.Reduce? && e.ref == r && e.shares == info[r].qty)
    ensures Follows(info, info - {r}, l, e)
  {
    forall k: nat {
      OrdersDrop(info, r, k);
    }
    forall k | k != l ensures OrdersOf(info, k) - {r} == OrdersOf(info, k) {
    }
  }

  lemma ResizeFollows(info: Known, l: nat, r: u64, e: Event)
    requires r in info && info[r].loc == l && e.Reduce? && e.ref == r && e.shares < info[r].qty
    ensures Follows(info, info[r := info[r].(qty := info[r].qty - e.shares)], l, e)
  {
    var qty: u32 := info[r].qty - e.shares;
    forall k: nat {
      OrdersResize(info, r, qty, k);
    }
  }

  lemma ReplaceFollows(info: Known, l: nat, r: u64, n: u64, price: u32, qty: u32)
    requires r in info && info[r].loc == l && n !in info
    ensures Follows(info, (info - {r})[n := Info(l, info[r].side, price, qty)], l, Replace(r, n, qty, price))
  {
    DropFollows(info, l, r, Delete(r));
    AddFollows(info - {r}, l, n, info[r].side, price, qty);
  }

  /** The shares of the scale script's draws: all of them are about the book. */
  function Scale(cap: nat): G.Mix {
    G.Mix(0.42, 0.62, 0.74, 0.90, 1.00, Some(cap))
  }

  /** One event of the scale generator, for every draw: it is of the kind the draw selects and one
      the replay can rely on, the pools describe the table after it, and no list outgrows the
      cap. */
  method DrawPooled(s: Pools, l: nat, x: real, refCtr: nat, cap: nat) returns (e: Event, next: nat)
    requires s.Valid() && l in s.pool && 1000 <= refCtr < 0xFFFF_FFFF_FFFF_FFFF
    requires G.Banded(OrdersOf(s.info, l), refCtr) && forall r :: r in s.info ==> r < refCtr
    modifies s
    ensures s.Valid() && s.pool.Keys == old(s.pool.Keys)
    ensures G.MayEmit(OrdersOf(old(s.info), l), refCtr, e) && Follows(old(s.info), s.info, l, e)
    ensures next == G.Advance(refCtr, e) && next <= refCtr + 1 && forall r :: r in s.info ==> r < next
    ensures |s.pool[l]| <= |old(s.pool)[l]| || |s.pool[l]| <= cap || |s.pool[l]| == 1
    ensures forall k :: k in s.pool && k != l ==> s.pool[k] == old(s.pool)[k]
    ensures G.Answers(Scale(cap), OrdersOf(old(s.info), l), x, e)
    ensures (e.Add? ==> e.ref == refCtr) && (e.Replace? ==> e.nref == refCtr)
  {
    hide Inverse, OrdersOf, Follows, TableStep;
    var p := s.pool[l];
    OrdersSize(s.pool, s.idx, s.info, l);
    ghost var was := s.info;
    next := refCtr;
    if (x < 0.42 && |p| < cap) || p == [] {
      var buy: bool := *;
      var side := if buy then 'B' else 'S';
      var price := G.DrawPrice(side);
      var shares := G.DrawBetween(1, 500);
      e := Add(refCtr, side, price, shares);
      s.Add(l, refCtr, side, price, shares);
      next := refCtr + 1;
      AddFollows(was, l, refCtr, side, price, shares);
      return;
    }
    var i := G.DrawBetween(0, |p| - 1);
    var r := p[i];
    ListedIsLive(s.pool, s.idx, s.info, l, i);
    var o := s.info[r];
    if x < 0.62 {
      var ex := G.DrawBetween(1, o.qty);
      e := Reduce(r, ex, true);
      if ex == o.qty {
        s.Drop(l, r);
        DropFollows(was, l, r, e);
      } else {
        ResizeInverse(s.pool, s.idx, s.info, r, o.qty - ex);
        s.info := s.info[r := o.(qty := o.qty - ex)];
        ResizeFollows(was, l, r, e);
      }
    } else if x < 0.74 && o.qty > 1 {
      var c := G.DrawBetween(1, o.qty - 1);
      e := Reduce(r, c, false);
      ResizeInverse(s.pool, s.idx, s.info, r, o.qty - c);
      s.info := s.info[r := o.(qty := o.qty - c)];
      ResizeFollows(was, l, r, e);
    } else if x < 0.90 {
      e := Delete(r);
      s.Drop(l, r);
      DropFollows(was, l, r, e);
    } else {
      var shares := G.DrawBetween(1, 500);
      var price := G.DrawPrice(o.side);
      e := Replace(r, refCtr, shares, price);
      s.Drop(l, r);
      s.Add(l, refCtr, o.side, price, shares);
      next := refCtr + 1;
      ReplaceFollows(was, l, r, refCtr, price, shares);
    }
  }

  // ---- The whole file ----

  /** The live orders of a symbol are as many as its list is long. */
  lemma OrdersSize(pool: Lists, idx: Places, info: Known, l: nat)
    requires Inverse(pool, idx, info) && l in pool
    ensures |OrdersOf(info, l)| == |pool[l]|
  {
    var p := pool[l];
    assert Indexed(p, l, idx, info);
    var refs := set i | 0 <= i < |p| :: p[i];
    ListSize(p, refs);
    forall r ensures r in OrdersOf(info, l) <==> r in refs {
      if r in info && info[r].loc == l {
        assert Placed(pool, idx, info, r);
        assert p[idx[r]] == r;
      }
    }
    assert OrdersOf(info, l).Keys == refs;
  }

  lemma {:induction false} ListSize(p: seq<u64>, refs: set<u64>)
    requires (forall i, j :: 0 <= i < j < |p| ==> p[i] != p[j]) && refs == set i | 0 <= i < |p| :: p[i]
    ensures |refs| == |p|
  {
    if p == [] {
      assert refs == {};
    } else {
      var init, last := p[..|p| - 1], p[|p| - 1];
      var rest := set i | 0 <= i < |init| :: init[i];
      ListSize(init, rest);
      assert last !in rest;
      assert refs == rest + {last} by {
        forall r | r in refs ensures r in rest + {last} {
          var i :| 0 <= i < |p| && p[i] == r;
          if i < |init| {
            assert init[i] == r;
          }
        }
        forall r | r in rest ensures r in refs {
          var i :| 0 <= i < |init| && init[i] == r;
          assert p[i] == r;
        }
      }
    }
  }

  function Largest(cap: nat): nat {
    if cap == 0 then 1 else cap
  }

  lemma {:induction false} WithinSnoc(capacity: nat, t: Table, es: seq<Event>, e: Event)
    requires TablesWithin(capacity, t, es) && |TableStep(TableRun(t, es), e)| <= capacity
    ensures TablesWithin(capacity, t, es + [e])
    decreases es
  {
    hide TableStep;
    if es == [] {
      assert es + [e] == [e] && [e][1..] == [];
      assert TablesWithin(capacity, TableStep(t, e), []);
    } else {
      assert (es + [e])[1..] == es[1..] + [e];
      WithinSnoc(capacity, TableStep(t, es[0]), es[1..], e);
    }
  }

  /** The messages so far are generated ones, the pools hold what they mean, and no table of any
      symbol was ever over the cap. */
  ghost predicate Sound(out: seq<G.Message>, pool: Lists, info: Known, ctr: nat, cap: nat) {
    && ctr >= 1000 && pool.Keys == G.SYMBOLS
    && (forall r :: r in info ==> r < ctr)
    && forall l :: l in G.SYMBOLS ==> SoundFor(G.EventsOf(out, l), OrdersOf(info, l), |pool[l]|, ctr, cap)
  }

  ghost predicate SoundFor(es: seq<Event>, t: Table, n: nat, ctr: nat, cap: nat) {
    && G.Generated(map[], 1000, es) && G.AdvanceAll(1000, es) <= ctr
    && t == TableRun(map[], es) && G.Banded(t, ctr)
    && n <= Largest(cap) && TablesWithin(Largest(cap), map[], es)
  }

  lemma SoundForStep(es: seq<Event>, t: Table, n: nat, ctr: nat, cap: nat, e: Event, t': Table, n': nat)
    requires SoundFor(es, t, n, ctr, cap) && ctr >= 1000 && G.MayEmit(t, ctr, e) && t' == TableStep(t, e)
    requires |t'| == n' && n' <= Largest(cap)
    ensures SoundFor(es + [e], t', n', G.Advance(ctr, e), cap)
  {
    hide G.Generated, G.AdvanceAll, TableRun, TableStep, TablesWithin, G.MayEmit, G.Banded, Largest, G.Advance;
    G.GeneratedSnoc(map[], 1000, es, ctr, e);
    G.BandedStep(t, ctr, e);
    WithinSnoc(Largest(cap), map[], es, e);
  }

  lemma SoundForLater(es: seq<Event>, t: Table, n: nat, ctr: nat, cap: nat, next: nat)
    requires SoundFor(es, t, n, ctr, cap) && ctr <= next
    ensures SoundFor(es, t, n, next, cap)
  {
    hide G.Generated, G.AdvanceAll, TableRun, TablesWithin, G.InBand;
  }

  lemma SoundForFacts(es: seq<Event>, t: Table, n: nat, ctr: nat, cap: nat)
    requires SoundFor(es, t, n, ctr, cap)
    ensures G.Banded(t, ctr) && n <= Largest(cap) && t == TableRun(map[], es)
  {
  }

  lemma SoundStep(out: seq<G.Message>, pool: Lists, info: Known, ctr: nat, cap: nat, l: nat, e: Event,
                  pool': Lists, idx': Places, info': Known)
    requires Sound(out, pool, info, ctr, cap) && l in pool && G.MayEmit(OrdersOf(info, l), ctr, e)
             && Follows(info, info', l, e)
    requires Inverse(pool', idx', info') && pool'.Keys == pool.Keys
    requires |pool'[l]| <= |pool[l]| || |pool'[l]| <= cap || |pool'[l]| == 1
    requires forall k :: k in pool' && k != l ==> pool'[k] == pool[k]
    requires forall r :: r in info' ==> r < G.Advance(ctr, e)
    ensures Sound(out + [G.Message(l, e)], pool', info', G.Advance(ctr, e), cap)
  {
    hide Inverse, OrdersOf, SoundFor, TableStep, G.MayEmit, G.EventsOf, G.Advance;
    var m := G.Message(l, e);
    SoundForFacts(G.EventsOf(out, l), OrdersOf(info, l), |pool[l]|, ctr, cap);
    G.BandedStep(OrdersOf(info, l), ctr, e);
    forall k | k in G.SYMBOLS
      ensures SoundFor(G.EventsOf(out + [m], k), OrdersOf(info', k), |pool'[k]|, G.Advance(ctr, e), cap)
    {
      G.EventsOfSnoc(out, m, k);
      if k == l {
        OrdersSize(pool', idx', info', l);
        SoundForStep(G.EventsOf(out, l), OrdersOf(info, l), |pool[l]|, ctr, cap, e, OrdersOf(info', l), |pool'[l]|);
      } else {
        assert G.EventsOf(out, k) + [] == G.EventsOf(out, k);
        SoundForLater(G.EventsOf(out, k), OrdersOf(info, k), |pool[k]|, ctr, cap, G.Advance(ctr, e));
      }
    }
  }

  lemma SoundStart(pool: Lists, info: Known, cap: nat)
    requires pool.Keys == G.SYMBOLS && info == map[] && forall l :: l in pool ==> pool[l] == []
    ensures Sound([], pool, info, 1000, cap)
  {
  }

  /** The scale script for every outcome of its draws and any number of events: each draw is
      answered by the message it selects, each symbol's messages are generated ones, its list of
      live references never outgrows the cap, and neither does any table along the way. */
  method GenScale(nEvents: nat, cap: nat) returns (out: seq<G.Message>, draws: seq<G.Draw>)
    requires nEvents < 0xFFFF_FFFF_FFFF_0000
    ensures |out| == |draws| == nEvents && G.Answered(Scale(cap), draws, out)
    ensures forall l :: l in G.SYMBOLS ==>
              G.Generated(map[], 1000, G.EventsOf(out, l)) && TablesWithin(Largest(cap), map[], G.EventsOf(out, l))
  {
    hide G.Generated, TablesWithin, G.EventsOf, TableRun, G.Advance, G.AdvanceAll, Inverse, OrdersOf, Largest,
      G.Answers, G.MayEmit, Follows, TableStep;
    var s := new Pools(G.SYMBOLS);
    out, draws := [], [];
    var refCtr: nat := 1000;
    SoundStart(s.pool, s.info, cap);
    for i := 0 to nEvents
      invariant fresh(s) && s.Valid() && Sound(out, s.pool, s.info, refCtr, cap) && refCtr <= 1000 + i
      invariant |out| == |draws| == i && G.Answered(Scale(cap), draws, out)
    {
      var l :| l in G.SYMBOLS;
      var x: real :| 0.0 <= x < 1.0;
      ghost var pool, info := s.pool, s.info;
      SoundForFacts(G.EventsOf(out, l), OrdersOf(info, l), |pool[l]|, refCtr, cap);
      var e, next := DrawPooled(s, l, x, refCtr, cap);
      SoundStep(out, pool, info, refCtr, cap, l, e, s.pool, s.idx, s.info);
      G.AnsweredNext(Scale(cap), draws, out, G.Draw(l, x), e);
      draws := draws + [G.Draw(l, x)];
      out := out + [G.Message(l, e)];
      refCtr := next;
    }
  }

  lemma {:induction false} WithinMore(small: nat, large: nat, t: Table, es: seq<Event>)
    requires TablesWithin(small, t, es) && small <= large
    ensures TablesWithin(large, t, es)
    decreases es
  {
    hide TableStep;
    if es != [] {
      WithinMore(small, large, TableStep(t, es[0]), es[1..]);
    }
  }

  /** So a scale file whose cap the engine can hold may be cut anywhere: resuming from a snapshot
      gives the same book, and nothing ever fills, whatever the number of events. */
  lemma ScaleCanBeCut(es: seq<Event>, cap: nat, k: nat, ms: seq<Engine.Msg>, s: Tr.State)
    requires k <= |es| && cap <= Engine.MAX_ORDERS
    requires G.Generated(map[], 1000, es) && TablesWithin(Largest(cap), map[], es[..k])
    requires s.orders == TableRun(map[], es[..k]) && Tr.IsSnapshot(ms, s.orders)
    ensures Engine.Feed(Engine.EMPTY, ms + Tr.EmitAll(s, es[k..]))
            == Engine.Feed(Engine.EMPTY, Tr.EmitAll(Tr.EMPTY, es))
    ensures Engine.Feed(Engine.EMPTY, Tr.EmitAll(Tr.EMPTY, es)).1 == []
  {
    assert Largest(cap) <= Engine.MAX_ORDERS;
    hide *;
    WithinMore(Largest(cap), Engine.MAX_ORDERS, map[], es[..k]);
    G.DayCanBeCut(es, k, ms, s);
  }
}
