/** The reference book (include/hft/itch50.hpp): an order table with two price-level
    indexes that are updated incrementally. */
module ReferenceBook {
  import opened Itch

  datatype Level = Level(qty: nat, orders: nat)

  type Levels = map<u32, Level>

  datatype Anomalies = Anomalies(unknownRef: nat, overReduce: nat, duplicateRef: nat)

  datatype State = State(orders: Table, bids: Levels, asks: Levels, an: Anomalies)

  const EMPTY := State(map[], map[], map[], Anomalies(0, 0, 0))

  function Index(s: State, bid: bool): Levels {
    if bid then s.bids else s.asks
  }

  function SetIndex(s: State, bid: bool, m: Levels): State {
    if bid then s.(bids := m) else s.(asks := m)
  }

  function AddLevel(m: Levels, price: u32, qty: nat): Levels {
    var l := if price in m then m[price] else Level(0, 0);
    m[price := Level(l.qty + qty, l.orders + 1)]
  }

  /** sub_level, with both clamps: a level is dropped when its quantity reaches zero. */
  function SubLevel(m: Levels, price: u32, qty: nat, gone: bool): Levels {
    if price !in m then m
    else
      var l := m[price];
      var q := l.qty - Min(l.qty, qty);
      var n := if gone && l.orders > 0 then l.orders - 1 else l.orders;
      if q == 0 then m - {price} else m[price := Level(q, n)]
  }

  function AddOrder(s: State, ref: u64, o: Order): State {
    if ref in s.orders then s.(an := s.an.(duplicateRef := s.an.duplicateRef + 1))
    else
      var bid := IsBid(o.side);
      SetIndex(s, bid, AddLevel(Index(s, bid), o.price, o.qty)).(orders := s.orders[ref := o])
  }

  function RemoveOrder(s: State, ref: u64): State
    requires ref in s.orders
  {
    var o := s.orders[ref];
    var bid := IsBid(o.side);
    SetIndex(s, bid, SubLevel(Index(s, bid), o.price, o.qty, true)).(orders := s.orders - {ref})
  }

  function ReduceOrder(s: State, ref: u64, shares: u32): State
    requires ref in s.orders
  {
    var o := s.orders[ref];
    var bid := IsBid(o.side);
    var d := Min(shares, o.qty);
    var an := if shares > o.qty then s.an.(overReduce := s.an.overReduce + 1) else s.an;
    var t := if d == o.qty then s.orders - {ref} else s.orders[ref := o.(qty := o.qty - d)];
    SetIndex(s, bid, SubLevel(Index(s, bid), o.price, d, d == o.qty)).(orders := t, an := an)
  }

  function MissUnknown(s: State): State {
    s.(an := s.an.(unknownRef := s.an.unknownRef + 1))
  }

  /** One event through the reference book. */
  function Step(s: State, e: Event): State {
    if Unknown(s.orders, e) then MissUnknown(s)
    else match e
      case Add(ref, side, price, shares) => AddOrder(s, ref, Order(side, price, shares))
      case Reduce(ref, shares, _) => ReduceOrder(s, ref, shares)
      case Delete(ref) => RemoveOrder(s, ref)
      case Replace(orig, nref, shares, price) =>
        AddOrder(RemoveOrder(s, orig), nref, Order(s.orders[orig].side, price, shares))
  }

  function Run(s: State, es: seq<Event>): State
    decreases es
  {
    if es == [] then s else Run(Step(s, es[0]), es[1..])
  }

  // ---- The index recomputed from the live orders ----

  ghost function LevelAt(t: Table, bid: bool, price: u32): Level {
    Level(SumQty(t, At(t, bid, price)), |At(t, bid, price)|)
  }

  /** `m` lists exactly the prices with a live order, with the sum and count there. */
  ghost predicate IndexOf(m: Levels, t: Table, bid: bool) {
    && (forall p :: p in m <==> At(t, bid, p) != {})
    && (forall p :: p in m ==> m[p] == LevelAt(t, bid, p))
  }

  ghost predicate Indexed(s: State) {
    IndexOf(s.bids, s.orders, true) && IndexOf(s.asks, s.orders, false)
  }

  /** Taking `ref` away leaves its level with live orders but no shares. This is what
      makes the quantity test in sub_level drop a level that is still occupied. */
  ghost predicate StrandsAt(t: Table, ref: u64)
    requires ref in t
  {
    var rest := At(t, IsBid(t[ref].side), t[ref].price) - {ref};
    rest != {} && forall r :: r in rest ==> t[r].qty == 0
  }

  ghost predicate Strands(t: Table, e: Event) {
    match e
    case Add(_, _, _, _) => false
    case Reduce(ref, shares, _) => ref in t && shares >= t[ref].qty && StrandsAt(t, ref)
    case Delete(ref) => ref in t && StrandsAt(t, ref)
    case Replace(orig, _, _, _) => orig in t && StrandsAt(t, orig)
  }

  lemma AtAddSet(t: Table, ref: u64, o: Order, bid: bool, p: u32)
    requires ref !in t
    ensures At(t[ref := o], bid, p) ==
            At(t, bid, p) + if IsBid(o.side) == bid && o.price == p then {ref} else {}
  {
  }

  lemma AtAdd(t: Table, ref: u64, o: Order, bid: bool, p: u32)
    requires ref !in t
    ensures LevelAt(t[ref := o], bid, p) ==
            if IsBid(o.side) == bid && o.price == p
            then Level(LevelAt(t, bid, p).qty + o.qty, LevelAt(t, bid, p).orders + 1)
            else LevelAt(t, bid, p)
  {
    var u := t[ref := o];
    var s := At(t, bid, p);
    AtAddSet(t, ref, o, bid, p);
    SumQtyFrame(t, u, s);
    if IsBid(o.side) == bid && o.price == p {
      SumQtyRemove(u, s + {ref}, ref);
      assert s + {ref} - {ref} == s;
    }
  }

  lemma AtRemove(t: Table, ref: u64, bid: bool, p: u32)
    requires ref in t
    ensures var here := IsBid(t[ref].side) == bid && t[ref].price == p;
            && At(t - {ref}, bid, p) == At(t, bid, p) - {ref}
            && (here ==> ref in At(t, bid, p))
            && LevelAt(t, bid, p).qty == LevelAt(t - {ref}, bid, p).qty + (if here then t[ref].qty else 0)
            && LevelAt(t, bid, p).orders == LevelAt(t - {ref}, bid, p).orders + (if here then 1 else 0)
  {
    var u := t - {ref};
    assert At(u, bid, p) == At(t, bid, p) - {ref};
    SumQtyFrame(t, u, At(u, bid, p));
    if IsBid(t[ref].side) == bid && t[ref].price == p {
      SumQtyRemove(t, At(t, bid, p), ref);
    } else {
      assert At(t, bid, p) - {ref} == At(t, bid, p);
    }
  }

  /** Pointwise agreement of two tables on one side away from one price. */
  ghost predicate SameElsewhere(t: Table, u: Table, bid: bool, price: u32) {
    forall p: u32 :: p != price ==> At(u, bid, p) == At(t, bid, p) && LevelAt(u, bid, p) == LevelAt(t, bid, p)
  }

  lemma AddLevelExact(m: Levels, t: Table, u: Table, bid: bool, price: u32, qty: nat)
    requires IndexOf(m, t, bid) && SameElsewhere(t, u, bid, price)
    requires LevelAt(u, bid, price) == Level(LevelAt(t, bid, price).qty + qty, LevelAt(t, bid, price).orders + 1)
    ensures IndexOf(AddLevel(m, price, qty), u, bid)
  {
    if price !in m {
      assert At(t, bid, price) == {};
    }
  }

  lemma SubLevelExactIff(m: Levels, t: Table, u: Table, bid: bool, price: u32, qty: nat, gone: bool)
    requires IndexOf(m, t, bid) && SameElsewhere(t, u, bid, price) && At(t, bid, price) != {}
    requires LevelAt(t, bid, price).qty == LevelAt(u, bid, price).qty + qty
    requires LevelAt(t, bid, price).orders == LevelAt(u, bid, price).orders + (if gone then 1 else 0)
    ensures IndexOf(SubLevel(m, price, qty, gone), u, bid)
            <==> (LevelAt(u, bid, price).qty > 0 || At(u, bid, price) == {})
  {
    assert price in m && m[price] == LevelAt(t, bid, price);
    var after := SubLevel(m, price, qty, gone);
    var here := LevelAt(u, bid, price);
    if here.qty > 0 {
      assert At(u, bid, price) != {};
      assert after == m[price := here];
    } else {
      assert after == m - {price};
      assert price !in after;
    }
  }

  ghost predicate SameSide(t: Table, u: Table, bid: bool) {
    forall p: u32 :: At(u, bid, p) == At(t, bid, p) && LevelAt(u, bid, p) == LevelAt(t, bid, p)
  }

  lemma AddShape(t: Table, ref: u64, o: Order, bid: bool)
    requires ref !in t
    ensures IsBid(o.side) == bid ==> SameElsewhere(t, t[ref := o], bid, o.price)
    ensures IsBid(o.side) != bid ==> SameSide(t, t[ref := o], bid)
  {
    forall p: u32 | !(IsBid(o.side) == bid && p == o.price)
      ensures At(t[ref := o], bid, p) == At(t, bid, p)
      ensures LevelAt(t[ref := o], bid, p) == LevelAt(t, bid, p)
    {
      AtAdd(t, ref, o, bid, p);
      AtAddSet(t, ref, o, bid, p);
    }
  }

  lemma SameSideIndexed(m: Levels, t: Table, u: Table, bid: bool)
    requires IndexOf(m, t, bid) && SameSide(t, u, bid)
    ensures IndexOf(m, u, bid)
  {
  }

  lemma AddSide(m: Levels, t: Table, ref: u64, o: Order, bid: bool)
    requires IndexOf(m, t, bid) && ref !in t
    ensures IndexOf(if IsBid(o.side) == bid then AddLevel(m, o.price, o.qty) else m, t[ref := o], bid)
  {
    var u := t[ref := o];
    AddShape(t, ref, o, bid);
    if IsBid(o.side) == bid {
      AtAdd(t, ref, o, bid, o.price);
      AtAddSet(t, ref, o, bid, o.price);
      AddLevelExact(m, t, u, bid, o.price, o.qty);
    } else {
      SameSideIndexed(m, t, u, bid);
    }
  }

  lemma RemoveSideIff(m: Levels, t: Table, ref: u64, bid: bool)
    requires IndexOf(m, t, bid) && ref in t
    ensures IsBid(t[ref].side) != bid ==> IndexOf(m, t - {ref}, bid)
    ensures IsBid(t[ref].side) == bid ==>
              (IndexOf(SubLevel(m, t[ref].price, t[ref].qty, true), t - {ref}, bid) <==> !StrandsAt(t, ref))
  {
    var u, price := t - {ref}, t[ref].price;
    forall p: u32 { AtRemove(t, ref, bid, p); }
    if IsBid(t[ref].side) == bid {
      assert ref in At(t, bid, price);
      assert SameElsewhere(t, u, bid, price);
      SubLevelExactIff(m, t, u, bid, price, t[ref].qty, true);
      SumQtyZero(u, At(u, bid, price));
      assert At(u, bid, price) == At(t, bid, price) - {ref};
    }
  }

  lemma ReduceSide(m: Levels, m': Levels, t: Table, u: Table, ref: u64, d: nat, bid: bool)
    requires IndexOf(m, t, bid) && ref in t && d < t[ref].qty
    requires u == t[ref := t[ref].(qty := t[ref].qty - d)]
    requires m' == if IsBid(t[ref].side) == bid then SubLevel(m, t[ref].price, d, false) else m
    ensures IndexOf(m', u, bid)
  {
    var price := t[ref].price;
    forall p: u32 { AtReduce(t, ref, d, bid, p); }
    if IsBid(t[ref].side) == bid {
      assert ref in At(t, bid, price) && ref in At(u, bid, price);
      assert SameElsewhere(t, u, bid, price);
      SubLevelExactIff(m, t, u, bid, price, d, false);
      SumQtyZero(u, At(u, bid, price));
      assert u[ref].qty > 0;
    } else {
      SameSideIndexed(m, t, u, bid);
    }
  }

  lemma AtReduce(t: Table, ref: u64, d: nat, bid: bool, p: u32)
    requires ref in t && d <= t[ref].qty
    ensures var u := t[ref := t[ref].(qty := t[ref].qty - d)];
            && At(u, bid, p) == At(t, bid, p)
            && LevelAt(t, bid, p).qty ==
               LevelAt(u, bid, p).qty + (if IsBid(t[ref].side) == bid && t[ref].price == p then d else 0)
  {
    var u := t[ref := t[ref].(qty := t[ref].qty - d)];
    var s := At(t, bid, p);
    assert At(u, bid, p) == s;
    if ref in s {
      SumQtyRemove(t, s, ref);
      SumQtyRemove(u, s, ref);
      SumQtyFrame(t, u, s - {ref});
    } else {
      SumQtyFrame(t, u, s);
    }
  }

  /** No level is empty in both fields. */
  ghost predicate NoBlank(m: Levels) {
    forall p :: p in m ==> m[p] != Level(0, 0)
  }

  lemma RemoveLeavesNoBlank(s: State, ref: u64)
    requires Indexed(s) && ref in s.orders
    ensures NoBlank(RemoveOrder(s, ref).bids) && NoBlank(RemoveOrder(s, ref).asks)
  {
  }

  /** A restored price does not repair a stranded level: the count there is short. */
  lemma AddNeverRepairs(s: State, ref: u64, o: Order)
    requires NoBlank(s.bids) && NoBlank(s.asks)
    ensures Indexed(AddOrder(s, ref, o)) ==> Indexed(s)
  {
    if ref !in s.orders && Indexed(AddOrder(s, ref, o)) {
      AddSideBack(s.bids, s.orders, ref, o, true);
      AddSideBack(s.asks, s.orders, ref, o, false);
    }
  }

  lemma AddSideBack(m: Levels, t: Table, ref: u64, o: Order, bid: bool)
    requires ref !in t && NoBlank(m)
    requires IndexOf(if IsBid(o.side) == bid then AddLevel(m, o.price, o.qty) else m, t[ref := o], bid)
    ensures IndexOf(m, t, bid)
  {
    AddShape(t, ref, o, bid);
    if IsBid(o.side) == bid {
      AtAdd(t, ref, o, bid, o.price);
      AtAddSet(t, ref, o, bid, o.price);
      var m' := AddLevel(m, o.price, o.qty);
      assert o.price in m' && m'[o.price] == LevelAt(t[ref := o], bid, o.price);
      forall p: u32
        ensures p in m <==> At(t, bid, p) != {}
        ensures p in m ==> m[p] == LevelAt(t, bid, p)
      {
        if p != o.price {
          assert p in m' <==> p in m;
        }
      }
    }
  }

  lemma FullReduceRemoves(s: State, ref: u64, shares: u32)
    requires ref in s.orders && shares >= s.orders[ref].qty
    ensures ReduceOrder(s, ref, shares).(an := s.an) == RemoveOrder(s, ref)
  {
  }

  lemma PartialReduceIndexed(s: State, ref: u64, shares: u32)
    requires Indexed(s) && ref in s.orders && shares < s.orders[ref].qty
    ensures Indexed(ReduceOrder(s, ref, shares))
  {
    var r := ReduceOrder(s, ref, shares);
    PartialReduceFields(s, ref, shares);
    ReduceSide(s.bids, r.bids, s.orders, r.orders, ref, shares, true);
    ReduceSide(s.asks, r.asks, s.orders, r.orders, ref, shares, false);
  }

  lemma PartialReduceFields(s: State, ref: u64, shares: u32)
    requires ref in s.orders && shares < s.orders[ref].qty
    ensures var o, r := s.orders[ref], ReduceOrder(s, ref, shares);
            && r.orders == s.orders[ref := o.(qty := o.qty - shares)]
            && r.bids == (if IsBid(o.side) then SubLevel(s.bids, o.price, shares, false) else s.bids)
            && r.asks == (if IsBid(o.side) then s.asks else SubLevel(s.asks, o.price, shares, false))
  {
  }

  lemma ReduceIndexedIff(s: State, ref: u64, shares: u32)
    requires Indexed(s) && ref in s.orders
    ensures Indexed(ReduceOrder(s, ref, shares)) <==> !(shares >= s.orders[ref].qty && StrandsAt(s.orders, ref))
  {
    if shares < s.orders[ref].qty {
      PartialReduceIndexed(s, ref, shares);
    } else {
      RemoveKeepsIndexIff(s, ref);
      FullReduceRemoves(s, ref, shares);
    }
  }

  lemma ReplaceIndexedIff(s: State, orig: u64, nref: u64, o: Order)
    requires Indexed(s) && orig in s.orders
    ensures Indexed(AddOrder(RemoveOrder(s, orig), nref, o)) <==> !StrandsAt(s.orders, orig)
  {
    var mid := RemoveOrder(s, orig);
    RemoveKeepsIndexIff(s, orig);
    RemoveLeavesNoBlank(s, orig);
    if Indexed(mid) {
      AddKeepsIndex(mid, nref, o);
    }
    AddNeverRepairs(mid, nref, o);
  }

  lemma StepTable(s: State, e: Event)
    ensures Step(s, e).orders == TableStep(s.orders, e)
  {
    if e.Delete? && e.ref !in s.orders {
      assert s.orders - {e.ref} == s.orders;
    }
  }

  /** The level index stays exact through an event if and only if the event does not
      strand zero-share orders; unknown, duplicate and over-reducing events included. */
  lemma StepIndexedIff(s: State, e: Event)
    requires Indexed(s)
    ensures Indexed(Step(s, e)) <==> !Strands(s.orders, e)
  {
    if !Unknown(s.orders, e) {
      match e
      case Add(ref, side, price, shares) => AddKeepsIndex(s, ref, Order(side, price, shares));
      case Reduce(ref, shares, _) => ReduceIndexedIff(s, ref, shares);
      case Delete(ref) => RemoveKeepsIndexIff(s, ref);
      case Replace(orig, nref, shares, price) =>
        ReplaceIndexedIff(s, orig, nref, Order(s.orders[orig].side, price, shares));
    }
  }

  lemma AddKeepsIndex(s: State, ref: u64, o: Order)
    requires Indexed(s)
    ensures Indexed(AddOrder(s, ref, o))
  {
    if ref !in s.orders {
      AddSide(s.bids, s.orders, ref, o, true);
      AddSide(s.asks, s.orders, ref, o, false);
    }
  }

  /** Removing a live order keeps the index exact if and only if it does not strand
      zero-share orders at its price. */
  lemma RemoveKeepsIndexIff(s: State, ref: u64)
    requires Indexed(s) && ref in s.orders
    ensures Indexed(RemoveOrder(s, ref)) <==> !StrandsAt(s.orders, ref)
  {
    RemoveSideIff(s.bids, s.orders, ref, true);
    RemoveSideIff(s.asks, s.orders, ref, false);
  }

  lemma PositiveNeverStrands(t: Table, e: Event)
    requires Positive(t)
    ensures !Strands(t, e)
  {
    forall ref | ref in t
      ensures !StrandsAt(t, ref)
    {
      var rest := At(t, IsBid(t[ref].side), t[ref].price) - {ref};
      if rest != {} {
        var r :| r in rest;
        assert t[r].qty > 0;
      }
    }
  }

  /** Over every run of events with positive share counts, from any exact state, the
      index equals the recomputation and the table is the section 4.4 table. */
  lemma {:induction false} RunIndexed(s: State, es: seq<Event>)
    requires Indexed(s) && Positive(s.orders)
    requires forall i :: 0 <= i < |es| ==> !ZeroShares(es[i])
    ensures Indexed(Run(s, es)) && Positive(Run(s, es).orders)
    ensures Run(s, es).orders == TableRun(s.orders, es)
    decreases es
  {
    if es != [] {
      PositiveNeverStrands(s.orders, es[0]);
      StepIndexedIff(s, es[0]);
      StepTable(s, es[0]);
      PositiveStep(s.orders, es[0]);
      RunIndexed(Step(s, es[0]), es[1..]);
    }
  }

  /** Without the positive-shares promise the index is lost: a zero-share order stays
      live at 100 while the level is erased when the other order there is deleted. */
  lemma ZeroShareOrderIsStranded()
    ensures var es := [Add(1, 'B', 100, 0), Add(2, 'B', 100, 7), Delete(2)];
            var s := Run(EMPTY, es);
            s.orders == map[1 := Order('B', 100, 0)] && s.bids == map[] && !Indexed(s)
  {
    var a, b, c := Add(1, 'B', 100, 0), Add(2, 'B', 100, 7), Delete(2);
    var s1 := Step(EMPTY, a);
    var s2 := Step(s1, b);
    var s3 := Step(s2, c);
    assert Run(EMPTY, [a, b, c]) == s3 by {
      assert [a, b, c][1..] == [b, c] && [b, c][1..] == [c] && [c][1..] == [];
      assert Run(s3, []) == s3;
      assert Run(s2, [c]) == s3;
      assert Run(s1, [b, c]) == s3;
    }
    assert s1.orders == map[1 := Order('B', 100, 0)] && s1.bids == map[100 := Level(0, 1)];
    assert s2.bids == map[100 := Level(7, 2)];
    assert 1 in At(s3.orders, true, 100);
  }

  /** In an exact state the clamps of sub_level never bite: the level of a live order
      exists, holds at least that order's shares and counts at least that order. */
  lemma ClampsIdle(s: State, ref: u64)
    requires Indexed(s) && ref in s.orders
    ensures var o := s.orders[ref];
            var m := Index(s, IsBid(o.side));
            o.price in m && m[o.price].qty >= o.qty && m[o.price].orders >= 1
  {
    AtRemove(s.orders, ref, IsBid(s.orders[ref].side), s.orders[ref].price);
  }

  /** The fields are wide enough: with fewer than 2^32 live orders every level quantity
      fits uint64_t and every level count fits uint32_t. */
  lemma LevelsFit(s: State, bid: bool, p: u32)
    requires Indexed(s) && p in Index(s, bid) && |s.orders| < 0x1_0000_0000
    ensures Index(s, bid)[p].qty < 0x1_0000_0000_0000_0000
    ensures 1 <= Index(s, bid)[p].orders < 0x1_0000_0000
  {
    var at := At(s.orders, bid, p);
    SumQtyBound(s.orders, at);
    SubsetSize(at, s.orders.Keys);
    assert |at| * 0xFFFF_FFFF <= 0xFFFF_FFFF * 0xFFFF_FFFF;
  }

  // ---- Top of book and depth ----

  datatype Bbo = Bbo(bidPx: u32, askPx: u32, bidQty: nat, askQty: nat, bidLevels: nat, askLevels: nat, orders: nat)

  datatype DepthLevel = DepthLevel(price: u32, qty: nat, orders: nat)

  predicate Better(bid: bool, p: u32, q: u32) {
    if bid then p > q else p < q
  }

  /** `px` and `qty` are the best price of a side and the shares there, or zero. */
  ghost predicate IsTouch(t: Table, bid: bool, px: u32, qty: nat) {
    if Prices(t, bid) == {} then px == 0 && qty == 0
    else
      && IsBest(Prices(t, bid), bid, px)
      && qty == SumQty(t, At(t, bid, px))
  }

  ghost predicate IsBbo(t: Table, b: Bbo) {
    && IsTouch(t, true, b.bidPx, b.bidQty)
    && IsTouch(t, false, b.askPx, b.askQty)
    && b.bidLevels == |Prices(t, true)|
    && b.askLevels == |Prices(t, false)|
    && b.orders == |t|
  }

  /** The recomputed top of book is determined by the live orders. */
  lemma BboUnique(t: Table, a: Bbo, b: Bbo)
    requires IsBbo(t, a) && IsBbo(t, b)
    ensures a == b
  {
  }

  ghost predicate IsDepth(t: Table, bid: bool, v: seq<DepthLevel>) {
    && (forall i, j :: 0 <= i < j < |v| ==> Better(bid, v[i].price, v[j].price))
    && (forall i :: 0 <= i < |v| ==> v[i].price in Prices(t, bid))
    && (forall p :: p in Prices(t, bid) ==> exists i :: 0 <= i < |v| && v[i].price == p)
    && (forall i :: 0 <= i < |v| ==> Level(v[i].qty, v[i].orders) == LevelAt(t, bid, v[i].price))
  }

  /** A level map written out best first. */
  ghost predicate Lists(m: Levels, bid: bool, v: seq<DepthLevel>) {
    && (forall i, j :: 0 <= i < j < |v| ==> Better(bid, v[i].price, v[j].price))
    && (forall i :: 0 <= i < |v| ==> v[i].price in m)
    && (forall i :: 0 <= i < |v| ==> v[i] == DepthLevel(v[i].price, m[v[i].price].qty, m[v[i].price].orders))
    && (forall p :: p in m ==> exists i :: 0 <= i < |v| && v[i].price == p)
  }

  /** The best entry of a level map, or zeros. */
  ghost predicate TouchOf(m: Levels, bid: bool, px: u32, qty: nat) {
    if m == map[] then px == 0 && qty == 0 else IsBest(m.Keys, bid, px) && qty == m[px].qty
  }

  ghost predicate HeadIs(v: seq<DepthLevel>, px: u32, qty: nat) {
    if v == [] then px == 0 && qty == 0 else v[0].price == px && v[0].qty == qty
  }

  /** In any state, exact or not, the head of the depth list is the top of the level map. */
  lemma TouchIsHead(m: Levels, bid: bool, v: seq<DepthLevel>, px: u32, qty: nat)
    requires Lists(m, bid, v) && TouchOf(m, bid, px, qty)
    ensures HeadIs(v, px, qty)
  {
    if v != [] {
      assert v[0].price in m;
    }
  }

  /** In an exact state it is the depth of the live orders. */
  lemma ListsDepth(s: State, bid: bool, v: seq<DepthLevel>)
    requires Indexed(s) && Lists(Index(s, bid), bid, v)
    ensures IsDepth(s.orders, bid, v)
  {
    IndexKeys(Index(s, bid), s.orders, bid);
  }

  lemma PricesAreOccupied(t: Table, bid: bool, p: u32)
    ensures p in Prices(t, bid) <==> At(t, bid, p) != {}
  {
    if p in Prices(t, bid) {
      var r :| r in t && IsBid(t[r].side) == bid && t[r].price == p;
      assert r in At(t, bid, p);
    }
    if At(t, bid, p) != {} {
      var r :| r in At(t, bid, p);
    }
  }

  lemma IndexKeys(m: Levels, t: Table, bid: bool)
    requires IndexOf(m, t, bid)
    ensures m.Keys == Prices(t, bid)
  {
    forall p: u32 { PricesAreOccupied(t, bid, p); }
  }

  /** The head of the depth list is the touch. */
  lemma DepthHeadIsTouch(t: Table, bid: bool, v: seq<DepthLevel>)
    requires IsDepth(t, bid, v)
    ensures if v == [] then IsTouch(t, bid, 0, 0) else IsTouch(t, bid, v[0].price, v[0].qty)
  {
  }

  function DepthQty(v: seq<DepthLevel>): nat {
    if v == [] then 0 else v[0].qty + DepthQty(v[1..])
  }

  function DepthOrders(v: seq<DepthLevel>): nat {
    if v == [] then 0 else v[0].orders + DepthOrders(v[1..])
  }

  ghost function OnSide(t: Table, bid: bool): set<u64> {
    set r | r in t && IsBid(t[r].side) == bid
  }

  ghost function OnLevels(t: Table, bid: bool, v: seq<DepthLevel>): set<u64> {
    set r | r in t && IsBid(t[r].side) == bid && exists i :: 0 <= i < |v| && v[i].price == t[r].price
  }

  lemma {:induction false} SumQtyUnion(t: Table, a: set<u64>, b: set<u64>)
    requires a <= t.Keys && b <= t.Keys && a !! b
    ensures SumQty(t, a + b) == SumQty(t, a) + SumQty(t, b)
    decreases a
  {
    if a == {} {
      assert a + b == b;
    } else {
      var r :| r in a;
      SumQtyRemove(t, a, r);
      SumQtyRemove(t, a + b, r);
      assert a + b - {r} == (a - {r}) + b;
      SumQtyUnion(t, a - {r}, b);
    }
  }

  lemma OnLevelsSplit(t: Table, bid: bool, v: seq<DepthLevel>)
    requires v != [] && forall i, j :: 0 <= i < j < |v| ==> Better(bid, v[i].price, v[j].price)
    ensures OnLevels(t, bid, v) == At(t, bid, v[0].price) + OnLevels(t, bid, v[1..])
    ensures At(t, bid, v[0].price) !! OnLevels(t, bid, v[1..])
  {
    var head, rest := At(t, bid, v[0].price), OnLevels(t, bid, v[1..]);
    forall r | r in OnLevels(t, bid, v) ensures r in head + rest {
      var i :| 0 <= i < |v| && v[i].price == t[r].price;
      if i > 0 { assert v[1..][i - 1] == v[i]; }
    }
    forall r | r in rest ensures r in OnLevels(t, bid, v) && r !in head {
      var i :| 0 <= i < |v| - 1 && v[1..][i].price == t[r].price;
      assert v[i + 1].price == t[r].price;
      assert Better(bid, v[0].price, v[i + 1].price);
    }
  }

  lemma {:induction false} DepthTotalsOn(t: Table, bid: bool, v: seq<DepthLevel>)
    requires forall i, j :: 0 <= i < j < |v| ==> Better(bid, v[i].price, v[j].price)
    requires forall i :: 0 <= i < |v| ==> Level(v[i].qty, v[i].orders) == LevelAt(t, bid, v[i].price)
    ensures DepthQty(v) == SumQty(t, OnLevels(t, bid, v))
    ensures DepthOrders(v) == |OnLevels(t, bid, v)|
    decreases v
  {
    if v == [] {
      assert OnLevels(t, bid, v) == {};
    } else {
      var head, rest := At(t, bid, v[0].price), OnLevels(t, bid, v[1..]);
      DepthTotalsOn(t, bid, v[1..]);
      OnLevelsSplit(t, bid, v);
      SumQtyUnion(t, head, rest);
    }
  }

  /** The depth list's quantities and counts add up to the side's totals. */
  lemma DepthTotals(t: Table, bid: bool, v: seq<DepthLevel>)
    requires IsDepth(t, bid, v)
    ensures DepthQty(v) == SumQty(t, OnSide(t, bid))
    ensures DepthOrders(v) == |OnSide(t, bid)|
  {
    DepthTotalsOn(t, bid, v);
    assert OnLevels(t, bid, v) == OnSide(t, bid) by {
      forall r | r in OnSide(t, bid) ensures r in OnLevels(t, bid, v) {
        assert t[r].price in Prices(t, bid);
      }
    }
  }

  predicate IsBest(s: set<u32>, bid: bool, best: u32) {
    best in s && forall p :: p in s ==> p == best || Better(bid, best, p)
  }

  lemma {:induction false} HasBest(s: set<u32>, bid: bool) returns (best: u32)
    requires s != {}
    ensures IsBest(s, bid, best)
    decreases s
  {
    var x :| x in s;
    best := x;
    if s != {x} {
      assert s - {x} != {};
      var other := HasBest(s - {x}, bid);
      if Better(bid, other, x) {
        best := other;
      }
      assert forall p :: p in s ==> p == x || p in s - {x};
    }
  }

  /** Walking a map in key order is taking the best remaining key. */
  method ListLevels(m: Levels, bid: bool) returns (v: seq<DepthLevel>)
    ensures Lists(m, bid, v)
  {
    var rest := m.Keys;
    v := [];
    while rest != {}
      invariant rest <= m.Keys
      invariant forall i :: 0 <= i < |v| ==>
                  v[i].price in m && v[i] == DepthLevel(v[i].price, m[v[i].price].qty, m[v[i].price].orders)
      invariant forall i, j :: 0 <= i < j < |v| ==> Better(bid, v[i].price, v[j].price)
      invariant forall i, p :: 0 <= i < |v| && p in rest ==> Better(bid, v[i].price, p)
      invariant forall p :: p in m ==> p in rest || exists i :: 0 <= i < |v| && v[i].price == p
      decreases rest
    {
      ghost var best := HasBest(rest, bid);
      var p :| p in rest && IsBest(rest, bid, p);
      assert IsBest(rest, bid, p);
      ghost var v0, rest0 := v, rest;
      v := v + [DepthLevel(p, m[p].qty, m[p].orders)];
      rest := rest - {p};
      assert v[|v0|].price == p;
      assert forall q :: q in rest ==> q in rest0 && q != p;
      assert forall q :: q in rest ==> Better(bid, p, q);
      assert forall i :: 0 <= i < |v0| ==> v[i] == v0[i];
    }
  }

  /** The class of include/hft/itch50.hpp: std::map becomes `map`. */
  class RefBook {
    var orders: Table
    var bids: Levels
    var asks: Levels
    var an: Anomalies

    ghost function View(): State
      reads this
    {
      State(orders, bids, asks, an)
    }

    constructor ()
      ensures View() == EMPTY
    {
      orders, bids, asks, an := map[], map[], map[], Anomalies(0, 0, 0);
    }

    method SubLevelAt(side: char, price: u32, qty: nat, gone: bool)
      modifies this
      ensures View() == SetIndex(old(View()), IsBid(side), SubLevel(Index(old(View()), IsBid(side)), price, qty, gone))
    {
      var m := if IsBid(side) then bids else asks;
      if price in m {
        var l := m[price];
        l := l.(qty := l.qty - Min(l.qty, qty));
        if gone && l.orders > 0 {
          l := l.(orders := l.orders - 1);
        }
        m := if l.qty == 0 then m - {price} else m[price := l];
      }
      if IsBid(side) { bids := m; } else { asks := m; }
    }

    method Add(ref: u64, side: char, price: u32, qty: u32)
      modifies this
      ensures View() == Step(old(View()), Event.Add(ref, side, price, qty))
    {
      if ref in orders {
        an := an.(duplicateRef := an.duplicateRef + 1);
        return;
      }
      orders := orders[ref := Order(side, price, qty)];
      var m := if IsBid(side) then bids else asks;
      var l := if price in m then m[price] else Level(0, 0);
      m := m[price := Level(l.qty + qty, l.orders + 1)];
      if IsBid(side) { bids := m; } else { asks := m; }
    }

    method Reduce(ref: u64, shares: u32, ghost exec: bool)
      modifies this
      ensures View() == Step(old(View()), Event.Reduce(ref, shares, exec))
    {
      if ref !in orders {
        an := an.(unknownRef := an.unknownRef + 1);
        return;
      }
      var o := orders[ref];
      var d := shares;
      if shares > o.qty {
        an := an.(overReduce := an.overReduce + 1);
        d := o.qty;
      }
      o := o.(qty := o.qty - d);
      orders := orders[ref := o];
      SubLevelAt(o.side, o.price, d, o.qty == 0);
      if o.qty == 0 {
        orders := orders - {ref};
      }
      assert orders == Step(old(View()), Event.Reduce(ref, shares, exec)).orders;
    }

    method Remove(ref: u64)
      modifies this
      ensures View() == Step(old(View()), Event.Delete(ref))
    {
      if ref !in orders {
        an := an.(unknownRef := an.unknownRef + 1);
        return;
      }
      SubLevelAt(orders[ref].side, orders[ref].price, orders[ref].qty, true);
      orders := orders - {ref};
    }

    method Replace(orig: u64, nref: u64, shares: u32, price: u32)
      modifies this
      ensures View() == Step(old(View()), Event.Replace(orig, nref, shares, price))
    {
      if orig !in orders {
        an := an.(unknownRef := an.unknownRef + 1);
        return;
      }
      var side := orders[orig].side;
      Remove(orig);
      Add(nref, side, price, shares);
    }

    /** The best price of one index and the shares there, or zeros. */
    method Touch(bid: bool) returns (px: u32, qty: nat)
      ensures TouchOf(if bid then bids else asks, bid, px, qty)
      ensures Indexed(View()) ==> IsTouch(orders, bid, px, qty)
    {
      var m := if bid then bids else asks;
      px, qty := 0, 0;
      if m != map[] {
        ghost var best := HasBest(m.Keys, bid);
        var p :| p in m.Keys && IsBest(m.Keys, bid, p);
        px, qty := p, m[p].qty;
      }
      if Indexed(View()) {
        IndexKeys(m, orders, bid);
      }
    }

    /** bbo(): in every exact state it equals the recomputation from the live orders. */
    method TopOfBook() returns (b: Bbo)
      ensures TouchOf(bids, true, b.bidPx, b.bidQty) && TouchOf(asks, false, b.askPx, b.askQty)
      ensures Indexed(View()) ==> IsBbo(orders, b)
    {
      var bidPx, bidQty := Touch(true);
      var askPx, askQty := Touch(false);
      b := Bbo(bidPx, askPx, bidQty, askQty, |bids|, |asks|, |orders|);
      if Indexed(View()) {
        IndexKeys(bids, orders, true);
        IndexKeys(asks, orders, false);
      }
    }

    /** depth(side): every entry of the level map, best first; in an exact state every live price
        once, with its sum and count. */
    method Depth(side: char) returns (v: seq<DepthLevel>)
      ensures Lists(if IsBid(side) then bids else asks, IsBid(side), v)
      ensures Indexed(View()) ==> IsDepth(orders, IsBid(side), v)
    {
      var bid := IsBid(side);
      var m := if bid then bids else asks;
      v := ListLevels(m, bid);
      if Indexed(View()) {
        ListsDepth(View(), bid, v);
      }
    }

    /** crossed(): some bid level is at or above some ask level; in an exact state, some live bid
        and some live ask. */
    method IsCrossed() returns (c: bool)
      ensures c <==> LevelsCross(bids, asks)
      ensures Indexed(View()) ==> (c <==> Crossed(orders))
    {
      c := false;
      if bids != map[] && asks != map[] {
        ghost var bb := HasBest(bids.Keys, true);
        ghost var ba := HasBest(asks.Keys, false);
        var b :| b in bids.Keys && IsBest(bids.Keys, true, b);
        var a :| a in asks.Keys && IsBest(asks.Keys, false, a);
        BestsCross(bids, asks, b, a);
        c := b >= a;
      }
      if Indexed(View()) {
        LevelsCrossIff(View());
      }
    }
  }

  /** Some bid level is priced at or above some ask level. */
  ghost predicate LevelsCross(bids: Levels, asks: Levels) {
    exists b, a :: b in bids && a in asks && b >= a
  }

  lemma BestsCross(bids: Levels, asks: Levels, b: u32, a: u32)
    requires IsBest(bids.Keys, true, b) && IsBest(asks.Keys, false, a)
    ensures LevelsCross(bids, asks) <==> b >= a
  {
    if LevelsCross(bids, asks) {
      var p, q :| p in bids && q in asks && p >= q;
      assert p in bids.Keys && q in asks.Keys;
    }
    assert b in bids && a in asks;
  }

  /** In an exact state the levels cross exactly when the live orders do. */
  lemma LevelsCrossIff(s: State)
    requires Indexed(s)
    ensures LevelsCross(s.bids, s.asks) <==> Crossed(s.orders)
  {
    var t := s.orders;
    IndexKeys(s.bids, t, true);
    IndexKeys(s.asks, t, false);
    if LevelsCross(s.bids, s.asks) {
      var b, a :| b in s.bids && a in s.asks && b >= a;
      assert b in Prices(t, true) && a in Prices(t, false);
      var x :| x in t && IsBid(t[x].side) && t[x].price == b;
      var y :| y in t && !IsBid(t[y].side) && t[y].price == a;
      assert Crossed(t);
    }
    if Crossed(t) {
      var x, y :| x in t && y in t && IsBid(t[x].side) && !IsBid(t[y].side) && t[x].price >= t[y].price;
      assert t[x].price in Prices(t, true) && t[y].price in Prices(t, false);
    }
  }

  lemma CrossedByTouch(t: Table, b: u32, a: u32)
    requires IsBest(Prices(t, true), true, b) && IsBest(Prices(t, false), false, a)
    ensures Crossed(t) <==> b >= a
  {
    if Crossed(t) {
      var x, y :| x in t && y in t && IsBid(t[x].side) && !IsBid(t[y].side) && t[x].price >= t[y].price;
      assert t[x].price in Prices(t, true) && t[y].price in Prices(t, false);
    }
    if b >= a {
      var x :| x in t && IsBid(t[x].side) && t[x].price == b;
      var y :| y in t && !IsBid(t[y].side) && t[y].price == a;
      assert Crossed(t);
    }
  }
}
