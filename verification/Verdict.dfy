/** The full-depth comparison and the verdict of tools/replay_itch50.cpp. */
module Verdict {
  import opened Itch
  import opened Engine
  import opened PriceTime
  import opened Replication
  import Ref = ReferenceBook
  import Acc = Accounting

  // ---- The level list of an engine that holds the live orders ----

  /** The live orders of a side and price that are in the list. */
  ghost function Listed(a: seq<Arrival>, t: Table, bid: bool, p: u32): set<u64>
    requires Within(a, t)
  {
    set r | r in At(t, bid, p) && HasId(a, r)
  }

  lemma ListedSnoc(a: seq<Arrival>, x: Arrival, t: Table, bid: bool, p: u32)
    requires Distinct(a + [x]) && Within(a + [x], t) && Within(a, t)
    ensures x.id in t && x == ArrivalOf(x.id, t[x.id])
    ensures x.id !in Listed(a, t, bid, p)
    ensures Listed(a + [x], t, bid, p) ==
            if IsBid(t[x.id].side) == bid && t[x.id].price == p then Listed(a, t, bid, p) + {x.id}
                else Listed(a, t, bid, p)
  {
    var b := a + [x];
    assert b[|a|] == x;
    assert forall k :: 0 <= k < |a| ==> b[k] == a[k];
    assert !HasId(a, x.id);
    forall r: u64 ensures HasId(b, r) <==> HasId(a, r) || r == x.id {
      if HasId(a, r) {
        var k :| 0 <= k < |a| && a[k].id == r;
        assert b[k].id == r;
      }
    }
  }

  ghost predicate Counts(q: seq<Resting>, t: Table, s: set<u64>) {
    s <= t.Keys && |q| == |s| && Total(q) == SumQty(t, s)
  }

  lemma CountsSnoc(q: seq<Resting>, t: Table, s: set<u64>, r: u64)
    requires Counts(q, t, s) && r in t && r !in s
    ensures Counts(q + [Resting(r, t[r].qty)], t, s + {r})
  {
    TotalAppend(q, Resting(r, t[r].qty));
    SumQtyRemove(t, s + {r}, r);
    assert s + {r} - {r} == s;
  }

  /** A price's queue holds one entry per live order there, and their shares. */
  lemma {:induction false} QueueCounts(a: seq<Arrival>, t: Table, bid: bool, p: u32)
    requires Distinct(a) && Within(a, t)
    ensures Counts(Queue(a, bid, ToEngine(p)), t, Listed(a, t, bid, p))
    decreases |a|
  {
    hide SumQty, Total;
    if a == [] {
      assert Listed(a, t, bid, p) == {};
      EmptyCounts(t);
    } else {
      var init, x := Snoc(a);
      assert a[..|a| - 1] == init && a == init + [x];
      QueueCounts(init, t, bid, p);
      ListedSnoc(init, x, t, bid, p);
      hide HasId, Distinct, Within, Listed, At, Counts;
      var q := Queue(init, bid, ToEngine(p));
      assert q + [] == q;
      if x.buy == bid && x.price == ToEngine(p) {
        CountsSnoc(q, t, Listed(init, t, bid, p), x.id);
      }
    }
  }

  lemma EmptyCounts(t: Table)
    ensures Counts([], t, {})
  {
  }

  lemma LevelCounts(a: seq<Arrival>, t: Table, bid: bool, p: u32)
    requires Matches(a, t)
    ensures |Queue(a, bid, ToEngine(p))| == Ref.LevelAt(t, bid, p).orders
    ensures Total(Queue(a, bid, ToEngine(p))) == Ref.LevelAt(t, bid, p).qty
  {
    QueueCounts(a, t, bid, p);
    assert Listed(a, t, bid, p) == At(t, bid, p);
  }

  /** The engine's levels, written down from a depth list. */
  ghost function LevelsOf(a: seq<Arrival>, bid: bool, v: seq<Ref.DepthLevel>): seq<Level> {
    seq(|v|, i requires 0 <= i < |v| =>
      Level(ToEngine(v[i].price), v[i].qty % QTY_MOD, v[i].orders, Queue(a, bid, ToEngine(v[i].price))))
  }

  lemma QueueOccupied(a: seq<Arrival>, t: Table, bid: bool, q: int)
    requires Matches(a, t) && Queue(a, bid, q) != []
    ensures exists p: u32 :: p in Prices(t, bid) && q == ToEngine(p)
  {
    var k := Oldest(a, bid, q);
    var p := t[a[k].id].price;
    assert p in Prices(t, bid) && q == ToEngine(p);
  }

  lemma PriceListed(a: seq<Arrival>, t: Table, bid: bool, v: seq<Ref.DepthLevel>, ls: seq<Level>, q: int)
    requires Matches(a, t) && Ref.IsDepth(t, bid, v) && ls == LevelsOf(a, bid, v)
    ensures HasPrice(ls, q) <==> Queue(a, bid, q) != []
  {
    hide Matches;
    if Queue(a, bid, q) != [] {
      QueueOccupied(a, t, bid, q);
      var p: u32 :| p in Prices(t, bid) && q == ToEngine(p);
      var i :| 0 <= i < |v| && v[i].price == p;
      assert ls[i].price == q;
    }
    if HasPrice(ls, q) {
      var i :| 0 <= i < |ls| && ls[i].price == q;
      LevelCounts(a, t, bid, v[i].price);
      Ref.PricesAreOccupied(t, bid, v[i].price);
      assert |At(t, bid, v[i].price)| > 0;
    }
  }

  lemma LevelsOfIsSide(a: seq<Arrival>, t: Table, bid: bool, v: seq<Ref.DepthLevel>)
    requires Matches(a, t) && Ref.IsDepth(t, bid, v)
    ensures IsSide(LevelsOf(a, bid, v), a, bid)
  {
    hide Matches, Queue, Ref.LevelAt, Prices;
    var ls := LevelsOf(a, bid, v);
    forall i | 0 <= i < |ls| ensures Cached(ls[i]) {
      LevelCounts(a, t, bid, v[i].price);
    }
    forall q ensures HasPrice(ls, q) <==> Queues(a, bid)(q) != [] {
      PriceListed(a, t, bid, v, ls, q);
    }
    forall i, j | 0 <= i < j < |ls| ensures Before(bid, ls[i].price, ls[j].price) {
      assert Ref.Better(bid, v[i].price, v[j].price);
    }
  }

  /** An engine that holds exactly the live orders shows, level for level, the reference
      depth: price times 100, the same count, and the quantity modulo 2^32. */
  lemma DepthAgrees(ls: seq<Level>, a: seq<Arrival>, t: Table, bid: bool, v: seq<Ref.DepthLevel>)
    requires IsSide(ls, a, bid) && Matches(a, t) && Ref.IsDepth(t, bid, v)
    ensures |ls| == |v|
    ensures forall i :: 0 <= i < |v| ==>
              && ls[i].price == v[i].price * 100
              && ls[i].count == v[i].orders
              && ls[i].qty == v[i].qty % QTY_MOD
  {
    LevelsOfIsSide(a, t, bid, v);
    SideUnique(ls, LevelsOf(a, bid, v), a, bid);
  }

  // ---- The comparison loop ----

  /** One level as bid_depth and ask_depth copy it out. */
  datatype PriceLevel = PriceLevel(price: int, qty: nat, count: int)

  function Shown(ls: seq<Level>): seq<PriceLevel> {
    seq(|ls|, i requires 0 <= i < |ls| => PriceLevel(ls[i].price, ls[i].qty, ls[i].count))
  }

  /** The loop's test of one position; C++ division truncates. */
  predicate SameLevel(e: PriceLevel, r: Ref.DepthLevel) {
    Acc.Quot(e.price, 100) == r.price && e.qty == r.qty && e.count == r.orders
  }

  predicate Differs(e: seq<PriceLevel>, r: seq<Ref.DepthLevel>, i: nat) {
    i >= |e| || i >= |r| || !SameLevel(e[i], r[i])
  }

  ghost function Bad(e: seq<PriceLevel>, r: seq<Ref.DepthLevel>, n: nat): set<nat> {
    set i: nat | i < n && Differs(e, r, i)
  }

  /** The engine list is the reference list, prices times 100. */
  ghost predicate SameDepth(e: seq<PriceLevel>, r: seq<Ref.DepthLevel>) {
    |e| == |r| && forall i :: 0 <= i < |r| ==> e[i] == PriceLevel(r[i].price * 100, r[i].qty, r[i].orders)
  }

  /** Every price is a whole number of ITCH ticks, as the translator's are. */
  ghost predicate WholeTicks(e: seq<PriceLevel>) {
    forall i :: 0 <= i < |e| ==> Tick(e[i].price)
  }

  predicate Tick(price: int) {
    price >= 0 && price % 100 == 0
  }

  lemma TickQuotient(p: nat, q: int)
    ensures Acc.Quot(p * 100, 100) == q <==> p == q
  {
  }

  /** The lists look the same to the loop: as long, and every position passes its test. */
  ghost predicate LooksSame(e: seq<PriceLevel>, r: seq<Ref.DepthLevel>) {
    |e| == |r| && forall i :: 0 <= i < |r| ==> SameLevel(e[i], r[i])
  }

  lemma BadIff(e: seq<PriceLevel>, r: seq<Ref.DepthLevel>, n: nat)
    requires n == if |e| > |r| then |e| else |r|
    ensures Bad(e, r, n) == {} <==> LooksSame(e, r)
  {
    if Bad(e, r, n) == {} {
      forall i: nat | i < n ensures !Differs(e, r, i) {
        assert i !in Bad(e, r, n);
      }
      if |e| != |r| {
        var k: nat := if |e| < |r| then |e| else |r|;
        assert Differs(e, r, k);
      }
      forall i | 0 <= i < |r| ensures SameLevel(e[i], r[i]) {
        var k: nat := i;
        assert !Differs(e, r, k);
      }
    }
  }

  /** On the tick grid the loop's division loses nothing. */
  lemma LooksAreReal(e: seq<PriceLevel>, r: seq<Ref.DepthLevel>)
    requires WholeTicks(e)
    ensures LooksSame(e, r) <==> SameDepth(e, r)
  {
    if LooksSame(e, r) {
      forall i | 0 <= i < |r| ensures e[i] == PriceLevel(r[i].price * 100, r[i].qty, r[i].orders) {
        assert SameLevel(e[i], r[i]);
        assert Tick(e[i].price);
        TickQuotient(e[i].price / 100, r[i].price);
      }
    }
    if SameDepth(e, r) {
      forall i | 0 <= i < |r| ensures SameLevel(e[i], r[i]) {
        TickQuotient(r[i].price, r[i].price);
      }
    }
  }

  /** The loop counts exactly the positions that differ; it counts none if and only if the
      two level lists look the same, which on the tick grid means that they are equal. */
  method Compare(e: seq<PriceLevel>, r: seq<Ref.DepthLevel>) returns (counted: nat, mismatch: nat)
    ensures counted == if |e| > |r| then |e| else |r|
    ensures mismatch == |Bad(e, r, counted)|
    ensures mismatch == 0 <==> LooksSame(e, r)
    ensures WholeTicks(e) ==> (mismatch == 0 <==> SameDepth(e, r))
  {
    counted := if |e| > |r| then |e| else |r|;
    mismatch := 0;
    assert Bad(e, r, 0) == {};
    for i := 0 to counted
      invariant mismatch == |Bad(e, r, i)|
    {
      BadSnoc(e, r, i);
      if i >= |e| || i >= |r| {
        mismatch := mismatch + 1;
        continue;
      }
      if Acc.Quot(e[i].price, 100) != r[i].price || e[i].qty != r[i].qty || e[i].count != r[i].orders {
        mismatch := mismatch + 1;
      }
    }
    BadIff(e, r, counted);
    if WholeTicks(e) {
      LooksAreReal(e, r);
    }
  }

  lemma BadSnoc(e: seq<PriceLevel>, r: seq<Ref.DepthLevel>, n: nat)
    ensures |Bad(e, r, n + 1)| == |Bad(e, r, n)| + if Differs(e, r, n) then 1 else 0
  {
    if Differs(e, r, n) {
      assert Bad(e, r, n + 1) == Bad(e, r, n) + {n};
    } else {
      assert Bad(e, r, n + 1) == Bad(e, r, n);
    }
  }

  /** Off the tick grid the division hides a difference. */
  lemma OffGridHides()
    ensures var e, r := PriceLevel(150, 1, 1), Ref.DepthLevel(1, 1, 1);
            SameLevel(e, r) && e.price != r.price * 100
  {
    assert Acc.Quot(150, 100) == 1;
  }

  // ---- The verdict ----

  /** Every level total of a side fits the engine's 32-bit field. */
  ghost predicate QtyFits(v: seq<Ref.DepthLevel>) {
    forall i :: 0 <= i < |v| ==> v[i].qty < QTY_MOD
  }

  lemma ShownTicks(ls: seq<Level>, a: seq<Arrival>, t: Table, bid: bool, v: seq<Ref.DepthLevel>)
    requires IsSide(ls, a, bid) && Matches(a, t) && Ref.IsDepth(t, bid, v)
    ensures WholeTicks(Shown(ls))
    ensures SameDepth(Shown(ls), v) <==> QtyFits(v)
  {
    hide IsSide, Matches, Ref.IsDepth;
    DepthAgrees(ls, a, t, bid, v);
    var e := Shown(ls);
    forall i | 0 <= i < |e| ensures Tick(e[i].price) {
      assert e[i].price == v[i].price * 100;
    }
    if QtyFits(v) {
      assert forall i :: 0 <= i < |v| ==> v[i].qty % QTY_MOD == v[i].qty;
    }
    if SameDepth(e, v) {
      forall i | 0 <= i < |v| ensures v[i].qty < QTY_MOD {
        assert e[i].qty == v[i].qty && e[i].qty == v[i].qty % QTY_MOD;
      }
    }
  }

  const PRICE_INVALID: int := -0x8000_0000_0000_0000

  function HeadPrice(e: seq<PriceLevel>): int {
    if e == [] then PRICE_INVALID else e[0].price
  }

  function HeadQty(e: seq<PriceLevel>): nat {
    if e == [] then 0 else e[0].qty
  }

  function Px(p: int): int {
    if p == PRICE_INVALID then 0 else Acc.Quot(p, 100)
  }

  /** The touch part of the verdict follows from the depth part. */
  lemma TouchIsRedundant(e: seq<PriceLevel>, v: seq<Ref.DepthLevel>, px: u32, qty: nat)
    requires LooksSame(e, v) && Ref.HeadIs(v, px, qty)
    ensures Px(HeadPrice(e)) == px && HeadQty(e) == qty
  {
    if v != [] {
      assert SameLevel(e[0], v[0]);
    }
  }

  /** The comparison and the verdict as main() makes them once the engine is stopped: for every
      pair of lists the engine may show, the verdict is positive exactly when the capacity was
      not exceeded, every message was counted and both lists look the same. */
  method Judge(bids: seq<PriceLevel>, asks: seq<PriceLevel>, rbids: seq<Ref.DepthLevel>, rasks: seq<Ref.DepthLevel>,
               rb: Ref.Bbo, sent: nat, processed: nat, exceeded: bool) returns (agree: bool)
    requires Ref.HeadIs(rbids, rb.bidPx, rb.bidQty) && Ref.HeadIs(rasks, rb.askPx, rb.askQty)
    ensures agree <==> !exceeded && processed == sent && LooksSame(bids, rbids) && LooksSame(asks, rasks)
  {
    var depthMismatch := 0;
    if !exceeded {
      var _, m := Compare(bids, rbids);
      var _, n := Compare(asks, rasks);
      depthMismatch := m + n;
    }
    if LooksSame(bids, rbids) && LooksSame(asks, rasks) {
      TouchIsRedundant(bids, rbids, rb.bidPx, rb.bidQty);
      TouchIsRedundant(asks, rasks, rb.askPx, rb.askQty);
    }
    agree := !exceeded && depthMismatch == 0
      && Px(HeadPrice(bids)) == rb.bidPx && HeadQty(bids) == rb.bidQty
      && Px(HeadPrice(asks)) == rb.askPx && HeadQty(asks) == rb.askQty
      && processed == sent;
  }

  // ---- Level capacity ----

  /** The engine's fixed capacities. */
  ghost predicate WithinCapacity(b: Book) {
    |b.bids| <= MAX_LEVELS && |b.asks| <= MAX_LEVELS && b.used <= MAX_ORDERS
  }

  lemma {:induction false} MatchBound(b: Book, id: nat, price: int, qty: nat, buy: bool)
    requires WithinCapacity(b)
    ensures WithinCapacity(Match(b, id, price, qty, buy).0)
    decreases |Side(b, !buy)|, if Side(b, !buy) == [] then 0 else |Side(b, !buy)[0].queue|, qty
  {
    var ls := Side(b, !buy);
    if !(qty == 0 || ls == [] || !Crosses(buy, price, ls[0].price) || ls[0].queue == []) {
      var head := ls[0].queue[0];
      var fill := if qty < head.qty then qty else head.qty;
      assert WithinCapacity(FillHead(b, buy, fill));
      if head.qty <= fill {
        MatchBound(FillHead(b, buy, fill), id, price, qty - fill, buy);
      }
    }
  }

  lemma RestBound(b: Book, id: nat, price: int, qty: nat, buy: bool)
    requires WithinCapacity(b)
    ensures WithinCapacity(Rest(b, id, price, qty, buy))
  {
  }

  lemma CancelBound(b: Book, id: nat)
    requires WithinCapacity(b)
    ensures WithinCapacity(Cancel(b, id))
  {
  }

  lemma ProcessBound(b: Book, m: Msg)
    requires WithinCapacity(b)
    ensures WithinCapacity(Process(b, m).0)
  {
    hide Match, Rest, Cancel;
    match m.kind
    case NewOrder =>
      var id := if m.id != 0 then m.id else b.nextId;
      var b' := if m.id != 0 then b else b.(nextId := b.nextId + 1);
      MatchBound(b', id, m.price, m.qty, m.buy);
      var (b'', left, _) := Match(b', id, m.price, m.qty, m.buy);
      RestBound(b'', id, m.price, left, m.buy);
    case CancelOrder => CancelBound(b, m.id);
    case ModifyOrder => CancelBound(b, m.id);
  }

  lemma {:induction false} FeedBound(b: Book, ms: seq<Msg>)
    requires WithinCapacity(b)
    ensures WithinCapacity(Feed(b, ms).0)
    decreases ms
  {
    hide Process;
    if ms != [] {
      ProcessBound(b, ms[0]);
      FeedBound(Process(b, ms[0]).0, ms[1..]);
    }
  }

  /** With more live prices on a side than the engine has levels the lists differ, whatever was
      sent; the capacity test, which counts orders, does not see it. */
  lemma LevelOverflowMismatch(b: Book, ms: seq<Msg>, t: Table, bid: bool, v: seq<Ref.DepthLevel>)
    requires WithinCapacity(b) && Ref.IsDepth(t, bid, v) && |v| > MAX_LEVELS
    ensures !SameDepth(Shown(Side(Feed(b, ms).0, bid)), v)
  {
    hide Feed;
    FeedBound(b, ms);
  }
}
