/** Feeding the engine with the translator's output: the engine's book is the order
    table, level by level and in time priority, and nothing trades unless the reference
    book crosses. */
module Replication {
  import opened Itch
  import opened Engine
  import opened PriceTime
  import Tr = Translation

  function ArrivalOf(r: nat, o: Order): Arrival {
    Arrival(r, IsBid(o.side), o.price * 100, o.qty)
  }

  ghost predicate Within(a: seq<Arrival>, t: Table) {
    forall k :: 0 <= k < |a| ==> a[k].id in t && a[k] == ArrivalOf(a[k].id, t[a[k].id])
  }

  /** The arrivals are exactly the live orders, prices times 100. */
  ghost predicate Matches(a: seq<Arrival>, t: Table) {
    Distinct(a) && Within(a, t) && forall r :: r in t ==> HasId(a, r)
  }

  /** The table fits the engine's fixed capacities. */
  ghost predicate Fits(t: Table) {
    |t| <= MAX_ORDERS && |Prices(t, true)| <= MAX_LEVELS && |Prices(t, false)| <= MAX_LEVELS
  }

  // ---- Capacity ----

  ghost function Ids(a: seq<Arrival>): set<nat> {
    set k | 0 <= k < |a| :: a[k].id
  }

  lemma {:induction false} IdsSize(a: seq<Arrival>)
    requires Distinct(a)
    ensures |Ids(a)| == |a|
    decreases |a|
  {
    if a == [] {
      assert Ids(a) == {};
    } else {
      var init, y := Snoc(a);
      IdsSize(init);
      assert Ids(a) == Ids(init) + {y.id} by {
        forall x | x in Ids(a) ensures x in Ids(init) + {y.id} {
          var k :| 0 <= k < |a| && a[k].id == x;
          if k < |init| { assert init[k].id == x; }
        }
        forall x | x in Ids(init) ensures x in Ids(a) {
          var k :| 0 <= k < |init| && init[k].id == x;
          assert a[k].id == x;
        }
        assert a[|init|].id == y.id;
      }
      assert y.id !in Ids(init);
    }
  }

  ghost function LevelPrices(ls: seq<Level>): set<int> {
    set i | 0 <= i < |ls| :: ls[i].price
  }

  lemma LevelPricesSplit(ls: seq<Level>, buy: bool)
    requires ls != [] && Sorted(ls, buy)
    ensures LevelPrices(ls) == {ls[0].price} + LevelPrices(ls[1..])
    ensures ls[0].price !in LevelPrices(ls[1..])
  {
    var p := ls[0].price;
    forall x | x in LevelPrices(ls) ensures x in {p} + LevelPrices(ls[1..]) {
      var i :| 0 <= i < |ls| && ls[i].price == x;
      if i > 0 { assert ls[1..][i - 1].price == x; }
    }
    forall x | x in LevelPrices(ls[1..]) ensures x in LevelPrices(ls) && x != p {
      var i :| 0 <= i < |ls| - 1 && ls[1..][i].price == x;
      assert ls[i + 1].price == x;
      assert Before(buy, p, ls[i + 1].price);
    }
  }

  lemma {:induction false} LevelPricesSize(ls: seq<Level>, buy: bool)
    requires Sorted(ls, buy)
    ensures |LevelPrices(ls)| == |ls|
    decreases |ls|
  {
    if ls == [] {
      assert LevelPrices(ls) == {};
    } else {
      LevelPricesSplit(ls, buy);
      LevelPricesSize(ls[1..], buy);
    }
  }

  ghost function Scaled(ps: set<u32>): set<int> {
    set p | p in ps :: ToEngine(p)
  }

  function ToEngine(p: u32): int {
    p * 100
  }

  lemma {:induction false} ScaledSize(ps: set<u32>)
    ensures |Scaled(ps)| == |ps|
    decreases ps
  {
    if ps == {} {
      assert Scaled(ps) == {};
    } else {
      var p :| p in ps;
      ScaledSize(ps - {p});
      assert Scaled(ps) == Scaled(ps - {p}) + {ToEngine(p)};
      assert ToEngine(p) !in Scaled(ps - {p});
    }
  }

  /** Every level of the engine stands at a price of the table. */
  lemma LevelsWithin(ls: seq<Level>, a: seq<Arrival>, t: Table, bid: bool)
    requires IsSide(ls, a, bid) && Within(a, t)
    ensures LevelPrices(ls) <= Scaled(Prices(t, bid))
  {
    forall i | 0 <= i < |ls|
      ensures ls[i].price in Scaled(Prices(t, bid))
    {
      assert HasPrice(ls, ls[i].price);
      assert Queues(a, bid)(ls[i].price) != [];
      var k := Oldest(a, bid, ls[i].price);
      assert t[a[k].id].price in Prices(t, bid);
      assert ToEngine(t[a[k].id].price) == ls[i].price;
    }
  }

  /** A table that fits leaves the engine room for each of its orders. */
  lemma RoomFor(b: Book, a: seq<Arrival>, t: Table, r: u64)
    requires Rep(b, a) && Within(a, t) && Fits(t) && r in t && !HasId(a, r)
    ensures HasRoom(b, IsBid(t[r].side), t[r].price * 100)
  {
    IdsSize(a);
    assert r !in Ids(a);
    SubsetSize(Ids(a) + {r}, t.Keys);
    var bid, p := IsBid(t[r].side), t[r].price * 100;
    var ls := Side(b, bid);
    if !HasPrice(ls, p) {
      LevelsWithin(ls, a, t, bid);
      LevelPricesSize(ls, bid);
      ScaledSize(Prices(t, bid));
      assert t[r].price in Prices(t, bid);
      assert ToEngine(t[r].price) in Scaled(Prices(t, bid)) && p !in LevelPrices(ls);
      SubsetSize(LevelPrices(ls) + {p}, Scaled(Prices(t, bid)));
    }
  }

  // ---- A new order that does not cross rests; one that crosses trades ----

  lemma NothingToHit(b: Book, a: seq<Arrival>, id: nat, price: int, qty: nat, buy: bool)
    requires Rep(b, a)
    requires forall j :: 0 <= j < |a| && a[j].buy != buy ==> !Crosses(buy, price, a[j].price)
    ensures Match(b, id, price, qty, buy) == (b, qty, [])
  {
    var ls := Side(b, !buy);
    if ls != [] {
      var k := HeadIsBest(ls, a, buy);
      assert !Crosses(buy, price, a[k].price);
    }
  }

  lemma SomethingToHit(b: Book, a: seq<Arrival>, id: nat, price: int, qty: nat, buy: bool, j: nat)
    requires Rep(b, a) && qty > 0 && j < |a| && a[j].buy != buy && Crosses(buy, price, a[j].price)
    ensures Match(b, id, price, qty, buy).2 != []
  {
    var ls := Side(b, !buy);
    QueueSits(a, j);
    assert Queues(a, !buy)(a[j].price) != [];
    assert HasPrice(ls, a[j].price);
    var k := HeadIsBest(ls, a, buy);
    assert Crosses(buy, price, a[k].price);
  }

  lemma CrossingFree(a: seq<Arrival>, t: Table, r: u64)
    requires Within(a, t) && r in t && !Crossed(t)
    ensures var x := ArrivalOf(r, t[r]);
            forall j :: 0 <= j < |a| && a[j].buy != x.buy ==> !Crosses(x.buy, x.price, a[j].price)
  {
  }

  function NewMsg(r: nat, o: Order, n: nat): Msg {
    Msg(NewOrder, n, r, o.price * 100, o.qty, IsBid(o.side))
  }

  lemma WithinGrows(a: seq<Arrival>, t: Table, r: u64, o: Order)
    requires Within(a, t) && r !in t
    ensures Within(a, t[r := o]) && Within(a + [ArrivalOf(r, o)], t[r := o]) && !HasId(a, r)
  {
    assert forall k :: 0 <= k < |a| ==> a[k].id != r;
  }

  lemma MatchesGrows(a: seq<Arrival>, t: Table, r: u64, o: Order)
    requires Matches(a, t) && r !in t
    ensures Matches(a + [ArrivalOf(r, o)], t[r := o])
  {
    WithinGrows(a, t, r, o);
    var a', t' := a + [ArrivalOf(r, o)], t[r := o];
    DistinctAppend(a, ArrivalOf(r, o));
    forall x | x in t'
      ensures HasId(a', x)
    {
      if x == r {
        assert a'[|a|].id == r;
      } else {
        var k :| 0 <= k < |a| && a[k].id == x;
        assert a'[k].id == x;
      }
    }
  }

  /** A new order under a fresh non-zero reference: if the book with it does not cross,
      it rests at the tail of its level and nothing trades. */
  lemma NewRests(b: Book, a: seq<Arrival>, t: Table, r: u64, o: Order, n: nat)
    requires Rep(b, a) && Within(a, t) && r !in t && r != 0 && o.qty > 0
    requires !Crossed(t[r := o]) && Fits(t[r := o])
    ensures Process(b, NewMsg(r, o, n)).1 == []
    ensures Rep(Process(b, NewMsg(r, o, n)).0, a + [ArrivalOf(r, o)])
    ensures Process(b, NewMsg(r, o, n)).0.nextId == b.nextId
  {
    hide Rep, Rest, Match, Crossed, Fits, HasRoom;
    var x := ArrivalOf(r, o);
    WithinGrows(a, t, r, o);
    CrossingFree(a, t[r := o], r);
    NothingToHit(b, a, r, x.price, x.qty, x.buy);
    RoomFor(b, a, t[r := o], r);
    RestRep(b, a, x);
  }

  /** If the book with the new order crosses where it did not before, something trades. */
  lemma NewTrades(b: Book, a: seq<Arrival>, t: Table, r: u64, o: Order, n: nat)
    requires Rep(b, a) && Matches(a, t) && r !in t && r != 0 && o.qty > 0
    requires !Crossed(t) && Crossed(t[r := o])
    ensures Process(b, NewMsg(r, o, n)).1 != []
  {
    var t' := t[r := o];
    var x, y :| x in t' && y in t' && IsBid(t'[x].side) && !IsBid(t'[y].side) && t'[x].price >= t'[y].price;
    assert x == r || y == r;
    var z := if x == r then y else x;
    assert z in t;
    var j :| 0 <= j < |a| && a[j].id == z;
    SomethingToHit(b, a, r, o.price * 100, o.qty, IsBid(o.side), j);
  }

  // ---- Orders leave and shrink ----

  ghost function Pos(a: seq<Arrival>, id: nat): nat
    requires HasId(a, id)
    ensures Pos(a, id) < |a| && a[Pos(a, id)].id == id
  {
    var k :| 0 <= k < |a| && a[k].id == id;
    k
  }

  lemma MatchesWithout(a: seq<Arrival>, t: Table, r: u64)
    requires Matches(a, t) && r in t
    ensures Matches(Without(a, Pos(a, r)), t - {r})
  {
    var k := Pos(a, r);
    var a' := Without(a, k);
    forall j | 0 <= j < |a'|
      ensures a'[j].id in t - {r} && a'[j] == ArrivalOf(a'[j].id, (t - {r})[a'[j].id])
    {
      assert a'[j] == a[if j < k then j else j + 1];
    }
    assert Distinct(a') by {
      assert forall j :: 0 <= j < |a'| ==> a'[j] == a[if j < k then j else j + 1];
    }
    forall x | x in t - {r}
      ensures HasId(a', x)
    {
      var j :| 0 <= j < |a| && a[j].id == x;
      assert a'[if j < k then j else j - 1].id == x;
    }
  }

  lemma MatchesWith(a: seq<Arrival>, t: Table, r: u64, qty: u32)
    requires Matches(a, t) && r in t
    ensures Matches(With(a, Pos(a, r), qty), t[r := t[r].(qty := qty)])
  {
    var k := Pos(a, r);
    var a', t' := With(a, k, qty), t[r := t[r].(qty := qty)];
    assert forall j :: 0 <= j < |a| ==> a'[j].id == a[j].id;
    forall j | 0 <= j < |a'|
      ensures a'[j] == ArrivalOf(a'[j].id, t'[a'[j].id])
    {
      if j != k { assert a[j].id != a[k].id; }
    }
    forall x | x in t'
      ensures HasId(a', x)
    {
      var j :| 0 <= j < |a| && a[j].id == x;
      assert a'[j].id == x;
    }
  }

  // ---- One event ----

  predicate Inserts(t: Table, e: Event) {
    e.Add? || (e.Replace? && e.orig in t)
  }

  function Inserted(t: Table, e: Event): Order
    requires Inserts(t, e)
  {
    if e.Add? then Order(e.side, e.price, e.shares) else Order(t[e.orig].side, e.price, e.shares)
  }

  /** A new order has an unused, non-zero reference and positive shares. Nothing is said about
      capacities or crossing. */
  ghost predicate SoundEvent(t: Table, e: Event) {
    !Duplicates(t, e) && (Inserts(t, e) ==> Tr.NewRef(e) != 0 && e.shares > 0)
  }

  /** And the table fits the engine. */
  ghost predicate CleanEvent(t: Table, e: Event) {
    SoundEvent(t, e) && Fits(TableStep(t, e))
  }

  /** What the event does to the arrival list. */
  ghost function Track(a: seq<Arrival>, t: Table, e: Event): seq<Arrival>
    requires Matches(a, t)
  {
    if Unknown(t, e) then a
    else match e
      case Add(ref, side, price, shares) => a + [ArrivalOf(ref, Order(side, price, shares))]
      case Reduce(ref, shares, _) =>
        if shares >= t[ref].qty then Without(a, Pos(a, ref)) else With(a, Pos(a, ref), t[ref].qty - shares)
      case Delete(ref) => Without(a, Pos(a, ref))
      case Replace(orig, nref, shares, price) =>
        Without(a, Pos(a, orig)) + [ArrivalOf(nref, Order(t[orig].side, price, shares))]
  }

  lemma TrackMatches(a: seq<Arrival>, t: Table, e: Event)
    requires Matches(a, t) && !Duplicates(t, e)
    ensures Matches(Track(a, t, e), TableStep(t, e))
  {
    if !Unknown(t, e) {
      match e
      case Add(ref, side, price, shares) => MatchesGrows(a, t, ref, Order(side, price, shares));
      case Reduce(ref, shares, _) =>
        if shares >= t[ref].qty { MatchesWithout(a, t, ref); } else { MatchesWith(a, t, ref, t[ref].qty - shares); }
      case Delete(ref) => MatchesWithout(a, t, ref);
      case Replace(orig, nref, shares, price) =>
        MatchesWithout(a, t, orig);
        MatchesGrows(Without(a, Pos(a, orig)), t - {orig}, nref, Order(t[orig].side, price, shares));
    } else if e.Delete? {
      assert t - {e.ref} == t;
    }
  }

  lemma CancelFeeds(b: Book, a: seq<Arrival>, t: Table, r: u64, m: Msg)
    requires Rep(b, a) && Matches(a, t) && r in t && m.kind == CancelOrder && m.id == r
    ensures Process(b, m).1 == [] && Rep(Process(b, m).0, Without(a, Pos(a, r))) && Process(b, m).0.nextId == b.nextId
  {
    hide Rep, Cancel;
    CancelRep(b, a, Pos(a, r));
  }

  lemma ModifyFeeds(b: Book, a: seq<Arrival>, t: Table, r: u64, m: Msg)
    requires Rep(b, a) && Matches(a, t) && r in t && m.kind == ModifyOrder && m.id == r && 0 < m.qty <= t[r].qty
    ensures Process(b, m).1 == [] && Rep(Process(b, m).0, With(a, Pos(a, r), m.qty))
            && Process(b, m).0.nextId == b.nextId
  {
    hide Rep, Modify;
    ModifyRep(b, a, Pos(a, r), m.qty);
  }

  lemma FeedOne(b: Book, m: Msg)
    ensures Feed(b, [m]) == Process(b, m)
  {
    assert Feed(Process(b, m).0, []) == (Process(b, m).0, []);
    assert Process(b, m).1 + [] == Process(b, m).1;
  }

  lemma FeedTwo(b: Book, m: Msg, n: Msg)
    ensures Feed(b, [m, n]) == (Process(Process(b, m).0, n).0, Process(b, m).1 + Process(Process(b, m).0, n).1)
  {
    assert [m, n][1..] == [n];
    FeedOne(Process(b, m).0, n);
  }

  /** What an uncrossing event leaves, and that nothing trades on the way: neither
      between the cancel and the new order of a replace. */
  ghost predicate Quiet(r: (Book, seq<Report>), a: seq<Arrival>, nextId: nat) {
    Rep(r.0, a) && r.1 == [] && r.0.nextId == nextId
  }

  lemma EventRests(b: Book, a: seq<Arrival>, t: Table, n: nat, e: Event)
    requires Rep(b, a) && Matches(a, t) && CleanEvent(t, e) && !Crossed(TableStep(t, e))
    ensures Quiet(Feed(b, Tr.Emit(t, n, e)), Track(a, t, e), b.nextId)
  {
    hide Rep, Process, Crossed, Fits, Feed;
    var ms := Tr.Emit(t, n, e);
    if Unknown(t, e) {
      FeedNone(b);
    } else {
      match e
      case Add(ref, side, price, shares) =>
        FeedOne(b, ms[0]);
        NewRests(b, a, t, ref, Order(side, price, shares), n + 1);
      case Reduce(ref, shares, _) =>
        FeedOne(b, ms[0]);
        if shares >= t[ref].qty { CancelFeeds(b, a, t, ref, ms[0]); } else { ModifyFeeds(b, a, t, ref, ms[0]); }
      case Delete(ref) =>
        FeedOne(b, ms[0]);
        CancelFeeds(b, a, t, ref, ms[0]);
      case Replace(orig, nref, shares, price) => ReplaceRests(b, a, t, n, e);
    }
  }

  lemma FeedNone(b: Book)
    ensures Feed(b, []) == (b, [])
  {
  }

  lemma ReplaceRests(b: Book, a: seq<Arrival>, t: Table, n: nat, e: Event)
    requires Rep(b, a) && Matches(a, t) && e.Replace? && e.orig in t
    requires CleanEvent(t, e) && !Crossed(TableStep(t, e))
    ensures Quiet(Feed(b, Tr.Emit(t, n, e)), Track(a, t, e), b.nextId)
  {
    hide Rep, Process, Crossed, Fits, Feed;
    var ms := Tr.Emit(t, n, e);
    var o := Order(t[e.orig].side, e.price, e.shares);
    FeedTwo(b, ms[0], ms[1]);
    CancelFeeds(b, a, t, e.orig, ms[0]);
    MatchesWithout(a, t, e.orig);
    NewRests(Process(b, ms[0]).0, Without(a, Pos(a, e.orig)), t - {e.orig}, e.nref, o, n + 2);
  }

  /** The first event that crosses the reference book makes the engine trade. */
  lemma EventTrades(b: Book, a: seq<Arrival>, t: Table, n: nat, e: Event)
    requires Rep(b, a) && Matches(a, t) && SoundEvent(t, e) && !Crossed(t) && Crossed(TableStep(t, e))
    ensures Feed(b, Tr.Emit(t, n, e)).1 != []
  {
    hide Rep, Process, Fits, Feed;
    var ms := Tr.Emit(t, n, e);
    CrossingInserts(t, e);
    if e.Add? {
      FeedOne(b, ms[0]);
      NewTrades(b, a, t, e.ref, Order(e.side, e.price, e.shares), n + 1);
    } else {
      FeedTwo(b, ms[0], ms[1]);
      CancelFeeds(b, a, t, e.orig, ms[0]);
      MatchesWithout(a, t, e.orig);
      NewTrades(Process(b, ms[0]).0, Without(a, Pos(a, e.orig)), t - {e.orig}, e.nref,
                Order(t[e.orig].side, e.price, e.shares), n + 2);
    }
  }

  lemma FewerNeverCross(t: Table, u: Table)
    requires !Crossed(t) && forall r :: r in u ==> r in t && u[r].side == t[r].side && u[r].price == t[r].price
    ensures !Crossed(u)
  {
  }

  lemma CrossingInserts(t: Table, e: Event)
    requires !Crossed(t) && Crossed(TableStep(t, e))
    ensures Inserts(t, e)
    ensures e.Replace? ==> !Crossed(t - {e.orig})
  {
    if !Inserts(t, e) {
      FewerNeverCross(t, TableStep(t, e));
    }
    if e.Replace? {
      FewerNeverCross(t, t - {e.orig});
    }
  }

  // ---- Whole runs ----

  ghost predicate CleanRun(t: Table, es: seq<Event>)
    decreases es
  {
    es == [] || (CleanEvent(t, es[0]) && CleanRun(TableStep(t, es[0]), es[1..]))
  }

  /** crossed() is false after every event. */
  ghost predicate NeverCrosses(t: Table, es: seq<Event>)
    decreases es
  {
    es == [] || (!Crossed(TableStep(t, es[0])) && NeverCrosses(TableStep(t, es[0]), es[1..]))
  }

  ghost function TrackAll(a: seq<Arrival>, t: Table, es: seq<Event>): seq<Arrival>
    requires Matches(a, t) && CleanRun(t, es)
    decreases es
  {
    if es == [] then a
    else
      TrackMatches(a, t, es[0]);
      TrackAll(Track(a, t, es[0]), TableStep(t, es[0]), es[1..])
  }

  lemma {:induction false} TrackAllMatches(a: seq<Arrival>, t: Table, es: seq<Event>)
    requires Matches(a, t) && CleanRun(t, es)
    ensures Matches(TrackAll(a, t, es), TableRun(t, es))
    decreases es
  {
    hide Matches, Track;
    if es != [] {
      TrackMatches(a, t, es[0]);
      TrackAllMatches(Track(a, t, es[0]), TableStep(t, es[0]), es[1..]);
    }
  }

  lemma CleanStep(s: Tr.State, e: Event)
    requires CleanEvent(s.orders, e)
    ensures Tr.Step(s, e).orders == TableStep(s.orders, e)
  {
    Tr.TablesAgreeIff(s.orders, e);
  }

  /** Never crossed means never filled, and conversely: over any clean run from any
      uncrossed book, the engine reports no trade if and only if the reference book is
      uncrossed after every event; and then it holds exactly the order table. */
  lemma {:induction false} FilledIffCrossed(b: Book, a: seq<Arrival>, s: Tr.State, es: seq<Event>)
    requires Rep(b, a) && Matches(a, s.orders) && !Crossed(s.orders) && CleanRun(s.orders, es)
    ensures Feed(b, Tr.EmitAll(s, es)).1 == [] <==> NeverCrosses(s.orders, es)
    ensures NeverCrosses(s.orders, es) ==> Quiet(Feed(b, Tr.EmitAll(s, es)), TrackAll(a, s.orders, es), b.nextId)
    decreases es
  {
    hide Rep, Matches, Crossed, Feed, Tr.Emit, Tr.Step, SoundEvent, Fits, TableStep, Track;
    if es == [] {
      FeedNone(b);
    } else {
      var ms := Tr.Emit(s.orders, s.seqNum, es[0]);
      var s' := Tr.Step(s, es[0]);
      CleanStep(s, es[0]);
      FeedAppend(b, ms, Tr.EmitAll(s', es[1..]));
      if Crossed(TableStep(s.orders, es[0])) {
        EventTrades(b, a, s.orders, s.seqNum, es[0]);
      } else {
        EventRests(b, a, s.orders, s.seqNum, es[0]);
        TrackMatchesClean(a, s.orders, es[0]);
        FilledIffCrossed(Feed(b, ms).0, Track(a, s.orders, es[0]), s', es[1..]);
      }
    }
  }

  lemma TrackMatchesClean(a: seq<Arrival>, t: Table, e: Event)
    requires Matches(a, t) && CleanEvent(t, e)
    ensures Matches(Track(a, t, e), TableStep(t, e))
  {
    TrackMatches(a, t, e);
  }

  // ---- Starting the engine from a snapshot ----

  ghost predicate Ascending(a: seq<Arrival>) {
    forall j, k :: 0 <= j < k < |a| ==> a[j].id < a[k].id
  }

  /** The arrivals a snapshot describes. */
  function SnapshotList(ms: seq<Msg>): seq<Arrival> {
    seq(|ms|, i requires 0 <= i < |ms| => Arrival(ms[i].id, ms[i].buy, ms[i].price, ms[i].qty))
  }

  lemma SnapshotMatches(ms: seq<Msg>, t: Table)
    requires Tr.IsSnapshot(ms, t)
    ensures Matches(SnapshotList(ms), t) && Ascending(SnapshotList(ms))
  {
    var a := SnapshotList(ms);
    assert forall i :: 0 <= i < |ms| ==> a[i] == ArrivalOf(ms[i].id, t[ms[i].id]);
    forall r | r in t
      ensures HasId(a, r)
    {
      var i :| 0 <= i < |ms| && ms[i].id == r;
      assert a[i].id == r;
    }
  }

  /** Part of a table: the orders of the first `i` snapshot messages. */
  ghost function Part(t: Table, a: seq<Arrival>): Table {
    map r | r in t && HasId(a, r) :: t[r]
  }

  lemma HasIdSnoc(a: seq<Arrival>, i: nat, x: nat)
    requires i < |a|
    ensures HasId(a[..i + 1], x) <==> HasId(a[..i], x) || x == a[i].id
  {
    if HasId(a[..i + 1], x) {
      var k :| 0 <= k < i + 1 && a[..i + 1][k].id == x;
      if k < i { assert a[..i][k].id == x; }
    }
    if HasId(a[..i], x) {
      var k :| 0 <= k < i && a[..i][k].id == x;
      assert a[..i + 1][k].id == x;
    }
    assert a[..i + 1][i] == a[i];
  }

  lemma PartGrows(a: seq<Arrival>, t: Table, i: nat)
    requires Matches(a, t) && Ascending(a) && i < |a|
    ensures a[i].id in t && !HasId(a[..i], a[i].id)
    ensures Part(t, a[..i + 1]) == Part(t, a[..i])[a[i].id := t[a[i].id]]
  {
    assert !HasId(a[..i], a[i].id);
    hide HasId, Distinct, Ascending;
    forall x: nat { HasIdSnoc(a, i, x); }
  }

  lemma PartFits(t: Table, u: Table)
    requires Fits(t) && forall r :: r in u ==> r in t && u[r] == t[r]
    ensures Fits(u)
  {
    SubsetSize(u.Keys, t.Keys);
    SubsetSize(Prices(u, true), Prices(t, true));
    SubsetSize(Prices(u, false), Prices(t, false));
  }

  /** What the engine needs of a table to rest all of it without trading. */
  ghost predicate Restable(t: Table) {
    Positive(t) && 0 !in t && !Crossed(t) && Fits(t)
  }

  /** The next order of a reference-ordered list, and the table of those before it. */
  lemma PartStep(a: seq<Arrival>, t: Table, i: nat, u: Table, r: u64)
    requires Matches(a, t) && Ascending(a) && i < |a| && Restable(t) && u == Part(t, a[..i]) && r == a[i].id
    ensures r in t && r !in u && r != 0 && t[r].qty > 0 && Within(a[..i], u)
    ensures !Crossed(u[r := t[r]]) && Fits(u[r := t[r]])
  {
    PartGrows(a, t, i);
    WithinPart(a, t, i);
    hide Matches, Ascending, Crossed, Fits, Within, HasId;
    FewerNeverCross(t, u[r := t[r]]);
    PartFits(t, u[r := t[r]]);
  }

  lemma SnapshotStep(b: Book, ms: seq<Msg>, t: Table, i: nat)
    requires Tr.IsSnapshot(ms, t) && Restable(t) && i < |ms|
    requires Rep(b, SnapshotList(ms)[..i])
    ensures Quiet(Process(b, ms[i]), SnapshotList(ms)[..i + 1], b.nextId)
  {
    hide Rep, Process, Tr.IsSnapshot, Crossed, Fits, Restable, Matches, Ascending, Within, Part;
    var a := SnapshotList(ms);
    SnapshotMatches(ms, t);
    SnapshotMsg(ms, t, i);
    hide SnapshotList;
    SnapshotLength(ms);
    var u, r := Part(t, a[..i]), ms[i].id;
    PartStep(a, t, i, u, r);
    NewRests(b, a[..i], u, r, t[r], ms[i].seqNum);
    assert a[..i + 1] == a[..i] + [a[i]];
  }

  lemma SnapshotMsg(ms: seq<Msg>, t: Table, i: nat)
    requires Tr.IsSnapshot(ms, t) && i < |ms|
    ensures ms[i].id in t && ms[i] == NewMsg(ms[i].id, t[ms[i].id], ms[i].seqNum)
    ensures SnapshotList(ms)[i] == ArrivalOf(ms[i].id, t[ms[i].id])
  {
  }

  lemma WithinPart(a: seq<Arrival>, t: Table, i: nat)
    requires Matches(a, t) && i <= |a|
    ensures Within(a[..i], Part(t, a[..i]))
  {
    forall k | 0 <= k < i
      ensures HasId(a[..i], a[..i][k].id)
    {
    }
  }

  lemma {:induction false} SnapshotFrom(b: Book, ms: seq<Msg>, t: Table, i: nat)
    requires Tr.IsSnapshot(ms, t) && Restable(t) && i <= |ms|
    requires Rep(b, SnapshotList(ms)[..i])
    ensures Quiet(Feed(b, ms[i..]), SnapshotList(ms), b.nextId)
    decreases |ms| - i
  {
    hide Rep, Process, Tr.IsSnapshot, Restable, SnapshotList, Feed;
    SnapshotLength(ms);
    if i == |ms| {
      assert SnapshotList(ms)[..i] == SnapshotList(ms);
      FeedNone(b);
    } else {
      SnapshotStep(b, ms, t, i);
      SnapshotFrom(Process(b, ms[i]).0, ms, t, i + 1);
      assert ms[i..] == [ms[i]] + ms[i + 1..];
      FeedAppend(b, [ms[i]], ms[i + 1..]);
      FeedOne(b, ms[i]);
    }
  }

  lemma SnapshotLength(ms: seq<Msg>)
    ensures |SnapshotList(ms)| == |ms|
  {
  }

  /** A snapshot of an uncrossed table rests every order without a trade, part way
      through included, and leaves the book of the orders in reference order. */
  lemma SnapshotRests(ms: seq<Msg>, t: Table)
    requires Tr.IsSnapshot(ms, t) && Restable(t)
    ensures Quiet(Feed(Engine.EMPTY, ms), SnapshotList(ms), Engine.EMPTY.nextId)
  {
    EmptyRep();
    assert SnapshotList(ms)[..0] == [];
    assert ms[0..] == ms;
    SnapshotFrom(Engine.EMPTY, ms, t, 0);
  }

  // ---- New references increase ----

  /** Every new reference is greater than every earlier one. */
  ghost predicate Rising(hi: nat, t: Table, es: seq<Event>)
    decreases es
  {
    es == [] ||
    (if Inserts(t, es[0])
     then Tr.NewRef(es[0]) > hi && Rising(Tr.NewRef(es[0]), TableStep(t, es[0]), es[1..])
     else Rising(hi, TableStep(t, es[0]), es[1..]))
  }

  ghost predicate UpTo(a: seq<Arrival>, hi: nat) {
    Ascending(a) && forall k :: 0 <= k < |a| ==> a[k].id <= hi
  }

  lemma UpToWithout(a: seq<Arrival>, hi: nat, k: nat)
    requires UpTo(a, hi) && k < |a|
    ensures UpTo(Without(a, k), hi)
  {
    var a' := Without(a, k);
    assert forall j :: 0 <= j < |a'| ==> a'[j] == a[if j < k then j else j + 1];
  }

  lemma UpToAppend(a: seq<Arrival>, hi: nat, x: Arrival)
    requires UpTo(a, hi) && x.id > hi
    ensures UpTo(a + [x], x.id)
  {
  }

  lemma RestableUncrossed(t: Table)
    requires Restable(t)
    ensures !Crossed(t)
  {
  }

  /** Mid-day start: whatever happened before the cut, if the table at the cut can rest
      uncrossed, the engine started from its snapshot trades if and only if the
      reference book crosses later, and otherwise ends with exactly the final table. */
  lemma MidDayStart(s: Tr.State, ms: seq<Msg>, es: seq<Event>)
    requires Tr.IsSnapshot(ms, s.orders) && Restable(s.orders) && CleanRun(s.orders, es)
    ensures Feed(Engine.EMPTY, ms + Tr.EmitAll(s, es)).1 == [] <==> NeverCrosses(s.orders, es)
    ensures NeverCrosses(s.orders, es) ==>
              exists a :: Rep(Feed(Engine.EMPTY, ms + Tr.EmitAll(s, es)).0, a) && Matches(a, TableRun(s.orders, es))
  {
    hide Rep, Feed, Matches, Tr.IsSnapshot, Tr.EmitAll, CleanRun, NeverCrosses;
    SnapshotMatches(ms, s.orders);
    SnapshotRests(ms, s.orders);
    var mid := Feed(Engine.EMPTY, ms).0;
    RestableUncrossed(s.orders);
    FilledIffCrossed(mid, SnapshotList(ms), s, es);
    FeedAppend(Engine.EMPTY, ms, Tr.EmitAll(s, es));
    var tail := Feed(mid, Tr.EmitAll(s, es));
    assert Feed(Engine.EMPTY, ms).1 + tail.1 == tail.1;
    TrackAllMatches(SnapshotList(ms), s.orders, es);
  }

  // ---- When a snapshot preserves time priority ----

  ghost predicate QueueRises(q: seq<Resting>) {
    forall i, j :: 0 <= i < j < |q| ==> q[i].id < q[j].id
  }

  /** Within every level the older order has the smaller reference. */
  ghost predicate LevelsRise(b: Book) {
    && (forall i :: 0 <= i < |b.bids| ==> QueueRises(b.bids[i].queue))
    && (forall i :: 0 <= i < |b.asks| ==> QueueRises(b.asks[i].queue))
  }

  lemma {:induction false} AscendingQueue(a: seq<Arrival>, hi: nat, buy: bool, p: int)
    requires UpTo(a, hi)
    ensures QueueRises(Queue(a, buy, p))
    ensures forall i :: 0 <= i < |Queue(a, buy, p)| ==> Queue(a, buy, p)[i].id <= hi
    decreases |a|
  {
    if a != [] {
      var init, y := Snoc(a);
      if init == [] {
        QueueAppend(init, y, buy, p);
      } else {
        var top := init[|init| - 1].id;
        assert top == a[|a| - 2].id < y.id <= hi;
        AscendingQueue(init, top, buy, p);
        QueueAppend(init, y, buy, p);
        hide UpTo, Queue;
        RisesAppend(Queue(init, buy, p), Resting(y.id, y.qty));
      }
    }
  }

  lemma RisesAppend(q: seq<Resting>, r: Resting)
    requires QueueRises(q) && forall i :: 0 <= i < |q| ==> q[i].id < r.id
    ensures QueueRises(q + [r])
  {
  }

  lemma {:induction false} QueueElements(a: seq<Arrival>, buy: bool, p: int, r: Resting)
    ensures r in Queue(a, buy, p) <==> exists k :: 0 <= k < |a| && a[k] == Arrival(r.id, buy, p, r.qty)
    decreases |a|
  {
    if a != [] {
      var init, y := Snoc(a);
      QueueElements(init, buy, p, r);
      QueueAppend(init, y, buy, p);
      assert y == Arrival(r.id, buy, p, r.qty) ==> a[|init|] == Arrival(r.id, buy, p, r.qty);
      if k :| 0 <= k < |a| && a[k] == Arrival(r.id, buy, p, r.qty) {
        if k < |init| { assert init[k] == a[k]; }
      }
      if k :| 0 <= k < |init| && init[k] == Arrival(r.id, buy, p, r.qty) {
        assert a[k] == init[k];
      }
    }
  }

  lemma SameQueueElements(a: seq<Arrival>, c: seq<Arrival>, t: Table, buy: bool, p: int, r: Resting)
    requires Matches(a, t) && Matches(c, t) && r in Queue(a, buy, p)
    ensures r in Queue(c, buy, p)
  {
    QueueElements(a, buy, p, r);
    QueueElements(c, buy, p, r);
    var k :| 0 <= k < |a| && a[k] == Arrival(r.id, buy, p, r.qty);
    var j :| 0 <= j < |c| && c[j].id == a[k].id;
    assert c[j] == a[k];
  }

  lemma FirstIn(q: seq<Resting>)
    ensures q == [] || q[0] in q
  {
  }

  lemma {:induction false} RisingUnique(p: seq<Resting>, q: seq<Resting>)
    requires QueueRises(p) && QueueRises(q) && forall r :: r in p <==> r in q
    ensures p == q
    decreases |p|
  {
    if p == [] {
      FirstIn(q);
    } else {
      assert p[0] in q && q[0] in p;
      assert p[0] == q[0];
      assert p == [p[0]] + p[1..] && q == [q[0]] + q[1..];
      forall r ensures r in p[1..] <==> r in q[1..] {
        assert r in p <==> r == p[0] || r in p[1..];
        assert r in q <==> r == q[0] || r in q[1..];
      }
      RisingUnique(p[1..], q[1..]);
    }
  }

  lemma RepQueue(b: Book, a: seq<Arrival>, buy: bool, i: nat)
    requires Rep(b, a) && i < |Side(b, buy)|
    ensures Side(b, buy)[i].queue == Queue(a, buy, Side(b, buy)[i].price)
  {
    assert Queues(a, buy)(Side(b, buy)[i].price) == Queue(a, buy, Side(b, buy)[i].price);
  }

  lemma RisingSide(b: Book, a: seq<Arrival>, buy: bool, p: int)
    requires Rep(b, a) && LevelsRise(b)
    ensures QueueRises(Queue(a, buy, p))
  {
    var ls := Side(b, buy);
    if Queue(a, buy, p) != [] {
      assert Queues(a, buy)(p) != [];
      assert HasPrice(ls, p);
      var i :| 0 <= i < |ls| && ls[i].price == p;
      RepQueue(b, a, buy, i);
    }
  }

  /** A book restored from a snapshot equals the running book if and only if, within
      every level, the running book's orders stand in reference order. */
  lemma SnapshotFaithfulIff(b: Book, a: seq<Arrival>, t: Table, c: Book, ms: seq<Msg>)
    requires Rep(b, a) && Matches(a, t) && b.nextId == c.nextId
    requires Tr.IsSnapshot(ms, t) && Rep(c, SnapshotList(ms))
    ensures b == c <==> LevelsRise(b)
  {
    var d := SnapshotList(ms);
    SnapshotMatches(ms, t);
    SnapshotRises(c, d);
    if LevelsRise(b) {
      forall buy, p ensures Queue(a, buy, p) == Queue(d, buy, p) {
        QueuesMeet(b, a, c, d, t, buy, p);
      }
      SidesMeet(b, a, c, d, t);
    }
  }

  lemma LevelRises(c: Book, d: seq<Arrival>, hi: nat, buy: bool, i: nat)
    requires Rep(c, d) && UpTo(d, hi) && i < |Side(c, buy)|
    ensures QueueRises(Side(c, buy)[i].queue)
  {
    hide Rep, QueueRises;
    AscendingQueue(d, hi, buy, Side(c, buy)[i].price);
    RepQueue(c, d, buy, i);
  }

  lemma SnapshotRises(c: Book, d: seq<Arrival>)
    requires Rep(c, d) && Ascending(d)
    ensures LevelsRise(c)
  {
    var hi := if d == [] then 0 else d[|d| - 1].id;
    assert UpTo(d, hi);
    hide Rep, QueueRises, UpTo;
    forall i | 0 <= i < |c.bids| ensures QueueRises(c.bids[i].queue) { LevelRises(c, d, hi, true, i); }
    forall i | 0 <= i < |c.asks| ensures QueueRises(c.asks[i].queue) { LevelRises(c, d, hi, false, i); }
  }

  lemma QueuesMeet(b: Book, a: seq<Arrival>, c: Book, d: seq<Arrival>, t: Table, buy: bool, p: int)
    requires Rep(b, a) && Rep(c, d) && Matches(a, t) && Matches(d, t) && LevelsRise(b) && LevelsRise(c)
    ensures Queue(a, buy, p) == Queue(d, buy, p)
  {
    hide Rep, LevelsRise, Matches;
    RisingSide(b, a, buy, p);
    RisingSide(c, d, buy, p);
    forall r ensures r in Queue(a, buy, p) <==> r in Queue(d, buy, p) {
      if r in Queue(a, buy, p) { SameQueueElements(a, d, t, buy, p, r); }
      if r in Queue(d, buy, p) { SameQueueElements(d, a, t, buy, p, r); }
    }
    RisingUnique(Queue(a, buy, p), Queue(d, buy, p));
  }

  lemma SidesMeet(b: Book, a: seq<Arrival>, c: Book, d: seq<Arrival>, t: Table)
    requires Rep(b, a) && Rep(c, d) && Matches(a, t) && Matches(d, t) && b.nextId == c.nextId
    requires forall buy, p :: Queue(a, buy, p) == Queue(d, buy, p)
    ensures b == c
  {
    ListsSame(b.bids, true, Queues(a, true), Queues(d, true));
    ListsSame(b.asks, false, Queues(a, false), Queues(d, false));
    SideUnique(b.bids, c.bids, d, true);
    SideUnique(b.asks, c.asks, d, false);
    IndexesMeet(a, d, t);
    IdsSize(a);
    IdsSize(d);
    assert Ids(a) == t.Keys && Ids(d) == t.Keys by { IdsAreKeys(a, t); IdsAreKeys(d, t); }
  }

  lemma IdsAreKeys(a: seq<Arrival>, t: Table)
    requires Matches(a, t)
    ensures Ids(a) == t.Keys
  {
    forall r | r in t ensures r in Ids(a) {
      var k :| 0 <= k < |a| && a[k].id == r;
    }
  }

  lemma IndexesMeet(a: seq<Arrival>, d: seq<Arrival>, t: Table)
    requires Matches(a, t) && Matches(d, t)
    ensures IndexFor(a) == IndexFor(d)
  {
    forall id: nat ensures id in IndexFor(a) <==> id in IndexFor(d) {
      IndexIds(a, id);
      IndexIds(d, id);
      if HasId(a, id) { SameIds(a, d, t, id); }
      if HasId(d, id) { SameIds(d, a, t, id); }
    }
    forall id: nat | id in IndexFor(a) ensures IndexFor(a)[id] == IndexFor(d)[id] {
      IndexIds(a, id);
      IndexIds(d, id);
      var j :| 0 <= j < |a| && a[j].id == id;
      var k :| 0 <= k < |d| && d[k].id == id;
      IndexEntries(a, j);
      IndexEntries(d, k);
    }
  }

  lemma SameIds(a: seq<Arrival>, d: seq<Arrival>, t: Table, id: nat)
    requires Matches(a, t) && Matches(d, t) && HasId(a, id)
    ensures HasId(d, id)
  {
    var k :| 0 <= k < |a| && a[k].id == id;
    assert a[k].id in t;
  }

  lemma FirstBidRests(m: Msg)
    requires m.kind == NewOrder && m.buy && 0 < m.qty < QTY_MOD
    ensures var id := if m.id != 0 then m.id else 1;
            Process(Engine.EMPTY, m) ==
            (Book([Level(m.price, m.qty, 1, [Resting(id, m.qty)])], [], map[id := Loc(true, m.price)], 1,
                if m.id != 0 then 1 else 2), [])
  {
    FirstLevel(if m.id != 0 then m.id else 1, m.price, m.qty);
  }

  lemma FirstLevel(id: nat, price: int, qty: nat)
    requires qty < QTY_MOD
    ensures JoinLevels([], id, price, qty, true) == [Level(price, qty, 1, [Resting(id, qty)])]
  {
    var l := Joined(Level(price, 0, 0, []), id, qty);
    assert l.queue == [Resting(id, qty)];
    var none: seq<Level> := [];
    assert none[..0] + [l] + none[0..] == [l];
  }

  lemma SecondBidQueues(x: nat, y: nat)
    requires x != 0 && y != 0
    ensures Feed(Engine.EMPTY, [NewMsg(x, Order('B', 5, 1), 1), NewMsg(y, Order('B', 5, 1), 2)]).0.bids
            == [Level(500, 2, 2, [Resting(x, 1), Resting(y, 1)])]
  {
    var m, n := NewMsg(x, Order('B', 5, 1), 1), NewMsg(y, Order('B', 5, 1), 2);
    FeedTwo(Engine.EMPTY, m, n);
    FirstBidRests(m);
    var l := Level(500, 1, 1, [Resting(x, 1)]);
    assert FindLevel([l], 500) == 0;
    var l' := Joined(l, y, 1);
    assert l'.queue == [Resting(x, 1), Resting(y, 1)];
    assert [l][0 := l'] == [l'];
  }

  /** Without rising references a snapshot swaps time priority: 7 arrived before 3. */
  lemma SnapshotCanReorder()
    ensures Feed(Engine.EMPTY, [NewMsg(7, Order('B', 5, 1), 1), NewMsg(3, Order('B', 5, 1), 2)]).0.bids
            == [Level(500, 2, 2, [Resting(7, 1), Resting(3, 1)])]
    ensures Feed(Engine.EMPTY, [NewMsg(3, Order('B', 5, 1), 1), NewMsg(7, Order('B', 5, 1), 2)]).0.bids
            == [Level(500, 2, 2, [Resting(3, 1), Resting(7, 1)])]
  {
    SecondBidQueues(7, 3);
    SecondBidQueues(3, 7);
  }

  // ---- Reference zero ----

  lemma {:induction false} MatchKeepsAbsent(b: Book, id: nat, price: int, qty: nat, buy: bool, r: nat)
    requires r !in b.index
    ensures r !in Match(b, id, price, qty, buy).0.index
    decreases |Side(b, !buy)|, if Side(b, !buy) == [] then 0 else |Side(b, !buy)[0].queue|, qty
  {
    var ls := Side(b, !buy);
    if qty != 0 && ls != [] && Crosses(buy, price, ls[0].price) && ls[0].queue != [] {
      var head := ls[0].queue[0];
      if head.qty <= qty {
        MatchKeepsAbsent(FillHead(b, buy, head.qty), id, price, qty - head.qty, buy, r);
      }
    }
  }

  /** A new order without an id is the same order under the engine's next synthetic one, which no
      later such order gets again. */
  lemma SyntheticIds(b: Book, m: Msg)
    requires m.kind == NewOrder && m.id == 0 && b.nextId > 0
    ensures Process(b, m) == Process(b.(nextId := b.nextId + 1), m.(id := b.nextId))
    ensures Process(b, m).0.nextId == b.nextId + 1
  {
    MatchKeepsNextId(b.(nextId := b.nextId + 1), b.nextId, m.price, m.qty, m.buy);
    hide Match, JoinLevels;
  }

  lemma {:induction false} MatchKeepsNextId(b: Book, id: nat, price: int, qty: nat, buy: bool)
    ensures Match(b, id, price, qty, buy).0.nextId == b.nextId
    decreases |Side(b, !buy)|, if Side(b, !buy) == [] then 0 else |Side(b, !buy)[0].queue|, qty
  {
    var ls := Side(b, !buy);
    if qty != 0 && ls != [] && Crosses(buy, price, ls[0].price) && ls[0].queue != [] {
      var head := ls[0].queue[0];
      if head.qty <= qty {
        MatchKeepsNextId(FillHead(b, buy, head.qty), id, price, qty - head.qty, buy);
      }
    }
  }

  /** The engine replaces order id zero by one of its own, so a new order is the same
      order on both sides if and only if its reference is not zero. */
  lemma ZeroReferenceIff(b: Book, a: seq<Arrival>, t: Table, r: u64, o: Order, n: nat)
    requires Rep(b, a) && Matches(a, t) && 0 !in t && r !in t && o.qty > 0 && b.nextId > 0
    requires !Crossed(t[r := o]) && Fits(t[r := o])
    ensures (exists a' :: Rep(Process(b, NewMsg(r, o, n)).0, a') && Matches(a', t[r := o])) <==> r != 0
  {
    hide Rep, Crossed, Fits, Matches;
    var b' := Process(b, NewMsg(r, o, n)).0;
    if r != 0 {
      MatchesWithin(a, t);
      NewRests(b, a, t, r, o, n);
      MatchesGrows(a, t, r, o);
    } else {
      RepIndex(b, a, t);
      MatchKeepsAbsent(b.(nextId := b.nextId + 1), b.nextId, o.price * 100, o.qty, IsBid(o.side), 0);
      forall a' | Rep(b', a') ensures !Matches(a', t[r := o]) {
        AbsentId(b', a', t[r := o]);
      }
    }
  }

  lemma MatchesWithin(a: seq<Arrival>, t: Table)
    requires Matches(a, t)
    ensures Within(a, t)
  {
  }

  lemma RepIndex(b: Book, a: seq<Arrival>, t: Table)
    requires Rep(b, a) && Matches(a, t) && 0 !in t
    ensures 0 !in b.index
  {
    IndexIds(a, 0);
  }

  lemma AbsentId(b: Book, a: seq<Arrival>, t: Table)
    requires Rep(b, a) && 0 !in b.index && 0 in t
    ensures !Matches(a, t)
  {
    IndexIds(a, 0);
  }

  lemma ZeroReferenceMessages()
    ensures var es := [Add(0, 'B', 100, 5), Delete(0)];
            && TableRun(map[], es) == map[]
            && Tr.EmitAll(Tr.EMPTY, es) == [NewMsg(0, Order('B', 100, 5), 1), Msg(CancelOrder, 2, 0, 10000, 0, true)]
  {
    var e, d := Add(0, 'B', 100, 5), Delete(0);
    var s1 := Tr.Step(Tr.EMPTY, e);
    assert [e, d][1..] == [d] && [d][1..] == [];
    assert TableRun(TableStep(TableStep(map[], e), d), []) == map[];
    assert Tr.EmitAll(Tr.Step(s1, d), []) == [];
    assert Tr.EmitAll(s1, [d]) == [Msg(CancelOrder, 2, 0, 10000, 0, true)];
  }

  /** An order under reference zero that is deleted stays in the engine for good. */
  lemma ZeroReferenceStaysBehind()
    ensures var es := [Add(0, 'B', 100, 5), Delete(0)];
            && TableRun(map[], es) == map[]
            && Feed(Engine.EMPTY, Tr.EmitAll(Tr.EMPTY, es)).0.bids == [Level(10000, 5, 1, [Resting(1, 5)])]
  {
    hide Tr.EmitAll, Feed;
    ZeroReferenceMessages();
    var m := NewMsg(0, Order('B', 100, 5), 1);
    FeedTwo(Engine.EMPTY, m, Msg(CancelOrder, 2, 0, 10000, 0, true));
    FirstBidRests(m);
  }
}
