/** Days that may outgrow the engine: what it does when orders are refused, and what the replay
    driver's capacity report (tools/replay_itch50.cpp) says about it. */
module Capacity {
  import opened Itch
  import opened Engine
  import opened PriceTime
  import opened Replication
  import Verdict
  import Tr = Translation
  import R = Replay

  ghost predicate SoundRun(t: Table, es: seq<Event>)
    decreases es
  {
    es == [] || (SoundEvent(t, es[0]) && SoundRun(TableStep(t, es[0]), es[1..]))
  }

  /** The engine holds some of the table's orders, whole, and no others. */
  ghost predicate HoldsSome(b: Book, t: Table) {
    exists a :: Rep(b, a) && Within(a, t)
  }

  // ---- One message ----

  lemma NewOnList(b: Book, a: seq<Arrival>, t: Table, r: u64, n: nat) returns (a': seq<Arrival>)
    requires Rep(b, a) && Within(a, t) && r in t && r != 0 && !HasId(a, r) && t[r].qty > 0 && !Crossed(t)
    ensures Process(b, NewMsg(r, t[r], n)).1 == [] && Rep(Process(b, NewMsg(r, t[r], n)).0, a') && Within(a', t)
    ensures a' == a || a' == a + [ArrivalOf(r, t[r])]
    ensures Process(b, NewMsg(r, t[r], n)).0.nextId == b.nextId
  {
    hide Rep, Rest, Match, Crossed, HasRoom, HasId;
    var x := ArrivalOf(r, t[r]);
    CrossingFree(a, t, r);
    NothingToHit(b, a, r, x.price, x.qty, x.buy);
    if HasRoom(b, x.buy, x.price) {
      RestRep(b, a, x);
      a' := a + [x];
    } else {
      RefusedRest(b, r, x.price, x.qty, x.buy);
      a' := a;
    }
  }

  lemma WithinWithout(a: seq<Arrival>, t: Table, k: nat)
    requires Distinct(a) && Within(a, t) && k < |a|
    ensures Within(Without(a, k), t - {a[k].id})
  {
    var a' := Without(a, k);
    forall j | 0 <= j < |a'| ensures a'[j].id in t - {a[k].id}
        && a'[j] == ArrivalOf(a'[j].id, (t - {a[k].id})[a'[j].id]) {
      assert a'[j] == a[if j < k then j else j + 1];
    }
  }

  lemma WithinLess(a: seq<Arrival>, t: Table, r: u64, o: Order)
    requires Within(a, t) && !HasId(a, r)
    ensures Within(a, t - {r}) && Within(a, t[r := o])
  {
    assert forall k :: 0 <= k < |a| ==> a[k].id != r;
  }

  lemma RepDistinct(b: Book, a: seq<Arrival>)
    requires Rep(b, a)
    ensures Distinct(a)
  {
  }

  lemma NotHeld(a: seq<Arrival>, id: nat)
    requires !HasId(a, id)
    ensures forall k: nat :: !Holds(a, id, k)
  {
  }

  /** The list keeps its order: still in reference order, up to the same reference. */
  ghost predicate KeepsRising(a: seq<Arrival>, a': seq<Arrival>) {
    forall hi :: UpTo(a, hi) ==> UpTo(a', hi)
  }

  lemma KeepsItself(a: seq<Arrival>)
    ensures KeepsRising(a, a)
  {
  }

  lemma KeepsWithout(a: seq<Arrival>, k: nat)
    requires k < |a|
    ensures KeepsRising(a, Without(a, k))
  {
    hide UpTo;
    forall hi | UpTo(a, hi) ensures UpTo(Without(a, k), hi) {
      UpToWithout(a, hi, k);
    }
  }

  lemma KeepsWith(a: seq<Arrival>, k: nat, qty: nat)
    requires k < |a|
    ensures KeepsRising(a, With(a, k, qty))
  {
    assert forall j :: 0 <= j < |a| ==> With(a, k, qty)[j].id == a[j].id;
  }

  lemma CancelOnList(b: Book, a: seq<Arrival>, t: Table, r: u64, m: Msg) returns (a': seq<Arrival>)
    requires Rep(b, a) && Within(a, t) && m.kind == CancelOrder && m.id == r
    ensures Process(b, m).1 == [] && Rep(Process(b, m).0, a') && Within(a', t - {r}) && KeepsRising(a, a')
    ensures Process(b, m).0.nextId == b.nextId
  {
    hide Rep, Cancel, KeepsRising;
    if HasId(a, r) {
      var k :| 0 <= k < |a| && a[k].id == r;
      CancelRep(b, a, k);
      RepDistinct(b, a);
      WithinWithout(a, t, k);
      KeepsWithout(a, k);
      a' := Without(a, k);
    } else {
      NotHeld(a, r);
      UnknownIdIgnored(b, a, r, 0);
      WithinLess(a, t, r, Order('B', 0, 0));
      KeepsItself(a);
      a' := a;
    }
  }

  lemma WithinWith(a: seq<Arrival>, t: Table, k: nat, r: u64, qty: u32)
    requires Distinct(a) && Within(a, t) && k < |a| && a[k].id == r
    ensures Within(With(a, k, qty), t[r := t[r].(qty := qty)])
  {
    var a', t' := With(a, k, qty), t[r := t[r].(qty := qty)];
    forall j | 0 <= j < |a'| ensures a'[j].id in t' && a'[j] == ArrivalOf(a'[j].id, t'[a'[j].id]) {
      if j != k {
        assert a[j].id != a[k].id;
      }
    }
  }

  lemma ModifyOnList(b: Book, a: seq<Arrival>, t: Table, r: u64, m: Msg) returns (a': seq<Arrival>)
    requires Rep(b, a) && Within(a, t) && r in t && m.kind == ModifyOrder && m.id == r && 0 < m.qty <= t[r].qty
    ensures Process(b, m).1 == [] && Rep(Process(b, m).0, a') && KeepsRising(a, a')
    ensures Within(a', t[r := t[r].(qty := m.qty)]) && Process(b, m).0.nextId == b.nextId
  {
    hide Rep, Modify, KeepsRising;
    if HasId(a, r) {
      var k :| 0 <= k < |a| && a[k].id == r;
      ModifyRep(b, a, k, m.qty);
      RepDistinct(b, a);
      WithinWith(a, t, k, r, m.qty);
      KeepsWith(a, k, m.qty);
      a' := With(a, k, m.qty);
    } else {
      NotHeld(a, r);
      UnknownIdIgnored(b, a, r, m.qty);
      WithinLess(a, t, r, t[r].(qty := m.qty));
      KeepsItself(a);
      a' := a;
    }
  }

  /** A new order joins the end or is refused. */
  lemma NewWithin(b: Book, a: seq<Arrival>, t: Table, r: u64, o: Order, n: nat) returns (a': seq<Arrival>)
    requires Rep(b, a) && Within(a, t) && r !in t && r != 0 && o.qty > 0 && !Crossed(t[r := o])
    ensures Process(b, NewMsg(r, o, n)).1 == [] && Rep(Process(b, NewMsg(r, o, n)).0, a') && Within(a', t[r := o])
    ensures Process(b, NewMsg(r, o, n)).0.nextId == b.nextId
    ensures forall hi: nat :: hi < r && UpTo(a, hi) ==> UpTo(a', r)
  {
    hide Rep, Process, Crossed;
    WithinGrows(a, t, r, o);
    hide Within, HasId;
    a' := NewOnList(b, a, t[r := o], r, n);
    forall hi: nat | hi < r && UpTo(a, hi) ensures UpTo(a', r) {
      if a' != a {
        hide UpTo;
        UpToAppend(a, hi, ArrivalOf(r, o));
      }
    }
  }

  // ---- Whole runs ----

  function Bound(t: Table, e: Event, hi: nat): nat {
    if Inserts(t, e) then Tr.NewRef(e) else hi
  }

  /** New references above the bound keep the list in reference order. */
  ghost predicate RisesBy(a: seq<Arrival>, a': seq<Arrival>, t: Table, e: Event) {
    forall hi :: UpTo(a, hi) && (Inserts(t, e) ==> Tr.NewRef(e) > hi) ==> UpTo(a', Bound(t, e, hi))
  }

  ghost predicate QuietOn(r: (Book, seq<Report>), a': seq<Arrival>, t': Table, nextId: nat) {
    r.1 == [] && Rep(r.0, a') && Within(a', t') && r.0.nextId == nextId
  }

  lemma ReplaceOnList(b: Book, a: seq<Arrival>, t: Table, n: nat, e: Event) returns (a': seq<Arrival>)
    requires Rep(b, a) && Within(a, t) && e.Replace? && e.orig in t && SoundEvent(t, e) && !Crossed(TableStep(t, e))
    ensures QuietOn(Feed(b, Tr.Emit(t, n, e)), a', TableStep(t, e), b.nextId) && RisesBy(a, a', t, e)
  {
    hide Rep, Within, Process, Crossed, Feed, UpTo;
    var ms := Tr.Emit(t, n, e);
    var o := Order(t[e.orig].side, e.price, e.shares);
    FeedTwo(b, ms[0], ms[1]);
    var c := CancelOnList(b, a, t, e.orig, ms[0]);
    a' := NewWithin(Process(b, ms[0]).0, c, t - {e.orig}, e.nref, o, n + 2);
  }

  lemma EventOnList(b: Book, a: seq<Arrival>, t: Table, n: nat, e: Event) returns (a': seq<Arrival>)
    requires Rep(b, a) && Within(a, t) && SoundEvent(t, e) && !Crossed(TableStep(t, e))
    ensures QuietOn(Feed(b, Tr.Emit(t, n, e)), a', TableStep(t, e), b.nextId) && RisesBy(a, a', t, e)
  {
    hide Rep, Within, Process, Crossed, Feed, UpTo;
    var ms := Tr.Emit(t, n, e);
    if Unknown(t, e) {
      FeedNone(b);
      UnknownKeeps(t, e);
      a' := a;
    } else {
      match e
      case Add(ref, side, price, shares) =>
        FeedOne(b, ms[0]);
        a' := NewWithin(b, a, t, ref, Order(side, price, shares), n + 1);
      case Reduce(ref, shares, _) =>
        FeedOne(b, ms[0]);
        if shares >= t[ref].qty {
          a' := CancelOnList(b, a, t, ref, ms[0]);
        } else {
          a' := ModifyOnList(b, a, t, ref, ms[0]);
        }
      case Delete(ref) =>
        FeedOne(b, ms[0]);
        a' := CancelOnList(b, a, t, ref, ms[0]);
      case Replace(orig, nref, shares, price) =>
        a' := ReplaceOnList(b, a, t, n, e);
    }
  }

  lemma EventIsQuiet(b: Book, t: Table, n: nat, e: Event)
    requires HoldsSome(b, t) && SoundEvent(t, e) && !Crossed(TableStep(t, e))
    ensures Feed(b, Tr.Emit(t, n, e)).1 == [] && HoldsSome(Feed(b, Tr.Emit(t, n, e)).0, TableStep(t, e))
  {
    hide Rep, Within, Crossed, Feed, TableStep, SoundEvent, Tr.Emit;
    var a: seq<Arrival> :| Rep(b, a) && Within(a, t);
    var a' := EventOnList(b, a, t, n, e);
  }

  lemma UnknownKeeps(t: Table, e: Event)
    requires Unknown(t, e)
    ensures TableStep(t, e) == t
  {
    if e.Delete? {
      assert t - {e.ref} == t;
    }
  }

  lemma SoundStep(s: Tr.State, e: Event)
    requires SoundEvent(s.orders, e)
    ensures Tr.Step(s, e).orders == TableStep(s.orders, e)
  {
    Tr.TablesAgreeIff(s.orders, e);
  }

  /** Never crossed means never filled, on days of any size: an engine that has refused orders
      holds some of the table, and what does not cross the table does not cross it. */
  lemma {:induction false} NeverFilled(b: Book, s: Tr.State, es: seq<Event>)
    requires HoldsSome(b, s.orders) && SoundRun(s.orders, es) && NeverCrosses(s.orders, es)
    ensures Feed(b, Tr.EmitAll(s, es)).1 == [] && HoldsSome(Feed(b, Tr.EmitAll(s, es)).0, TableRun(s.orders, es))
    decreases es
  {
    hide HoldsSome, Crossed, Feed, Tr.Emit, Tr.Step, SoundEvent, TableStep;
    if es == [] {
      FeedNone(b);
    } else {
      var ms, s' := Tr.Emit(s.orders, s.seqNum, es[0]), Tr.Step(s, es[0]);
      SoundStep(s, es[0]);
      EventIsQuiet(b, s.orders, s.seqNum, es[0]);
      FeedAppend(b, ms, Tr.EmitAll(s', es[1..]));
      NeverFilled(Feed(b, ms).0, s', es[1..]);
    }
  }

  /** With rising references the engine's list stays in reference order, refusals or not. */
  lemma {:induction false} StaysRising(b: Book, a: seq<Arrival>, hi: nat, s: Tr.State, es: seq<Event>)
    returns (a': seq<Arrival>)
    requires Rep(b, a) && Within(a, s.orders) && UpTo(a, hi)
    requires SoundRun(s.orders, es) && NeverCrosses(s.orders, es) && Rising(hi, s.orders, es)
    ensures QuietOn(Feed(b, Tr.EmitAll(s, es)), a', TableRun(s.orders, es), b.nextId) && Ascending(a')
    decreases es
  {
    hide Rep, Within, Crossed, Feed, Tr.Emit, Tr.Step, SoundEvent, TableStep;
    if es == [] {
      FeedNone(b);
      a' := a;
    } else {
      var ms, s' := Tr.Emit(s.orders, s.seqNum, es[0]), Tr.Step(s, es[0]);
      SoundStep(s, es[0]);
      var c := EventOnList(b, a, s.orders, s.seqNum, es[0]);
      hide UpTo;
      FeedAppend(b, ms, Tr.EmitAll(s', es[1..]));
      a' := StaysRising(Feed(b, ms).0, c, Bound(s.orders, es[0], hi), s', es[1..]);
    }
  }

  /** Every table before the first crossing one fits the engine. */
  ghost predicate FitsUntilCrossed(t: Table, es: seq<Event>)
    decreases es
  {
    es == [] || Crossed(TableStep(t, es[0]))
        || (Fits(TableStep(t, es[0])) && FitsUntilCrossed(TableStep(t, es[0]), es[1..]))
  }

  /** The first crossing fills, if nothing was refused before it. */
  lemma {:induction false} CrossingFills(b: Book, a: seq<Arrival>, s: Tr.State, es: seq<Event>)
    requires Rep(b, a) && Matches(a, s.orders) && !Crossed(s.orders) && SoundRun(s.orders, es)
    requires FitsUntilCrossed(s.orders, es) && !NeverCrosses(s.orders, es)
    ensures Feed(b, Tr.EmitAll(s, es)).1 != []
    decreases es
  {
    hide Rep, Matches, Crossed, Feed, Tr.Emit, Tr.Step, SoundEvent, TableStep, Track, Fits;
    var ms, s' := Tr.Emit(s.orders, s.seqNum, es[0]), Tr.Step(s, es[0]);
    SoundStep(s, es[0]);
    FeedAppend(b, ms, Tr.EmitAll(s', es[1..]));
    if Crossed(TableStep(s.orders, es[0])) {
      EventTrades(b, a, s.orders, s.seqNum, es[0]);
    } else {
      EventRests(b, a, s.orders, s.seqNum, es[0]);
      TrackMatchesClean(a, s.orders, es[0]);
      CrossingFills(Feed(b, ms).0, Track(a, s.orders, es[0]), s', es[1..]);
    }
  }

  /** From any uncrossed table, on days of any size: never crossed means never filled; and if
      nothing was refused before the first crossing, never filled means never crossed. */
  lemma FilledIff(b: Book, a: seq<Arrival>, s: Tr.State, es: seq<Event>)
    requires Rep(b, a) && Matches(a, s.orders) && !Crossed(s.orders) && SoundRun(s.orders, es)
    ensures NeverCrosses(s.orders, es) ==> Feed(b, Tr.EmitAll(s, es)).1 == []
    ensures FitsUntilCrossed(s.orders, es) ==> (Feed(b, Tr.EmitAll(s, es)).1 == [] <==> NeverCrosses(s.orders, es))
  {
    MatchesWithin(a, s.orders);
    assert HoldsSome(b, s.orders);
    hide *;
    if NeverCrosses(s.orders, es) {
      NeverFilled(b, s, es);
    } else if FitsUntilCrossed(s.orders, es) {
      CrossingFills(b, a, s, es);
    }
  }

  /** Uncrossed, with non-zero references and positive shares, of any size. */
  ghost predicate Quotable(t: Table) {
    Positive(t) && 0 !in t && !Crossed(t)
  }

  ghost predicate InFirst(id: nat, ms: seq<Msg>, i: nat) {
    exists j :: 0 <= j < i && j < |ms| && ms[j].id == id
  }

  /** Every order of the list is one of the first i messages. */
  ghost predicate AmongFirst(a: seq<Arrival>, ms: seq<Msg>, i: nat) {
    forall k :: 0 <= k < |a| ==> InFirst(a[k].id, ms, i)
  }

  lemma NextUnlisted(a: seq<Arrival>, ms: seq<Msg>, t: Table, i: nat)
    requires Tr.IsSnapshot(ms, t) && i < |ms| && AmongFirst(a, ms, i)
    ensures !HasId(a, ms[i].id)
  {
    forall k | 0 <= k < |a| ensures a[k].id != ms[i].id {
      var j :| 0 <= j < i && j < |ms| && ms[j].id == a[k].id;
    }
  }

  lemma InNext(id: nat, ms: seq<Msg>, i: nat)
    requires i < |ms| && (InFirst(id, ms, i) || id == ms[i].id)
    ensures InFirst(id, ms, i + 1)
  {
    if InFirst(id, ms, i) {
      var j :| 0 <= j < i && j < |ms| && ms[j].id == id;
      assert ms[j].id == id;
    }
  }

  lemma AmongNext(a: seq<Arrival>, a': seq<Arrival>, ms: seq<Msg>, i: nat)
    requires i < |ms| && AmongFirst(a, ms, i)
             && (a' == a || (|a'| == |a| + 1 && a' == a + [a'[|a|]] && a'[|a|].id == ms[i].id))
    ensures AmongFirst(a', ms, i + 1)
  {
    hide InFirst;
    forall k | 0 <= k < |a'| ensures InFirst(a'[k].id, ms, i + 1) {
      assert k < |a| ==> a'[k] == a[k];
      InNext(a'[k].id, ms, i);
    }
  }

  lemma {:induction false} SnapshotPrefix(ms: seq<Msg>, t: Table, i: nat) returns (a: seq<Arrival>)
    requires Tr.IsSnapshot(ms, t) && Quotable(t) && i <= |ms|
    ensures Feed(Engine.EMPTY, ms[..i]).1 == [] && Rep(Feed(Engine.EMPTY, ms[..i]).0, a) && Within(a, t)
            && AmongFirst(a, ms, i)
    ensures |a| <= i
  {
    hide Rep, Process, Tr.IsSnapshot, Crossed, Feed;
    if i == 0 {
      EmptyRep();
      FeedNone(Engine.EMPTY);
      assert ms[..0] == [];
      a := [];
    } else {
      var c := SnapshotPrefix(ms, t, i - 1);
      var b := Feed(Engine.EMPTY, ms[..i - 1]).0;
      SnapshotMsg(ms, t, i - 1);
      NextUnlisted(c, ms, t, i - 1);
      hide AmongFirst, Within;
      a := NewOnList(b, c, t, ms[i - 1].id, ms[i - 1].seqNum);
      AmongNext(c, a, ms, i - 1);
      assert ms[..i] == ms[..i - 1] + [ms[i - 1]];
      FeedAppend(Engine.EMPTY, ms[..i - 1], [ms[i - 1]]);
      FeedOne(b, ms[i - 1]);
    }
  }

  /** Started from a snapshot of any uncrossed table, however large, over any uncrossed rest of
      the day: the engine never fills. */
  lemma MidDayNeverFilled(s: Tr.State, ms: seq<Msg>, es: seq<Event>)
    requires Tr.IsSnapshot(ms, s.orders) && Quotable(s.orders) && SoundRun(s.orders, es) && NeverCrosses(s.orders, es)
    ensures Feed(Engine.EMPTY, ms + Tr.EmitAll(s, es)).1 == []
    ensures HoldsSome(Feed(Engine.EMPTY, ms + Tr.EmitAll(s, es)).0, TableRun(s.orders, es))
  {
    hide Rep, Within, Feed, Tr.IsSnapshot, Tr.EmitAll, SoundRun, NeverCrosses, Quotable, AmongFirst;
    var a := SnapshotPrefix(ms, s.orders, |ms|);
    assert ms[..|ms|] == ms;
    var b := Feed(Engine.EMPTY, ms).0;
    NeverFilled(b, s, es);
    FeedAppend(Engine.EMPTY, ms, Tr.EmitAll(s, es));
  }

  // ---- Exactly when the engine holds the table ----

  ghost predicate HoldsTable(b: Book, t: Table) {
    exists a :: Rep(b, a) && Matches(a, t)
  }

  lemma LevelForPrice(b: Book, a: seq<Arrival>, t: Table, bid: bool, p: u32)
    requires Rep(b, a) && Matches(a, t) && p in Prices(t, bid)
    ensures ToEngine(p) in LevelPrices(Side(b, bid))
  {
    var ls := Side(b, bid);
    RepSide(b, a, bid);
    var r :| r in t && IsBid(t[r].side) == bid && t[r].price == p;
    var k :| 0 <= k < |a| && a[k].id == r;
    QueueSits(a, k);
    assert Queues(a, bid)(a[k].price) != [];
    assert HasPrice(ls, a[k].price);
  }

  lemma PricesHeld(b: Book, a: seq<Arrival>, t: Table, bid: bool)
    requires Rep(b, a) && Matches(a, t)
    ensures |Prices(t, bid)| <= |Side(b, bid)|
  {
    hide Rep, Matches, Prices, LevelPrices;
    var ls := Side(b, bid);
    forall p | p in Prices(t, bid) ensures ToEngine(p) in LevelPrices(ls) {
      LevelForPrice(b, a, t, bid, p);
    }
    ScaledSize(Prices(t, bid));
    assert Scaled(Prices(t, bid)) <= LevelPrices(ls);
    SubsetSize(Scaled(Prices(t, bid)), LevelPrices(ls));
    SideSize(b, a, bid);
  }

  lemma SideSize(b: Book, a: seq<Arrival>, bid: bool)
    requires Rep(b, a)
    ensures |LevelPrices(Side(b, bid))| == |Side(b, bid)|
  {
    RepSide(b, a, bid);
    LevelPricesSize(Side(b, bid), bid);
  }

  lemma Used(b: Book, a: seq<Arrival>, t: Table)
    requires Rep(b, a) && Matches(a, t)
    ensures b.used == |t|
  {
    IdsSize(a);
    IdsAreKeys(a, t);
  }

  /** What the engine holds whole fits it. */
  lemma HeldFits(b: Book, t: Table)
    requires HoldsTable(b, t) && Verdict.WithinCapacity(b)
    ensures Fits(t)
  {
    hide Rep, Matches, Prices;
    var a: seq<Arrival> :| Rep(b, a) && Matches(a, t);
    Used(b, a, t);
    PricesHeld(b, a, t, true);
    PricesHeld(b, a, t, false);
  }

  /** The engine holds the table at the start and after every event. */
  ghost predicate HoldsAlong(b: Book, s: Tr.State, es: seq<Event>)
    decreases es
  {
    && HoldsTable(b, s.orders)
    && (es != [] ==> HoldsAlong(Feed(b, Tr.Emit(s.orders, s.seqNum, es[0])).0, Tr.Step(s, es[0]), es[1..]))
  }

  ghost predicate FitsAlong(t: Table, es: seq<Event>)
    decreases es
  {
    Fits(t) && (es != [] ==> FitsAlong(TableStep(t, es[0]), es[1..]))
  }

  lemma EventHolds(b: Book, t: Table, n: nat, e: Event)
    requires HoldsTable(b, t) && SoundEvent(t, e) && Fits(TableStep(t, e)) && !Crossed(TableStep(t, e))
    ensures HoldsTable(Feed(b, Tr.Emit(t, n, e)).0, TableStep(t, e))
  {
    hide Rep, Matches, Feed, Crossed, TableStep, Tr.Emit;
    var a: seq<Arrival> :| Rep(b, a) && Matches(a, t);
    EventRests(b, a, t, n, e);
    TrackMatchesClean(a, t, e);
  }

  /** Over an uncrossed run the engine keeps holding the table if and only if every table along
      the run fits its orders and its levels. */
  lemma {:induction false} HoldsIffFits(b: Book, s: Tr.State, es: seq<Event>)
    requires HoldsTable(b, s.orders) && Verdict.WithinCapacity(b) && SoundRun(s.orders, es)
             && NeverCrosses(s.orders, es)
    ensures HoldsAlong(b, s, es) <==> FitsAlong(s.orders, es)
    decreases es
  {
    hide HoldsTable, Crossed, Feed, Tr.Emit, Tr.Step, SoundEvent, TableStep, Fits, Verdict.WithinCapacity;
    HeldFits(b, s.orders);
    if es != [] {
      var ms, s' := Tr.Emit(s.orders, s.seqNum, es[0]), Tr.Step(s, es[0]);
      var b' := Feed(b, ms).0;
      SoundStep(s, es[0]);
      Verdict.FeedBound(b, ms);
      if Fits(s'.orders) {
        EventHolds(b, s.orders, s.seqNum, es[0]);
        HoldsIffFits(b', s', es[1..]);
      } else if HoldsTable(b', s'.orders) {
        HeldFits(b', s'.orders);
      }
    }
  }

  lemma StartFits()
    ensures Verdict.WithinCapacity(Engine.EMPTY)
  {
  }

  lemma SnapshotHoldsIff(ms: seq<Msg>, t: Table)
    requires Tr.IsSnapshot(ms, t) && Quotable(t)
    ensures HoldsTable(Feed(Engine.EMPTY, ms).0, t) <==> Fits(t)
  {
    hide Feed, Tr.IsSnapshot, Rep, Matches, Crossed, Fits, Positive;
    if Fits(t) {
      SnapshotMatches(ms, t);
      SnapshotRests(ms, t);
    }
    if HoldsTable(Feed(Engine.EMPTY, ms).0, t) {
      StartFits();
      Verdict.FeedBound(Engine.EMPTY, ms);
      HeldFits(Feed(Engine.EMPTY, ms).0, t);
    }
  }

  /** Both price counts stay within the engine's levels along the run. */
  ghost predicate LevelsAlong(t: Table, es: seq<Event>)
    decreases es
  {
    && |Prices(t, true)| <= MAX_LEVELS && |Prices(t, false)| <= MAX_LEVELS
    && (es != [] ==> LevelsAlong(TableStep(t, es[0]), es[1..]))
  }

  lemma {:induction false} SilentFits(s: Tr.State, es: seq<Event>)
    requires SoundRun(s.orders, es) && R.RoomAll(MAX_ORDERS, s, es)
    ensures FitsAlong(s.orders, es) <==> |s.orders| <= MAX_ORDERS && LevelsAlong(s.orders, es)
    decreases es
  {
    hide Tr.Step, TableStep, SoundEvent, Prices;
    if es != [] {
      SoundStep(s, es[0]);
      SilentFits(Tr.Step(s, es[0]), es[1..]);
    }
  }

  /** What a silent report is worth, at the engine's own capacity: after the snapshot and after
      every event the engine holds the driver's table if and only if the snapshot, which is sent
      without being measured, fits the order slots, and no table has too many prices, which are
      not measured at all. */
  lemma CapacityReportIff(mid: Tr.State, snap: seq<Msg>, post: seq<Event>)
    requires Tr.IsSnapshot(snap, mid.orders) && Quotable(mid.orders)
    requires SoundRun(mid.orders, post) && NeverCrosses(mid.orders, post) && R.RoomAll(MAX_ORDERS, mid, post)
    ensures HoldsAlong(Feed(Engine.EMPTY, snap).0, mid, post) <==>
            |mid.orders| <= MAX_ORDERS && LevelsAlong(mid.orders, post)
  {
    var b := Feed(Engine.EMPTY, snap).0;
    SnapshotHoldsIff(snap, mid.orders);
    SilentFits(mid, post);
    StartFits();
    Verdict.FeedBound(Engine.EMPTY, snap);
    assert FitsAlong(mid.orders, post) ==> Fits(mid.orders);
    assert HoldsAlong(b, mid, post) ==> HoldsTable(b, mid.orders);
    hide *;
    if HoldsTable(b, mid.orders) {
      HoldsIffFits(b, mid, post);
    }
  }

  /** From the start of day a silent report is complete as far as orders go. */
  lemma StartOfDayCapacity(es: seq<Event>)
    requires SoundRun(map[], es) && NeverCrosses(map[], es) && R.RoomAll(MAX_ORDERS, Tr.EMPTY, es)
    ensures HoldsAlong(Engine.EMPTY, Tr.EMPTY, es) <==> LevelsAlong(map[], es)
  {
    hide SoundRun, NeverCrosses, R.RoomAll, HoldsAlong, LevelsAlong;
    EmptyIsQuotable();
    FeedNone(Engine.EMPTY);
    CapacityReportIff(Tr.EMPTY, [], es);
  }

  lemma EmptyIsQuotable()
    ensures Tr.IsSnapshot([], Tr.EMPTY.orders) && Quotable(Tr.EMPTY.orders) && |Tr.EMPTY.orders| == 0
  {
  }

  // ---- Any assumed capacity, crossed days included ----

  /** No reference is used while it is live, and none is zero. Shares and crossing are free. */
  ghost predicate Named(t: Table, e: Event) {
    !Duplicates(t, e) && (Inserts(t, e) ==> Tr.NewRef(e) != 0)
  }

  ghost predicate NamedRun(t: Table, es: seq<Event>)
    decreases es
  {
    es == [] || (Named(t, es[0]) && NamedRun(TableStep(t, es[0]), es[1..]))
  }

  lemma NamedStep(s: Tr.State, e: Event)
    requires Named(s.orders, e)
    ensures Tr.Step(s, e).orders == TableStep(s.orders, e)
  {
    Tr.TablesAgreeIff(s.orders, e);
  }

  ghost predicate IdsIn(a: seq<Arrival>, ids: set<u64>) {
    forall k :: 0 <= k < |a| ==> a[k].id in ids
  }

  /** Whatever traded or was refused, every order the engine holds has one of these ids. */
  ghost predicate HoldsOnly(b: Book, ids: set<u64>) {
    exists a :: Rep(b, a) && IdsIn(a, ids)
  }

  lemma UsedAtMost(b: Book, ids: set<u64>)
    requires HoldsOnly(b, ids)
    ensures b.used <= |ids|
  {
    var a: seq<Arrival> :| Rep(b, a) && IdsIn(a, ids);
    IdsSize(a);
    forall x | x in Ids(a) ensures x in ids {
      var k :| 0 <= k < |a| && a[k].id == x;
    }
    SubsetSize(Ids(a), ids);
  }

  lemma AfterIds(b: Book, a: seq<Arrival>, m: Msg, ids: set<u64>)
    requires IdsIn(a, ids) && (m.kind == NewOrder ==> m.id in ids)
    ensures IdsIn(After(b, a, m), ids)
  {
    hide After;
    var a' := After(b, a, m);
    forall j | 0 <= j < |a'| ensures a'[j].id in ids {
      FromAfter(b, a, m, j);
      if From(a'[j], a) {
        var k :| 0 <= k < |a| && SameButQty(a'[j], a[k]);
        assert a[k].id in ids;
      }
    }
  }

  lemma NewOnly(b: Book, ids: set<u64>, m: Msg)
    requires HoldsOnly(b, ids) && m.kind == NewOrder && m.id != 0 && m.id !in ids && m.id < 0x1_0000_0000_0000_0000
    ensures HoldsOnly(Process(b, m).0, ids + {m.id})
  {
    hide Rep, Process, After;
    var a: seq<Arrival> :| Rep(b, a) && IdsIn(a, ids);
    assert !HasId(a, m.id);
    ProcessAny(b, a, m);
    AfterIds(b, a, m, ids + {m.id});
  }

  lemma ModifyOnly(b: Book, ids: set<u64>, m: Msg)
    requires HoldsOnly(b, ids) && m.kind == ModifyOrder
    ensures HoldsOnly(Process(b, m).0, ids)
  {
    hide Rep, Process, After;
    var a: seq<Arrival> :| Rep(b, a) && IdsIn(a, ids);
    ProcessAny(b, a, m);
    AfterIds(b, a, m, ids);
  }

  lemma CancelOnly(b: Book, ids: set<u64>, m: Msg)
    requires HoldsOnly(b, ids) && m.kind == CancelOrder && m.id < 0x1_0000_0000_0000_0000
    ensures HoldsOnly(Process(b, m).0, ids - {m.id})
  {
    hide Rep, Cancel;
    var a: seq<Arrival> :| Rep(b, a) && IdsIn(a, ids);
    if HasId(a, m.id) {
      var k :| 0 <= k < |a| && a[k].id == m.id;
      CancelRep(b, a, k);
      RepDistinct(b, a);
      var a' := Without(a, k);
      assert forall j :: 0 <= j < |a'| ==> a'[j] == a[if j < k then j else j + 1];
    } else {
      NotHeld(a, m.id);
      UnknownIdIgnored(b, a, m.id, 0);
      assert forall k :: 0 <= k < |a| ==> a[k].id != m.id;
    }
  }

  /** After any number of an event's messages the engine holds only ids of one of the tables. */
  lemma EventOnly(b: Book, t: Table, n: nat, e: Event, i: nat)
    requires HoldsOnly(b, t.Keys) && Named(t, e) && i <= |Tr.Emit(t, n, e)|
    ensures var b' := Feed(b, Tr.Emit(t, n, e)[..i]).0;
            (i == |Tr.Emit(t, n, e)| && HoldsOnly(b', TableStep(t, e).Keys)) || HoldsOnly(b', t.Keys)
    ensures HoldsOnly(Feed(b, Tr.Emit(t, n, e)).0, TableStep(t, e).Keys)
  {
    hide HoldsOnly, Process, Feed;
    var ms := Tr.Emit(t, n, e);
    assert ms[..|ms|] == ms && ms[..0] == [];
    FeedNone(b);
    if Unknown(t, e) {
      UnknownKeeps(t, e);
    } else if e.Replace? {
      ReplaceOnly(b, t, n, e);
      assert ms[..1] == [ms[0]];
    } else {
      OneOnly(b, t, n, e);
    }
  }

  lemma OneOnly(b: Book, t: Table, n: nat, e: Event)
    requires HoldsOnly(b, t.Keys) && Named(t, e) && !Unknown(t, e) && !e.Replace?
    ensures |Tr.Emit(t, n, e)| == 1 && HoldsOnly(Feed(b, Tr.Emit(t, n, e)).0, TableStep(t, e).Keys)
  {
    hide HoldsOnly, Process, Feed;
    var ms := Tr.Emit(t, n, e);
    FeedOne(b, ms[0]);
    match ms[0].kind
    case NewOrder =>
      NewOnly(b, t.Keys, ms[0]);
      assert TableStep(t, e).Keys == t.Keys + {ms[0].id};
    case CancelOrder =>
      CancelOnly(b, t.Keys, ms[0]);
      assert TableStep(t, e).Keys == t.Keys - {ms[0].id};
    case ModifyOrder =>
      ModifyOnly(b, t.Keys, ms[0]);
      assert TableStep(t, e).Keys == t.Keys;
  }

  lemma ReplaceOnly(b: Book, t: Table, n: nat, e: Event)
    requires HoldsOnly(b, t.Keys) && Named(t, e) && e.Replace? && e.orig in t
    ensures var ms := Tr.Emit(t, n, e);
            && |ms| == 2 && HoldsOnly(Feed(b, [ms[0]]).0, t.Keys) && HoldsOnly(Feed(b, ms).0, TableStep(t, e).Keys)
  {
    hide HoldsOnly, Process, Feed;
    var ms := Tr.Emit(t, n, e);
    FeedOne(b, ms[0]);
    FeedTwo(b, ms[0], ms[1]);
    CancelOnly(b, t.Keys, ms[0]);
    var b' := Process(b, ms[0]).0;
    OnlyMore(b', t.Keys - {e.orig}, t.Keys);
    NewOnly(b', t.Keys - {e.orig}, ms[1]);
    assert TableStep(t, e).Keys == t.Keys - {e.orig} + {e.nref};
  }

  lemma OnlyMore(b: Book, ids: set<u64>, more: set<u64>)
    requires HoldsOnly(b, ids) && ids <= more
    ensures HoldsOnly(b, more)
  {
    hide Rep;
    var a: seq<Arrival> :| Rep(b, a) && IdsIn(a, ids);
    assert IdsIn(a, more);
  }

  lemma {:induction false} RunUsed(b: Book, s: Tr.State, es: seq<Event>, capacity: nat, i: nat)
    requires HoldsOnly(b, s.orders.Keys) && NamedRun(s.orders, es)
    requires |s.orders| <= capacity && R.RoomAll(capacity, s, es) && i <= |Tr.EmitAll(s, es)|
    ensures Feed(b, Tr.EmitAll(s, es)[..i]).0.used <= capacity
    decreases es
  {
    hide HoldsOnly, Feed, Tr.Emit, Tr.Step, Named, TableStep;
    if es == [] {
      assert Tr.EmitAll(s, es)[..i] == [];
      FeedNone(b);
      UsedAtMost(b, s.orders.Keys);
    } else {
      var ms, s' := Tr.Emit(s.orders, s.seqNum, es[0]), Tr.Step(s, es[0]);
      NamedStep(s, es[0]);
      if i <= |ms| {
        assert Tr.EmitAll(s, es)[..i] == ms[..i];
        EventOnly(b, s.orders, s.seqNum, es[0], i);
        var b' := Feed(b, ms[..i]).0;
        if HoldsOnly(b', s.orders.Keys) {
          UsedAtMost(b', s.orders.Keys);
        } else {
          UsedAtMost(b', s'.orders.Keys);
        }
      } else {
        var rest := Tr.EmitAll(s', es[1..]);
        assert Tr.EmitAll(s, es)[..i] == ms + rest[..i - |ms|];
        FeedAppend(b, ms, rest[..i - |ms|]);
        EventOnly(b, s.orders, s.seqNum, es[0], 0);
        RunUsed(Feed(b, ms).0, s', es[1..], capacity, i - |ms|);
      }
    }
  }

  ghost predicate NeverOver(sent: seq<Msg>, capacity: nat) {
    forall i :: 0 <= i <= |sent| ==> Feed(Engine.EMPTY, sent[..i]).0.used <= capacity
  }

  lemma SnapshotSize(ms: seq<Msg>, t: Table)
    requires Tr.IsSnapshot(ms, t)
    ensures |ms| == |t|
  {
    SnapshotMatches(ms, t);
    IdsSize(SnapshotList(ms));
    IdsAreKeys(SnapshotList(ms), t);
  }

  /** The references of the first i messages. */
  ghost function FirstIds(ms: seq<Msg>, t: Table, i: nat): set<u64>
    requires Tr.IsSnapshot(ms, t) && i <= |ms|
  {
    set j | 0 <= j < i :: ms[j].id as u64
  }

  lemma FirstIdsNext(ms: seq<Msg>, t: Table, i: nat)
    requires Tr.IsSnapshot(ms, t) && i < |ms|
    ensures ms[i].id !in FirstIds(ms, t, i) && ms[i].id < 0x1_0000_0000_0000_0000 && ms[i].kind == NewOrder
            && ms[i].id in t
    ensures FirstIds(ms, t, i + 1) == FirstIds(ms, t, i) + {ms[i].id}
  {
    assert ms[i].id in t;
    forall x | x in FirstIds(ms, t, i) ensures x in FirstIds(ms, t, i + 1) && x != ms[i].id {
      var j :| 0 <= j < i && ms[j].id == x;
    }
    forall x | x in FirstIds(ms, t, i + 1) ensures x in FirstIds(ms, t, i) + {ms[i].id} {
      var j :| 0 <= j < i + 1 && ms[j].id == x;
    }
  }

  lemma NoneSent(ms: seq<Msg>, t: Table)
    requires Tr.IsSnapshot(ms, t)
    ensures HoldsOnly(Feed(Engine.EMPTY, ms[..0]).0, FirstIds(ms, t, 0)) && |FirstIds(ms, t, 0)| == 0
  {
    EmptyRep();
    assert IdsIn([], {});
    hide Rep, Tr.IsSnapshot;
    FeedNone(Engine.EMPTY);
    assert ms[..0] == [] && FirstIds(ms, t, 0) == {};
  }

  /** A snapshot, whatever trades part way, leaves only references sent so far. */
  lemma {:induction false} SnapshotOnly(ms: seq<Msg>, t: Table, i: nat)
    requires Tr.IsSnapshot(ms, t) && 0 !in t && i <= |ms|
    ensures HoldsOnly(Feed(Engine.EMPTY, ms[..i]).0, FirstIds(ms, t, i)) && |FirstIds(ms, t, i)| == i
  {
    hide Process, Tr.IsSnapshot, Feed, HoldsOnly, FirstIds;
    if i == 0 {
      NoneSent(ms, t);
    } else {
      SnapshotOnly(ms, t, i - 1);
      FirstIdsNext(ms, t, i - 1);
      var b := Feed(Engine.EMPTY, ms[..i - 1]).0;
      NewOnly(b, FirstIds(ms, t, i - 1), ms[i - 1]);
      assert ms[..i] == ms[..i - 1] + [ms[i - 1]];
      FeedAppend(Engine.EMPTY, ms[..i - 1], [ms[i - 1]]);
      FeedOne(b, ms[i - 1]);
    }
  }

  lemma AllFirstIds(ms: seq<Msg>, t: Table)
    requires Tr.IsSnapshot(ms, t)
    ensures FirstIds(ms, t, |ms|) == t.Keys
  {
    forall r | r in t ensures r in FirstIds(ms, t, |ms|) {
      var i :| 0 <= i < |ms| && ms[i].id == r;
    }
  }

  /** For any assumed capacity, on any day whose references are not zero and not used twice,
      crossed or not: when the report is silent and the snapshot is within the capacity, no
      message sent, inside a replace included, left the engine with more orders than that. */
  lemma SilentNeverOver(sent: seq<Msg>, mid: Tr.State, snap: seq<Msg>, post: seq<Event>, capacity: nat)
    requires Tr.IsSnapshot(snap, mid.orders) && sent == snap + Tr.EmitAll(mid, post) && 0 !in mid.orders
    requires NamedRun(mid.orders, post) && R.RoomAll(capacity, mid, post) && |mid.orders| <= capacity
    ensures NeverOver(sent, capacity)
  {
    hide Feed, Tr.IsSnapshot, Tr.EmitAll, NamedRun, R.RoomAll, HoldsOnly, FirstIds;
    SnapshotSize(snap, mid.orders);
    SnapshotOnly(snap, mid.orders, |snap|);
    AllFirstIds(snap, mid.orders);
    assert snap[..|snap|] == snap;
    var b := Feed(Engine.EMPTY, snap).0;
    forall i | 0 <= i <= |sent| ensures Feed(Engine.EMPTY, sent[..i]).0.used <= capacity {
      if i <= |snap| {
        assert sent[..i] == snap[..i];
        SnapshotOnly(snap, mid.orders, i);
        UsedAtMost(Feed(Engine.EMPTY, snap[..i]).0, FirstIds(snap, mid.orders, i));
      } else {
        var rest := Tr.EmitAll(mid, post);
        assert sent[..i] == snap + rest[..i - |snap|];
        FeedAppend(Engine.EMPTY, snap, rest[..i - |snap|]);
        RunUsed(b, mid, post, capacity, i - |snap|);
      }
    }
  }

  // ---- A silent report and a lost order ----

  /** n bids at one price, before the engine starts. */
  function Early(n: nat): seq<R.BookMsg>
    requires n < 0x1_0000_0000
  {
    if n == 0 then [] else Early(n - 1) + [R.Good(0, Add(n, 'B', 100, 1))]
  }

  ghost predicate FirstRefs(t: Table, n: nat) {
    && |t| == n
    && (forall r :: r in t <==> 1 <= r <= n)
    && (forall r :: r in t ==> t[r] == Order('B', 100, 1))
  }

  lemma {:induction false} EarlyTable(n: nat)
    requires n < 0x1_0000_0000
    ensures |Early(n)| == n && (forall k :: 0 <= k < n ==> Early(n)[k].ts == 0)
    ensures FirstRefs(TableRun(map[], R.Events(Early(n))), n) && Tr.NoDuplicates(map[], R.Events(Early(n)))
  {
    if n > 0 {
      EarlyTable(n - 1);
      var ms, e := Early(n - 1), Add(n, 'B', 100, 1);
      var es := R.Events(ms);
      assert Early(n)[..n - 1] == ms;
      assert R.Events(Early(n)) == es + [e];
      hide FirstRefs, TableRun, R.Events, Tr.NoDuplicates;
      var t := TableRun(map[], es);
      TableRunAppend(map[], es, [e]);
      AddOne(t, n, e);
      NoDuplicatesSnoc(map[], es, e);
    }
  }

  lemma FirstRefsGrow(t: Table, u: Table, n: u64)
    requires n > 0 && FirstRefs(t, n - 1) && u == t[n := Order('B', 100, 1)]
    ensures FirstRefs(u, n)
  {
    assert u.Keys == t.Keys + {n};
    assert |u| == |u.Keys| && |t| == |t.Keys|;
  }

  lemma AddOne(t: Table, n: u64, e: Event)
    requires n > 0 && FirstRefs(t, n - 1) && e == Add(n, 'B', 100, 1)
    ensures FirstRefs(TableRun(t, [e]), n) && !Duplicates(t, e)
  {
    assert n !in t;
    hide FirstRefs;
    var u := TableStep(t, e);
    FirstRefsGrow(t, u, n);
    assert [e][1..] == [];
    assert TableRun(u, []) == u;
  }

  lemma {:induction false} NoDuplicatesSnoc(t: Table, es: seq<Event>, e: Event)
    requires Tr.NoDuplicates(t, es) && !Duplicates(TableRun(t, es), e)
    ensures Tr.NoDuplicates(t, es + [e])
    decreases es
  {
    hide TableStep, Duplicates;
    if es == [] {
      assert es + [e] == [e] && [e][1..] == [];
      assert Tr.NoDuplicates(TableStep(t, e), []);
    } else {
      assert (es + [e])[1..] == es[1..] + [e];
      NoDuplicatesSnoc(TableStep(t, es[0]), es[1..], e);
    }
  }

  /** The snapshot at the end of a file is not measured: after 65,537 orders before a start time
      that never comes, the report is silent and the engine holds an order less than the table. */
  lemma SilentButLost(msgs: seq<R.BookMsg>, sent: seq<Msg>, now: Tr.State, mid: Tr.State, snap: seq<Msg>)
    requires msgs == Early(MAX_ORDERS + 1) && R.SentSince(sent, now, R.Events(msgs), mid, snap, [])
    ensures R.StartsAt(msgs, 1, |msgs|) && R.RoomAll(MAX_ORDERS, mid, [])
    ensures mid.orders == TableRun(map[], R.Events(msgs)) && |mid.orders| == MAX_ORDERS + 1
    ensures Feed(Engine.EMPTY, sent).0.used < |mid.orders| && !HoldsTable(Feed(Engine.EMPTY, sent).0, mid.orders)
  {
    hide Feed, Tr.IsSnapshot, HoldsTable, R.Events, TableRun, Early, Tr.Run;
    EarlyTable(MAX_ORDERS + 1);
    Tr.RunTable(Tr.EMPTY, R.Events(msgs));
    assert snap + [] == snap;
    StartFits();
    Verdict.FeedBound(Engine.EMPTY, sent);
    if HoldsTable(Feed(Engine.EMPTY, sent).0, mid.orders) {
      HeldFits(Feed(Engine.EMPTY, sent).0, mid.orders);
    }
  }
}
