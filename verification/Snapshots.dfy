/** When an engine started from a snapshot (include/hft/itch50.hpp, snapshot) is the engine that
    was fed the whole history (tools/replay_itch50.cpp): exactly when their books are equal at
    the cut, whatever comes after it. */
module Snapshots {
  import opened Itch
  import opened Engine
  import opened PriceTime
  import opened Replication
  import opened Capacity
  import Verdict
  import Tr = Translation
  import R = Replay

  // ---- The same events give the same messages but for sequence numbers ----

  lemma EmitStamps(t: Table, m: nat, n: nat, e: Event)
    ensures SameButStamps(Tr.Emit(t, m, e), Tr.Emit(t, n, e))
  {
  }

  lemma SameConcat(ms: seq<Msg>, ns: seq<Msg>, ms': seq<Msg>, ns': seq<Msg>)
    requires SameButStamps(ms, ns) && SameButStamps(ms', ns')
    ensures SameButStamps(ms + ms', ns + ns')
  {
  }

  lemma {:induction false} EmitAllStamps(s: Tr.State, s': Tr.State, es: seq<Event>)
    requires s.orders == s'.orders
    ensures SameButStamps(Tr.EmitAll(s, es), Tr.EmitAll(s', es))
    decreases es
  {
    hide Tr.Emit, SameButStamps;
    if es == [] {
      NothingStamped();
    } else {
      var e := es[0];
      EmitStamps(s.orders, s.seqNum, s'.seqNum, e);
      EmitAllStamps(Tr.Step(s, e), Tr.Step(s', e), es[1..]);
      SameConcat(Tr.Emit(s.orders, s.seqNum, e), Tr.Emit(s'.orders, s'.seqNum, e),
                 Tr.EmitAll(Tr.Step(s, e), es[1..]), Tr.EmitAll(Tr.Step(s', e), es[1..]));
    }
  }

  lemma NothingStamped()
    ensures SameButStamps([], [])
  {
  }

  lemma {:induction false} EmitAllAppend(s: Tr.State, pre: seq<Event>, post: seq<Event>)
    ensures Tr.EmitAll(s, pre + post) == Tr.EmitAll(s, pre) + Tr.EmitAll(Tr.Run(s, pre), post)
    decreases pre
  {
    hide Tr.Emit, Tr.Step;
    if pre == [] {
      assert pre + post == post;
      assert [] + Tr.EmitAll(s, post) == Tr.EmitAll(s, post);
    } else {
      assert (pre + post)[1..] == pre[1..] + post;
      var s' := Tr.Step(s, pre[0]);
      EmitAllAppend(s', pre[1..], post);
      var x, y, z := Tr.Emit(s.orders, s.seqNum, pre[0]), Tr.EmitAll(s', pre[1..]),
          Tr.EmitAll(Tr.Run(s', pre[1..]), post);
      assert x + (y + z) == (x + y) + z;
    }
  }

  // ---- Equal books at the cut stay equal ----

  /** The engine fed everything up to the cut. */
  ghost function Running(pre: seq<Event>): (Book, seq<Report>) {
    Feed(Engine.EMPTY, Tr.EmitAll(Tr.EMPTY, pre))
  }

  /** Starting from the snapshot gives the same book after these events, and the same reports
      after the cut. */
  ghost predicate SameAfter(pre: seq<Event>, ms: seq<Msg>, s: Tr.State, post: seq<Event>) {
    var (b, rs) := Feed(Engine.EMPTY, ms + Tr.EmitAll(s, post));
    var (c, qs) := Running(pre + post);
    b == c && Running(pre).1 + rs == Feed(Engine.EMPTY, ms).1 + qs
  }

  /** Any suffix at all, crossing, over capacity, duplicated or out of order, keeps books that
      are equal at the cut equal. */
  lemma AnySuffix(pre: seq<Event>, ms: seq<Msg>, s: Tr.State, post: seq<Event>)
    requires s.orders == Tr.Run(Tr.EMPTY, pre).orders && Feed(Engine.EMPTY, ms).0 == Running(pre).0
    requires Feed(Engine.EMPTY, ms).1 == []
    ensures SameAfter(pre, ms, s, post)
  {
    hide Feed, Tr.EmitAll, Tr.Run, SameButStamps;
    var s' := Tr.Run(Tr.EMPTY, pre);
    EmitAllAppend(Tr.EMPTY, pre, post);
    EmitAllStamps(s, s', post);
    var b := Running(pre).0;
    StampsIgnored(b, Tr.EmitAll(s, post), Tr.EmitAll(s', post));
    FeedAppend(Engine.EMPTY, ms, Tr.EmitAll(s, post));
    FeedAppend(Engine.EMPTY, Tr.EmitAll(Tr.EMPTY, pre), Tr.EmitAll(s', post));
    var rs := Feed(b, Tr.EmitAll(s, post)).1;
    assert [] + rs == rs && [] + (Running(pre).1 + rs) == Running(pre).1 + rs;
  }

  lemma NoSuffix(pre: seq<Event>, ms: seq<Msg>, s: Tr.State)
    requires SameAfter(pre, ms, s, [])
    ensures Feed(Engine.EMPTY, ms).0 == Running(pre).0
  {
    assert pre + [] == pre && ms + Tr.EmitAll(s, []) == ms;
  }

  // ---- Exactly when the books are equal ----

  /** For any book at all: it is the snapshot's if and only if it holds the table, with every
      level's queue in reference order. */
  lemma SnapshotIsIff(b: Book, ms: seq<Msg>, t: Table)
    requires Tr.IsSnapshot(ms, t) && Quotable(t) && Fits(t)
    ensures Feed(Engine.EMPTY, ms).1 == []
    ensures b == Feed(Engine.EMPTY, ms).0 <==> HoldsTable(b, t) && LevelsRise(b) && b.nextId == Engine.EMPTY.nextId
  {
    hide Feed, Tr.IsSnapshot, Rep, Matches, Crossed, Fits, Positive, LevelsRise;
    SnapshotMatches(ms, t);
    SnapshotRests(ms, t);
    var c := Feed(Engine.EMPTY, ms).0;
    SnapshotRises(c, SnapshotList(ms));
    if HoldsTable(b, t) && b.nextId == Engine.EMPTY.nextId {
      var a: seq<Arrival> :| Rep(b, a) && Matches(a, t);
      SnapshotFaithfulIff(b, a, t, c, ms);
    }
  }

  /** For every history, whatever it did, and a table at the cut that can rest: resuming from
      the snapshot is the same as having run on, for every possible rest of the day, if and
      only if the running engine holds the table with its queues in reference order. */
  lemma CutIff(pre: seq<Event>, ms: seq<Msg>, s: Tr.State)
    requires s.orders == Tr.Run(Tr.EMPTY, pre).orders && Tr.IsSnapshot(ms, s.orders)
    requires Quotable(s.orders) && Fits(s.orders)
    ensures (forall post :: SameAfter(pre, ms, s, post)) <==>
            HoldsTable(Running(pre).0, s.orders) && LevelsRise(Running(pre).0)
                && Running(pre).0.nextId == Engine.EMPTY.nextId
  {
    hide Tr.Run, Tr.IsSnapshot, Quotable, Fits, HoldsTable, LevelsRise, Running, SameAfter, Feed;
    SnapshotIsIff(Running(pre).0, ms, s.orders);
    if Running(pre).0 == Feed(Engine.EMPTY, ms).0 {
      forall post ensures SameAfter(pre, ms, s, post) {
        AnySuffix(pre, ms, s, post);
      }
    } else if SameAfter(pre, ms, s, []) {
      NoSuffix(pre, ms, s);
    }
  }

  // ---- Rising references ----

  lemma {:induction false} SoundNoDuplicates(t: Table, es: seq<Event>)
    requires SoundRun(t, es)
    ensures Tr.NoDuplicates(t, es)
    decreases es
  {
    hide TableStep;
    if es != [] {
      SoundNoDuplicates(TableStep(t, es[0]), es[1..]);
    }
  }

  lemma QuotableStep(t: Table, e: Event)
    requires Quotable(t) && SoundEvent(t, e) && !Crossed(TableStep(t, e))
    ensures Quotable(TableStep(t, e))
  {
    hide Crossed;
  }

  lemma {:induction false} QuotableRun(t: Table, es: seq<Event>)
    requires Quotable(t) && SoundRun(t, es) && NeverCrosses(t, es)
    ensures Quotable(TableRun(t, es))
    decreases es
  {
    hide Quotable, TableStep, Crossed, SoundEvent;
    if es != [] {
      QuotableStep(t, es[0]);
      QuotableRun(TableStep(t, es[0]), es[1..]);
    }
  }

  lemma EmptyIsUpTo()
    ensures Rep(Engine.EMPTY, []) && Within([], map[]) && UpTo([], 0) && Quotable(map[])
  {
    EmptyRep();
  }

  /** With increasing references and no crossing, refused orders or not, the running engine's
      queues are in reference order and it has reported nothing. */
  lemma RisingHistory(pre: seq<Event>)
    requires SoundRun(map[], pre) && NeverCrosses(map[], pre) && Rising(0, map[], pre)
    ensures LevelsRise(Running(pre).0) && Running(pre).0.nextId == Engine.EMPTY.nextId && Running(pre).1 == []
    ensures Quotable(TableRun(map[], pre)) && Tr.Run(Tr.EMPTY, pre).orders == TableRun(map[], pre)
  {
    EmptyIsUpTo();
    hide Rep, Within, UpTo, Quotable, LevelsRise, SoundRun, NeverCrosses, Rising, Feed, Tr.EmitAll, TableRun,
      Ascending;
    QuotableRun(map[], pre);
    SoundNoDuplicates(map[], pre);
    Tr.RunTable(Tr.EMPTY, pre);
    var a := StaysRising(Engine.EMPTY, [], 0, Tr.EMPTY, pre);
    SnapshotRises(Running(pre).0, a);
  }

  /** For every history with increasing references that never crosses, however large it was, and
      a table at the cut that fits: resuming from the snapshot is the same for every rest of
      the day if and only if the running engine has lost none of the live orders. */
  lemma RisingCutIff(pre: seq<Event>, ms: seq<Msg>, s: Tr.State)
    requires SoundRun(map[], pre) && NeverCrosses(map[], pre) && Rising(0, map[], pre)
    requires s.orders == TableRun(map[], pre) && Tr.IsSnapshot(ms, s.orders) && Fits(s.orders)
    ensures (forall post :: SameAfter(pre, ms, s, post)) <==> HoldsTable(Running(pre).0, s.orders)
  {
    hide *;
    RisingHistory(pre);
    CutIff(pre, ms, s);
  }

  lemma {:induction false} HoldsAtEnd(b: Book, s: Tr.State, es: seq<Event>)
    requires HoldsAlong(b, s, es)
    ensures HoldsTable(Feed(b, Tr.EmitAll(s, es)).0, Tr.Run(s, es).orders)
    decreases es
  {
    hide HoldsTable, Feed, Tr.Emit, Tr.Step;
    if es == [] {
      FeedNone(b);
    } else {
      var ms := Tr.Emit(s.orders, s.seqNum, es[0]);
      FeedAppend(b, ms, Tr.EmitAll(Tr.Step(s, es[0]), es[1..]));
      HoldsAtEnd(Feed(b, ms).0, Tr.Step(s, es[0]), es[1..]);
    }
  }

  lemma {:induction false} FitsAtEnd(t: Table, es: seq<Event>)
    requires FitsAlong(t, es)
    ensures Fits(TableRun(t, es))
    decreases es
  {
    hide Fits, TableStep;
    if es != [] {
      FitsAtEnd(TableStep(t, es[0]), es[1..]);
    }
  }

  lemma EmptyIsHeld()
    ensures HoldsTable(Engine.EMPTY, map[]) && Verdict.WithinCapacity(Engine.EMPTY)
  {
    EmptyRep();
    assert Matches([], map[]);
  }

  /** In particular, if every table up to the cut fits the engine: for every rest of the day,
      the snapshot then the rest give the very book - levels, FIFO order, index - and the very
      reports of an engine fed everything. */
  lemma SnapshotEquivalence(es: seq<Event>, k: nat, ms: seq<Msg>, s: Tr.State)
    requires k <= |es| && SoundRun(map[], es[..k]) && NeverCrosses(map[], es[..k]) && Rising(0, map[], es[..k])
    requires FitsAlong(map[], es[..k]) && s.orders == TableRun(map[], es[..k]) && Tr.IsSnapshot(ms, s.orders)
    ensures Feed(Engine.EMPTY, ms + Tr.EmitAll(s, es[k..])) == Feed(Engine.EMPTY, Tr.EmitAll(Tr.EMPTY, es))
  {
    var pre, post := es[..k], es[k..];
    assert es == pre + post;
    hide SoundRun, NeverCrosses, Rising, FitsAlong, TableRun, Tr.IsSnapshot, Feed, Tr.EmitAll, Tr.Run, HoldsTable,
      Fits, HoldsAlong, Quotable, LevelsRise, Verdict.WithinCapacity;
    RisingHistory(pre);
    EmptyIsHeld();
    HoldsIffFits(Engine.EMPTY, Tr.EMPTY, pre);
    HoldsAtEnd(Engine.EMPTY, Tr.EMPTY, pre);
    FitsAtEnd(map[], pre);
    SnapshotIsIff(Running(pre).0, ms, s.orders);
    AnySuffix(pre, ms, s, post);
    SameResults(pre, ms, s, post);
  }

  lemma SameResults(pre: seq<Event>, ms: seq<Msg>, s: Tr.State, post: seq<Event>)
    requires SameAfter(pre, ms, s, post) && Running(pre).1 == [] && Feed(Engine.EMPTY, ms).1 == []
    ensures Feed(Engine.EMPTY, ms + Tr.EmitAll(s, post)) == Running(pre + post)
  {
    hide Feed, Tr.EmitAll;
    var rs, qs := Feed(Engine.EMPTY, ms + Tr.EmitAll(s, post)).1, Running(pre + post).1;
    assert [] + rs == rs && [] + qs == qs;
  }

  // ---- A history that outgrew the engine ----

  /** n bids at one price. */
  function Adds(n: nat): seq<Event>
    requires n < 0x1_0000_0000
  {
    R.Events(Early(n))
  }

  lemma AddsNext(n: nat)
    requires 0 < n < 0x1_0000_0000
    ensures Adds(n) == Adds(n - 1) + [Add(n, 'B', 100, 1)]
  {
    EarlyTable(n);
    EarlyTable(n - 1);
    assert Early(n)[..n - 1] == Early(n - 1);
  }

  lemma OnePrice(t: Table, n: nat)
    requires FirstRefs(t, n)
    ensures !Crossed(t) && Prices(t, false) == {} && Prices(t, true) <= {100}
  {
  }

  lemma OnePriceFits(t: Table, n: nat)
    requires FirstRefs(t, n) && n <= MAX_ORDERS
    ensures Fits(t)
  {
    OnePrice(t, n);
    SubsetSize(Prices(t, true), {100});
  }

  lemma RunningNext(pre: seq<Event>, e: Event)
    ensures var s := Tr.Run(Tr.EMPTY, pre);
            Running(pre + [e]).0 == Feed(Running(pre).0, Tr.Emit(s.orders, s.seqNum, e)).0
  {
    hide Feed, Tr.Emit, Tr.Step, Tr.EmitAll, Tr.Run;
    var s := Tr.Run(Tr.EMPTY, pre);
    R.TrSnoc(Tr.EMPTY, pre, e);
    FeedAppend(Engine.EMPTY, Tr.EmitAll(Tr.EMPTY, pre), Tr.Emit(s.orders, s.seqNum, e));
  }

  lemma AddsTables(n: nat)
    requires n < 0x1_0000_0000
    ensures FirstRefs(TableRun(map[], Adds(n)), n) && Tr.Run(Tr.EMPTY, Adds(n)).orders == TableRun(map[], Adds(n))
  {
    EarlyTable(n);
    Tr.RunTable(Tr.EMPTY, Adds(n));
  }

  lemma TableNext(es: seq<Event>, e: Event)
    ensures TableRun(map[], es + [e]) == TableStep(TableRun(map[], es), e)
  {
    TableRunAppend(map[], es, [e]);
    var t := TableRun(map[], es);
    assert [e][1..] == [] && TableRun(TableStep(t, e), []) == TableStep(t, e);
  }

  /** Up to its capacity the engine holds them all. */
  lemma {:induction false} AddsHeld(n: nat)
    requires n <= MAX_ORDERS
    ensures HoldsTable(Running(Adds(n)).0, TableRun(map[], Adds(n)))
  {
    hide HoldsTable, Running, TableRun, Tr.Run, Tr.Emit, Feed, FirstRefs, TableStep, Adds;
    if n == 0 {
      EmptyIsHeld();
      NothingSent();
    } else {
      AddsHeld(n - 1);
      AddsNext(n);
      var es, e := Adds(n - 1), Add(n, 'B', 100, 1);
      AddsTables(n - 1);
      AddsTables(n);
      TableNext(es, e);
      RunningNext(es, e);
      HeldNext(Running(es).0, TableRun(map[], es), TableRun(map[], Adds(n)), Tr.Run(Tr.EMPTY, es).seqNum, n, e);
    }
  }

  lemma HeldNext(b: Book, t: Table, t': Table, seqNum: nat, n: nat, e: Event)
    requires 0 < n <= MAX_ORDERS && e == Add(n, 'B', 100, 1) && t' == TableStep(t, e)
    requires FirstRefs(t, n - 1) && FirstRefs(t', n) && HoldsTable(b, t)
    ensures HoldsTable(Feed(b, Tr.Emit(t, seqNum, e)).0, t')
  {
    hide HoldsTable, Feed, Tr.Emit;
    OnePrice(t', n);
    OnePriceFits(t', n);
    hide Crossed, Fits;
    assert SoundEvent(t, e);
    EventHolds(b, t, seqNum, e);
  }

  lemma NothingSent()
    ensures Running(Adds(0)).0 == Engine.EMPTY && TableRun(map[], Adds(0)) == map[]
  {
  }

  /** The order beyond the capacity is refused. */
  lemma OneTooMany(b: Book, a: seq<Arrival>, t: Table, n: nat, seqNum: nat)
    requires n == MAX_ORDERS && FirstRefs(t, n) && Rep(b, a) && Matches(a, t) && Verdict.WithinCapacity(b)
    ensures var e := Add(n + 1, 'B', 100, 1);
            Rep(Feed(b, Tr.Emit(t, seqNum, e)).0, a)
  {
    hide Rep, Process;
    var e := Add(n + 1, 'B', 100, 1);
    var t' := t[n + 1 := Order('B', 100, 1)];
    assert FirstRefs(t', n + 1) by { assert t'.Keys == t.Keys + {n + 1}; }
    OnePrice(t', n + 1);
    MatchesWithin(a, t);
    Used(b, a, t);
    hide Matches, FirstRefs, Crossed;
    WithinGrows(a, t, n + 1, Order('B', 100, 1));
    var m := Tr.Emit(t, seqNum, e)[0];
    FeedOne(b, m);
    var a' := NewOnList(b, a, t', n + 1, seqNum + 1);
    Verdict.ProcessBound(b, m);
    SameUsed(b, a);
    SameUsed(Process(b, m).0, a');
  }

  lemma SameUsed(b: Book, a: seq<Arrival>)
    requires Rep(b, a)
    ensures b.used == |a|
  {
  }

  /** One more order than the engine has slots, and then one of them deleted: the table fits
      again, but the running engine still lacks the order it refused, and the snapshot has it. */
  lemma RefusedStaysLost(pre: seq<Event>, ms: seq<Msg>, s: Tr.State)
    requires pre == Adds(MAX_ORDERS + 1) + [Delete(1)]
    requires s.orders == TableRun(map[], pre) && Tr.IsSnapshot(ms, s.orders)
    ensures Fits(s.orders) && !HoldsTable(Running(pre).0, s.orders) && HoldsTable(Feed(Engine.EMPTY, ms).0, s.orders)
  {
    hide Feed, Tr.EmitAll, Tr.Run, Tr.IsSnapshot, HoldsTable, Rep, Matches;
    var n := MAX_ORDERS;
    var t, t' := TableRun(map[], Adds(n)), TableRun(map[], Adds(n + 1));
    AddsNext(n + 1);
    AddsTables(n);
    AddsTables(n + 1);
    AddsHeld(n);
    TableNext(Adds(n), Add(n + 1, 'B', 100, 1));
    TableNext(Adds(n + 1), Delete(1));
    RunningNext(Adds(n), Add(n + 1, 'B', 100, 1));
    RunningNext(Adds(n + 1), Delete(1));
    hide Adds, TableRun;
    LostAfter(pre, s, n, t, t');
    SnapshotHoldsIff(ms, s.orders);
  }

  lemma LostAfter(pre: seq<Event>, s: Tr.State, n: nat, t: Table, t': Table)
    requires n == MAX_ORDERS && FirstRefs(t, n) && FirstRefs(t', n + 1) && s.orders == t' - {1}
    requires HoldsTable(Running(Adds(n)).0, t)
    requires Tr.Run(Tr.EMPTY, Adds(n)).orders == t && Tr.Run(Tr.EMPTY, Adds(n + 1)).orders == t'
    requires Running(Adds(n + 1)).0 ==
             Feed(Running(Adds(n)).0, Tr.Emit(t, Tr.Run(Tr.EMPTY, Adds(n)).seqNum, Add(n + 1, 'B', 100, 1))).0
    requires Running(pre).0
             == Feed(Running(Adds(n + 1)).0, Tr.Emit(t', Tr.Run(Tr.EMPTY, Adds(n + 1)).seqNum, Delete(1))).0
    ensures Fits(s.orders) && Quotable(s.orders) && !HoldsTable(Running(pre).0, s.orders)
  {
    hide Feed, Tr.EmitAll, Tr.Run, Rep, Matches, Adds, Cancel;
    var b := Running(Adds(n)).0;
    EmptyIsHeld();
    Verdict.FeedBound(Engine.EMPTY, Tr.EmitAll(Tr.EMPTY, Adds(n)));
    var a: seq<Arrival> :| Rep(b, a) && Matches(a, t);
    OneTooMany(b, a, t, n, Tr.Run(Tr.EMPTY, Adds(n)).seqNum);
    var c := Running(Adds(n + 1)).0;
    DeletedIsGone(c, a, t, t', Tr.Run(Tr.EMPTY, Adds(n + 1)).seqNum, n);
    DeletedTable(s.orders, t', n);
    if HoldsTable(Running(pre).0, s.orders) {
      var d: seq<Arrival> :| Rep(Running(pre).0, d) && Matches(d, s.orders);
      Used(Running(pre).0, d, s.orders);
    }
  }

  lemma DeletedIsGone(b: Book, a: seq<Arrival>, t: Table, t': Table, seqNum: nat, n: nat)
    requires n == MAX_ORDERS && Rep(b, a) && Matches(a, t) && FirstRefs(t, n) && FirstRefs(t', n + 1)
    ensures Feed(b, Tr.Emit(t', seqNum, Delete(1))).0.used < n
  {
    hide Rep, Cancel;
    var m := Tr.Emit(t', seqNum, Delete(1))[0];
    FeedOne(b, m);
    assert 1 in t;
    var k :| 0 <= k < |a| && a[k].id == 1;
    CancelRep(b, a, k);
    Used(b, a, t);
    SameUsed(b, a);
    SameUsed(Cancel(b, 1), Without(a, k));
  }

  lemma DeletedTable(u: Table, t: Table, n: nat)
    requires n == MAX_ORDERS && FirstRefs(t, n + 1) && u == t - {1}
    ensures |u| == n && Fits(u) && Quotable(u)
  {
    OnePrice(t, n + 1);
    assert t.Keys == u.Keys + {1};
    SubsetSize(Prices(u, true), {100});
    assert Prices(u, false) == {};
    FewerNeverCross(t, u);
  }
}
