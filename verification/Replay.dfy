/** The replay driver (tools/replay_itch50.cpp) on the book messages of the target symbol:
    reference book and translator side by side, an engine start at a given time from a
    snapshot, crossed events, and capacity tracking. */
module Replay {
  import opened Itch
  import opened Engine
  import opened Replication
  import Ref = ReferenceBook
  import Tr = Translation

  /** A book message of the symbol that parses, or one that is too short. */
  datatype BookMsg = Good(ts: nat, ev: Event) | Bad(ts: nat)

  function Events(ms: seq<BookMsg>): seq<Event> {
    if ms == [] then []
    else Events(ms[..|ms| - 1]) + if ms[|ms| - 1].Good? then [ms[|ms| - 1].ev] else []
  }

  lemma EventsNext(ms: seq<BookMsg>, c: nat, i: nat)
    requires c <= i < |ms|
    ensures Events(ms[c..i + 1]) == Events(ms[c..i]) + if ms[i].Good? then [ms[i].ev] else []
  {
    assert ms[c..i + 1][..i - c] == ms[c..i];
  }

  lemma {:induction false} EventsConcat(ms: seq<BookMsg>, ns: seq<BookMsg>)
    ensures Events(ms + ns) == Events(ms) + Events(ns)
  {
    if ns == [] {
      assert ms + ns == ms;
    } else {
      var init := ns[..|ns| - 1];
      assert (ms + ns)[..|ms + ns| - 1] == ms + init;
      EventsConcat(ms, init);
    }
  }

  /** The engine starts before the first book message at or after the start time, whether or
      not that message parses; at the end if there is none. */
  ghost predicate StartsAt(ms: seq<BookMsg>, startNs: nat, cut: nat) {
    && cut <= |ms|
    && (startNs == 0 ==> cut == 0)
    && (forall j :: 0 <= j < cut ==> ms[j].ts < startNs)
    && (startNs != 0 && cut < |ms| ==> ms[cut].ts >= startNs)
  }

  // ---- Runs, one event further ----

  lemma {:induction false} RefSnoc(s: Ref.State, es: seq<Event>, e: Event)
    ensures Ref.Run(s, es + [e]) == Ref.Step(Ref.Run(s, es), e)
    decreases es
  {
    hide Ref.Step;
    if es == [] {
      assert [e][1..] == [];
      assert es + [e] == [e];
      assert Ref.Run(s, [e]) == Ref.Run(Ref.Step(s, e), []);
    } else {
      assert (es + [e])[1..] == es[1..] + [e];
      RefSnoc(Ref.Step(s, es[0]), es[1..], e);
    }
  }

  lemma {:induction false} TrSnoc(s: Tr.State, es: seq<Event>, e: Event)
    ensures Tr.Run(s, es + [e]) == Tr.Step(Tr.Run(s, es), e)
    ensures Tr.EmitAll(s, es + [e]) == Tr.EmitAll(s, es) + Tr.Emit(Tr.Run(s, es).orders, Tr.Run(s, es).seqNum, e)
    decreases es
  {
    hide Tr.Step, Tr.Emit;
    if es == [] {
      assert es + [e] == [e] && [e][1..] == [];
      assert Tr.Run(s, [e]) == Tr.Run(Tr.Step(s, e), []);
      assert Tr.EmitAll(s, [e]) == Tr.Emit(s.orders, s.seqNum, e) + Tr.EmitAll(Tr.Step(s, e), []);
      assert Tr.EmitAll(s, [e]) == Tr.Emit(s.orders, s.seqNum, e);
      assert [] + Tr.Emit(s.orders, s.seqNum, e) == Tr.Emit(s.orders, s.seqNum, e);
    } else {
      assert (es + [e])[1..] == es[1..] + [e];
      var s' := Tr.Step(s, es[0]);
      TrSnoc(s', es[1..], e);
      var x, y, z := Tr.Emit(s.orders, s.seqNum, es[0]), Tr.EmitAll(s', es[1..]),
          Tr.Emit(Tr.Run(s', es[1..]).orders, Tr.Run(s', es[1..]).seqNum, e);
      assert x + (y + z) == (x + y) + z;
    }
  }

  /** The translator's table stays within the capacity after every event. */
  ghost predicate RoomAll(capacity: nat, s: Tr.State, es: seq<Event>)
    decreases es
  {
    es == [] || (|Tr.Step(s, es[0]).orders| <= capacity && RoomAll(capacity, Tr.Step(s, es[0]), es[1..]))
  }

  lemma {:induction false} RoomSnoc(capacity: nat, s: Tr.State, es: seq<Event>, e: Event)
    ensures RoomAll(capacity, s, es + [e]) <==>
            RoomAll(capacity, s, es) && |Tr.Step(Tr.Run(s, es), e).orders| <= capacity
    decreases es
  {
    hide Tr.Step;
    if es == [] {
      assert es + [e] == [e] && [e][1..] == [];
      assert RoomAll(capacity, Tr.Step(s, e), []);
    } else {
      assert (es + [e])[1..] == es[1..] + [e];
      RoomSnoc(capacity, Tr.Step(s, es[0]), es[1..], e);
    }
  }

  lemma {:induction false} CrossSnoc(t: Table, es: seq<Event>, e: Event)
    ensures NeverCrosses(t, es + [e]) <==> NeverCrosses(t, es) && !Crossed(TableRun(t, es + [e]))
    decreases es
  {
    hide Crossed, TableStep;
    if es == [] {
      assert es + [e] == [e] && [e][1..] == [];
      assert NeverCrosses(TableStep(t, e), []) && TableRun(TableStep(t, e), []) == TableStep(t, e);
    } else {
      assert (es + [e])[1..] == es[1..] + [e];
      CrossSnoc(TableStep(t, es[0]), es[1..], e);
    }
  }

  ghost predicate NoZero(es: seq<Event>) {
    forall k :: 0 <= k < |es| ==> !ZeroShares(es[k])
  }

  /** The reference book after some events, when every new order has shares. */
  lemma RunExact(es: seq<Event>)
    requires NoZero(es)
    ensures Ref.Indexed(Ref.Run(Ref.EMPTY, es)) && Ref.Run(Ref.EMPTY, es).orders == TableRun(map[], es)
  {
    EmptyIndexed();
    Ref.RunIndexed(Ref.EMPTY, es);
  }

  // ---- Crossed events ----

  /** The numbers of events after which the table is crossed. */
  ghost function CrossedAfter(t: Table, es: seq<Event>): set<nat> {
    set k: nat | 0 < k <= |es| && Crossed(TableRun(t, es[..k]))
  }

  /** The numbers of events after which the reference book's levels cross. */
  ghost function LevelsCrossAfter(es: seq<Event>): set<nat> {
    set k: nat | 0 < k <= |es| && BookCrosses(es[..k])
  }

  ghost predicate BookCrosses(es: seq<Event>) {
    var s := Ref.Run(Ref.EMPTY, es);
    Ref.LevelsCross(s.bids, s.asks)
  }

  lemma LevelsCrossSnoc(es: seq<Event>, e: Event)
    ensures |LevelsCrossAfter(es + [e])| == |LevelsCrossAfter(es)| + if BookCrosses(es + [e]) then 1 else 0
  {
    hide BookCrosses;
    var fs := es + [e];
    assert fs[..|fs|] == fs;
    forall k: nat | k <= |es| ensures fs[..k] == es[..k] {
    }
    var n: nat := |fs|;
    assert LevelsCrossAfter(fs) == if BookCrosses(fs) then LevelsCrossAfter(es) + {n} else LevelsCrossAfter(es);
  }

  /** When every new order has shares the two say the same. */
  lemma CrossAfterSame(es: seq<Event>)
    requires NoZero(es)
    ensures LevelsCrossAfter(es) == CrossedAfter(map[], es)
  {
    forall k: nat | 0 < k <= |es| ensures BookCrosses(es[..k]) <==> Crossed(TableRun(map[], es[..k])) {
      RunExact(es[..k]);
      Ref.LevelsCrossIff(Ref.Run(Ref.EMPTY, es[..k]));
      hide *;
      BookCrossesIs(es[..k]);
    }
  }

  lemma BookCrossesIs(es: seq<Event>)
    ensures BookCrosses(es) <==> Ref.LevelsCross(Ref.Run(Ref.EMPTY, es).bids, Ref.Run(Ref.EMPTY, es).asks)
  {
  }

  /** A run never crosses exactly when there is no such number. */
  lemma {:induction false} NeverCrossesIff(t: Table, es: seq<Event>)
    ensures NeverCrosses(t, es) <==> CrossedAfter(t, es) == {}
    decreases es
  {
    hide Crossed, TableStep, TableRun;
    if es != [] {
      var n, init, last := |es|, es[..|es| - 1], es[|es| - 1];
      assert es == init + [last] && es[..n] == es;
      NeverCrossesIff(t, init);
      CrossSnoc(t, init, last);
      forall k: nat | k < n ensures es[..k] == init[..k] {
      }
      assert n in CrossedAfter(t, es) <==> Crossed(TableRun(t, es));
      assert forall k :: k in CrossedAfter(t, es) && k != n ==> k in CrossedAfter(t, init);
      assert forall k :: k in CrossedAfter(t, init) ==> k in CrossedAfter(t, es);
    }
  }

  lemma EmptyIndexed()
    ensures Ref.Indexed(Ref.EMPTY) && Positive(Ref.EMPTY.orders)
  {
    assert forall bid, p: u32 :: At(map[], bid, p) == {};
  }

  /** The two calls the driver makes for one event. */
  method Apply(ref: Ref.RefBook, tr: Tr.Translator, e: Event) returns (out: seq<Msg>)
    modifies ref, tr
    ensures ref.View() == Ref.Step(old(ref.View()), e)
    ensures tr.View() == Tr.Step(old(tr.View()), e)
    ensures out == Tr.Emit(old(tr.orders), old(tr.seqNum), e)
  {
    match e {
      case Add(r, side, price, shares) => ref.Add(r, side, price, shares);
      case Reduce(r, shares, exec) => ref.Reduce(r, shares, exec);
      case Delete(r) => ref.Remove(r);
      case Replace(orig, nref, shares, price) => ref.Replace(orig, nref, shares, price);
    }
    out := tr.On(e);
  }

  /** What has been sent: a snapshot of the table at the cut, then the translation of every
      later event. */
  ghost predicate SentSince(sent: seq<Msg>, now: Tr.State, pre: seq<Event>, mid: Tr.State, snap: seq<Msg>,
                            post: seq<Event>) {
    && mid.orders == Tr.Run(Tr.EMPTY, pre).orders
    && Tr.IsSnapshot(snap, mid.orders)
    && sent == snap + Tr.EmitAll(mid, post)
    && now == Tr.Run(mid, post)
  }

  lemma SentNext(sent: seq<Msg>, now: Tr.State, pre: seq<Event>, mid: Tr.State, snap: seq<Msg>, post: seq<Event>,
                 e: Event)
    requires SentSince(sent, now, pre, mid, snap, post)
    ensures SentSince(sent + Tr.Emit(now.orders, now.seqNum, e), Tr.Step(now, e), pre, mid, snap, post + [e])
  {
    hide Tr.IsSnapshot, Tr.Emit, Tr.Step;
    TrSnoc(mid, post, e);
    var a, b := Tr.EmitAll(mid, post), Tr.Emit(now.orders, now.seqNum, e);
    assert (snap + a) + b == snap + (a + b);
  }

  lemma SentStart(pre: seq<Event>, mid: Tr.State, snap: seq<Msg>)
    requires mid.orders == Tr.Run(Tr.EMPTY, pre).orders && Tr.IsSnapshot(snap, mid.orders)
    ensures SentSince(snap, mid, pre, mid, snap, [])
  {
    hide Tr.IsSnapshot;
    assert snap + [] == snap;
  }

  lemma NothingToSnapshot()
    ensures SentSince([], Tr.EMPTY, [], Tr.EMPTY, [], [])
  {
  }

  /** The driver's variables, and the cut, the table and the snapshot its engine started from. */
  datatype Progress = Progress(
    ref: Ref.State, tr: Tr.State, sent: seq<Msg>, started: bool, malformed: nat, crossed: nat, exceeded: nat,
    cut: nat, mid: Tr.State, snap: seq<Msg>)

  /** Where the engine starts, after the first i messages. */
  ghost predicate Located(msgs: seq<BookMsg>, startNs: nat, i: nat, d: Progress) {
    && i <= |msgs| && d.cut <= i
    && (startNs == 0 ==> d.started && d.cut == 0 && d.snap == [] && d.mid == Tr.EMPTY)
    && (forall j :: 0 <= j < (if d.started then d.cut else i) ==> msgs[j].ts < startNs)
    && (d.started && startNs != 0 ==> d.cut < i && msgs[d.cut].ts >= startNs)
  }

  /** What the engine was sent and whether the capacity was exceeded. */
  ghost predicate Tracked(msgs: seq<BookMsg>, capacity: nat, i: nat, d: Progress)
    requires d.cut <= i <= |msgs|
  {
    if d.started then
      && SentSince(d.sent, d.tr, Events(msgs[..d.cut]), d.mid, d.snap, Events(msgs[d.cut..i]))
      && (d.exceeded == 0 <==> RoomAll(capacity, d.mid, Events(msgs[d.cut..i])))
    else
      d.tr == Tr.Run(Tr.EMPTY, Events(msgs[..i])) && d.sent == [] && d.exceeded == 0
  }

  /** The table after the first j messages is larger than the capacity, and the last of them is
      one the driver measures: a message that parses, after the start. */
  ghost predicate OverAt(msgs: seq<BookMsg>, capacity: nat, cut: nat, mid: Tr.State, j: nat) {
    && cut < j <= |msgs| && msgs[j - 1].Good?
    && |Tr.Run(mid, Events(msgs[cut..j])).orders| > capacity
  }

  /** The number names the first such message among the first i, counting from one; zero says
      there is none. */
  ghost predicate FirstOver(msgs: seq<BookMsg>, capacity: nat, cut: nat, mid: Tr.State, i: nat, n: nat) {
    && (n != 0 ==> n <= i && OverAt(msgs, capacity, cut, mid, n))
    && forall j :: cut < j < (if n == 0 then i + 1 else n) ==> !OverAt(msgs, capacity, cut, mid, j)
  }

  ghost predicate Measured(msgs: seq<BookMsg>, capacity: nat, i: nat, d: Progress) {
    if d.started then FirstOver(msgs, capacity, d.cut, d.mid, i, d.exceeded) else d.exceeded == 0
  }

  lemma MeasuredNext(msgs: seq<BookMsg>, capacity: nat, i: nat, d: Progress, d': Progress)
    requires i < |msgs| && d.cut <= i && Measured(msgs, capacity, i, d)
    requires d'.started == d.started && d'.cut == d.cut && d'.mid == d.mid && Tracked(msgs, capacity, i + 1, d')
    requires d'.exceeded ==
      if msgs[i].Good? && d.started && d.exceeded == 0 && |d'.tr.orders| > capacity then i + 1 else d.exceeded
    ensures Measured(msgs, capacity, i + 1, d')
  {
    hide Tr.Run, Events, RoomAll;
  }

  ghost predicate Counted(msgs: seq<BookMsg>, i: nat, d: Progress)
    requires i <= |msgs|
  {
    && d.ref == Ref.Run(Ref.EMPTY, Events(msgs[..i]))
    && d.malformed == i - |Events(msgs[..i])|
    && d.crossed == |LevelsCrossAfter(Events(msgs[..i]))|
  }

  ghost predicate Driven(msgs: seq<BookMsg>, startNs: nat, capacity: nat, i: nat, d: Progress) {
    && Located(msgs, startNs, i, d) && Tracked(msgs, capacity, i, d)
    && Counted(msgs, i, d) && Measured(msgs, capacity, i, d)
  }

  lemma DriveStart(msgs: seq<BookMsg>, startNs: nat, capacity: nat, d: Progress)
    requires d == Progress(Ref.EMPTY, Tr.EMPTY, [], startNs == 0, 0, 0, 0, 0, Tr.EMPTY, [])
    ensures Driven(msgs, startNs, capacity, 0, d)
  {
    NothingToSnapshot();
  }

  lemma NoEventsYet(msgs: seq<BookMsg>, capacity: nat, i: nat, d: Progress, d': Progress)
    requires i <= |msgs| && d.cut <= i && Tracked(msgs, capacity, i, d) && !d.started
    requires Tr.IsSnapshot(d'.snap, d.tr.orders) && d'.sent == d'.snap && d'.mid.orders == d.tr.orders
    requires d'.tr == d'.mid && d'.started && d'.cut == i && d'.exceeded == 0
    ensures Tracked(msgs, capacity, i, d')
  {
    hide Tr.IsSnapshot, Tr.Run;
    assert msgs[i..i] == [];
    SentStart(Events(msgs[..i]), d'.mid, d'.snap);
  }

  lemma BadSkips(msgs: seq<BookMsg>, capacity: nat, i: nat, d: Progress)
    requires i < |msgs| && d.cut <= i && msgs[i].Bad? && Tracked(msgs, capacity, i, d) && Counted(msgs, i, d)
    ensures Tracked(msgs, capacity, i + 1, d)
    ensures Counted(msgs, i + 1, d.(malformed := d.malformed + 1))
  {
    hide SentSince, RoomAll, Ref.Run, Tr.Run, LevelsCrossAfter, Events;
    EventsNext(msgs, 0, i);
    EventsNext(msgs, d.cut, i);
    assert msgs[0..i] == msgs[..i] && msgs[0..i + 1] == msgs[..i + 1];
    var es := Events(msgs[..i]);
    assert es + [] == es;
    assert Events(msgs[d.cut..i]) + [] == Events(msgs[d.cut..i]);
  }

  lemma GoodTracked(msgs: seq<BookMsg>, capacity: nat, i: nat, d: Progress, d': Progress, e: Event)
    requires i < |msgs| && d.cut <= i && Tracked(msgs, capacity, i, d) && msgs[i].Good? && msgs[i].ev == e
    requires d'.tr == Tr.Step(d.tr, e) && d'.started == d.started && d'.cut == d.cut && d'.mid == d.mid
             && d'.snap == d.snap
    requires d'.sent == if d.started then d.sent + Tr.Emit(d.tr.orders, d.tr.seqNum, e) else []
    requires d'.exceeded == if d.started && d.exceeded == 0 && |d'.tr.orders| > capacity then i + 1 else d.exceeded
    ensures Tracked(msgs, capacity, i + 1, d')
  {
    hide Tr.Run, Tr.Step, Tr.Emit, Events, RoomAll, SentSince;
    EventsNext(msgs, 0, i);
    EventsNext(msgs, d.cut, i);
    assert msgs[0..i] == msgs[..i] && msgs[0..i + 1] == msgs[..i + 1];
    if d.started {
      SentNow(d.sent, d.tr, Events(msgs[..d.cut]), d.mid, d.snap, Events(msgs[d.cut..i]));
      SentNext(d.sent, d.tr, Events(msgs[..d.cut]), d.mid, d.snap, Events(msgs[d.cut..i]), e);
      RoomSnoc(capacity, d.mid, Events(msgs[d.cut..i]), e);
    } else {
      TrSnoc(Tr.EMPTY, Events(msgs[..i]), e);
    }
  }

  lemma GoodCounted(msgs: seq<BookMsg>, i: nat, d: Progress, d': Progress, e: Event, crossed: bool)
    requires i < |msgs| && Counted(msgs, i, d) && msgs[i].Good? && msgs[i].ev == e
    requires d'.ref == Ref.Step(d.ref, e) && d'.malformed == d.malformed
    requires crossed <==> Ref.LevelsCross(d'.ref.bids, d'.ref.asks)
    requires d'.crossed == d.crossed + if crossed then 1 else 0
    ensures Counted(msgs, i + 1, d')
  {
    hide Ref.Run, Ref.Step, Events, LevelsCrossAfter, Ref.LevelsCross;
    EventsNext(msgs, 0, i);
    assert msgs[0..i] == msgs[..i] && msgs[0..i + 1] == msgs[..i + 1];
    RefSnoc(Ref.EMPTY, Events(msgs[..i]), e);
    LevelsCrossSnoc(Events(msgs[..i]), e);
  }

  /** The message loop and the final snapshot. The counters say exactly what they are read
      as: how many events left the book crossed, and which was the first to outgrow the capacity. */
  method Drive(msgs: seq<BookMsg>, startNs: nat, capacity: nat)
    returns (ref: Ref.RefBook, tr: Tr.Translator, sent: seq<Msg>, malformed: nat, crossedEvents: nat,
        firstExceeded: nat,
             ghost cut: nat, ghost mid: Tr.State, ghost snap: seq<Msg>)
    ensures fresh(ref) && fresh(tr)
    ensures ref.View() == Ref.Run(Ref.EMPTY, Events(msgs))
    ensures StartsAt(msgs, startNs, cut)
    ensures SentSince(sent, tr.View(), Events(msgs[..cut]), mid, snap, Events(msgs[cut..]))
    ensures malformed == |msgs| - |Events(msgs)|
    ensures crossedEvents == |LevelsCrossAfter(Events(msgs))|
    ensures NoZero(Events(msgs)) ==> crossedEvents == |CrossedAfter(map[], Events(msgs))|
    ensures NoZero(Events(msgs)) ==> (crossedEvents == 0 <==> NeverCrosses(map[], Events(msgs)))
    ensures firstExceeded == 0 <==> RoomAll(capacity, mid, Events(msgs[cut..]))
    ensures FirstOver(msgs, capacity, cut, mid, |msgs|, firstExceeded)
    ensures startNs == 0 ==> snap == [] && mid == Tr.EMPTY
  {
    hide Tr.Step, Tr.Emit, Ref.Step, SentSince, RoomAll, Ref.Indexed, Events, NeverCrosses, NoZero, Ref.Run, Tr.Run,
      Tr.IsSnapshot, Crossed, LevelsCrossAfter, CrossedAfter, Ref.LevelsCross, OverAt;
    ref := new Ref.RefBook();
    tr := new Tr.Translator();
    sent, malformed, crossedEvents, firstExceeded := [], 0, 0, 0;
    cut, mid, snap := 0, Tr.EMPTY, [];
    var started := startNs == 0;
    ghost var d := Progress(Ref.EMPTY, Tr.EMPTY, [], started, 0, 0, 0, 0, Tr.EMPTY, []);
    DriveStart(msgs, startNs, capacity, d);
    for i := 0 to |msgs|
      invariant fresh(ref) && fresh(tr)
      invariant Driven(msgs, startNs, capacity, i, d)
      invariant d == Progress(ref.View(), tr.View(), sent, started, malformed, crossedEvents, firstExceeded, cut,
                mid, snap)
    {
      var m := msgs[i];
      if !started && m.ts >= startNs {
        sent := tr.Snapshot();
        cut, mid, snap, started := i, tr.View(), sent, true;
        ghost var d' := Progress(ref.View(), tr.View(), sent, started, malformed, crossedEvents, firstExceeded, cut,
            mid, snap);
        NoEventsYet(msgs, capacity, i, d, d');
        d := d';
      }
      if m.Bad? {
        malformed := malformed + 1;
        BadSkips(msgs, capacity, i, d);
        MeasuredNext(msgs, capacity, i, d, d.(malformed := malformed));
        d := d.(malformed := malformed);
        continue;
      }
      var out := Apply(ref, tr, m.ev);
      var crossed := ref.IsCrossed();
      if crossed {
        crossedEvents := crossedEvents + 1;
      }
      if started && firstExceeded == 0 && |tr.orders| > capacity {
        firstExceeded := i + 1;
      }
      if started {
        sent := sent + out;
      }
      ghost var d' := Progress(ref.View(), tr.View(), sent, started, malformed, crossedEvents, firstExceeded, cut,
          mid, snap);
      GoodTracked(msgs, capacity, i, d, d', m.ev);
      GoodCounted(msgs, i, d, d', m.ev, crossed);
      MeasuredNext(msgs, capacity, i, d, d');
      d := d';
    }
    assert msgs[..|msgs|] == msgs;
    if !started {
      sent := tr.Snapshot();
      cut, mid, snap := |msgs|, tr.View(), sent;
      ghost var d' := Progress(ref.View(), tr.View(), sent, true, malformed, crossedEvents, firstExceeded, cut, mid,
          snap);
      NoEventsYet(msgs, capacity, |msgs|, d, d');
    }
    assert msgs[cut..|msgs|] == msgs[cut..];
    if NoZero(Events(msgs)) {
      CrossAfterSame(Events(msgs));
      NeverCrossesIff(map[], Events(msgs));
    }
  }

  lemma SentNow(sent: seq<Msg>, now: Tr.State, pre: seq<Event>, mid: Tr.State, snap: seq<Msg>, post: seq<Event>)
    requires SentSince(sent, now, pre, mid, snap, post)
    ensures now == Tr.Run(mid, post)
  {
  }
}
