/** Runs of the quote loop against the matching engine (tools/run_market_maker_demo.cpp) that
    show what it does not guarantee: one wait can return before the reports are drained, and as
    the engine reports the aggressor's leaves, the real position can leave the limit. */
module QuoteRuns {
  import opened Itch
  import opened Engine
  import opened PriceTime
  import opened QuoteLoop
  import opened Attribution
  import opened RealLoop
  import Replication

  /** No report finds its queue full. */
  ghost predicate NoDrops(acts: seq<Action>) {
    forall k :: 0 <= k < |acts| ==> acts[k] != Push(true)
  }

  ghost predicate Path(c: Config, w: World, t: World) {
    exists acts :: NoDrops(acts) && RealRuns(c, w, acts) && RealRun(c, w, acts) == t
  }

  lemma {:induction false} RunConcat(c: Config, w: World, xs: seq<Action>, ys: seq<Action>)
    requires RealRuns(c, w, xs) && RealRuns(c, RealRun(c, w, xs), ys)
    ensures RealRuns(c, w, xs + ys) && RealRun(c, w, xs + ys) == RealRun(c, RealRun(c, w, xs), ys)
    decreases xs
  {
    hide RealEnabled, RealNext;
    if xs == [] {
      assert xs + ys == ys;
    } else {
      assert (xs + ys)[0] == xs[0] && (xs + ys)[1..] == xs[1..] + ys;
      RunConcat(c, RealNext(c, w, xs[0]), xs[1..], ys);
    }
  }

  lemma Stay(c: Config, w: World)
    ensures Path(c, w, w)
  {
    assert NoDrops([]) && RealRuns(c, w, []) && RealRun(c, w, []) == w;
  }

  lemma Trans(c: Config, w: World, t: World, u: World)
    requires Path(c, w, t) && Path(c, t, u)
    ensures Path(c, w, u)
  {
    hide RealRuns, RealRun;
    var xs :| NoDrops(xs) && RealRuns(c, w, xs) && RealRun(c, w, xs) == t;
    var ys :| NoDrops(ys) && RealRuns(c, t, ys) && RealRun(c, t, ys) == u;
    RunConcat(c, w, xs, ys);
    assert NoDrops(xs + ys);
  }

  lemma Then(c: Config, w: World, t: World, act: Action)
    requires Path(c, w, t) && RealEnabled(t, act) && act != Push(true)
    ensures Path(c, w, RealNext(c, t, act))
  {
    hide RealEnabled, RealNext;
    assert [act][0] == act && [act][1..] == [];
    assert RealRuns(c, RealNext(c, t, act), []);
    assert NoDrops([act]) && RealRuns(c, t, [act]) && RealRun(c, t, [act]) == RealRun(c, RealNext(c, t, act), []);
    Trans(c, w, t, RealNext(c, t, act));
  }

  /** A step of the loop itself. */
  lemma ThenLoop(c: Config, w: World, t: World, act: Action, s: State)
    requires Path(c, w, t) && act != Push(true) && !act.Noise? && !act.Pop? && Enabled(t.s, act)
             && s == Next(c, t.s, act)
    ensures Path(c, w, t.(s := s))
  {
    hide Path, Next, Enabled;
    Then(c, w, t, act);
  }

  // ---- One message on a short list ----

  lemma {:induction false} PricesAtMost(a: seq<Arrival>, qs: set<int>)
    requires qs == set k | 0 <= k < |a| :: a[k].price
    ensures |qs| <= |a|
    decreases |a|
  {
    if a == [] {
      assert qs == {};
    } else {
      var init, y := Snoc(a);
      var rest := set k | 0 <= k < |init| :: init[k].price;
      PricesAtMost(init, rest);
      assert qs <= rest + {y.price} by {
        forall q | q in qs ensures q in rest + {y.price} {
          var k :| 0 <= k < |a| && a[k].price == q;
          if k < |init| {
            assert init[k].price == q;
          }
        }
      }
      SubsetSize(qs, rest + {y.price});
    }
  }

  /** A side has no more levels than there are orders. */
  lemma LevelsAtMost(b: Book, a: seq<Arrival>, buy: bool)
    requires Rep(b, a)
    ensures |Side(b, buy)| <= |a|
  {
    var ls := Side(b, buy);
    RepSide(b, a, buy);
    var qs := set k | 0 <= k < |a| :: a[k].price;
    forall i | 0 <= i < |ls| ensures ls[i].price in qs {
      assert HasPrice(ls, ls[i].price);
      assert Queues(a, buy)(ls[i].price) != [];
      var k := Oldest(a, buy, ls[i].price);
    }
    Replication.LevelPricesSize(ls, buy);
    SubsetSize(Replication.LevelPrices(ls), qs);
    PricesAtMost(a, qs);
  }

  lemma RoomOnShort(b: Book, a: seq<Arrival>, buy: bool, price: int)
    requires Rep(b, a) && |a| < MAX_LEVELS
    ensures HasRoom(b, buy, price)
  {
    LevelsAtMost(b, a, buy);
  }

  lemma NotRefused(b: Book, a: seq<Arrival>, m: Msg)
    requires Rep(b, a) && (m.kind == NewOrder ==> |Trade(a, m.id, m.price, m.qty, m.buy).0| < MAX_LEVELS)
    ensures After(b, a, m) == ListStep(a, m).0
  {
    hide Match, Trade, Rep, HasRoom, ListStep;
    if m.kind == NewOrder {
      MatchRep(b, a, m.id, m.price, m.qty, m.buy);
      var b' := Match(b, m.id, m.price, m.qty, m.buy).0;
      RoomOnShort(b', Trade(a, m.id, m.price, m.qty, m.buy).0, m.buy, m.price);
    }
  }

  /** An order that reaches nothing rests at the end. */
  lemma RestsLast(a: seq<Arrival>, m: Msg)
    requires m.kind == NewOrder && m.qty > 0
    requires forall k :: 0 <= k < |a| && a[k].buy != m.buy ==> !Crosses(m.buy, m.price, a[k].price)
    ensures ListStep(a, m) == (a + [Arrival(m.id, m.buy, m.price, m.qty)], [])
    ensures Trade(a, m.id, m.price, m.qty, m.buy).0 == a
  {
    assert !exists k: nat :: Reaches(a, m.buy, m.price, k);
  }

  /** An order that reaches a larger one takes its size from it; an equal one leaves. */
  lemma HitsOne(a: seq<Arrival>, m: Msg, k: nat)
    requires m.kind == NewOrder && Reaches(a, m.buy, m.price, k) && 0 < m.qty <= a[k].qty
    ensures ListStep(a, m) ==
            (if m.qty < a[k].qty then With(a, k, a[k].qty - m.qty) else Without(a, k),
             [Report(m.id, a[k].id, a[k].price, m.qty, 0, m.buy)])
    ensures Trade(a, m.id, m.price, m.qty, m.buy).0 == ListStep(a, m).0
  {
    TradeStep(a, m.id, m.price, m.qty, m.buy, k);
    if m.qty == a[k].qty {
      assert Trade(Without(a, k), m.id, m.price, 0, m.buy) == (Without(a, k), 0, []);
      assert [Report(m.id, a[k].id, a[k].price, m.qty, 0, m.buy)]
          + [] == [Report(m.id, a[k].id, a[k].price, m.qty, 0, m.buy)];
    }
  }

  lemma CancelsOne(a: seq<Arrival>, m: Msg, k: nat)
    requires m.kind == CancelOrder && Distinct(a) && k < |a| && a[k].id == m.id
    ensures ListStep(a, m) == (Without(a, k), [])
  {
    assert Holds(a, m.id, k);
    forall j: nat | Holds(a, m.id, j) ensures j == k {
      HoldsUnique(a, m.id, j, k);
    }
  }

  lemma CancelsNone(a: seq<Arrival>, m: Msg)
    requires m.kind == CancelOrder && !HasId(a, m.id)
    ensures ListStep(a, m) == (a, [])
  {
    forall k: nat ensures !Holds(a, m.id, k) {
    }
  }

  /** The engine takes one message that reports nothing. */
  lemma TakeIn(c: Config, w0: World, w: World, live': map<nat, nat>, a': seq<Arrival>) returns (t: World)
    requires Path(c, w0, w) && !w.s.busy && w.s.pending == [] && w.s.inbound != []
    requires var m := w.s.inbound[0];
             && Rep(w.b, w.a) && FreshId(w.a, m) && ListStep(w.a, m) == (a', []) && Mirrors(live', a')
             && (m.kind == NewOrder ==> |Trade(w.a, m.id, m.price, m.qty, m.buy).0| < MAX_LEVELS)
    ensures Path(c, w0, t) && Rep(t.b, a')
    ensures t == w.(b := t.b, a := a',
            s := w.s.(inbound := w.s.inbound[1..], live := live', processed := w.s.processed + 1))
  {
    hide Path, Rep, ListStep, Trade, Mirrors, HasId;
    var m := w.s.inbound[0];
    NotRefused(w.b, w.a, m);
    ProcessAny(w.b, w.a, m);
    hide After, Process;
    var t1 := RealNext(c, w, Pop(live', []));
    Then(c, w0, w, Pop(live', []));
    t := t1.(s := t1.s.(busy := false, processed := t1.s.processed + 1));
    ThenLoop(c, w0, t1, Done, t.s);
  }

  /** The engine takes one message that reports one execution, and pushes the report. */
  lemma Deliver(c: Config, w0: World, w: World, live': map<nat, nat>, a': seq<Arrival>, r: Report) returns (t: World)
    requires Path(c, w0, w) && !w.s.busy && w.s.pending == [] && w.s.inbound != []
    requires var m := w.s.inbound[0];
             && Rep(w.b, w.a) && FreshId(w.a, m) && ListStep(w.a, m) == (a', [r]) && Mirrors(live', a')
             && (m.kind == NewOrder ==> |Trade(w.a, m.id, m.price, m.qty, m.buy).0| < MAX_LEVELS)
    ensures Path(c, w0, t) && Rep(t.b, a')
    ensures t == w.(b := t.b, a := a',
                    s := w.s.(inbound := w.s.inbound[1..], live := live', processed := w.s.processed + 1,
                              reports := w.s.reports + [r], truth := w.s.truth + Worth(w.s.sides, r)))
  {
    hide Path, Rep, ListStep, Trade, Mirrors, HasId, Worth;
    var m := w.s.inbound[0];
    NotRefused(w.b, w.a, m);
    ProcessAny(w.b, w.a, m);
    hide After, Process;
    var t1 := RealNext(c, w, Pop(live', [r]));
    Then(c, w0, w, Pop(live', [r]));
    var t2 := t1.(s := PushStep(t1.s, false));
    ThenLoop(c, w0, t1, Push(false), t2.s);
    assert [r][1..] == [];
    t := t2.(s := t2.s.(busy := false, processed := t2.s.processed + 1));
    ThenLoop(c, w0, t2, Done, t.s);
  }

  // ---- A round of the loop ----

  /** Nothing queued, everything counted, an empty book. */
  ghost predicate Idle(w: World) {
    var s := w.s;
    && s.inbound == [] && !s.busy && s.pending == [] && s.reports == []
    && s.processed == s.submitted && s.live == map[] && s.nextId >= FIRST && !s.tally.exhausted
    && (forall x :: x in s.open ==> FIRST <= x < s.nextId)
    && w.a == [] && Rep(w.b, [])
  }

  function Bid(c: Config, n: nat, r: int, qty: nat): Arrival {
    Arrival(n, true, r - c.halfSpread, qty)
  }

  function Ask(c: Config, n: nat, r: int, qty: nat): Arrival {
    Arrival(n + 1, false, r + c.halfSpread, qty)
  }

  function Quoted(c: Config, n: nat, r: int): seq<Msg> {
    [Msg(NewOrder, 0, n, r - c.halfSpread, c.qty, true), Msg(NewOrder, 0, n + 1, r + c.halfSpread, c.qty, false)]
  }

  /** Both quotes rest and the loop feeds again. */
  function Posted(c: Config, s: State, r: int): State {
    var n := s.nextId;
    s.(pc := Feeding, reservation := r, bid := n, ask := n + 1, nextId := n + 2,
        open := s.open[n := true][n + 1 := false],
       sides := s.sides[n := true][n + 1 := false], wantBid := true, wantAsk := true,
       submitted := s.submitted + 2, processed := s.processed + 2, live := map[n := c.qty, n + 1 := c.qty],
       tally := Tally(c.batch, s.tally.exhausted, s.tally.decided + [r]))
  }

  function Sent(c: Config, s: State, r: int): State {
    Posted(c, s, r).(pc := Draining(AfterPost), inbound := Quoted(c, s.nextId, r), processed := s.processed,
        live := s.live,
                     tally := s.tally.(decided := s.tally.decided + [r]))
  }

  lemma Quote(c: Config, w: World, r: int)
    requires Idle(w) && w.s.pc == Quoting && w.s.position + c.qty <= c.limit
             && w.s.position - c.qty >= -(c.limit as int)
    ensures Path(c, w, w.(s := Sent(c, w.s, r)))
  {
    hide Path, Rep;
    var s := w.s;
    Stay(c, w);
    var s1 := DecideStep(c, s, r);
    ThenLoop(c, w, w, Decide(r), s1);
    var s2 := SendStep(c, s1);
    ThenLoop(c, w, w.(s := s1), Send, s2);
    var s3 := RegisterStep(s2);
    ThenLoop(c, w, w.(s := s2), Register, s3);
    var s4 := SendStep(c, s3);
    ThenLoop(c, w, w.(s := s3), Send, s4);
    var s5 := RegisterStep(s4);
    ThenLoop(c, w, w.(s := s4), Register, s5);
    assert s4.inbound == Quoted(c, s.nextId, r);
    assert s5 == Sent(c, s, r);
  }

  lemma SizeOne(x: Arrival, id: nat)
    ensures Size([x], id) == if x.id == id then x.qty else 0
  {
    assert [x][..0] == [];
  }

  lemma SizeTwo(x: Arrival, y: Arrival, id: nat)
    ensures Size([x, y], id) == (if x.id == id then x.qty else 0) + (if y.id == id then y.qty else 0)
  {
    assert [x, y][..1] == [x];
    SizeOne(x, id);
  }

  lemma MirrorsOne(live: map<nat, nat>, x: Arrival)
    requires live == map[x.id := x.qty]
    ensures Mirrors(live, [x])
  {
    hide Size;
    forall id | Own(id) ensures Get(live, id) == Size([x], id) {
      SizeOne(x, id);
    }
  }

  lemma MirrorsTwo(live: map<nat, nat>, x: Arrival, y: Arrival)
    requires x.id != y.id && live == map[x.id := x.qty, y.id := y.qty]
    ensures Mirrors(live, [x, y])
  {
    hide Size;
    forall id | Own(id) ensures Get(live, id) == Size([x, y], id) {
      SizeTwo(x, y, id);
    }
  }

  lemma MirrorsNone(live: map<nat, nat>)
    requires live == map[]
    ensures Mirrors(live, [])
  {
  }

  lemma NotIn(a: seq<Arrival>, id: nat)
    requires forall k :: 0 <= k < |a| ==> a[k].id != id
    ensures !HasId(a, id)
  {
  }

  /** The engine takes both quotes; they are a spread apart, so both rest. */
  lemma Settle(c: Config, w0: World, w: World, s: State, r: int) returns (t: World)
    requires c.halfSpread > 0 && c.qty > 0 && Path(c, w0, w) && w.s == Sent(c, s, r) && Idle(w.(s := s))
    ensures Path(c, w0, t) && t == w.(b := t.b, a := t.a, s := Posted(c, s, r))
    ensures t.a == [Bid(c, s.nextId, r, c.qty), Ask(c, s.nextId, r, c.qty)] && Rep(t.b, t.a)
  {
    hide Path, Rep, Mirrors, ListStep, Trade;
    var n, bid, ask := s.nextId, Bid(c, s.nextId, r, c.qty), Ask(c, s.nextId, r, c.qty);
    var ms := Quoted(c, n, r);
    NotIn([], n);
    RestsLast([], ms[0]);
    assert [] + [bid] == [bid];
    var l1: map<nat, nat> := map[n := c.qty];
    MirrorsOne(l1, bid);
    var t1 := TakeIn(c, w0, w, l1, [bid]);
    assert t1.s.inbound == [ms[1]];
    NotIn([bid], n + 1);
    RestsLast([bid], ms[1]);
    assert [bid] + [ask] == [bid, ask];
    var l2: map<nat, nat> := map[n := c.qty, n + 1 := c.qty];
    MirrorsTwo(l2, bid, ask);
    var t2 := TakeIn(c, w0, t1, l2, [bid, ask]);
    assert t2.s.inbound == [];
    t := SettleEnd(c, w0, t2, s, r);
  }

  lemma SettleEnd(c: Config, w0: World, w: World, s: State, r: int) returns (t: World)
    requires Path(c, w0, w) && s.reports == [] && s.inbound == [] && !s.busy && s.processed == s.submitted
    requires !s.tally.exhausted
    requires w.s == Posted(c, s, r).(pc := Draining(AfterPost), tally := s.tally.(decided := s.tally.decided + [r]))
    ensures Path(c, w0, t) && t == w.(s := Posted(c, s, r))
  {
    hide Path;
    var s1 := w.s.(pc := Checking(AfterPost));
    ThenLoop(c, w0, w, EndDrain, s1);
    var s2 := s1.(pc := Feeding, tally := s1.tally.(room := c.batch));
    ThenLoop(c, w0, w.(s := s1), Check(false), s2);
    t := w.(s := s2);
  }

  // ---- Strangers hit our quotes ----

  /** A stranger's order at our price. */
  function Against(i: nat, x: Arrival, qty: nat): Msg {
    Msg(NewOrder, 0, i, x.price, qty, !x.buy)
  }

  /** The aggressor is filled whole: its leaves are zero. */
  function Hit(i: nat, x: Arrival, qty: nat): Report {
    Report(i, x.id, x.price, qty, 0, !x.buy)
  }

  ghost predicate NewNoise(w: World, i: nat) {
    0 < i < FIRST && (w.rising ==> i > w.seen)
  }

  /** Our order at k is the only one on its side. */
  ghost predicate Alone(a: seq<Arrival>, k: nat) {
    k < |a| && |a| <= 2 && forall j :: 0 <= j < |a| && j != k ==> a[j].buy != a[k].buy
  }

  lemma AloneIsReached(a: seq<Arrival>, k: nat)
    requires Alone(a, k)
    ensures Reaches(a, !a[k].buy, a[k].price, k)
  {
  }

  /** The state after our order at k lost some shares to a stranger's order. */
  function Struck(s: State, x: Arrival, i: nat, qty: nat, live': map<nat, nat>): State {
    s.(live := live', processed := s.processed + 1, reports := s.reports + [Hit(i, x, qty)],
        truth := s.truth + Signed(x.buy, qty))
  }

  function ListAfter(a: seq<Arrival>, k: nat, qty: nat): seq<Arrival>
    requires k < |a| && qty <= a[k].qty
  {
    if qty < a[k].qty then With(a, k, a[k].qty - qty) else Without(a, k)
  }

  lemma HitOnList(a: seq<Arrival>, k: nat, i: nat, qty: nat)
    requires Alone(a, k) && 0 < qty <= a[k].qty
    ensures var m := Against(i, a[k], qty);
            && ListStep(a, m) == (ListAfter(a, k, qty), [Hit(i, a[k], qty)])
            && |Trade(a, m.id, m.price, m.qty, m.buy).0| <= 2
  {
    hide ListStep, Trade, Reaches;
    AloneIsReached(a, k);
    HitsOne(a, Against(i, a[k], qty), k);
  }

  /** A queued order against ours executes. */
  lemma Execute(c: Config, w0: World, w: World, k: nat, i: nat, qty: nat, live': map<nat, nat>) returns (t: World)
    requires Path(c, w0, w) && !w.s.busy && w.s.pending == [] && Rep(w.b, w.a) && Alone(w.a, k)
    requires 0 < i < FIRST && !HasId(w.a, i) && 0 < qty <= w.a[k].qty && w.s.inbound == [Against(i, w.a[k], qty)]
    requires Own(w.a[k].id) && w.a[k].id in w.s.sides && w.s.sides[w.a[k].id] == w.a[k].buy
    requires Mirrors(live', ListAfter(w.a, k, qty))
    ensures Path(c, w0, t) && Rep(t.b, t.a)
    ensures t == w.(b := t.b, a := ListAfter(w.a, k, qty), s := Struck(w.s, w.a[k], i, qty, live').(inbound := []))
  {
    hide Path, Rep, Mirrors, ListStep, Trade, Reaches, HasId, ListAfter;
    var x := w.a[k];
    HitOnList(w.a, k, i, qty);
    hide Alone;
    t := Deliver(c, w0, w, live', ListAfter(w.a, k, qty), Hit(i, x, qty));
    assert Worth(w.s.sides, Hit(i, x, qty)) == Signed(x.buy, qty);
    assert w.s.inbound[1..] == [];
  }

  /** One order is fed and executes. */
  lemma Fed(c: Config, w0: World, w: World, k: nat, i: nat, qty: nat, live': map<nat, nat>) returns (t: World)
    requires Path(c, w0, w) && w.s.pc == Feeding && w.s.inbound == [] && !w.s.busy && w.s.pending == []
    requires w.s.tally.room > 0
    requires Rep(w.b, w.a) && Alone(w.a, k) && NewNoise(w, i) && !HasId(w.a, i) && 0 < qty <= w.a[k].qty
    requires Own(w.a[k].id) && w.a[k].id in w.s.sides && w.s.sides[w.a[k].id] == w.a[k].buy
    requires Mirrors(live', ListAfter(w.a, k, qty))
    ensures Path(c, w0, t) && Rep(t.b, t.a)
    ensures t == w.(b := t.b, a := ListAfter(w.a, k, qty), seen := i,
                    s := Struck(w.s, w.a[k], i, qty, live').(
                      submitted := w.s.submitted + 1, tally := w.s.tally.(room := w.s.tally.room - 1)))
  {
    hide Path, Rep, Mirrors, HasId, ListAfter;
    var m := Against(i, w.a[k], qty);
    hide Alone;
    assert w.s.inbound + [m] == [m];
    var t1 := w.(s := w.s.(inbound := [m], submitted := w.s.submitted + 1,
                           tally := w.s.tally.(room := w.s.tally.room - 1)), seen := i);
    Then(c, w0, w, Noise(m));
    t := Execute(c, w0, t1, k, i, qty, live');
  }

  /** A batch is filled up with messages that change nothing: cancels of an unknown id. */
  lemma {:induction false} Pad(c: Config, w0: World, w: World, k: nat) returns (t: World)
    requires Path(c, w0, w) && w.s.pc == Feeding && w.s.inbound == [] && !w.s.busy && w.s.pending == []
    requires k <= w.s.tally.room && Rep(w.b, w.a) && !HasId(w.a, 0) && Mirrors(w.s.live, w.a)
    ensures Path(c, w0, t) && Rep(t.b, t.a)
    ensures t == w.(b := t.b, s := w.s.(submitted := w.s.submitted + k, processed := w.s.processed + k,
                                        tally := w.s.tally.(room := w.s.tally.room - k)))
    decreases k
  {
    hide Path, Rep, Mirrors, HasId, ListStep;
    if k == 0 {
      t := w;
    } else {
      var t1 := PadOne(c, w0, w);
      t := Pad(c, w0, t1, k - 1);
    }
  }

  lemma PadOne(c: Config, w0: World, w: World) returns (t: World)
    requires Path(c, w0, w) && w.s.pc == Feeding && w.s.inbound == [] && !w.s.busy && w.s.pending == []
    requires w.s.tally.room > 0 && Rep(w.b, w.a) && !HasId(w.a, 0) && Mirrors(w.s.live, w.a)
    ensures Path(c, w0, t) && Rep(t.b, t.a)
    ensures t == w.(b := t.b, s := w.s.(submitted := w.s.submitted + 1, processed := w.s.processed + 1,
                                        tally := w.s.tally.(room := w.s.tally.room - 1)))
  {
    hide Path, Rep, Mirrors, HasId, ListStep;
    var m := Undo(0);
    assert w.s.inbound + [m] == [m];
    Then(c, w0, w, Noise(m));
    var t1 := w.(s := w.s.(inbound := [m], submitted := w.s.submitted + 1,
                           tally := w.s.tally.(room := w.s.tally.room - 1)));
    CancelsNone(w.a, m);
    t := TakeIn(c, w0, t1, w.s.live, w.a);
    assert t.s.inbound == [];
  }

  // ---- The bid is hit in two parts, the ask once ----

  /** What the three hits leave: the bid gone, the ask one share smaller. */
  function Battered(c: Config, s: State, r: int, i: nat): State
    requires c.qty >= 2 && c.batch >= 3
  {
    var n := s.nextId;
    Posted(c, s, r).(
      live := map[n + 1 := c.qty - 1], processed := s.processed + 5, submitted := s.submitted + 5,
      reports := [Hit(i, Bid(c, n, r, c.qty), 1), Hit(i + 1, Bid(c, n, r, c.qty - 1), c.qty - 1),
          Hit(i + 2, Ask(c, n, r, c.qty), 1)],
      truth := s.truth + c.qty - 1, tally := Tally(c.batch - 3, s.tally.exhausted, s.tally.decided + [r]))
  }

  /** And the batch filled up. */
  function Filled(c: Config, s: State, r: int, i: nat): State
    requires c.qty >= 2 && c.batch >= 3
  {
    Battered(c, s, r, i).(processed := s.processed + 2 + c.batch, submitted := s.submitted + 2 + c.batch,
                          tally := Tally(0, s.tally.exhausted, s.tally.decided + [r]))
  }

  lemma BatterBid(c: Config, w0: World, w: World, n: nat, r: int, i: nat) returns (t: World)
    requires c.qty >= 2 && Path(c, w0, w) && n >= FIRST && n in w.s.sides && w.s.sides[n]
    requires w.s.pc == Feeding && w.s.inbound == [] && !w.s.busy && w.s.pending == [] && w.s.reports == []
    requires w.s.tally.room >= 2
    requires w.a == [Bid(c, n, r, c.qty), Ask(c, n, r, c.qty)] && Rep(w.b, w.a) && NewNoise(w, i) && i + 1 < FIRST
    ensures Path(c, w0, t) && Rep(t.b, t.a) && t.a == [Ask(c, n, r, c.qty)]
    ensures t == w.(b := t.b, a := t.a, seen := i + 1,
                    s := w.s.(live := map[n + 1 := c.qty], processed := w.s.processed + 2,
                        submitted := w.s.submitted + 2,
                              reports := [Hit(i, Bid(c, n, r, c.qty), 1),
                                  Hit(i + 1, Bid(c, n, r, c.qty - 1), c.qty - 1)],
                              truth := w.s.truth + c.qty, tally := w.s.tally.(room := w.s.tally.room - 2)))
  {
    hide Path, Rep, Mirrors;
    var q := c.qty;
    var bid, bid', ask := Bid(c, n, r, q), Bid(c, n, r, q - 1), Ask(c, n, r, q);
    NotIn([bid, ask], i);
    assert ListAfter([bid, ask], 0, 1) == [bid', ask];
    var l1: map<nat, nat> := map[n := q - 1, n + 1 := q];
    MirrorsTwo(l1, bid', ask);
    var t1 := Fed(c, w0, w, 0, i, 1, l1);
    NotIn([bid', ask], i + 1);
    assert ListAfter([bid', ask], 0, q - 1) == [ask];
    var l2: map<nat, nat> := map[n + 1 := q];
    MirrorsOne(l2, ask);
    t := Fed(c, w0, t1, 0, i + 1, q - 1, l2);
    assert t.s.reports == [Hit(i, bid, 1), Hit(i + 1, bid', q - 1)];
  }

  lemma Batter(c: Config, w0: World, w: World, s: State, r: int, i: nat) returns (t: World)
    requires c.qty >= 2 && c.batch >= 3 && Path(c, w0, w) && w.s == Posted(c, s, r) && s.nextId >= FIRST
    requires s.inbound == [] && !s.busy && s.pending == [] && s.reports == []
    requires w.a == [Bid(c, s.nextId, r, c.qty), Ask(c, s.nextId, r, c.qty)] && Rep(w.b, w.a)
    requires NewNoise(w, i) && i + 2 < FIRST
    ensures Path(c, w0, t) && Rep(t.b, t.a) && t == w.(b := t.b, a := t.a, seen := i + 2, s := Battered(c, s, r, i))
    ensures t.a == [Ask(c, s.nextId, r, c.qty - 1)]
  {
    hide Path, Rep, Mirrors;
    var n, q := s.nextId, c.qty;
    var ask, ask' := Ask(c, n, r, q), Ask(c, n, r, q - 1);
    var t2 := BatterBid(c, w0, w, n, r, i);
    NotIn([ask], i + 2);
    assert ListAfter([ask], 0, 1) == [ask'];
    var l3: map<nat, nat> := map[n + 1 := q - 1];
    MirrorsOne(l3, ask');
    t := Fed(c, w0, t2, 0, i + 2, 1, l3);
    assert t.s.reports == Battered(c, s, r, i).reports;
  }

  lemma FillUp(c: Config, w0: World, w: World, s: State, r: int, i: nat) returns (t: World)
    requires c.qty >= 2 && c.batch >= 3 && Path(c, w0, w) && w.s == Battered(c, s, r, i) && s.nextId >= FIRST
    requires s.inbound == [] && !s.busy && s.pending == []
    requires w.a == [Ask(c, s.nextId, r, c.qty - 1)] && Rep(w.b, w.a)
    ensures Path(c, w0, t) && Rep(t.b, t.a) && t == w.(b := t.b, s := Filled(c, s, r, i))
  {
    hide Path, Rep, Mirrors;
    MirrorsOne(w.s.live, Ask(c, s.nextId, r, c.qty - 1));
    NotIn(w.a, 0);
    t := Pad(c, w0, w, c.batch - 3);
  }

  // ---- The reports are drained ----

  ghost predicate OwnOnly(open: map<nat, bool>) {
    forall x :: x in open ==> Own(x)
  }

  lemma HearFirst(s: State, i: nat, x: Arrival, qty: nat)
    requires s.reports != [] && s.reports[0] == Hit(i, x, qty) && x.id in s.open && s.open[x.id] == x.buy && Own(x.id)
    requires OwnOnly(s.open) && i < FIRST
    ensures TakeStep(s) == s.(reports := s.reports[1..], position := s.position + Signed(x.buy, qty),
            open := s.open - {x.id})
  {
    assert i !in s.open;
  }

  lemma MissSecond(s: State, i: nat, x: Arrival, qty: nat)
    requires s.reports != [] && s.reports[0] == Hit(i, x, qty) && x.id !in s.open && x.id in s.sides
             && s.sides[x.id] == x.buy && Own(x.id)
    requires OwnOnly(s.open) && i < FIRST
    ensures TakeStep(s) == s.(reports := s.reports[1..], missed := s.missed + Signed(x.buy, qty))
  {
    assert i !in s.open;
  }

  /** The first report erases the bid, so the second is missed; the third is heard. */
  lemma HearThree(c: Config, w0: World, w: World, i: nat, x: Arrival, x': Arrival, y: Arrival, q: nat, base: map<nat,
                  bool>)
    requires Path(c, w0, w) && w.s.pc == Draining(AfterFeed) && i + 2 < FIRST
    requires Own(x.id) && x'.id == x.id && y.id == x.id + 1 && x.buy && x'.buy && !y.buy && x.id in w.s.sides
             && w.s.sides[x.id]
    requires OwnOnly(base) && x.id !in base && y.id !in base && w.s.open == base[x.id := true][y.id := false]
    requires w.s.reports == [Hit(i, x, 1), Hit(i + 1, x', q), Hit(i + 2, y, 1)]
    ensures Path(c, w0, w.(s := w.s.(reports := [], open := base, missed := w.s.missed + q)))
  {
    hide Path, TakeStep;
    var s := w.s;
    HearFirst(s, i, x, 1);
    var s1 := s.(reports := s.reports[1..], position := s.position + 1, open := s.open - {x.id});
    ThenLoop(c, w0, w, Take, s1);
    MissSecond(s1, i + 1, x', q);
    var s2 := s1.(reports := s1.reports[1..], missed := s.missed + q);
    ThenLoop(c, w0, w.(s := s1), Take, s2);
    HearFirst(s2, i + 2, y, 1);
    var s3 := s2.(reports := s2.reports[1..], position := s2.position - 1, open := s2.open - {y.id});
    ThenLoop(c, w0, w.(s := s2), Take, s3);
    assert s3.open == base && s3.reports == [];
  }

  function Drained(c: Config, s: State, r: int, i: nat): State
    requires c.qty >= 2 && c.batch >= 3
  {
    Filled(c, s, r, i).(pc := Cancelling(true), reports := [], open := s.open, missed := s.missed + c.qty - 1)
  }

  lemma Drain(c: Config, w0: World, w: World, s: State, r: int, i: nat) returns (t: World)
    requires c.qty >= 2 && c.batch >= 3 && Path(c, w0, w) && w.s == Filled(c, s, r, i) && i + 2 < FIRST
             && s.nextId >= FIRST
    requires s.inbound == [] && !s.busy && s.pending == [] && s.processed == s.submitted && !s.tally.exhausted
    requires forall x :: x in s.open ==> FIRST <= x < s.nextId
    ensures Path(c, w0, t) && t == w.(s := Drained(c, s, r, i))
  {
    hide Path;
    var n := s.nextId;
    var s1 := w.s.(pc := Draining(AfterFeed));
    ThenLoop(c, w0, w, EndFeed, s1);
    HearThree(c, w0, w.(s := s1), i, Bid(c, n, r, c.qty), Bid(c, n, r, c.qty - 1), Ask(c, n, r, c.qty), c.qty - 1,
        s.open);
    var s2 := s1.(reports := [], open := s.open, missed := s1.missed + c.qty - 1);
    var s3 := s2.(pc := Checking(AfterFeed));
    ThenLoop(c, w0, w.(s := s2), EndDrain, s3);
    var s4 := s3.(pc := Cancelling(true));
    ThenLoop(c, w0, w.(s := s3), Check(false), s4);
    t := w.(s := s4);
  }

  // ---- The rest of the quotes is cancelled ----

  function Undo(id: nat): Msg {
    Msg(CancelOrder, 0, id, 0, 0, false)
  }

  function Cleared(c: Config, s: State, r: int, i: nat): State
    requires c.qty >= 2 && c.batch >= 3
  {
    Drained(c, s, r, i).(pc := Quoting, live := map[], processed := s.processed + 4 + c.batch,
                         submitted := s.submitted + 4 + c.batch)
  }

  lemma Withdrawals(c: Config, w0: World, w: World, s: State, r: int, i: nat)
    requires c.qty >= 2 && c.batch >= 3 && Path(c, w0, w) && w.s == Drained(c, s, r, i) && s.inbound == []
             && s.nextId > 0
    ensures Path(c, w0, w.(s := w.s.(pc := Draining(AfterCancel), submitted := s.submitted + 4 + c.batch,
                                     inbound := [Undo(s.nextId), Undo(s.nextId + 1)])))
  {
    hide Path;
    var s1 := WithdrawStep(w.s);
    ThenLoop(c, w0, w, Withdraw, s1);
    var s2 := WithdrawStep(s1);
    ThenLoop(c, w0, w.(s := s1), Withdraw, s2);
    assert s2.inbound == [Undo(s.nextId), Undo(s.nextId + 1)];
  }

  lemma Clear(c: Config, w0: World, w: World, s: State, r: int, i: nat) returns (t: World)
    requires c.qty >= 2 && c.batch >= 3 && Path(c, w0, w) && w.s == Drained(c, s, r, i) && s.nextId >= FIRST
    requires s.inbound == [] && !s.busy && s.pending == [] && s.processed == s.submitted
    requires w.a == [Ask(c, s.nextId, r, c.qty - 1)] && Rep(w.b, w.a)
    ensures Path(c, w0, t) && Rep(t.b, []) && t == w.(b := t.b, a := [], s := Cleared(c, s, r, i))
  {
    hide Path, Mirrors, ListStep;
    var n, ask := s.nextId, Ask(c, s.nextId, r, c.qty - 1);
    Withdrawals(c, w0, w, s, r, i);
    var t0 := w.(s := w.s.(pc := Draining(AfterCancel), submitted := s.submitted + 4 + c.batch,
                           inbound := [Undo(n), Undo(n + 1)]));
    NotIn([ask], n);
    CancelsNone([ask], Undo(n));
    MirrorsOne(t0.s.live, ask);
    var t1 := TakeIn(c, w0, t0, t0.s.live, [ask]);
    assert t1.s.inbound == [Undo(n + 1)];
    CancelsOne([ask], Undo(n + 1), 0);
    assert Without([ask], 0) == [];
    MirrorsNone(map[]);
    var t2 := TakeIn(c, w0, t1, map[], []);
    assert t2.s.inbound == [];
    t := t2.(s := t2.s.(pc := Quoting));
    CaughtUpToQuote(c, w0, t2);
  }

  lemma CaughtUpToQuote(c: Config, w0: World, w: World)
    requires Path(c, w0, w) && w.s.pc == Draining(AfterCancel) && w.s.reports == [] && w.s.processed >= w.s.submitted
    ensures Path(c, w0, w.(s := w.s.(pc := Quoting)))
  {
    hide Path;
    var s := w.s.(pc := Checking(AfterCancel));
    ThenLoop(c, w0, w, EndDrain, s);
    ThenLoop(c, w0, w.(s := s), Check(false), s.(pc := Quoting));
  }

  /** One round: the tracked position is where it was, the real one has grown by all but one
      share of the quote. */
  lemma Round(c: Config, w0: World, w: World, r: int, i: nat) returns (t: World)
    requires Path(c, w0, w) && Idle(w) && w.s.pc == Quoting && c.qty >= 2 && c.batch >= 3 && c.halfSpread > 0
    requires w.s.position + c.qty <= c.limit && w.s.position - c.qty >= -(c.limit as int)
    requires NewNoise(w, i) && i + 2 < FIRST
    ensures Path(c, w0, t) && Idle(t) && t.s.pc == Quoting && t.seen == i + 2 && t.rising == w.rising
    ensures t.s.position == w.s.position && t.s.truth == w.s.truth + c.qty - 1
    ensures t.s.tally.decided == w.s.tally.decided + [r]
  {
    hide Path, Rep;
    var s := w.s;
    Quote(c, w, r);
    var t1 := w.(s := Sent(c, s, r));
    Trans(c, w0, w, t1);
    var t2 := Settle(c, w0, t1, s, r);
    var t3 := Batter(c, w0, t2, s, r, i);
    var t4 := FillUp(c, w0, t3, s, r, i);
    var t5 := Drain(c, w0, t4, s, r, i);
    t := Clear(c, w0, t5, s, r, i);
  }

  lemma ToFirstQuote(c: Config, w0: World, w: World)
    requires Path(c, w0, w) && w.s.pc == Feeding && w.s.inbound == [] && w.s.reports == []
             && w.s.processed >= w.s.submitted
    requires w.s.bid == 0 && w.s.ask == 0 && w.s.tally == Tally(0, false, w.s.tally.decided)
    ensures Path(c, w0, w.(s := w.s.(pc := Quoting)))
  {
    hide Path;
    var s := w.s;
    ThenLoop(c, w0, w, EndFeed, s.(pc := Draining(AfterFeed)));
    ThenLoop(c, w0, w.(s := s.(pc := Draining(AfterFeed))), EndDrain, s.(pc := Checking(AfterFeed)));
    ThenLoop(c, w0, w.(s := s.(pc := Checking(AfterFeed))), Check(false), s.(pc := Cancelling(true)));
    ThenLoop(c, w0, w.(s := s.(pc := Cancelling(true))), Withdraw, s.(pc := Cancelling(false)));
    ThenLoop(c, w0, w.(s := s.(pc := Cancelling(false))), Withdraw, s.(pc := Draining(AfterCancel)));
    CaughtUpToQuote(c, w0, w.(s := s.(pc := Draining(AfterCancel))));
  }

  /** The first batch is fed and the first quote is due. */
  lemma FirstQuote(c: Config, w: World) returns (t: World)
    requires RealInitial(c, w)
    ensures Path(c, w, t) && Idle(t) && t == w.(s := t.s, b := t.b)
    ensures t.s.pc == Quoting && t.s.position == 0 && t.s.truth == 0 && t.s.missed == 0 && t.s.tally.decided == []
  {
    hide Path;
    EmptyRep();
    hide Rep;
    Stay(c, w);
    MirrorsNone(w.s.live);
    var t1 := Pad(c, w, w, c.batch);
    ToFirstQuote(c, w, t1);
    t := t1.(s := t1.s.(pc := Quoting));
  }

  /** The reservation prices computed so far are the first of these. */
  ghost predicate Decides(s: State, reservations: nat -> int) {
    forall k :: 0 <= k < |s.tally.decided| ==> s.tally.decided[k] == reservations(k)
  }

  /** Against the real engine nothing bounds the real position: with quotes of at least two
      shares that fit the limit at all and batches of at least three messages, whatever the
      reservation prices computed, n rounds leave nothing tracked and n times all but one share
      bought. Noise ids that only increase last for a third of the ids below ours. */
  lemma {:induction false} Escapes(c: Config, w0: World, n: nat, reservations: nat -> int) returns (w: World)
    requires RealInitial(c, w0) && c.halfSpread > 0 && 2 <= c.qty <= c.limit && c.batch >= 3
    requires w0.rising ==> 3 * n < FIRST
    ensures Path(c, w0, w) && Idle(w) && w.s.pc == Quoting && w.s.position == 0 && w.s.truth == n * (c.qty - 1)
    ensures |w.s.tally.decided| == n && Decides(w.s, reservations)
    ensures w.rising == w0.rising && (w.rising ==> w.seen == 3 * n)
  {
    hide Path, Rep;
    if n == 0 {
      w := FirstQuote(c, w0);
    } else {
      var t := Escapes(c, w0, n - 1, reservations);
      w := Round(c, w0, t, reservations(n - 1), if w0.rising then t.seen + 1 else 1);
      assert n * (c.qty - 1) == (n - 1) * (c.qty - 1) + (c.qty - 1);
    }
  }

  /** One wait can return with a fill of ours not yet drained, whatever the reservation price:
      the position it leaves is stale, and only the drain after the cancels brings it up to
      date. */
  lemma FirstWaitCanBeStale(c: Config, w0: World, r: int) returns (w: World)
    requires RealInitial(c, w0) && c.halfSpread > 0 && 1 <= c.qty <= c.limit && c.batch >= 1
    ensures Path(c, w0, w) && w.s.pc == Cancelling(true) && w.s.missed == 0 && w.s.truth == w.s.position + 1
    ensures w.s.processed == w.s.submitted && w.s.reports != [] && w.s.reservation == r && w.s.tally.decided == [r]
  {
    hide Path, Rep, Mirrors;
    var q := FirstQuote(c, w0);
    var s := q.s;
    Quote(c, q, r);
    Trans(c, w0, q, q.(s := Sent(c, s, r)));
    var t := Settle(c, w0, q.(s := Sent(c, s, r)), s, r);
    w := StaleWait(c, w0, t, s, r);
  }

  lemma StaleLists(c: Config, n: nat, r: int, live': map<nat, nat>)
    requires c.qty >= 1
    requires live' == if c.qty > 1 then map[n := c.qty - 1, n + 1 := c.qty] else map[n + 1 := c.qty]
    ensures Mirrors(live', ListAfter([Bid(c, n, r, c.qty), Ask(c, n, r, c.qty)], 0, 1))
  {
    hide Mirrors;
    var bid, ask := Bid(c, n, r, c.qty), Ask(c, n, r, c.qty);
    if c.qty > 1 {
      assert ListAfter([bid, ask], 0, 1) == [Bid(c, n, r, c.qty - 1), ask];
      MirrorsTwo(live', Bid(c, n, r, c.qty - 1), ask);
    } else {
      assert ListAfter([bid, ask], 0, 1) == [ask];
      MirrorsOne(live', ask);
    }
  }

  /** The last message of a batch is fed, and the drain of the wait finds no report yet. */
  lemma FeedUnseen(c: Config, w0: World, w: World, m: Msg)
    requires Path(c, w0, w) && w.s.pc == Feeding && w.s.inbound == [] && w.s.reports == [] && NoiseOk(w, m)
    requires m.kind == NewOrder && w.s.tally.room == 1 && !w.s.tally.exhausted
    ensures Path(c, w0, w.(s := w.s.(pc := Checking(AfterFeed), inbound := [m], submitted := w.s.submitted + 1,
                                     tally := w.s.tally.(room := 0)), seen := m.id))
  {
    hide Path, HasId, QueuedId;
    assert w.s.inbound + [m] == [m];
    Then(c, w0, w, Noise(m));
    var t := w.(s := w.s.(inbound := [m], submitted := w.s.submitted + 1, tally := w.s.tally.(room := 0)),
        seen := m.id);
    ThenLoop(c, w0, t, EndFeed, t.s.(pc := Draining(AfterFeed)));
    ThenLoop(c, w0, t.(s := t.s.(pc := Draining(AfterFeed))), EndDrain, t.s.(pc := Checking(AfterFeed)));
  }

  lemma StaleWait(c: Config, w0: World, w: World, s: State, r: int) returns (t: World)
    requires c.qty >= 1 && c.batch >= 1 && Path(c, w0, w) && w.s == Posted(c, s, r) && s.nextId >= FIRST && w.seen == 0
    requires s.inbound == [] && !s.busy && s.pending == [] && s.reports == [] && s.processed == s.submitted
    requires w.a == [Bid(c, s.nextId, r, c.qty), Ask(c, s.nextId, r, c.qty)] && Rep(w.b, w.a) && !s.tally.exhausted
    ensures Path(c, w0, t) && t.s.pc == Cancelling(true) && t.s.missed == s.missed && t.s.position == s.position
    ensures t.s.truth == s.truth + 1 && t.s.processed == t.s.submitted && t.s.reports != []
    ensures t.s.reservation == r && t.s.tally.decided == s.tally.decided + [r]
  {
    hide Path, Rep, Mirrors, ListAfter;
    var n := s.nextId;
    MirrorsTwo(w.s.live, Bid(c, n, r, c.qty), Ask(c, n, r, c.qty));
    NotIn(w.a, 0);
    var t1 := Pad(c, w0, w, c.batch - 1);
    t := StaleHit(c, w0, t1, n, r);
  }

  lemma StaleHit(c: Config, w0: World, w: World, n: nat, r: int) returns (t: World)
    requires c.qty >= 1 && Path(c, w0, w) && n >= FIRST && w.seen == 0 && w.s.pc == Feeding && w.s.inbound == []
    requires !w.s.busy && w.s.pending == [] && w.s.reports == [] && w.s.processed == w.s.submitted
    requires w.s.tally.room == 1 && !w.s.tally.exhausted && n in w.s.sides && w.s.sides[n]
    requires w.a == [Bid(c, n, r, c.qty), Ask(c, n, r, c.qty)] && Rep(w.b, w.a)
    ensures Path(c, w0, t) && t.s.pc == Cancelling(true) && t.s.missed == w.s.missed && t.s.position == w.s.position
    ensures t.s.truth == w.s.truth + 1 && t.s.processed == t.s.submitted && t.s.reports != []
    ensures t.s.reservation == w.s.reservation && t.s.tally.decided == w.s.tally.decided
  {
    hide Path, Rep, Mirrors, ListAfter;
    var m := Against(1, Bid(c, n, r, c.qty), 1);
    NotIn(w.a, 1);
    FeedUnseen(c, w0, w, m);
    var t2 := w.(s := w.s.(pc := Checking(AfterFeed), inbound := [m], submitted := w.s.submitted + 1,
                           tally := w.s.tally.(room := 0)), seen := 1);
    var live': map<nat, nat> := if c.qty > 1 then map[n := c.qty - 1, n + 1 := c.qty] else map[n + 1 := c.qty];
    StaleLists(c, n, r, live');
    var t3 := Execute(c, w0, t2, 0, 1, 1, live');
    ThenLoop(c, w0, t3, Check(false), t3.s.(pc := Cancelling(true)));
    t := t3.(s := t3.s.(pc := Cancelling(true)));
  }

  // ---- Exactly when the real position is limited ----

  /** No order of ours holds more than one quote. */
  ghost predicate Small(c: Config, s: State) {
    forall x :: Own(x) ==> Held(s, x) <= c.qty
  }

  lemma HeldSubmit(s: State, m: Msg, x: nat)
    ensures Held(Submit(s, m), x) == Held(s, x) + Asked(m, x)
  {
    SendHeld(s, Submit(s, m), m, x);
  }

  lemma HeldStep(c: Config, s: State, a: Action, x: nat)
    requires Inv(c, s) && Enabled(s, a) && Own(x) && Held(s, x) <= c.qty
    ensures Held(Next(c, s, a), x) <= c.qty
  {
    var s' := Next(c, s, a);
    if !a.Noise? && !a.Withdraw? && !a.Send? && !a.Pop? && !a.Push? && !a.Take? {
      SameHeld(s, s');
    } else {
      HeldMove(c, s, a, x);
    }
  }

  lemma HeldMove(c: Config, s: State, a: Action, x: nat)
    requires Inv(c, s) && Enabled(s, a) && Own(x) && Held(s, x) <= c.qty
    requires a.Noise? || a.Withdraw? || a.Send? || a.Pop? || a.Push? || a.Take?
    ensures Held(Next(c, s, a), x) <= c.qty
  {
    hide FilledOf, QuoteLoop.Queued, Get, Core, Ids, Phase, Subject, Worth, Contract;
    match a
    case Noise(m) => HeldSubmit(s, m, x);
    case Withdraw => HeldWithdraw(s, x);
    case Send => HeldSend(c, s, x);
    case Pop(live', rs) => PopHeld(s, live', rs, PopStep(s, live', rs), x);
    case Push(full) => PushHeld(s, PushStep(s, full), s.pending[0], full, x);
    case Take =>
      TakeFields(s);
      TakeHeld(s, TakeStep(s), s.reports[0], x);
  }

  lemma HeldWithdraw(s: State, x: nat)
    requires s.pc.Cancelling?
    ensures Held(WithdrawStep(s), x) == Held(s, x)
  {
    var id := Current(s, s.pc.buy);
    if id != 0 {
      SendHeld(s, WithdrawStep(s), Msg(CancelOrder, 0, id, 0, 0, false), x);
    }
  }

  lemma HeldSend(c: Config, s: State, x: nat)
    requires Inv(c, s) && s.pc.Posting? && Held(s, x) <= c.qty
    ensures Held(SendStep(c, s), x) <= c.qty
  {
    hide Inv, FilledOf, QuoteLoop.Queued, Get;
    var s' := SendStep(c, s);
    if s'.pc.Registering? {
      SendUnheld(c, s);
      SendHeld(s, s', QuoteMsg(c, s, s.pc.buy), x);
    }
  }

  /** One report uses up a one-share quote: its leaves cannot mislead. */
  lemma SmallFaithful(c: Config, s: State, live': map<nat, nat>, rs: seq<Report>)
    requires c.qty <= 1 && Small(c, s) && s.inbound != [] && Contract(s.live, s.inbound[0], live', rs)
    ensures LeavesAreOurs(live', rs)
  {
    forall k | 0 <= k < |rs| && Own(Subject(rs[k])) && rs[k].leaves == 0
      ensures Get(live', Subject(rs[k])) == 0 && FilledOf(rs[k + 1..], Subject(rs[k])) == 0
    {
      OneReport(c, s, live', rs, k);
    }
  }

  lemma OneReport(c: Config, s: State, live': map<nat, nat>, rs: seq<Report>, k: nat)
    requires c.qty <= 1 && Small(c, s) && s.inbound != [] && Contract(s.live, s.inbound[0], live', rs)
    requires k < |rs| && Own(Subject(rs[k]))
    ensures Get(live', Subject(rs[k])) == 0 && FilledOf(rs[k + 1..], Subject(rs[k])) == 0
  {
    hide FilledOf, Subject, Get;
    var x := Subject(rs[k]);
    assert Held(s, x) <= 1;
    assert rs == rs[..k + 1] + rs[k + 1..];
    FilledConcat(rs[..k + 1], rs[k + 1..], x);
    SomeFilled(rs[..k + 1], k);
    QueuedAt(s.inbound, 0, x);
  }

  lemma {:induction false} SmallRun(c: Config, s: State, acts: seq<Action>)
    requires c.qty <= 1 && Inv(c, s) && Sound(s) && Small(c, s) && Runs(c, s, acts) && NoDrops(acts)
    ensures Sound(Run(c, s, acts))
    decreases acts
  {
    hide Inv, Sound, Next, Held, Contract, LeavesAreOurs;
    if acts != [] {
      var a := acts[0];
      Keep(c, s, a);
      if a.Pop? {
        SmallFaithful(c, s, a.live, a.rs);
      }
      SoundStep(c, s, a);
      forall x | Own(x) ensures Held(Next(c, s, a), x) <= c.qty {
        HeldStep(c, s, a, x);
      }
      SmallRun(c, Next(c, s, a), acts[1..]);
    }
  }

  /** A quote larger than the limit is never posted. */
  ghost predicate Silent(s: State) {
    && s.sides == map[] && s.open == map[] && s.position == 0 && s.truth == 0
    && !s.pc.Registering? && (s.pc.Posting? ==> !s.wantBid && !s.wantAsk)
  }

  lemma SilentStep(c: Config, s: State, a: Action)
    requires c.qty > c.limit && Silent(s) && Enabled(s, a)
    ensures Silent(Next(c, s, a))
  {
    hide Contract, FilledOf;
  }

  lemma {:induction false} SilentRun(c: Config, s: State, acts: seq<Action>)
    requires c.qty > c.limit && Silent(s) && Runs(c, s, acts)
    ensures Silent(Run(c, s, acts))
    decreases acts
  {
    hide Silent, Enabled, Next;
    if acts != [] {
      SilentStep(c, s, acts[0]);
      SilentRun(c, Next(c, s, acts[0]), acts[1..]);
    }
  }

  ghost predicate RealWithin(c: Config, s: State) {
    -(c.limit as int) <= s.truth <= c.limit
  }

  lemma SmallIsLimited(c: Config, s0: State, acts: seq<Action>)
    requires Initial(c, s0) && NoDrops(acts) && Runs(c, s0, acts) && c.qty <= 1
    ensures RealWithin(c, Run(c, s0, acts))
  {
    InitInv(c, s0);
    InitSound(c, s0);
    assert Small(c, s0);
    SmallRun(c, s0, acts);
    RunInv(c, s0, acts);
    WithinLimit(c, Run(c, s0, acts));
  }

  lemma SilentIsLimited(c: Config, s0: State, acts: seq<Action>)
    requires Initial(c, s0) && Runs(c, s0, acts) && c.qty > c.limit
    ensures RealWithin(c, Run(c, s0, acts))
  {
    SilentRun(c, s0, acts);
  }

  lemma SafeIsLimited(c: Config, w0: World, w: World)
    requires RealInitial(c, w0) && c.halfSpread > 0 && Path(c, w0, w) && (c.qty <= 1 || c.qty > c.limit)
    ensures RealWithin(c, w.s)
  {
    var acts :| NoDrops(acts) && RealRuns(c, w0, acts) && RealRun(c, w0, acts) == w;
    RealStart(c, w0);
    RealRunIsRun(c, w0, acts);
    hide RealRuns, RealRun, Inv, Sane, RealWithin;
    if c.qty <= 1 {
      SmallIsLimited(c, w0.s, acts);
    } else {
      SilentIsLimited(c, w0.s, acts);
    }
  }

  /** Rounds that take the real position past the limit. */
  function RoundsToBreak(c: Config): nat
    requires c.qty >= 2
  {
    c.limit / (c.qty - 1) + 1
  }

  lemma RoundsBreak(c: Config)
    requires c.qty >= 2
    ensures RoundsToBreak(c) * (c.qty - 1) > c.limit
  {
    var d := c.qty - 1;
    var q := c.limit / d;
    assert c.limit == q * d + c.limit % d && c.limit % d < d;
    assert (q + 1) * d == q * d + d;
  }

  /** Against the real engine, with no report dropped, and for any sequence of reservation
      prices: every run that computes them keeps the real position within the limit if and only
      if the quotes are of at most one share, or are too large ever to be posted. With noise ids
      that only increase, for limits that the ids below ours, three a round, suffice to pass. */
  lemma RealLimitIff(c: Config, w0: World, reservations: nat -> int)
    requires RealInitial(c, w0) && c.halfSpread > 0 && c.batch >= 3
    requires w0.rising && c.qty >= 2 ==> 3 * RoundsToBreak(c) < FIRST
    ensures (forall w :: Path(c, w0, w) && Decides(w.s, reservations) ==> RealWithin(c, w.s))
       <==> (c.qty <= 1 || c.qty > c.limit)
  {
    hide Path, RealInitial, RoundsToBreak, Decides;
    if c.qty <= 1 || c.qty > c.limit {
      forall w | Path(c, w0, w) && Decides(w.s, reservations) ensures RealWithin(c, w.s) {
        SafeIsLimited(c, w0, w);
      }
    } else {
      var w := Escapes(c, w0, RoundsToBreak(c), reservations);
      RoundsBreak(c);
      assert !RealWithin(c, w.s);
    }
  }
}
