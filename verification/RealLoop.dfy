/** The quote loop of tools/run_market_maker_demo.cpp against the matching engine itself: every
    message the engine takes is its own step on its own book. What `QuoteLoop` asks of an
    engine is proved here as an invariant of every run. */
module RealLoop {
  import opened Engine
  import opened PriceTime
  import opened QuoteLoop
  import opened Attribution

  /** The loop, the engine's book with its resting orders in order of arrival, and the last
      noise id. `rising` says whether noise ids only ever increase, as the synthetic stream's
      do, or may be used again once the order has left the book. */
  datatype World = World(s: State, b: Book, a: seq<Arrival>, seen: nat, rising: bool)

  ghost predicate RealInitial(c: Config, w: World) {
    Initial(c, w.s) && w.b == Engine.EMPTY && w.a == [] && w.seen == 0
  }

  ghost predicate QueuedId(ms: seq<Msg>, id: nat) {
    exists k :: 0 <= k < |ms| && ms[k].kind == NewOrder && ms[k].id == id
  }

  /** Noise orders never share an id with an order in the book or on its way there. */
  ghost predicate NoiseOk(w: World, m: Msg) {
    && !Own(m.id)
    && (m.kind == NewOrder ==>
          m.id != 0 && !HasId(w.a, m.id) && !QueuedId(w.s.inbound, m.id) && (w.rising ==> m.id > w.seen))
  }

  ghost predicate RealEnabled(w: World, act: Action) {
    match act
    case Noise(m) => w.s.pc == Feeding && w.s.tally.room > 0 && NoiseOk(w, m)
    case Pop(live', rs) =>
      && !w.s.busy && w.s.inbound != []
      && rs == Process(w.b, w.s.inbound[0]).1
      && Mirrors(live', After(w.b, w.a, w.s.inbound[0]))
    case _ => Enabled(w.s, act)
  }

  ghost function RealNext(c: Config, w: World, act: Action): World
    requires RealEnabled(w, act)
  {
    match act
    case Noise(m) => w.(s := NoiseStep(w.s, m), seen := if m.kind == NewOrder then m.id else w.seen)
    case Pop(live', rs) =>
      w.(s := PopStep(w.s, live', rs), b := Process(w.b, w.s.inbound[0]).0, a := After(w.b, w.a, w.s.inbound[0]))
    case _ => w.(s := Next(c, w.s, act))
  }

  // ---- The invariant ----

  /** An own id that has been handed out. */
  predicate HandedOut(s: State, id: nat) {
    id < s.nextId || (s.pc.Registering? && id == s.nextId)
  }

  /** Our resting orders are quotes of the present reservation price. */
  ghost predicate OrderOk(c: Config, s: State, x: Arrival) {
    Own(x.id) ==> HandedOut(s, x.id) && x.price == QuotePrice(c, s, x.buy)
  }

  ghost predicate MsgOk(c: Config, s: State, a: seq<Arrival>, m: Msg) {
    && (m.kind == NewOrder ==> m.id != 0 && !HasId(a, m.id))
    && (m.kind == NewOrder && Own(m.id) ==> HandedOut(s, m.id) && m.price == QuotePrice(c, s, m.buy))
    && (m.kind == ModifyOrder ==> !Own(m.id))
  }

  ghost predicate SentOnce(ms: seq<Msg>) {
    forall i, j :: 0 <= i < j < |ms| && ms[i].kind == NewOrder && ms[j].kind == NewOrder ==> ms[i].id != ms[j].id
  }

  ghost predicate ListOk(c: Config, s: State, a: seq<Arrival>) {
    forall k :: 0 <= k < |a| ==> OrderOk(c, s, a[k])
  }

  ghost predicate QueueOk(c: Config, s: State, a: seq<Arrival>) {
    (forall k :: 0 <= k < |s.inbound| ==> MsgOk(c, s, a, s.inbound[k])) && SentOnce(s.inbound)
  }

  ghost predicate Sane(c: Config, w: World) {
    Rep(w.b, w.a) && Mirrors(w.s.live, w.a) && ListOk(c, w.s, w.a) && QueueOk(c, w.s, w.a)
  }

  /** The two quotes of a round are a spread apart, so a new quote cannot reach the other. */
  lemma QuotesApart(c: Config, s: State, a: seq<Arrival>, m: Msg)
    requires c.halfSpread > 0 && ListOk(c, s, a) && m.price == QuotePrice(c, s, m.buy)
    ensures NoOwnInReach(a, m.price, m.buy)
  {
    forall k | 0 <= k < |a| && a[k].buy != m.buy && Own(a[k].id) ensures !Crosses(m.buy, m.price, a[k].price) {
      assert OrderOk(c, s, a[k]);
    }
  }

  /** The engine's step meets the contract the loop relies on. */
  lemma RealMeetsContract(c: Config, w: World, live': map<nat, nat>)
    requires Sane(c, w) && c.halfSpread > 0 && w.s.inbound != []
    requires Mirrors(live', After(w.b, w.a, w.s.inbound[0]))
    ensures Contract(w.s.live, w.s.inbound[0], live', Process(w.b, w.s.inbound[0]).1)
    ensures Rep(Process(w.b, w.s.inbound[0]).0, After(w.b, w.a, w.s.inbound[0]))
  {
    hide Rep, Process, Contract, After, Mirrors, ListOk;
    var m := w.s.inbound[0];
    assert MsgOk(c, w.s, w.a, m);
    if m.kind == NewOrder && Own(m.id) {
      QuotesApart(c, w.s, w.a, m);
    }
    BookMeetsContract(w.s.live, w.b, w.a, m, live');
  }

  // ---- Every step keeps it ----

  lemma PopList(c: Config, w: World, s': State)
    requires Sane(c, w) && w.s.inbound != []
    requires s'.inbound == w.s.inbound[1..] && s'.pc == w.s.pc && s'.nextId == w.s.nextId
             && s'.reservation == w.s.reservation
    ensures ListOk(c, s', After(w.b, w.a, w.s.inbound[0]))
  {
    hide Rep, After, Mirrors, From;
    var m, a' := w.s.inbound[0], After(w.b, w.a, w.s.inbound[0]);
    assert MsgOk(c, w.s, w.a, m);
    forall j | 0 <= j < |a'| ensures OrderOk(c, s', a'[j]) {
      FromAfter(w.b, w.a, m, j);
      if From(a'[j], w.a) {
        FromOk(c, w.s, w.a, a'[j]);
      }
    }
  }

  lemma FromOk(c: Config, s: State, a: seq<Arrival>, x: Arrival)
    requires ListOk(c, s, a) && From(x, a)
    ensures OrderOk(c, s, x)
  {
    var k :| 0 <= k < |a| && SameButQty(x, a[k]);
    assert OrderOk(c, s, a[k]);
  }

  lemma StillFresh(b: Book, a: seq<Arrival>, m: Msg, id: nat)
    requires !HasId(a, id) && (m.kind == NewOrder ==> m.id != id)
    ensures !HasId(After(b, a, m), id)
  {
    hide After;
    var a' := After(b, a, m);
    forall j | 0 <= j < |a'| ensures a'[j].id != id {
      FromAfter(b, a, m, j);
      if From(a'[j], a) {
        var k :| 0 <= k < |a| && SameButQty(a'[j], a[k]);
        assert a[k].id != id;
      }
    }
  }

  lemma PopQueue(c: Config, w: World, s': State)
    requires Sane(c, w) && w.s.inbound != []
    requires s'.inbound == w.s.inbound[1..] && s'.pc == w.s.pc && s'.nextId == w.s.nextId
             && s'.reservation == w.s.reservation
    ensures QueueOk(c, s', After(w.b, w.a, w.s.inbound[0]))
  {
    hide Rep, After, Mirrors, HasId, ListOk;
    var ms, m, a' := w.s.inbound, w.s.inbound[0], After(w.b, w.a, w.s.inbound[0]);
    forall k | 0 <= k < |s'.inbound| ensures MsgOk(c, s', a', s'.inbound[k]) {
      assert s'.inbound[k] == ms[k + 1] && MsgOk(c, w.s, w.a, ms[k + 1]);
      if ms[k + 1].kind == NewOrder {
        StillFresh(w.b, w.a, m, ms[k + 1].id);
      }
    }
    forall i, j | 0 <= i < j < |s'.inbound| && s'.inbound[i].kind == NewOrder && s'.inbound[j].kind == NewOrder
      ensures s'.inbound[i].id != s'.inbound[j].id
    {
      assert s'.inbound[i] == ms[i + 1] && s'.inbound[j] == ms[j + 1];
    }
  }

  lemma SanePop(c: Config, w: World, live': map<nat, nat>, rs: seq<Report>)
    requires Sane(c, w) && c.halfSpread > 0 && RealEnabled(w, Pop(live', rs))
    ensures Sane(c, RealNext(c, w, Pop(live', rs)))
  {
    hide Rep, Process, After, Mirrors, ListOk, QueueOk, Contract;
    RealMeetsContract(c, w, live');
    var s' := PopStep(w.s, live', rs);
    PopList(c, w, s');
    PopQueue(c, w, s');
  }

  /** A message joins the queue: a new order's id is fresh. */
  lemma SaneAppend(c: Config, s: State, a: seq<Arrival>, s': State, m: Msg)
    requires ListOk(c, s, a) && QueueOk(c, s, a) && s'.inbound == s.inbound + [m]
    requires s'.reservation == s.reservation && forall id :: Own(id) && HandedOut(s, id) ==> HandedOut(s', id)
    requires MsgOk(c, s', a, m) && (m.kind == NewOrder ==> !QueuedId(s.inbound, m.id))
    ensures ListOk(c, s', a) && QueueOk(c, s', a)
  {
    hide HasId, HandedOut;
    forall k | 0 <= k < |a| ensures OrderOk(c, s', a[k]) {
      assert OrderOk(c, s, a[k]);
    }
    forall k | 0 <= k < |s'.inbound| ensures MsgOk(c, s', a, s'.inbound[k]) {
      if k < |s.inbound| {
        assert s'.inbound[k] == s.inbound[k] && MsgOk(c, s, a, s.inbound[k]);
      }
    }
    forall i, j | 0 <= i < j < |s'.inbound| && s'.inbound[i].kind == NewOrder && s'.inbound[j].kind == NewOrder
      ensures s'.inbound[i].id != s'.inbound[j].id
    {
      assert s'.inbound[i] == s.inbound[i];
    }
  }

  /** Nothing of the queue or the list changes, and no handed out id is forgotten. */
  lemma SaneSame(c: Config, s: State, a: seq<Arrival>, s': State)
    requires ListOk(c, s, a) && QueueOk(c, s, a) && s'.inbound == s.inbound
    requires s'.reservation == s.reservation && forall id :: Own(id) && HandedOut(s, id) ==> HandedOut(s', id)
    ensures ListOk(c, s', a) && QueueOk(c, s', a)
  {
    hide HasId, HandedOut;
    forall k | 0 <= k < |a| ensures OrderOk(c, s', a[k]) {
      assert OrderOk(c, s, a[k]);
    }
    forall k | 0 <= k < |s'.inbound| ensures MsgOk(c, s', a, s'.inbound[k]) {
      assert MsgOk(c, s, a, s.inbound[k]);
    }
  }

  lemma SaneNoise(c: Config, w: World, m: Msg)
    requires Sane(c, w) && RealEnabled(w, Noise(m))
    ensures Sane(c, RealNext(c, w, Noise(m)))
  {
    hide Rep, Mirrors, ListOk, QueueOk;
    SaneAppend(c, w.s, w.a, NoiseStep(w.s, m), m);
  }

  lemma SaneWithdraw(c: Config, w: World)
    requires Sane(c, w) && w.s.pc.Cancelling?
    ensures Sane(c, w.(s := WithdrawStep(w.s)))
  {
    hide Rep, Mirrors, ListOk, QueueOk;
    var s', id := WithdrawStep(w.s), Current(w.s, w.s.pc.buy);
    if id == 0 {
      SaneSame(c, w.s, w.a, s');
    } else {
      SaneAppend(c, w.s, w.a, s', Msg(CancelOrder, 0, id, 0, 0, false));
    }
  }

  /** The next id is in no list and no queue. */
  lemma NextIsFresh(c: Config, s: State, a: seq<Arrival>)
    requires ListOk(c, s, a) && QueueOk(c, s, a) && s.pc.Posting? && Own(s.nextId)
    ensures !HasId(a, s.nextId) && !QueuedId(s.inbound, s.nextId)
  {
    forall k | 0 <= k < |a| ensures a[k].id != s.nextId {
      assert OrderOk(c, s, a[k]);
    }
    forall k | 0 <= k < |s.inbound| && s.inbound[k].kind == NewOrder ensures s.inbound[k].id != s.nextId {
      assert MsgOk(c, s, a, s.inbound[k]);
    }
  }

  lemma NextIsOwn(c: Config, s: State)
    requires Inv(c, s)
    ensures Own(s.nextId)
  {
  }

  lemma SaneSend(c: Config, w: World)
    requires Inv(c, w.s) && Sane(c, w) && w.s.pc.Posting?
    ensures Sane(c, w.(s := SendStep(c, w.s)))
  {
    hide Inv, Rep, Mirrors, ListOk, QueueOk, HasId, QueuedId;
    NextIsOwn(c, w.s);
    var s' := SendStep(c, w.s);
    if s'.pc.Registering? {
      NextIsFresh(c, w.s, w.a);
      SaneAppend(c, w.s, w.a, s', QuoteMsg(c, w.s, w.s.pc.buy));
    } else {
      SaneSame(c, w.s, w.a, s');
    }
  }

  lemma {:induction false} SizeAt(a: seq<Arrival>, k: nat)
    requires k < |a|
    ensures Size(a, a[k].id) >= a[k].qty
    decreases |a|
  {
    if k < |a| - 1 {
      assert a[..|a| - 1][k] == a[k];
      SizeAt(a[..|a| - 1], k);
    }
  }

  lemma RestingIsLive(live: map<nat, nat>, a: seq<Arrival>, k: nat)
    requires Mirrors(live, a) && AllPositive(a) && k < |a|
    ensures Own(a[k].id) ==> Get(live, a[k].id) > 0
  {
    hide Size;
    SizeAt(a, k);
  }

  /** When a quote is computed none of our orders rests and none is queued, so the reservation
      price may change. */
  lemma SaneDecide(c: Config, w: World, reservation: int)
    requires Sane(c, w) && Fresh(w.s)
    ensures Sane(c, w.(s := DecideStep(c, w.s, reservation)))
  {
    hide HasId, Size;
    var s' := DecideStep(c, w.s, reservation);
    forall k | 0 <= k < |w.a| ensures OrderOk(c, s', w.a[k]) {
      RestingIsLive(w.s.live, w.a, k);
    }
  }

  lemma SaneRest(c: Config, w: World, act: Action)
    requires Sane(c, w) && Enabled(w.s, act)
    requires act.EndFeed? || act.EndDrain? || act.Check? || act.Register? || act.Done? || act.Take? || act.Push?
    ensures Sane(c, w.(s := Next(c, w.s, act)))
  {
    hide Rep, Mirrors, ListOk, QueueOk, Worth;
    SaneSame(c, w.s, w.a, Next(c, w.s, act));
  }

  lemma RealIsEnabled(c: Config, w: World, act: Action)
    requires Sane(c, w) && c.halfSpread > 0 && RealEnabled(w, act)
    ensures Enabled(w.s, act) && RealNext(c, w, act).s == Next(c, w.s, act)
  {
    hide Sane, Process, After, Mirrors, Contract, TakeStep, CheckStep, WithdrawStep, DecideStep, SendStep,
      RegisterStep, PopStep, PushStep, NoiseStep, EndFeedStep, HasId, QueuedId;
    if act.Pop? {
      RealMeetsContract(c, w, act.live);
    }
  }

  lemma RealKeepsSane(c: Config, w: World, act: Action)
    requires Inv(c, w.s) && Sane(c, w) && c.halfSpread > 0 && RealEnabled(w, act)
    ensures Sane(c, RealNext(c, w, act))
  {
    hide Sane, Process, After, Mirrors, Contract, NoiseOk, TakeStep, CheckStep, WithdrawStep, DecideStep, SendStep,
      RegisterStep, PopStep, PushStep, NoiseStep, EndFeedStep, Ids, Core, Fresh;
    match act
    case Noise(m) => SaneNoise(c, w, m);
    case Pop(live', rs) => SanePop(c, w, live', rs);
    case Withdraw => SaneWithdraw(c, w);
    case Send => SaneSend(c, w);
    case Decide(reservation) => SaneDecide(c, w, reservation);
    case _ => SaneRest(c, w, act);
  }

  /** Every step of the loop against the real engine is a step of the loop against an engine
      that keeps the contract, and keeps both invariants. */
  lemma RealStep(c: Config, w: World, act: Action)
    requires Inv(c, w.s) && Sane(c, w) && c.halfSpread > 0 && RealEnabled(w, act)
    ensures Enabled(w.s, act) && RealNext(c, w, act).s == Next(c, w.s, act)
    ensures Inv(c, RealNext(c, w, act).s) && Sane(c, RealNext(c, w, act))
  {
    hide *;
    RealIsEnabled(c, w, act);
    RealKeepsSane(c, w, act);
    Keep(c, w.s, act);
  }

  // ---- Whole runs ----

  ghost predicate RealRuns(c: Config, w: World, acts: seq<Action>)
    decreases acts
  {
    acts == [] || (RealEnabled(w, acts[0]) && RealRuns(c, RealNext(c, w, acts[0]), acts[1..]))
  }

  ghost function RealRun(c: Config, w: World, acts: seq<Action>): World
    requires RealRuns(c, w, acts)
    decreases acts
  {
    if acts == [] then w else RealRun(c, RealNext(c, w, acts[0]), acts[1..])
  }

  /** Every run against the real engine is a run of the loop, so all that holds of those holds
      of it; and our own quotes never meet in its book. */
  lemma {:induction false} RealRunIsRun(c: Config, w: World, acts: seq<Action>)
    requires Inv(c, w.s) && Sane(c, w) && c.halfSpread > 0 && RealRuns(c, w, acts)
    ensures Runs(c, w.s, acts) && RealRun(c, w, acts).s == Run(c, w.s, acts)
    ensures Inv(c, RealRun(c, w, acts).s) && Sane(c, RealRun(c, w, acts))
    decreases acts
  {
    hide Inv, Sane, Enabled, Next, RealEnabled, RealNext;
    if acts != [] {
      RealStep(c, w, acts[0]);
      RealRunIsRun(c, RealNext(c, w, acts[0]), acts[1..]);
    }
  }

  lemma RealStart(c: Config, w: World)
    requires RealInitial(c, w)
    ensures Inv(c, w.s) && Sane(c, w)
  {
    InitInv(c, w.s);
    hide Inv;
    EmptyRep();
  }

  /** The tracked position, with everything exposed, is within the limit in every run against
      the real engine, and every quote is computed with nothing of ours in flight. */
  lemma RealPositionLimit(c: Config, w0: World, acts: seq<Action>)
    requires RealInitial(c, w0) && c.halfSpread > 0 && RealRuns(c, w0, acts)
    ensures var s := RealRun(c, w0, acts).s;
            && s.position + Exposure(s, true) <= c.limit
            && s.position - Exposure(s, false) >= -(c.limit as int)
            && -(c.limit as int) <= s.position <= c.limit
            && (s.pc == Quoting ==> Fresh(s) && s.position == s.truth - s.missed)
  {
    RealStart(c, w0);
    RealRunIsRun(c, w0, acts);
    PositionLimit(c, w0.s, acts);
    if RealRun(c, w0, acts).s.pc == Quoting {
      FreshAtQuote(c, w0.s, acts);
    }
  }
}
