/** The market maker's submit / wait / cancel / wait / quote loop against an asynchronous
    engine (tools/run_market_maker_demo.cpp, include/hft/market_maker.hpp). The loop and the
    engine take separate steps; a message counts as processed after its reports are pushed. */
module QuoteLoop {
  import opened Engine

  /** The loop's own order ids start here; the noise trader's are smaller. */
  const FIRST: nat := 1_000_000_000

  predicate Own(id: nat) {
    id >= FIRST
  }

  /** The party of a report that is ours, if one is. */
  function Subject(r: Report): nat {
    if Own(r.id) then r.id else r.contra
  }

  /** Shares that reports fill of one order. */
  function FilledOf(rs: seq<Report>, id: nat): nat {
    if rs == [] then 0 else (if Subject(rs[0]) == id then rs[0].qty else 0) + FilledOf(rs[1..], id)
  }

  /** Shares of one order in new-order messages still queued. */
  function Queued(ms: seq<Msg>, id: nat): nat {
    if ms == [] then 0 else Asked(ms[0], id) + Queued(ms[1..], id)
  }

  function Asked(m: Msg, id: nat): nat {
    if m.kind == NewOrder && m.id == id then m.qty else 0
  }

  function Get(live: map<nat, nat>, id: nat): nat {
    if id in live then live[id] else 0
  }

  // ---- The engine, as far as the loop relies on it ----

  /** What one message may do to our own orders: its reports take from what is live or
      asked for, only a new order reports anything, a cancelled order is gone, no report has
      us on both sides, and none of ours is empty. */
  ghost predicate Contract(live: map<nat, nat>, m: Msg, live': map<nat, nat>, rs: seq<Report>) {
    && (forall k :: 0 <= k < |rs| ==> !Own(rs[k].id) || !Own(rs[k].contra))
    && (forall k :: 0 <= k < |rs| && Own(Subject(rs[k])) ==> rs[k].qty > 0)
    && (m.kind != NewOrder ==> rs == [])
    && (m.kind == CancelOrder && Own(m.id) ==> Get(live', m.id) == 0)
    && (forall x :: Own(x) ==> Get(live', x) + FilledOf(rs, x) <= Get(live, x) + Asked(m, x))
  }

  /** The assumption on_fill makes: leaves is zero only on the last report of our order. */
  ghost predicate LeavesAreOurs(live': map<nat, nat>, rs: seq<Report>) {
    forall k :: 0 <= k < |rs| && Own(Subject(rs[k])) && rs[k].leaves == 0 ==>
                  Get(live', Subject(rs[k])) == 0 && FilledOf(rs[k + 1..], Subject(rs[k])) == 0
  }

  // ---- The machine ----

  datatype Wait = AfterFeed | AfterCancel | AfterPost

  datatype Pc =
    | Feeding
    | Draining(wait: Wait)
    | Checking(wait: Wait)
    | Cancelling(buy: bool)
    | Quoting
    | Posting(buy: bool)
    | Registering(buy: bool)
    | Finished

  /** The parameters of compute_quote, position limit, quote size and half spread, and the number
      of noise messages fed between quotes. */
  datatype Config = Config(limit: nat, qty: nat, halfSpread: int, batch: nat)

  /** Messages still to be fed in this batch, whether the noise has run out, and every reservation
      price computed so far. */
  datatype Tally = Tally(room: nat, exhausted: bool, decided: seq<int>)

  /** `truth` is the position our executed orders really give, `missed` the part of it that
      never reached the tracked position. */
  datatype State = State(
    pc: Pc, inbound: seq<Msg>, busy: bool, pending: seq<Report>, reports: seq<Report>,
    processed: nat, submitted: nat, live: map<nat, nat>,
    open: map<nat, bool>, position: int, bid: nat, ask: nat, nextId: nat,
    reservation: int, wantBid: bool, wantAsk: bool,
    sides: map<nat, bool>, truth: int, missed: int, tally: Tally)

  predicate Initial(c: Config, s: State) {
    && s.tally == Tally(c.batch, false, [])
    && s.pc == Feeding && s.inbound == [] && !s.busy && s.pending == [] && s.reports == []
    && s.processed == 0 && s.submitted == 0 && s.live == map[] && s.open == map[] && s.sides == map[]
    && s.position == 0 && s.truth == 0 && s.missed == 0 && s.bid == 0 && s.ask == 0 && s.nextId == FIRST
  }

  datatype Action =
    | Noise(m: Msg)
    | EndFeed
    | Take
    | EndDrain
    | Check(last: bool)
    | Withdraw
    | Decide(reservation: int)
    | Send
    | Register
    | Pop(live: map<nat, nat>, rs: seq<Report>)
    | Push(full: bool)
    | Done

  function Submit(s: State, m: Msg): State {
    s.(inbound := s.inbound + [m], submitted := s.submitted + 1)
  }

  function Signed(buy: bool, qty: nat): int {
    if buy then qty else 0 - qty
  }

  /** What a report is worth to our position, by the side we sent the order with. */
  function Worth(sides: map<nat, bool>, r: Report): int {
    if Subject(r) in sides then Signed(sides[Subject(r)], r.qty) else 0
  }

  /** on_fill: the order whose side attributes the report. */
  function Attributed(open: map<nat, bool>, r: Report): nat {
    if r.id in open then r.id else r.contra
  }

  function OnFill(s: State, r: Report): State {
    var id := Attributed(s.open, r);
    var heard := id in s.open;
    s.(position := if heard then s.position + Signed(s.open[id], r.qty) else s.position,
       open := if heard && r.leaves == 0 then s.open - {id} else s.open,
       missed := if heard then s.missed else s.missed + Worth(s.sides, r))
  }

  ghost predicate Enabled(s: State, a: Action) {
    match a
    case Noise(m) => s.pc == Feeding && s.tally.room > 0 && !Own(m.id)
    case EndFeed => s.pc == Feeding
    case Take => (s.pc.Draining? || s.pc == Finished) && s.reports != []
    case EndDrain => s.pc.Draining? && s.reports == []
    case Check(last) => s.pc.Checking? && (s.pc.wait == AfterPost && s.tally.exhausted ==> last)
    case Withdraw => s.pc.Cancelling?
    case Decide(_) => s.pc == Quoting
    case Send => s.pc.Posting?
    case Register => s.pc.Registering?
    case Pop(live', rs) => !s.busy && s.inbound != [] && Contract(s.live, s.inbound[0], live', rs)
    case Push(_) => s.busy && s.pending != []
    case Done => s.busy && s.pending == []
  }

  function AfterWait(w: Wait, last: bool): Pc {
    match w
    case AfterFeed => Cancelling(true)
    case AfterCancel => if last then Finished else Quoting
    case AfterPost => if last then Cancelling(true) else Feeding
  }

  function Current(s: State, buy: bool): nat {
    if buy then s.bid else s.ask
  }

  function NextPost(buy: bool): Pc {
    if buy then Posting(false) else Draining(AfterPost)
  }

  function TakeStep(s: State): State
    requires s.reports != []
  {
    OnFill(s, s.reports[0]).(reports := s.reports[1..])
  }

  function NoiseStep(s: State, m: Msg): State
    requires s.tally.room > 0
  {
    Submit(s, m).(tally := s.tally.(room := s.tally.room - 1))
  }

  /** A batch that is not full was the last. */
  function EndFeedStep(s: State): State {
    s.(pc := Draining(AfterFeed), tally := s.tally.(exhausted := s.tally.room > 0))
  }

  function CheckStep(c: Config, s: State, last: bool): State
    requires s.pc.Checking?
  {
    var pc := if s.processed >= s.submitted then AfterWait(s.pc.wait, last) else Draining(s.pc.wait);
    s.(pc := pc, tally := if pc == Feeding then s.tally.(room := c.batch) else s.tally)
  }

  function WithdrawStep(s: State): State
    requires s.pc.Cancelling?
  {
    var id := Current(s, s.pc.buy);
    (if id == 0 then s else Submit(s, Msg(CancelOrder, 0, id, 0, 0, false)))
      .(pc := if s.pc.buy then Cancelling(false) else Draining(AfterCancel))
  }

  /** compute_quote: each side is suppressed if filling it whole could pass the limit. */
  function DecideStep(c: Config, s: State, reservation: int): State {
    s.(reservation := reservation, tally := s.tally.(decided := s.tally.decided + [reservation]),
       wantBid := s.position + c.qty <= c.limit, wantAsk := s.position - c.qty >= -(c.limit as int),
       bid := 0, ask := 0, pc := Posting(true))
  }

  /** Half a spread below the reservation price, or above it. */
  function QuotePrice(c: Config, s: State, buy: bool): int {
    if buy then s.reservation - c.halfSpread else s.reservation + c.halfSpread
  }

  function QuoteMsg(c: Config, s: State, buy: bool): Msg {
    Msg(NewOrder, 0, s.nextId, QuotePrice(c, s, buy), c.qty, buy)
  }

  function SendStep(c: Config, s: State): State
    requires s.pc.Posting?
  {
    var buy := s.pc.buy;
    if (if buy then s.wantBid else s.wantAsk) then
      Submit(s, QuoteMsg(c, s, buy)).(sides := s.sides[s.nextId := buy], pc := Registering(buy))
    else s.(pc := NextPost(buy))
  }

  function RegisterStep(s: State): State
    requires s.pc.Registering?
  {
    var buy := s.pc.buy;
    s.(open := s.open[s.nextId := buy], nextId := s.nextId + 1, pc := NextPost(buy),
       bid := if buy then s.nextId else s.bid, ask := if buy then s.ask else s.nextId)
  }

  function PopStep(s: State, live': map<nat, nat>, rs: seq<Report>): State
    requires s.inbound != []
  {
    s.(inbound := s.inbound[1..], live := live', busy := true, pending := rs)
  }

  /** A report is executed and enqueued, or executed and dropped when the queue is full. */
  function PushStep(s: State, full: bool): State
    requires s.pending != []
  {
    var r := s.pending[0];
    var worth := Worth(s.sides, r);
    s.(pending := s.pending[1..], truth := s.truth + worth,
       reports := if full then s.reports else s.reports + [r],
       missed := if full then s.missed + worth else s.missed)
  }

  ghost function Next(c: Config, s: State, a: Action): State
    requires Enabled(s, a)
  {
    match a
    case Noise(m) => NoiseStep(s, m)
    case EndFeed => EndFeedStep(s)
    case Take => TakeStep(s)
    case EndDrain => s.(pc := Checking(s.pc.wait))
    case Check(last) => CheckStep(c, s, last)
    case Withdraw => WithdrawStep(s)
    case Decide(reservation) => DecideStep(c, s, reservation)
    case Send => SendStep(c, s)
    case Register => RegisterStep(s)
    case Pop(live', rs) => PopStep(s, live', rs)
    case Push(full) => PushStep(s, full)
    case Done => s.(busy := false, processed := s.processed + 1)
  }

  // ---- The invariant ----

  /** The order of one side that may be exposed: registered, or just sent. */
  function Exposed(s: State, buy: bool): nat {
    if s.pc == Registering(buy) then s.nextId else Current(s, buy)
  }

  function Remaining(s: State, id: nat): nat {
    Get(s.live, id) + Queued(s.inbound, id)
  }

  /** Filled shares of an order the tracked position does not show yet. */
  function Undelivered(s: State, id: nat): nat {
    FilledOf(s.reports, id) + FilledOf(s.pending, id)
  }

  /** Everything of an order that is live, queued or undelivered. */
  function Held(s: State, id: nat): nat {
    Remaining(s, id) + Undelivered(s, id)
  }

  function Exposure(s: State, buy: bool): nat {
    if Exposed(s, buy) == 0 then 0 else Held(s, Exposed(s, buy))
  }

  ghost predicate Counted(s: State) {
    && s.submitted == s.processed + |s.inbound| + (if s.busy then 1 else 0)
    && (!s.busy ==> s.pending == [])
  }

  /** Ids are handed out in order, and sides are remembered as sent. */
  ghost predicate SideIds(s: State, buy: bool) {
    && (Current(s, buy) == 0 || FIRST <= Current(s, buy) < s.nextId)
    && (Exposed(s, buy) != 0 ==> Exposed(s, buy) in s.sides && s.sides[Exposed(s, buy)] == buy)
  }

  ghost predicate Ids(s: State) {
    && s.nextId >= FIRST
    && SideIds(s, true) && SideIds(s, false)
    && (s.bid != 0 ==> s.bid != s.ask)
    && (forall x :: x in s.open ==> Own(x) && x < s.nextId && x in s.sides && s.sides[x] == s.open[x])
    && (forall x :: x in s.sides ==> Own(x))
  }

  /** Nothing of ours is live, queued or undelivered except the two exposed orders. */
  ghost predicate OnlyExposed(s: State) {
    forall x :: Own(x) && x != Exposed(s, true) && x != Exposed(s, false) ==> Held(s, x) == 0
  }

  ghost predicate NoSelfTrade(rs: seq<Report>) {
    forall k :: 0 <= k < |rs| ==> !Own(rs[k].id) || !Own(rs[k].contra)
  }

  ghost predicate Limited(c: Config, s: State) {
    && s.position + Exposure(s, true) <= c.limit
    && s.position - Exposure(s, false) >= -(c.limit as int)
  }

  ghost predicate Balanced(s: State) {
    s.truth == s.position + s.missed
               + (if Exposed(s, true) == 0 then 0 else FilledOf(s.reports, Exposed(s, true)))
               - (if Exposed(s, false) == 0 then 0 else FilledOf(s.reports, Exposed(s, false)))
  }

  ghost predicate Core(c: Config, s: State) {
    OnlyExposed(s) && Limited(c, s) && Balanced(s)
  }

  /** Only cancels are queued and nothing is about to be reported. */
  ghost predicate Quiet(s: State) {
    && s.pending == []
    && forall k :: 0 <= k < |s.inbound| ==> s.inbound[k].kind == CancelOrder
  }

  ghost predicate CancelQueued(ms: seq<Msg>, id: nat) {
    exists k :: 0 <= k < |ms| && ms[k].kind == CancelOrder && ms[k].id == id
  }

  ghost predicate Withdrawn(s: State, buy: bool) {
    var id := Current(s, buy);
    id == 0 || Remaining(s, id) == 0 || CancelQueued(s.inbound, id)
  }

  /** Nothing of ours is in the engine, on its way there or on its way back. */
  ghost predicate Fresh(s: State) {
    && s.inbound == [] && !s.busy && s.reports == [] && s.pending == []
    && forall x :: Own(x) ==> Get(s.live, x) == 0
  }

  ghost predicate Deciding(c: Config, s: State) {
    && (s.wantBid ==> s.position + c.qty <= c.limit)
    && (s.wantAsk ==> s.position - c.qty >= -(c.limit as int))
  }

  ghost predicate Phase(c: Config, s: State) {
    match s.pc
    case Feeding => true
    case Draining(w) => w == AfterCancel ==> Quiet(s) && Withdrawn(s, true) && Withdrawn(s, false)
    case Checking(w) => w == AfterCancel ==> Quiet(s) && Withdrawn(s, true) && Withdrawn(s, false) && s.reports == []
    case Cancelling(buy) => Quiet(s) && (!buy ==> Withdrawn(s, true))
    case Quoting => Fresh(s)
    case Posting(buy) => Deciding(c, s) && (if buy then s.bid == 0 && s.ask == 0 else s.ask == 0)
    case Registering(buy) => Deciding(c, s) && (if buy then s.bid == 0 && s.ask == 0 else s.ask == 0)
    case Finished => Quiet(s)
  }

  ghost predicate Inv(c: Config, s: State) {
    && Counted(s) && Ids(s) && Core(c, s) && NoSelfTrade(s.reports) && NoSelfTrade(s.pending)
    && Phase(c, s)
  }

  // ---- Sums over queues ----

  lemma {:induction false} FilledAppend(rs: seq<Report>, r: Report, id: nat)
    ensures FilledOf(rs + [r], id) == FilledOf(rs, id) + (if Subject(r) == id then r.qty else 0)
  {
    if rs == [] {
      assert rs + [r] == [r];
    } else {
      assert (rs + [r])[1..] == rs[1..] + [r];
      FilledAppend(rs[1..], r, id);
    }
  }

  lemma {:induction false} QueuedAppend(ms: seq<Msg>, m: Msg, id: nat)
    ensures Queued(ms + [m], id) == Queued(ms, id) + Asked(m, id)
  {
    if ms == [] {
      assert ms + [m] == [m];
    } else {
      assert (ms + [m])[1..] == ms[1..] + [m];
      QueuedAppend(ms[1..], m, id);
    }
  }

  /** A report counts for one order at most, on the side it was sent with. */
  lemma WorthExposed(s: State, r: Report)
    requires Ids(s)
    requires Own(Subject(r)) && Subject(r) != Exposed(s, true) && Subject(r) != Exposed(s, false) ==> r.qty == 0
    ensures Worth(s.sides, r) ==
            (if Exposed(s, true) != 0 && Subject(r) == Exposed(s, true) then r.qty else 0) -
            (if Exposed(s, false) != 0 && Subject(r) == Exposed(s, false) then r.qty else 0)
  {
    assert Exposed(s, true) == 0 || Own(Exposed(s, true));
    assert Exposed(s, false) == 0 || Own(Exposed(s, false));
  }

  /** on_fill either adds the report's worth to the position or misses it. */
  lemma OnFillWorth(s: State, r: Report)
    requires Ids(s) && (!Own(r.id) || !Own(r.contra))
    ensures var s' := OnFill(s, r);
            if Attributed(s.open, r) in s.open
            then s'.position == s.position + Worth(s.sides, r) && s'.missed == s.missed
            else s'.position == s.position && s'.missed == s.missed + Worth(s.sides, r)
  {
  }

  // ---- Every step keeps the invariant ----

  ghost predicate SameIds(s: State, s': State) {
    && s'.bid == s.bid && s'.ask == s.ask && s'.nextId == s.nextId && s'.sides == s.sides
    && Exposed(s', true) == Exposed(s, true) && Exposed(s', false) == Exposed(s, false)
  }

  lemma IdsSame(s: State, s': State)
    requires Ids(s) && SameIds(s, s')
    requires forall x :: x in s'.open ==> x in s.open && s'.open[x] == s.open[x]
    ensures Ids(s')
  {
    assert Current(s, true) == Current(s', true) && Current(s, false) == Current(s', false);
  }

  /** Steps that fill nothing and add nothing of ours. */
  lemma CoreSame(c: Config, s: State, s': State)
    requires Ids(s) && Core(c, s) && SameIds(s, s')
    requires s'.position == s.position && s'.truth == s.truth && s'.missed == s.missed && s'.reports == s.reports
    requires forall x :: Own(x) ==> Held(s', x) <= Held(s, x)
    ensures Core(c, s')
  {
    hide Held, FilledOf;
    assert Exposed(s, true) == 0 || Own(Exposed(s, true));
    assert Exposed(s, false) == 0 || Own(Exposed(s, false));
  }

  lemma KeepNoise(c: Config, s: State, m: Msg)
    requires Inv(c, s) && s.pc == Feeding && s.tally.room > 0 && !Own(m.id)
    ensures Inv(c, NoiseStep(s, m))
  {
    hide Ids, Core, Queued, FilledOf;
    var s' := NoiseStep(s, m);
    forall x | Own(x) ensures Held(s', x) == Held(s, x) {
      QueuedAppend(s.inbound, m, x);
    }
    hide Held;
    IdsSame(s, s');
    CoreSame(c, s, s');
  }

  lemma SameHeld(s: State, s': State)
    requires s'.inbound == s.inbound && s'.live == s.live && s'.reports == s.reports && s'.pending == s.pending
    ensures forall x :: Held(s', x) == Held(s, x) && Remaining(s', x) == Remaining(s, x)
  {
  }

  lemma KeepControl(c: Config, s: State, a: Action)
    requires Inv(c, s) && Enabled(s, a) && (a.EndFeed? || a.EndDrain? || a.Done?)
    ensures Inv(c, Next(c, s, a))
  {
    hide Ids, Core, Queued, FilledOf, Remaining;
    var s' := Next(c, s, a);
    assert forall x :: Held(s', x) == Held(s, x) && Remaining(s', x) == Remaining(s, x) by { SameHeld(s, s'); }
    hide Held;
    IdsSame(s, s');
    CoreSame(c, s, s');
  }

  /** The wait returned: everything submitted has been processed. */
  lemma CaughtUp(s: State)
    requires Counted(s) && s.processed >= s.submitted
    ensures s.inbound == [] && !s.busy && s.pending == []
  {
  }

  lemma KeepCheck(c: Config, s: State, last: bool)
    requires Inv(c, s) && s.pc.Checking?
    ensures Inv(c, CheckStep(c, s, last))
  {
    hide Ids, Core, Queued, FilledOf;
    var s' := CheckStep(c, s, last);
    SameHeld(s, s');
    IdsSame(s, s');
    CoreSame(c, s, s');
    if s.processed >= s.submitted {
      CaughtUp(s);
      if s.pc.wait == AfterCancel && !last {
        NothingLeft(c, s);
      }
    }
  }

  /** Once both cancels are processed and the reports are drained, nothing of ours is left. */
  lemma NothingLeft(c: Config, s: State)
    requires Ids(s) && Core(c, s) && s.inbound == [] && !s.busy && s.reports == [] && s.pending == []
    requires Withdrawn(s, true) && Withdrawn(s, false) && !s.pc.Registering?
    ensures Fresh(s)
  {
    hide Ids, Limited, Balanced;
    assert !CancelQueued(s.inbound, s.bid) && !CancelQueued(s.inbound, s.ask);
    forall x | Own(x) ensures Get(s.live, x) == 0 {
      if x != s.bid && x != s.ask {
        assert Held(s, x) == 0;
      }
    }
  }

  lemma QuietAppend(s: State, s': State, m: Msg)
    requires s'.inbound == s.inbound + [m] && m.kind == CancelOrder && s'.pending == s.pending
    requires s'.live == s.live && s'.reports == s.reports
    ensures forall x :: Held(s', x) == Held(s, x) && Remaining(s', x) == Remaining(s, x)
    ensures Quiet(s) ==> Quiet(s')
    ensures CancelQueued(s'.inbound, m.id)
    ensures CancelQueued(s.inbound, s.bid) ==> CancelQueued(s'.inbound, s.bid)
  {
    hide Queued, FilledOf;
    forall x ensures Queued(s'.inbound, x) == Queued(s.inbound, x) {
      QueuedAppend(s.inbound, m, x);
    }
    assert s'.inbound[|s.inbound|] == m;
    if CancelQueued(s.inbound, s.bid) {
      var k :| 0 <= k < |s.inbound| && s.inbound[k].kind == CancelOrder && s.inbound[k].id == s.bid;
      assert s'.inbound[k] == s.inbound[k];
    }
  }

  lemma KeepWithdraw(c: Config, s: State)
    requires Inv(c, s) && s.pc.Cancelling?
    ensures Inv(c, WithdrawStep(s))
  {
    hide Ids, Core, Queued, FilledOf, Remaining, CancelQueued, Quiet;
    var s' := WithdrawStep(s);
    var id := Current(s, s.pc.buy);
    if id == 0 {
      SameHeld(s, s');
      assert Quiet(s') by { QuietSame(s, s'); }
    } else {
      QuietAppend(s, s', Msg(CancelOrder, 0, id, 0, 0, false));
    }
    hide Held;
    IdsSame(s, s');
    CoreSame(c, s, s');
  }

  lemma QuietSame(s: State, s': State)
    requires Quiet(s) && s'.inbound == s.inbound && s'.pending == s.pending
    ensures Quiet(s')
  {
  }

  lemma KeepDecide(c: Config, s: State, reservation: int)
    requires Inv(c, s) && s.pc == Quoting
    ensures Inv(c, DecideStep(c, s, reservation))
  {
    var s' := DecideStep(c, s, reservation);
    forall x | Own(x) ensures Held(s, x) == 0 && Held(s', x) == 0 {
    }
  }

  lemma KeepSend(c: Config, s: State)
    requires Inv(c, s) && s.pc.Posting?
    ensures Inv(c, SendStep(c, s))
  {
    hide Ids, Core, Queued, FilledOf, Remaining, CancelQueued, Quiet, Get;
    var s' := SendStep(c, s);
    if s'.pc.Registering? {
      var m := QuoteMsg(c, s, s.pc.buy);
      SendIds(s, s', s.pc.buy);
      forall x {
        SendHeld(s, s', m, x);
      }
      hide Held;
      SendCore(c, s, s', s.pc.buy);
    } else {
      SameHeld(s, s');
      hide Held;
      IdsSame(s, s');
      CoreSame(c, s, s');
    }
  }

  ghost predicate Sent(s: State, s': State, buy: bool) {
    && s.pc == Posting(buy) && s'.pc == Registering(buy) && Current(s, buy) == 0
    && s'.bid == s.bid && s'.ask == s.ask && s'.nextId == s.nextId && s'.open == s.open
    && s'.sides == s.sides[s.nextId := buy]
  }

  lemma SendIds(s: State, s': State, buy: bool)
    requires Ids(s) && Sent(s, s', buy)
    ensures Ids(s')
  {
    assert SideIds(s', buy);
    assert SideIds(s', !buy);
    hide SideIds;
  }

  lemma SendHeld(s: State, s': State, m: Msg, x: nat)
    requires s'.inbound == s.inbound + [m] && s'.live == s.live && s'.reports == s.reports && s'.pending == s.pending
    ensures Held(s', x) == Held(s, x) + Asked(m, x)
  {
    QueuedAppend(s.inbound, m, x);
  }

  lemma SendCore(c: Config, s: State, s': State, buy: bool)
    requires Ids(s) && Core(c, s) && Sent(s, s', buy)
    requires s'.position == s.position && s'.truth == s.truth && s'.missed == s.missed && s'.reports == s.reports
    requires if buy then s.position + c.qty <= c.limit else s.position - c.qty >= -(c.limit as int)
    requires forall x :: Held(s', x) == Held(s, x) + (if x == s.nextId then c.qty else 0)
    ensures Core(c, s')
  {
    hide Queued, FilledOf, Get;
    assert Held(s, s.nextId) == 0;
    assert FilledOf(s.reports, s.nextId) == 0;
    hide Held, SideIds;
    assert Exposed(s', !buy) == Exposed(s, !buy) && Exposed(s', buy) == s.nextId && Exposed(s, buy) == 0;
    hide Exposed;
  }

  lemma KeepRegister(c: Config, s: State)
    requires Inv(c, s) && s.pc.Registering?
    ensures Inv(c, RegisterStep(s))
  {
    hide Core, Queued, FilledOf;
    var s' := RegisterStep(s);
    assert Exposed(s', true) == Exposed(s, true) && Exposed(s', false) == Exposed(s, false);
    assert Ids(s');
    hide Ids;
    SameHeld(s, s');
    CoreRegister(c, s, s');
  }

  lemma CoreRegister(c: Config, s: State, s': State)
    requires Core(c, s) && Exposed(s', true) == Exposed(s, true) && Exposed(s', false) == Exposed(s, false)
    requires s'.position == s.position && s'.truth == s.truth && s'.missed == s.missed && s'.reports == s.reports
    requires forall x :: Held(s', x) == Held(s, x)
    ensures Core(c, s')
  {
    hide Held, FilledOf, Exposed;
  }

  lemma PopHeld(s: State, live': map<nat, nat>, rs: seq<Report>, s': State, x: nat)
    requires s.inbound != [] && s.pending == [] && Own(x) && Contract(s.live, s.inbound[0], live', rs)
    requires s'.inbound == s.inbound[1..] && s'.live == live' && s'.pending == rs && s'.reports == s.reports
    ensures Held(s', x) <= Held(s, x)
    ensures s.inbound[0].kind == CancelOrder ==> Remaining(s', x) <= Remaining(s, x)
  {
  }

  lemma FirstCancel(ms: seq<Msg>, id: nat)
    requires CancelQueued(ms, id)
    ensures ms != []
    ensures (ms[0].kind == CancelOrder && ms[0].id == id) || CancelQueued(ms[1..], id)
  {
    var k :| 0 <= k < |ms| && ms[k].kind == CancelOrder && ms[k].id == id;
    if k > 0 {
      assert ms[1..][k - 1] == ms[k];
    }
  }

  lemma PopWithdrawn(s: State, live': map<nat, nat>, rs: seq<Report>, s': State, buy: bool)
    requires s.inbound != [] && s.pending == [] && Quiet(s) && Contract(s.live, s.inbound[0], live', rs) && Ids(s)
    requires s'.inbound == s.inbound[1..] && s'.live == live' && s'.pending == rs && s'.reports == s.reports
    requires Current(s', buy) == Current(s, buy) && Withdrawn(s, buy)
    ensures Withdrawn(s', buy)
  {
    hide FilledOf;
    var id := Current(s, buy);
    if id != 0 && !CancelQueued(s'.inbound, id) {
      PopHeld(s, live', rs, s', id);
      if CancelQueued(s.inbound, id) {
        FirstCancel(s.inbound, id);
        assert Get(live', id) == 0;
        NoneQueued(s'.inbound, id);
      }
    }
  }

  lemma {:induction false} NoneQueued(ms: seq<Msg>, id: nat)
    requires forall k :: 0 <= k < |ms| ==> ms[k].kind == CancelOrder
    ensures Queued(ms, id) == 0
  {
    if ms != [] {
      NoneQueued(ms[1..], id);
    }
  }

  lemma PopQuiet(s: State, live': map<nat, nat>, rs: seq<Report>, s': State)
    requires s.inbound != [] && Quiet(s) && Contract(s.live, s.inbound[0], live', rs)
    requires s'.inbound == s.inbound[1..] && s'.pending == rs
    ensures Quiet(s')
  {
  }

  lemma KeepPop(c: Config, s: State, live': map<nat, nat>, rs: seq<Report>)
    requires Inv(c, s) && !s.busy && s.inbound != [] && Contract(s.live, s.inbound[0], live', rs)
    ensures Inv(c, PopStep(s, live', rs))
  {
    hide Ids, Core, Queued, FilledOf, Quiet, Withdrawn, Held;
    var s' := PopStep(s, live', rs);
    forall x | Own(x) ensures Held(s', x) <= Held(s, x) {
      PopHeld(s, live', rs, s', x);
    }
    IdsSame(s, s');
    CoreSame(c, s, s');
    if Quiet(s) {
      PopQuiet(s, live', rs, s');
      forall buy | Withdrawn(s, buy) ensures Withdrawn(s', buy) {
        PopWithdrawn(s, live', rs, s', buy);
      }
    }
  }

  /** A report moves from one queue to the next, or is dropped. */
  lemma PushHeld(s: State, s': State, r: Report, full: bool, x: nat)
    requires s.pending != [] && r == s.pending[0] && s'.pending == s.pending[1..]
    requires s'.inbound == s.inbound && s'.live == s.live
    requires s'.reports == if full then s.reports else s.reports + [r]
    ensures FilledOf(s'.reports, x) == FilledOf(s.reports, x) + (if Subject(r) == x && !full then r.qty else 0)
    ensures Held(s', x) == Held(s, x) - (if Subject(r) == x && full then r.qty else 0)
  {
    FilledAppend(s.reports, r, x);
  }

  lemma PushCore(c: Config, s: State, s': State, r: Report, full: bool)
    requires Ids(s) && Core(c, s) && SameIds(s, s') && s'.position == s.position
    requires Own(Subject(r)) && Subject(r) != Exposed(s, true) && Subject(r) != Exposed(s, false) ==> r.qty == 0
    requires forall x ::
               FilledOf(s'.reports, x) == FilledOf(s.reports, x) + (if Subject(r) == x && !full then r.qty else 0)
    requires forall x :: Held(s', x) == Held(s, x) - (if Subject(r) == x && full then r.qty else 0)
    requires s'.truth == s.truth + Worth(s.sides, r)
    requires s'.missed == s.missed + (if full then Worth(s.sides, r) else 0)
    ensures Core(c, s')
  {
    hide Held, FilledOf, Worth, Subject, Exposed;
    WorthExposed(s, r);
    hide Ids;
  }

  /** A queued report of ours belongs to an exposed order. */
  lemma QueuedReport(c: Config, s: State, rs: seq<Report>)
    requires Core(c, s) && rs != [] && (rs == s.pending || rs == s.reports)
    ensures var x := Subject(rs[0]);
            Own(x) && x != Exposed(s, true) && x != Exposed(s, false) ==> rs[0].qty == 0
  {
    var x := Subject(rs[0]);
    if Own(x) && x != Exposed(s, true) && x != Exposed(s, false) {
      assert Held(s, x) == 0;
    }
  }

  lemma KeepPush(c: Config, s: State, full: bool)
    requires Inv(c, s) && s.busy && s.pending != []
    ensures Inv(c, PushStep(s, full))
  {
    hide Ids, Core, Queued, FilledOf, CancelQueued, Held, Worth, Subject;
    var s', r := PushStep(s, full), s.pending[0];
    QueuedReport(c, s, s.pending);
    forall x {
      PushHeld(s, s', r, full, x);
    }
    IdsSame(s, s');
    PushCore(c, s, s', r, full);
  }

  lemma TakeHeld(s: State, s': State, r: Report, x: nat)
    requires s.reports != [] && r == s.reports[0] && s'.reports == s.reports[1..]
    requires s'.inbound == s.inbound && s'.live == s.live && s'.pending == s.pending
    ensures FilledOf(s'.reports, x) == FilledOf(s.reports, x) - (if Subject(r) == x then r.qty else 0)
    ensures Held(s', x) == Held(s, x) - (if Subject(r) == x then r.qty else 0)
    ensures Remaining(s', x) == Remaining(s, x)
  {
  }

  lemma TakeCore(c: Config, s: State, s': State, r: Report, heard: bool)
    requires Ids(s) && Core(c, s) && SameIds(s, s') && s'.truth == s.truth
    requires Own(Subject(r)) && Subject(r) != Exposed(s, true) && Subject(r) != Exposed(s, false) ==> r.qty == 0
    requires forall x :: FilledOf(s'.reports, x) == FilledOf(s.reports, x) - (if Subject(r) == x then r.qty else 0)
    requires forall x :: Held(s', x) == Held(s, x) - (if Subject(r) == x then r.qty else 0)
    requires s'.position == s.position + (if heard then Worth(s.sides, r) else 0)
    requires s'.missed == s.missed + (if heard then 0 else Worth(s.sides, r))
    ensures Core(c, s')
  {
    hide Held, FilledOf, Worth, Subject, Exposed;
    WorthExposed(s, r);
    hide Ids;
  }

  lemma TakeFields(s: State)
    requires s.reports != []
    ensures var s' := TakeStep(s);
            && SameIds(s, s') && s'.pc == s.pc && s'.truth == s.truth
            && s'.inbound == s.inbound && s'.live == s.live && s'.pending == s.pending
            && s'.reports == s.reports[1..] && s'.submitted == s.submitted && s'.processed == s.processed
                && s'.busy == s.busy
            && forall x :: x in s'.open ==> x in s.open && s'.open[x] == s.open[x]
  {
    hide Worth, Subject, Signed, Attributed;
  }

  lemma TakePhase(c: Config, s: State, s': State)
    requires Phase(c, s) && (s.pc.Draining? || s.pc == Finished) && s'.pc == s.pc
    requires s'.inbound == s.inbound && s'.pending == s.pending && s'.live == s.live && s'.bid == s.bid
             && s'.ask == s.ask
    ensures Phase(c, s')
  {
  }

  lemma KeepTake(c: Config, s: State)
    requires Inv(c, s) && (s.pc.Draining? || s.pc == Finished) && s.reports != []
    ensures Inv(c, TakeStep(s))
  {
    hide Ids, Core, Queued, FilledOf, CancelQueued, Held, Worth, Subject, Remaining, Phase, SameIds;
    var s', r := TakeStep(s), s.reports[0];
    TakeFields(s);
    OnFillWorth(s, r);
    hide OnFill;
    assert s'.position == OnFill(s, r).position && s'.missed == OnFill(s, r).missed;
    hide TakeStep;
    QueuedReport(c, s, s.reports);
    forall x {
      TakeHeld(s, s', r, x);
    }
    IdsSame(s, s');
    TakePhase(c, s, s');
    TakeCore(c, s, s', r, Attributed(s.open, r) in s.open);
  }

  lemma Keep(c: Config, s: State, a: Action)
    requires Inv(c, s) && Enabled(s, a)
    ensures Inv(c, Next(c, s, a))
  {
    hide Inv, Contract, TakeStep, CheckStep, WithdrawStep, DecideStep, SendStep, RegisterStep, PopStep, PushStep,
      NoiseStep;
    match a
    case Noise(m) => KeepNoise(c, s, m);
    case EndFeed => KeepControl(c, s, a);
    case Take => KeepTake(c, s);
    case EndDrain => KeepControl(c, s, a);
    case Check(last) => KeepCheck(c, s, last);
    case Withdraw => KeepWithdraw(c, s);
    case Decide(reservation) => KeepDecide(c, s, reservation);
    case Send => KeepSend(c, s);
    case Register => KeepRegister(c, s);
    case Pop(live', rs) => KeepPop(c, s, live', rs);
    case Push(full) => KeepPush(c, s, full);
    case Done => KeepControl(c, s, a);
  }

  // ---- Whole runs ----

  ghost predicate Runs(c: Config, s: State, acts: seq<Action>)
    decreases acts
  {
    acts == [] || (Enabled(s, acts[0]) && Runs(c, Next(c, s, acts[0]), acts[1..]))
  }

  ghost function Run(c: Config, s: State, acts: seq<Action>): State
    requires Runs(c, s, acts)
    decreases acts
  {
    if acts == [] then s else Run(c, Next(c, s, acts[0]), acts[1..])
  }

  lemma InitInv(c: Config, s: State)
    requires Initial(c, s)
    ensures Inv(c, s)
  {
    assert forall x :: Held(s, x) == 0;
  }

  lemma {:induction false} RunInv(c: Config, s: State, acts: seq<Action>)
    requires Inv(c, s) && Runs(c, s, acts)
    ensures Inv(c, Run(c, s, acts))
    decreases acts
  {
    hide Inv, Enabled, Next;
    if acts != [] {
      Keep(c, s, acts[0]);
      RunInv(c, Next(c, s, acts[0]), acts[1..]);
    }
  }

  /** In every run, whatever the engine fills, in whatever sizes and order: the tracked
      position with everything still exposed stays within the limit, and so does what our
      orders really traded, but for the fills that were missed. */
  lemma PositionLimit(c: Config, s0: State, acts: seq<Action>)
    requires Initial(c, s0) && Runs(c, s0, acts)
    ensures var s := Run(c, s0, acts);
            && s.position + Exposure(s, true) <= c.limit
            && s.position - Exposure(s, false) >= -(c.limit as int)
            && -(c.limit as int) <= s.position <= c.limit
            && -(c.limit as int) <= s.truth - s.missed <= c.limit
  {
    InitInv(c, s0);
    RunInv(c, s0, acts);
    WithinLimit(c, Run(c, s0, acts));
  }

  lemma WithinLimit(c: Config, s: State)
    requires Inv(c, s)
    ensures Limited(c, s)
    ensures -(c.limit as int) <= s.position <= c.limit
    ensures -(c.limit as int) <= s.truth - s.missed <= c.limit
  {
    hide FilledOf, Queued, Get, Ids, Phase, Exposed;
  }

  /** Every quote is computed with nothing of ours in the engine, on its way there or on
      its way back, from a position that lacks only missed fills. */
  lemma FreshAtQuote(c: Config, s0: State, acts: seq<Action>)
    requires Initial(c, s0) && Runs(c, s0, acts) && Run(c, s0, acts).pc == Quoting
    ensures var s := Run(c, s0, acts);
            Fresh(s) && s.position == s.truth - s.missed
  {
    InitInv(c, s0);
    RunInv(c, s0, acts);
    FreshPosition(c, Run(c, s0, acts));
  }

  lemma FreshPosition(c: Config, s: State)
    requires Inv(c, s) && s.pc == Quoting
    ensures Fresh(s) && s.position == s.truth - s.missed
  {
  }
}
