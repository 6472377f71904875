/** When the market maker hears of every fill of its own orders
    (include/hft/market_maker.hpp, on_fill), and what happens when it does not. */
module Attribution {
  import opened Engine
  import opened QuoteLoop
  import PT = PriceTime

  // ---- One stream of reports ----

  function OpenAfter(open: map<nat, bool>, r: Report): map<nat, bool> {
    if Attributed(open, r) in open && r.leaves == 0 then open - {Attributed(open, r)} else open
  }

  /** Reports of our own orders that on_fill returns false for. */
  function Unheard(open: map<nat, bool>, rs: seq<Report>): nat
    decreases rs
  {
    if rs == [] then 0
    else (if Own(Subject(rs[0])) && Attributed(open, rs[0]) !in open then 1 else 0)
         + Unheard(OpenAfter(open, rs[0]), rs[1..])
  }

  ghost predicate OwnKeys(open: map<nat, bool>) {
    forall x :: x in open ==> Own(x)
  }

  ghost predicate KnownSubjects(open: map<nat, bool>, rs: seq<Report>) {
    forall k :: 0 <= k < |rs| && Own(Subject(rs[k])) ==> Subject(rs[k]) in open
  }

  /** Leaves is zero on no report of ours but the last of its order. */
  ghost predicate EndsOnce(rs: seq<Report>) {
    forall i, j :: 0 <= i < j < |rs| && Own(Subject(rs[i])) && Subject(rs[i]) == Subject(rs[j]) ==> rs[i].leaves != 0
  }

  lemma AttributedOwn(open: map<nat, bool>, r: Report)
    requires OwnKeys(open) && (!Own(r.id) || !Own(r.contra))
    ensures Attributed(open, r) in open <==> Subject(r) in open
    ensures Subject(r) in open ==> Attributed(open, r) == Subject(r)
  {
  }

  lemma HeadEndsOnce(rs: seq<Report>)
    requires rs != []
    ensures EndsOnce(rs) <==>
            EndsOnce(rs[1..]) &&
            (Own(Subject(rs[0])) && rs[0].leaves == 0 ==>
               forall j :: 0 <= j < |rs[1..]| ==> Subject(rs[1..][j]) != Subject(rs[0]))
  {
    hide Subject;
    var tail := rs[1..];
    assert forall j :: 0 <= j < |tail| ==> tail[j] == rs[j + 1];
    if EndsOnce(rs) {
      forall i, j | 0 <= i < j < |tail| && Own(Subject(tail[i])) && Subject(tail[i]) == Subject(tail[j])
        ensures tail[i].leaves != 0
      {
        assert rs[i + 1].leaves != 0;
      }
    }
    var last := forall j :: 0 <= j < |tail| ==> Subject(tail[j]) != Subject(rs[0]);
    if EndsOnce(tail) && (Own(Subject(rs[0])) && rs[0].leaves == 0 ==> last) {
      forall i, j | 0 <= i < j < |rs| && Own(Subject(rs[i])) && Subject(rs[i]) == Subject(rs[j])
        ensures rs[i].leaves != 0
      {
        assert rs[j] == tail[j - 1];
      }
    }
  }

  /** Once an order is erased, its later reports are not heard. */
  lemma {:induction false} ErasedUnheard(open: map<nat, bool>, rs: seq<Report>, j: nat)
    requires OwnKeys(open) && NoSelfTrade(rs) && j < |rs| && Own(Subject(rs[j])) && Subject(rs[j]) !in open
    ensures Unheard(open, rs) > 0
    decreases rs
  {
    hide Subject;
    AttributedOwn(open, rs[0]);
    if j > 0 {
      assert rs[1..][j - 1] == rs[j];
      ErasedUnheard(OpenAfter(open, rs[0]), rs[1..], j - 1);
    }
  }

  /** Every report of our registered orders is heard if and only if no report with zero
      leaves is followed by another report of the same order. */
  lemma {:induction false} HeardIff(open: map<nat, bool>, rs: seq<Report>)
    requires OwnKeys(open) && NoSelfTrade(rs) && KnownSubjects(open, rs)
    ensures Unheard(open, rs) == 0 <==> EndsOnce(rs)
    decreases rs
  {
    hide Subject;
    if rs != [] {
      var r, tail, open' := rs[0], rs[1..], OpenAfter(open, rs[0]);
      HeadEndsOnce(rs);
      AttributedOwn(open, r);
      assert forall j :: 0 <= j < |tail| ==> tail[j] == rs[j + 1];
      if Own(Subject(r)) && r.leaves == 0 && exists j :: 0 <= j < |tail| && Subject(tail[j]) == Subject(r) {
        var j :| 0 <= j < |tail| && Subject(tail[j]) == Subject(r);
        ErasedUnheard(open', tail, j);
      } else {
        HeardIff(open', tail);
      }
    }
  }

  // ---- Whole runs ----

  function Undrained(s: State): seq<Report> {
    s.reports + s.pending
  }

  ghost predicate Known(s: State, x: nat) {
    x in s.open || (s.pc.Registering? && x == s.nextId)
  }

  ghost predicate PositiveOwn(rs: seq<Report>) {
    forall k :: 0 <= k < |rs| && Own(Subject(rs[k])) ==> rs[k].qty > 0
  }

  /** A report of ours with zero leaves is the end of its order. */
  ghost predicate Final(s: State, u: seq<Report>, k: nat)
    requires k < |u|
  {
    Own(Subject(u[k])) && u[k].leaves == 0 ==>
      FilledOf(u[k + 1..], Subject(u[k])) == 0 && Remaining(s, Subject(u[k])) == 0
  }

  ghost predicate AllFinal(s: State, u: seq<Report>) {
    forall k :: 0 <= k < |u| ==> Final(s, u, k)
  }

  ghost predicate AllKnown(s: State, u: seq<Report>) {
    forall x :: Own(x) && Remaining(s, x) + FilledOf(u, x) > 0 ==> Known(s, x)
  }

  ghost predicate Heard(s: State) {
    s.missed == 0 && PositiveOwn(Undrained(s)) && AllFinal(s, Undrained(s)) && AllKnown(s, Undrained(s))
  }

  /** No report is dropped, and leaves means what on_fill takes it to mean. */
  ghost predicate Faithful(a: Action) {
    (a.Pop? ==> LeavesAreOurs(a.live, a.rs)) && (a.Push? ==> !a.full)
  }

  lemma {:induction false} FilledConcat(rs: seq<Report>, ts: seq<Report>, id: nat)
    ensures FilledOf(rs + ts, id) == FilledOf(rs, id) + FilledOf(ts, id)
  {
    if rs == [] {
      assert rs + ts == ts;
    } else {
      assert (rs + ts)[1..] == rs[1..] + ts;
      FilledConcat(rs[1..], ts, id);
    }
  }

  lemma {:induction false} SomeFilled(rs: seq<Report>, k: nat)
    requires k < |rs|
    ensures FilledOf(rs, Subject(rs[k])) >= rs[k].qty
  {
    hide Subject;
    if k > 0 {
      assert rs[1..][k - 1] == rs[k];
      SomeFilled(rs[1..], k - 1);
    }
  }

  lemma HeldUndrained(s: State, x: nat)
    ensures Held(s, x) == Remaining(s, x) + FilledOf(Undrained(s), x)
  {
    FilledConcat(s.reports, s.pending, x);
  }

  /** Steps that move no report out and put nothing new of ours in. */
  lemma HeardSame(s: State, s': State)
    requires Heard(s) && Undrained(s') == Undrained(s) && s'.missed == s.missed
    requires forall x :: Own(x) ==> Remaining(s', x) <= Remaining(s, x)
    requires forall x :: Known(s, x) ==> Known(s', x)
    ensures Heard(s')
  {
    hide Remaining, FilledOf, Known, Undrained, Subject;
    forall k | 0 <= k < |Undrained(s')| ensures Final(s', Undrained(s'), k) {
      assert Final(s, Undrained(s), k);
    }
  }

  lemma HeardSend(s: State, s': State, x: nat)
    requires Heard(s) && Undrained(s') == Undrained(s) && s'.missed == s.missed
    requires FilledOf(Undrained(s), x) == 0 && Known(s', x)
    requires forall y :: Own(y) && y != x ==> Remaining(s', y) <= Remaining(s, y)
    requires forall y :: Known(s, y) ==> Known(s', y)
    ensures Heard(s')
  {
    hide Remaining, Known, Undrained, Subject;
    var u := Undrained(s);
    forall k | 0 <= k < |u| ensures Final(s', u, k) {
      assert Final(s, u, k);
      SomeFilled(u, k);
    }
  }

  lemma TailFilled(u: seq<Report>, rs: seq<Report>, k: nat, x: nat)
    requires k < |u|
    ensures FilledOf((u + rs)[k + 1..], x) == FilledOf(u[k + 1..], x) + FilledOf(rs, x)
  {
    assert (u + rs)[k + 1..] == u[k + 1..] + rs;
    FilledConcat(u[k + 1..], rs, x);
  }

  lemma PopFinal(s: State, u: seq<Report>, rs: seq<Report>, s': State, k: nat)
    requires k < |u| + |rs| && AllFinal(s, u) && LeavesAreOurs(s'.live, rs)
    requires forall x :: Own(x) ==> Remaining(s', x) + FilledOf(rs, x) <= Remaining(s, x)
    requires forall x :: Own(x) && FilledOf(rs, x) > 0 && Get(s'.live, x) == 0 ==> Remaining(s', x) == 0
    requires PositiveOwn(rs)
    ensures Final(s', u + rs, k)
  {
    hide Remaining, FilledOf, Subject, Own, Get;
    var v := u + rs;
    if k < |u| {
      assert v[k] == u[k];
      assert Final(s, u, k);
      TailFilled(u, rs, k, Subject(u[k]));
    } else {
      var j := k - |u|;
      assert v[k] == rs[j];
      assert v[k + 1..] == rs[j + 1..];
      SomeFilled(rs, j);
    }
  }

  lemma PositiveConcat(u: seq<Report>, rs: seq<Report>)
    requires PositiveOwn(u) && PositiveOwn(rs)
    ensures PositiveOwn(u + rs)
  {
    hide Subject;
  }

  // ---- Our orders are sent once ----

  /** What a queued message asks for is not live and not asked for again. */
  ghost predicate Once(live: map<nat, nat>, ms: seq<Msg>, k: nat)
    requires k < |ms|
  {
    Own(ms[k].id) && Asked(ms[k], ms[k].id) > 0 ==> Get(live, ms[k].id) == 0 && Queued(ms[k + 1..], ms[k].id) == 0
  }

  ghost predicate AllOnce(live: map<nat, nat>, ms: seq<Msg>) {
    forall k :: 0 <= k < |ms| ==> Once(live, ms, k)
  }

  lemma {:induction false} QueuedAt(ms: seq<Msg>, k: nat, x: nat)
    requires k < |ms|
    ensures Queued(ms, x) >= Asked(ms[k], x)
  {
    if k > 0 {
      assert ms[1..][k - 1] == ms[k];
      QueuedAt(ms[1..], k - 1, x);
    }
  }

  lemma {:induction false} QueuedSome(ms: seq<Msg>, x: nat) returns (k: nat)
    requires Queued(ms, x) > 0
    ensures k < |ms| && Asked(ms[k], x) > 0
  {
    if Asked(ms[0], x) > 0 {
      k := 0;
    } else {
      var j := QueuedSome(ms[1..], x);
      k := j + 1;
    }
  }

  lemma OnceAppend(live: map<nat, nat>, ms: seq<Msg>, m: Msg)
    requires AllOnce(live, ms)
    requires Own(m.id) && Asked(m, m.id) > 0 ==> Queued(ms, m.id) == 0 && Get(live, m.id) == 0
    ensures AllOnce(live, ms + [m])
  {
    hide Queued, Own;
    var ms' := ms + [m];
    forall k | 0 <= k < |ms'| ensures Once(live, ms', k) {
      if k < |ms| {
        assert ms'[k] == ms[k] && Once(live, ms, k);
        assert ms'[k + 1..] == ms[k + 1..] + [m];
        QueuedAppend(ms[k + 1..], m, ms[k].id);
        QueuedAt(ms, k, ms[k].id);
      } else {
        assert ms'[k + 1..] == [];
        NoneQueued([], m.id);
      }
    }
  }

  lemma OnceTail(live: map<nat, nat>, ms: seq<Msg>, live': map<nat, nat>)
    requires ms != [] && AllOnce(live, ms)
    requires forall x :: Own(x) ==> Get(live', x) <= Get(live, x) + Asked(ms[0], x)
    ensures AllOnce(live', ms[1..])
  {
    hide Queued, Own, Get;
    var tail := ms[1..];
    forall k | 0 <= k < |tail| ensures Once(live', tail, k) {
      var x := tail[k].id;
      assert ms[k + 1] == tail[k] && Once(live, ms, k + 1) && Once(live, ms, 0);
      assert tail[k + 1..] == ms[k + 1 + 1..];
      QueuedAt(tail, k, x);
    }
  }

  /** What is live, or is being taken in, is not queued. */
  lemma LiveNotQueued(live: map<nat, nat>, ms: seq<Msg>, x: nat)
    requires ms != [] && AllOnce(live, ms) && Own(x) && Get(live, x) + Asked(ms[0], x) > 0
    ensures Queued(ms[1..], x) == 0
  {
    hide Queued, Own, Get;
    assert Once(live, ms, 0);
    if Queued(ms[1..], x) > 0 {
      var k := QueuedSome(ms[1..], x);
      assert ms[1..][k] == ms[k + 1];
      assert Once(live, ms, k + 1);
    }
  }

  // ---- Every faithful step keeps it ----

  ghost predicate Sound(s: State) {
    Heard(s) && AllOnce(s.live, s.inbound)
  }

  lemma SoundSubmit(s: State, s': State, m: Msg)
    requires Sound(s) && s'.inbound == s.inbound + [m] && s'.live == s.live && (m.kind == NewOrder ==> !Own(m.id))
    requires s'.reports == s.reports && s'.pending == s.pending && s'.missed == s.missed
    requires forall x :: Known(s, x) ==> Known(s', x)
    ensures Sound(s')
  {
    hide Heard, Known, Get, Queued, AllOnce;
    forall x | Own(x) ensures Remaining(s', x) == Remaining(s, x) {
      QueuedAppend(s.inbound, m, x);
    }
    HeardSame(s, s');
    OnceAppend(s.live, s.inbound, m);
  }

  lemma SoundSame(s: State, s': State)
    requires Sound(s) && s'.inbound == s.inbound && s'.live == s.live && s'.missed == s.missed
    requires Undrained(s') == Undrained(s)
    requires forall x :: Known(s, x) ==> Known(s', x)
    ensures Sound(s')
  {
    hide Heard, Known, Undrained, AllOnce;
    HeardSame(s, s');
  }

  lemma SoundPush(c: Config, s: State)
    requires Sound(s) && s.pending != []
    ensures Sound(PushStep(s, false))
  {
    hide Heard, Worth, AllOnce;
    var s' := PushStep(s, false);
    assert Undrained(s') == Undrained(s);
    assert forall x :: Known(s, x) ==> Known(s', x);
    SoundSame(s, s');
  }

  lemma SendUnheld(c: Config, s: State)
    requires Inv(c, s) && s.pc.Posting?
    ensures Held(s, s.nextId) == 0
  {
    hide Held, Limited, Balanced;
  }

  lemma SoundSend(c: Config, s: State)
    requires Inv(c, s) && Sound(s) && s.pc.Posting?
    ensures Sound(SendStep(c, s))
  {
    hide Heard, AllOnce, Inv, FilledOf, Queued, Get;
    var s', n := SendStep(c, s), s.nextId;
    assert Undrained(s') == Undrained(s);
    assert forall x :: Known(s, x) ==> Known(s', x);
    if s'.pc.Registering? {
      var m := QuoteMsg(c, s, s.pc.buy);
      SendUnheld(c, s);
      HeldUndrained(s, n);
      forall y | Own(y) && y != n ensures Remaining(s', y) == Remaining(s, y) {
        QueuedAppend(s.inbound, m, y);
      }
      HeardSend(s, s', n);
      OnceAppend(s.live, s.inbound, m);
    } else {
      SoundSame(s, s');
    }
  }

  lemma PopRemaining(s: State, live': map<nat, nat>, rs: seq<Report>, s': State, x: nat)
    requires s.inbound != [] && Contract(s.live, s.inbound[0], live', rs) && AllOnce(s.live, s.inbound) && Own(x)
    requires s'.inbound == s.inbound[1..] && s'.live == live'
    ensures Remaining(s', x) + FilledOf(rs, x) <= Remaining(s, x)
    ensures FilledOf(rs, x) > 0 && Get(live', x) == 0 ==> Remaining(s', x) == 0
  {
    hide FilledOf, Own, Get, AllOnce;
    if FilledOf(rs, x) > 0 {
      LiveNotQueued(s.live, s.inbound, x);
    }
  }

  lemma SoundPop(s: State, live': map<nat, nat>, rs: seq<Report>)
    requires Sound(s) && s.pending == [] && s.inbound != []
    requires Contract(s.live, s.inbound[0], live', rs) && LeavesAreOurs(live', rs)
    ensures Sound(PopStep(s, live', rs))
  {
    hide FilledOf, Own, Get, AllOnce, Subject, Remaining;
    var s', u := PopStep(s, live', rs), s.reports;
    assert Undrained(s) == u && Undrained(s') == u + rs;
    forall x {
      PopRemainingIf(s, live', rs, s', x);
    }
    forall k | 0 <= k < |u + rs| ensures Final(s', u + rs, k) {
      PopFinal(s, u, rs, s', k);
    }
    PositiveConcat(u, rs);
    forall x | Own(x) && Remaining(s', x) + FilledOf(u + rs, x) > 0 ensures Known(s', x) {
      FilledConcat(u, rs, x);
      assert Known(s, x);
    }
    OnceTail(s.live, s.inbound, live');
  }

  lemma PopRemainingIf(s: State, live': map<nat, nat>, rs: seq<Report>, s': State, x: nat)
    requires s.inbound != [] && Contract(s.live, s.inbound[0], live', rs) && AllOnce(s.live, s.inbound)
    requires s'.inbound == s.inbound[1..] && s'.live == live'
    ensures Own(x) ==> Remaining(s', x) + FilledOf(rs, x) <= Remaining(s, x)
    ensures Own(x) && FilledOf(rs, x) > 0 && Get(live', x) == 0 ==> Remaining(s', x) == 0
  {
    hide Remaining, FilledOf, AllOnce, Contract, Get;
    if Own(x) {
      PopRemaining(s, live', rs, s', x);
    }
  }

  /** The first report of ours is heard, and erased only at its order's end. */
  lemma SoundTake(s: State)
    requires Sound(s) && Ids(s) && NoSelfTrade(s.reports) && s.reports != [] && !s.pc.Registering?
    ensures Sound(TakeStep(s))
  {
    hide Worth, AllOnce, Remaining, Get;
    var s', r, u := TakeStep(s), s.reports[0], Undrained(s);
    var x := Subject(r);
    assert u[0] == r && Undrained(s') == u[1..];
    AttributedOwn(s.open, r);
    assert Final(s, u, 0);
    SomeFilled(u, 0);
    assert Own(x) ==> x in s.open;
    if !Own(x) {
      ForeignWorthless(s, r);
    }
    assert s'.missed == 0;
    assert forall y :: Remaining(s', y) == Remaining(s, y) by { TakeRemaining(s); }
    hide OnFill;
    TailSound(s, s', u);
  }

  lemma ForeignWorthless(s: State, r: Report)
    requires Ids(s) && !Own(Subject(r))
    ensures Worth(s.sides, r) == 0
  {
  }

  lemma TakeRemaining(s: State)
    requires s.reports != []
    ensures forall y :: Remaining(TakeStep(s), y) == Remaining(s, y)
  {
  }

  lemma TailSound(s: State, s': State, u: seq<Report>)
    requires u == Undrained(s) && u != [] && Undrained(s') == u[1..] && Heard(s) && s'.missed == 0
    requires forall y :: Remaining(s', y) == Remaining(s, y)
    requires forall y :: Own(y) && Remaining(s, y) + FilledOf(u[1..], y) > 0 && Known(s, y) ==> Known(s', y)
    ensures Heard(s')
  {
    hide Remaining, Subject, Known, Undrained;
    var v := u[1..];
    forall k | 0 <= k < |v| ensures Final(s', v, k) {
      assert Final(s, u, k + 1);
      assert v[k] == u[k + 1] && v[k + 1..] == u[k + 1 + 1..];
    }
  }

  lemma KnownStep(c: Config, s: State, a: Action)
    requires Enabled(s, a) && !a.Take? && !a.Pop? && !a.Push? && !a.Noise? && !a.Withdraw? && !a.Send?
    ensures var s' := Next(c, s, a);
            && s'.inbound == s.inbound && s'.live == s.live && s'.missed == s.missed
            && Undrained(s') == Undrained(s)
            && forall x :: Known(s, x) ==> Known(s', x)
  {
  }

  lemma SoundWithdraw(s: State)
    requires Sound(s) && s.pc.Cancelling?
    ensures Sound(WithdrawStep(s))
  {
    hide Sound;
    var s', id := WithdrawStep(s), Current(s, s.pc.buy);
    assert forall x :: Known(s, x) ==> Known(s', x);
    if id == 0 {
      SoundSame(s, s');
    } else {
      SoundSubmit(s, s', Msg(CancelOrder, 0, id, 0, 0, false));
    }
  }

  lemma SoundNoise(s: State, m: Msg)
    requires Sound(s) && !Own(m.id) && s.tally.room > 0
    ensures Sound(NoiseStep(s, m))
  {
    hide Sound;
    var s' := NoiseStep(s, m);
    assert forall x :: Known(s, x) ==> Known(s', x);
    SoundSubmit(s, s', m);
  }

  lemma SoundStep(c: Config, s: State, a: Action)
    requires Inv(c, s) && Sound(s) && Enabled(s, a) && Faithful(a)
    ensures Sound(Next(c, s, a))
  {
    hide Sound, TakeStep, WithdrawStep, SendStep, PopStep, PushStep, NoiseStep, Contract, LeavesAreOurs, Ids, Core,
      Phase;
    match a
    case Noise(m) => SoundNoise(s, m);
    case Take => SoundTake(s);
    case Withdraw => SoundWithdraw(s);
    case Send => SoundSend(c, s);
    case Pop(live', rs) => SoundPop(s, live', rs);
    case Push(full) => SoundPush(c, s);
    case _ =>
      KnownStep(c, s, a);
      SoundSame(s, Next(c, s, a));
  }

  ghost predicate AllFaithful(acts: seq<Action>) {
    forall k :: 0 <= k < |acts| ==> Faithful(acts[k])
  }

  lemma {:induction false} SoundRun(c: Config, s: State, acts: seq<Action>)
    requires Inv(c, s) && Sound(s) && Runs(c, s, acts) && AllFaithful(acts)
    ensures Sound(Run(c, s, acts))
    decreases acts
  {
    hide Inv, Sound, Enabled, Next, Faithful;
    if acts != [] {
      Keep(c, s, acts[0]);
      SoundStep(c, s, acts[0]);
      SoundRun(c, Next(c, s, acts[0]), acts[1..]);
    }
  }

  lemma InitSound(c: Config, s: State)
    requires Initial(c, s)
    ensures Sound(s)
  {
  }

  /** If leaves is the remaining size of our own order and no report is dropped, nothing is
      ever missed: the position our orders really gave stays within the limit, and every
      quote is computed from it. */
  lemma TrueLimit(c: Config, s0: State, acts: seq<Action>)
    requires Initial(c, s0) && Runs(c, s0, acts) && AllFaithful(acts)
    ensures var s := Run(c, s0, acts);
            && s.missed == 0
            && -(c.limit as int) <= s.truth <= c.limit
            && (s.pc == Quoting ==> s.position == s.truth)
  {
    hide Inv, Initial;
    InitInv(c, s0);
    InitSound(c, s0);
    SoundRun(c, s0, acts);
    RunInv(c, s0, acts);
    var s := Run(c, s0, acts);
    assert s.missed == 0;
    WithinLimit(c, s);
    if s.pc == Quoting {
      FreshPosition(c, s);
    }
  }

  // ---- The price-time book meets the contract ----

  lemma SizeAmend(a: seq<PT.Arrival>, k: nat, qty: nat, id: nat)
    requires k < |a| && a[k].id != id
    ensures PT.Size(PT.Amend(a, k, qty), id) == PT.Size(a, id)
  {
    hide PT.Size, PT.Without, PT.With;
    PT.SizeWithout(a, k, id);
    PT.SizeWith(a, k, qty, id);
    PT.SizeAppend(PT.Without(a, k), a[k].(qty := qty), id);
  }

  /** What one trade does to our orders: against a stranger's order they lose exactly what
      is reported; our own order loses what it does not have left. */
  ghost predicate Takes(a: seq<PT.Arrival>, id: nat, qty: nat, t: (seq<PT.Arrival>, nat, seq<Report>), x: nat) {
    && t.1 <= qty
    && if Own(id)
       then PT.Size(t.0, x) <= PT.Size(a, x) && FilledOf(t.2, x) == if x == id then qty - t.1 else 0
       else PT.Size(t.0, x) + FilledOf(t.2, x) == PT.Size(a, x)
  }

  lemma TakesStep(a: seq<PT.Arrival>, id: nat, qty: nat, a': seq<PT.Arrival>, t: (seq<PT.Arrival>, nat, seq<Report>),
                  r: Report, x: nat)
    requires r.id == id && r.qty <= qty && Takes(a', id, qty - r.qty, t, x) && Own(x)
    requires PT.Size(a', x) == PT.Size(a, x) - if r.contra == x then r.qty else 0
    ensures Takes(a, id, qty, (t.0, t.1, [r] + t.2), x)
  {
    hide PT.Size;
    assert ([r] + t.2)[1..] == t.2;
  }

  lemma {:induction false} TradeTakes(a: seq<PT.Arrival>, id: nat, price: int, qty: nat, buy: bool, x: nat)
    requires Own(x)
    ensures Takes(a, id, qty, PT.Trade(a, id, price, qty, buy), x)
    decreases |a|, qty
  {
    hide PT.Reaches, PT.Without, PT.With, PT.Size;
    if qty > 0 && exists k: nat :: PT.Reaches(a, buy, price, k) {
      var k: nat :| PT.Reaches(a, buy, price, k);
      PT.TradeIndex(a, buy, price, k);
      PT.TradeStep(a, id, price, qty, buy, k);
      if a[k].qty <= qty {
        var r := Report(id, a[k].id, a[k].price, a[k].qty, qty - a[k].qty, buy);
        PT.SizeWithout(a, k, x);
        TradeTakes(PT.Without(a, k), id, price, qty - a[k].qty, buy, x);
        TakesStep(a, id, qty, PT.Without(a, k), PT.Trade(PT.Without(a, k), id, price, qty - a[k].qty, buy), r, x);
      } else {
        var r, a' := Report(id, a[k].id, a[k].price, qty, 0, buy), PT.With(a, k, a[k].qty - qty);
        PT.SizeWith(a, k, a[k].qty - qty, x);
        assert Takes(a', id, 0, (a', 0, []), x);
        TakesStep(a, id, qty, a', (a', 0, []), r, x);
        assert [r] + [] == [r];
      }
    }
  }

  ghost predicate Stranger(r: Report, id: nat) {
    r.id == id && r.qty > 0 && (Own(id) ==> !Own(r.contra))
  }

  /** No order of ours on the other side is within reach of the price. */
  ghost predicate NoOwnInReach(a: seq<PT.Arrival>, price: int, buy: bool) {
    forall k :: 0 <= k < |a| && a[k].buy != buy && Own(a[k].id) ==> !Crosses(buy, price, a[k].price)
  }

  lemma WithoutReach(a: seq<PT.Arrival>, k: nat, price: int, buy: bool)
    requires k < |a| && NoOwnInReach(a, price, buy) && PT.AllPositive(a)
    ensures NoOwnInReach(PT.Without(a, k), price, buy) && PT.AllPositive(PT.Without(a, k))
  {
    var a' := PT.Without(a, k);
    assert forall j :: 0 <= j < |a'| ==> a'[j] == a[if j < k then j else j + 1];
  }

  lemma {:induction false} TradeStrangers(a: seq<PT.Arrival>, id: nat, price: int, qty: nat, buy: bool)
    requires PT.AllPositive(a) && (Own(id) ==> NoOwnInReach(a, price, buy))
    ensures forall k :: 0 <= k < |PT.Trade(a, id, price, qty, buy).2| ==>
                          Stranger(PT.Trade(a, id, price, qty, buy).2[k], id)
    decreases |a|, qty
  {
    hide PT.Without, PT.With, PT.Best, Crosses;
    if qty > 0 && exists k: nat :: PT.Reaches(a, buy, price, k) {
      var k: nat :| PT.Reaches(a, buy, price, k);
      PT.TradeIndex(a, buy, price, k);
      PT.TradeStep(a, id, price, qty, buy, k);
      if a[k].qty <= qty {
        if Own(id) {
          WithoutReach(a, k, price, buy);
        } else {
          WithoutPositive(a, k);
        }
        TradeStrangers(PT.Without(a, k), id, price, qty - a[k].qty, buy);
      }
    }
  }

  lemma WithoutPositive(a: seq<PT.Arrival>, k: nat)
    requires k < |a| && PT.AllPositive(a)
    ensures PT.AllPositive(PT.Without(a, k))
  {
    var a' := PT.Without(a, k);
    assert forall j :: 0 <= j < |a'| ==> a'[j] == a[if j < k then j else j + 1];
  }

  /** The live sizes are those of our orders in the list. */
  ghost predicate Mirrors(live: map<nat, nat>, a: seq<PT.Arrival>) {
    forall x :: Own(x) ==> Get(live, x) == PT.Size(a, x)
  }

  lemma {:induction false} SizeNone(a: seq<PT.Arrival>, id: nat)
    requires !PT.HasId(a, id)
    ensures PT.Size(a, id) == 0
  {
    if a != [] {
      assert a[|a| - 1].id != id;
      var init := a[..|a| - 1];
      assert forall k :: 0 <= k < |init| ==> init[k] == a[k];
      SizeNone(init, id);
    }
  }

  lemma NewMeets(live: map<nat, nat>, b: Book, a: seq<PT.Arrival>, m: Msg, live': map<nat, nat>)
    requires m.kind == NewOrder && PT.AllPositive(a) && (Own(m.id) ==> NoOwnInReach(a, m.price, m.buy))
    requires Mirrors(live, a) && Mirrors(live', PT.After(b, a, m))
    ensures Contract(live, m, live', PT.ListStep(a, m).1)
  {
    hide PT.Trade, PT.Size, PT.AllPositive, NoOwnInReach, Get, PT.Refused;
    var t := PT.Trade(a, m.id, m.price, m.qty, m.buy);
    TradeStrangers(a, m.id, m.price, m.qty, m.buy);
    var rs := PT.ListStep(a, m).1;
    forall x | Own(x) ensures Get(live', x) + FilledOf(rs, x) <= Get(live, x) + Asked(m, x) {
      TradeTakes(a, m.id, m.price, m.qty, m.buy, x);
      PT.SizeAppend(t.0, PT.Arrival(m.id, m.buy, m.price, t.1), x);
    }
  }

  lemma CancelledSize(a: seq<PT.Arrival>, k: nat)
    requires PT.Distinct(a) && k < |a|
    ensures PT.Size(PT.Without(a, k), a[k].id) == 0
  {
    var a' := PT.Without(a, k);
    assert forall j :: 0 <= j < |a'| ==> a'[j] == a[if j < k then j else j + 1];
    SizeNone(a', a[k].id);
  }

  lemma IdHeld(a: seq<PT.Arrival>, id: nat)
    ensures PT.HasId(a, id) ==> exists k: nat :: PT.Holds(a, id, k)
  {
    if k :| 0 <= k < |a| && a[k].id == id {
      assert PT.Holds(a, id, k);
    }
  }

  lemma OldMeets(live: map<nat, nat>, a: seq<PT.Arrival>, m: Msg, live': map<nat, nat>)
    requires m.kind != NewOrder && PT.Distinct(a) && (m.kind == ModifyOrder ==> !Own(m.id))
    requires Mirrors(live, a) && Mirrors(live', PT.ListStep(a, m).0)
    ensures Contract(live, m, live', PT.ListStep(a, m).1)
  {
    hide PT.Size, PT.Distinct, PT.Without, PT.Amend, Get;
    var a' := PT.ListStep(a, m).0;
    if exists k: nat :: PT.Holds(a, m.id, k) {
      var k: nat :| PT.Holds(a, m.id, k) && a' == if m.kind == CancelOrder then PT.Without(a, k)
          else PT.Amend(a, k, m.qty);
      CancelledSize(a, k);
      forall x | Own(x) ensures PT.Size(a', x) <= PT.Size(a, x) {
        PT.SizeWithout(a, k, x);
        if m.kind == ModifyOrder {
          SizeAmend(a, k, m.qty, x);
        }
      }
    } else {
      IdHeld(a, m.id);
      SizeNone(a, m.id);
    }
  }

  /** The price-time book meets the contract the loop relies on, for every message with a
      fresh id, refused or not: a new order of ours must only not reach our own quote, and the
      loop never amends. */
  lemma BookMeetsContract(live: map<nat, nat>, b: Book, a: seq<PT.Arrival>, m: Msg, live': map<nat, nat>)
    requires PT.Rep(b, a) && PT.FreshId(a, m)
    requires m.kind == NewOrder && Own(m.id) ==> NoOwnInReach(a, m.price, m.buy)
    requires m.kind == ModifyOrder ==> !Own(m.id)
    requires Mirrors(live, a) && Mirrors(live', PT.After(b, a, m))
    ensures Contract(live, m, live', Process(b, m).1)
    ensures PT.Rep(Process(b, m).0, PT.After(b, a, m))
  {
    PT.ProcessAny(b, a, m);
    assert PT.AllPositive(a) && PT.Distinct(a);
    assert m.kind != NewOrder ==> PT.After(b, a, m) == PT.ListStep(a, m).0;
    hide *;
    if m.kind == NewOrder {
      NewMeets(live, b, a, m, live');
    } else {
      OldMeets(live, a, m, live');
    }
  }

  // ---- In the engine, leaves is the aggressor's ----

  /** Our order is the head of the best level of its side. */
  ghost predicate OursAtHead(b: Book, buy: bool, id: nat, qty: nat) {
    var ls := Side(b, buy);
    Own(id) && ls != [] && ls[0].queue != [] && ls[0].queue[0] == Resting(id, qty)
  }

  lemma HitHead(b: Book, buy: bool, id: nat, qty: nat, m: Msg)
    requires OursAtHead(b, buy, id, qty) && m.kind == NewOrder && m.buy == !buy && !Own(m.id) && m.id != 0
    requires 0 < m.qty < qty && Crosses(m.buy, m.price, Side(b, buy)[0].price)
    ensures Process(b, m).1 == [Report(m.id, id, Side(b, buy)[0].price, m.qty, 0, m.buy)]
    ensures OursAtHead(Process(b, m).0, buy, id, qty - m.qty)
    ensures Side(Process(b, m).0, buy)[0].price == Side(b, buy)[0].price
  {
    assert Match(b, m.id, m.price, m.qty, m.buy) ==
           (FillHead(b, m.buy, m.qty), 0, [Report(m.id, id, Side(b, buy)[0].price, m.qty, 0, m.buy)]);
  }

  /** Whatever two smaller orders hit our quote one after the other, the first one's zero
      leaves erases the quote and the second fill is not heard. */
  lemma SecondHitIsMissed(b: Book, buy: bool, id: nat, qty: nat, m: Msg, n: Msg)
    requires OursAtHead(b, buy, id, qty) && m.qty + n.qty < qty
    requires m.kind == NewOrder && m.buy == !buy && !Own(m.id) && 0 < m.id && 0 < m.qty
    requires n.kind == NewOrder && n.buy == !buy && !Own(n.id) && 0 < n.id && 0 < n.qty
    requires Crosses(!buy, m.price, Side(b, buy)[0].price) && Crosses(!buy, n.price, Side(b, buy)[0].price)
    ensures var (b1, r1) := Process(b, m);
            var (b2, r2) := Process(b1, n);
            && r1 != [] && r2 != []
            && Unheard(map[id := buy], r1 + r2) == 1
            && FilledOf(r1 + r2, id) == m.qty + n.qty
  {
    hide Process;
    HitHead(b, buy, id, qty, m);
    var (b1, r1) := Process(b, m);
    HitHead(b1, buy, id, qty - m.qty, n);
    var (b2, r2) := Process(b1, n);
    var r, t := r1[0], r2[0];
    assert r1 + r2 == [r, t];
    TwoReports(id, buy, r, t);
  }

  lemma TwoReports(id: nat, buy: bool, r: Report, t: Report)
    requires Own(id) && r.contra == id && t.contra == id && !Own(r.id) && !Own(t.id) && r.leaves == 0
    ensures Unheard(map[id := buy], [r, t]) == 1 && FilledOf([r, t], id) == r.qty + t.qty
  {
    var open := map[id := buy];
    assert [r, t][1..] == [t] && [t][1..] == [];
    assert OpenAfter(open, r) == map[];
    assert Unheard(OpenAfter(map[], t), []) == 0;
    assert Unheard(map[], [t]) == 1;
    assert FilledOf([t], id) == t.qty;
  }
}
