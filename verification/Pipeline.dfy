/** The pipeline's producer, engine and drain threads, joined by two bounded queues and a
    stop protocol (include/hft/pipeline.hpp; the engine's loop is in
    third_party/options-engine/src/core/matching_engine.cpp). Every interleaving of their
    steps is a run; the engine is any deterministic step function. */
module Pipeline {

  datatype Config<!E, !M, !R> = Config(step: (E, M) -> (E, seq<R>), inCap: nat, outCap: nat)

  /** Submitting or waiting; then the three stages of stop(). */
  datatype Main = Active | Cleared | Stopping | Joined | Stopped

  /** The engine's polling loop, its shutdown loop, and its end. */
  datatype EngineLoop = Polling | Emptying | Ended

  datatype DrainLoop = Draining | Finishing | Exited

  /** `produced` is everything pushed so far, dropped or not; `quiet` records whether the
      engine had nothing left to do when stop() cleared the running flag. */
  datatype State<E, M, R> = State(
    main: Main, loop: EngineLoop, drain: DrainLoop,
    todo: seq<M>, inbound: seq<M>, engine: E, busy: bool, pending: seq<R>, outbound: seq<R>,
    drained: seq<R>, dropped: nat, submitted: nat, accepted: nat, rejects: nat, processed: nat,
    consumed: seq<M>, produced: seq<R>, quiet: bool)

  datatype Action =
    | Submit
    | Clear
    | StopEngine
    | JoinEngine
    | JoinDrain
    | Pop
    | Push
    | Done
    | LeaveLoop
    | EndEngine
    | Poll
    | LeavePolling
    | Exit

  /** The sequential meaning: fold the messages through the engine. */
  ghost function Fold<E, M, R>(step: (E, M) -> (E, seq<R>), e: E, ms: seq<M>): (E, seq<R>)
    decreases ms
  {
    if ms == [] then (e, [])
    else
      var (e', rs) := Fold(step, e, ms[..|ms| - 1]);
      var (e'', r) := step(e', ms[|ms| - 1]);
      (e'', rs + r)
  }

  ghost predicate Initial<E, M, R>(s: State<E, M, R>, e0: E, stream: seq<M>) {
    && s.main == Active && s.loop == Polling && s.drain == Draining
    && s.todo == stream && s.inbound == [] && s.engine == e0 && !s.busy && s.pending == [] && s.outbound == []
    && s.drained == [] && s.dropped == 0 && s.submitted == 0 && s.accepted == 0 && s.rejects == 0 && s.processed == 0
    && s.consumed == [] && s.produced == [] && !s.quiet
  }

  ghost predicate Enabled<E, M, R>(s: State<E, M, R>, a: Action) {
    match a
    case Submit => s.main == Active && s.todo != []
    case Clear => s.main == Active && s.todo == []
    case StopEngine => s.main == Cleared
    case JoinEngine => s.main == Stopping && s.loop == Ended
    case JoinDrain => s.main == Joined && s.drain == Exited
    case Pop => s.loop != Ended && !s.busy && s.inbound != []
    case Push => s.busy && s.pending != []
    case Done => s.busy && s.pending == []
    case LeaveLoop => s.loop == Polling && !s.busy && s.main != Active && s.main != Cleared
    case EndEngine => s.loop == Emptying && !s.busy && s.inbound == []
    case Poll => s.drain != Exited && s.outbound != []
    case LeavePolling => s.drain == Draining && s.main != Active
    case Exit => s.drain == Finishing && s.outbound == []
  }

  /** submit_stream: a full queue rejects and the same message is tried again. */
  function SubmitStep<E, M, R>(inCap: nat, s: State<E, M, R>): State<E, M, R>
    requires s.todo != []
  {
    if |s.inbound| < inCap then
      s.(todo := s.todo[1..], inbound := s.inbound + [s.todo[0]], submitted := s.submitted + 1,
          accepted := s.accepted + 1)
    else s.(submitted := s.submitted + 1, rejects := s.rejects + 1)
  }

  ghost function PopStep<E, M, R>(step: (E, M) -> (E, seq<R>), s: State<E, M, R>): State<E, M, R>
    requires s.inbound != []
  {
    var (e, rs) := step(s.engine, s.inbound[0]);
    s.(inbound := s.inbound[1..], consumed := s.consumed + [s.inbound[0]], engine := e, pending := rs, busy := true)
  }

  /** on_execution: a full report queue drops the report. */
  function PushStep<E, M, R>(outCap: nat, s: State<E, M, R>): State<E, M, R>
    requires s.pending != []
  {
    var r := s.pending[0];
    var s' := s.(pending := s.pending[1..], produced := s.produced + [r]);
    if |s.outbound| < outCap then s'.(outbound := s.outbound + [r]) else s'.(dropped := s.dropped + 1)
  }

  ghost function Next<E, M, R>(c: Config<E, M, R>, s: State<E, M, R>, a: Action): State<E, M, R>
    requires Enabled(s, a)
  {
    match a
    case Submit => SubmitStep(c.inCap, s)
    case Clear => s.(main := Cleared, quiet := s.inbound == [] && !s.busy)
    case StopEngine => s.(main := Stopping)
    case JoinEngine => s.(main := Joined)
    case JoinDrain => s.(main := Stopped)
    case Pop => PopStep(c.step, s)
    case Push => PushStep(c.outCap, s)
    case Done => s.(busy := false, processed := if s.loop == Polling then s.processed + 1 else s.processed)
    case LeaveLoop => s.(loop := Emptying)
    case EndEngine => s.(loop := Ended)
    case Poll => s.(drained := s.drained + [s.outbound[0]], outbound := s.outbound[1..])
    case LeavePolling => s.(drain := Finishing)
    case Exit => s.(drain := Exited)
  }

  // ---- What every step keeps ----

  /** Messages are neither lost nor reordered, and the counters count them. */
  ghost predicate InOrder<E, M, R>(s: State<E, M, R>, stream: seq<M>) {
    && s.consumed + s.inbound + s.todo == stream
    && s.accepted == |s.consumed| + |s.inbound|
    && s.submitted == s.accepted + s.rejects
    && (s.loop == Polling ==> s.processed + (if s.busy then 1 else 0) == |s.consumed|)
    && (s.quiet ==> s.processed == |s.consumed|)
  }

  /** The engine has folded exactly the messages it consumed. */
  ghost predicate Folded<E, M, R>(c: Config<E, M, R>, s: State<E, M, R>, e0: E) {
    && Fold(c.step, e0, s.consumed) == (s.engine, s.produced + s.pending)
    && (!s.busy ==> s.pending == [])
  }

  /** Reports are drained in order, each once, unless some were dropped. */
  ghost predicate Delivered<E, M, R>(s: State<E, M, R>) {
    && |s.produced| == |s.drained| + |s.outbound| + s.dropped
    && (s.dropped == 0 ==> s.drained + s.outbound == s.produced)
  }

  ghost predicate StopOrder<E, M, R>(s: State<E, M, R>) {
    && (s.main != Active ==> s.todo == [])
    && (s.loop != Polling ==> s.main != Active && s.main != Cleared)
    && (s.loop == Ended ==> s.inbound == [] && !s.busy)
    && (s.main == Joined || s.main == Stopped ==> s.loop == Ended)
    && (s.drain != Draining ==> s.main != Active)
    && (s.main == Stopped ==> s.drain == Exited)
    && (s.main == Active ==> !s.quiet)
    && (s.quiet ==> s.inbound == [] && !s.busy && (s.drain == Exited ==> s.outbound == []))
  }

  ghost predicate Inv<E, M, R>(c: Config<E, M, R>, s: State<E, M, R>, e0: E, stream: seq<M>) {
    InOrder(s, stream) && Folded(c, s, e0) && Delivered(s) && StopOrder(s)
  }

  lemma FoldSnoc<E, M, R>(step: (E, M) -> (E, seq<R>), e: E, ms: seq<M>, m: M)
    ensures Fold(step, e, ms + [m]) ==
            var (e', rs) := Fold(step, e, ms);
            var (e'', r) := step(e', m);
            (e'', rs + r)
  {
    assert (ms + [m])[..|ms|] == ms;
  }

  lemma KeepSubmit<E, M, R>(c: Config<E, M, R>, s: State<E, M, R>, e0: E, stream: seq<M>)
    requires Inv(c, s, e0, stream) && s.main == Active && s.todo != []
    ensures Inv(c, SubmitStep(c.inCap, s), e0, stream)
  {
    hide Fold;
    var s' := SubmitStep(c.inCap, s);
    if |s.inbound| < c.inCap {
      assert s.todo == [s.todo[0]] + s.todo[1..];
      assert s'.consumed + s'.inbound + s'.todo == s.consumed + s.inbound + s.todo;
    }
  }

  lemma KeepPop<E, M, R>(c: Config<E, M, R>, s: State<E, M, R>, e0: E, stream: seq<M>)
    requires Inv(c, s, e0, stream) && s.loop != Ended && !s.busy && s.inbound != []
    ensures Inv(c, PopStep(c.step, s), e0, stream)
  {
    hide Fold;
    var s', m := PopStep(c.step, s), s.inbound[0];
    FoldSnoc(c.step, e0, s.consumed, m);
    assert s.produced + s.pending == s.produced;
    assert s.inbound == [m] + s.inbound[1..];
    assert s'.consumed + s'.inbound + s'.todo == s.consumed + s.inbound + s.todo;
  }

  lemma KeepPush<E, M, R>(c: Config<E, M, R>, s: State<E, M, R>, e0: E, stream: seq<M>)
    requires Inv(c, s, e0, stream) && s.busy && s.pending != []
    ensures Inv(c, PushStep(c.outCap, s), e0, stream)
  {
    hide Fold;
    var s', r := PushStep(c.outCap, s), s.pending[0];
    assert s.pending == [r] + s.pending[1..];
    assert s'.produced + s'.pending == s.produced + s.pending;
    if s'.dropped == 0 {
      assert s'.drained + s'.outbound == (s.drained + s.outbound) + [r];
    }
  }

  lemma KeepPoll<E, M, R>(c: Config<E, M, R>, s: State<E, M, R>, e0: E, stream: seq<M>)
    requires Inv(c, s, e0, stream) && s.drain != Exited && s.outbound != []
    ensures Inv(c, Next(c, s, Poll), e0, stream)
  {
    hide Fold;
    var s' := Next(c, s, Poll);
    assert s.outbound == [s.outbound[0]] + s.outbound[1..];
    assert s'.drained + s'.outbound == s.drained + s.outbound;
  }

  lemma Keep<E, M, R>(c: Config<E, M, R>, s: State<E, M, R>, a: Action, e0: E, stream: seq<M>)
    requires Inv(c, s, e0, stream) && Enabled(s, a)
    ensures Inv(c, Next(c, s, a), e0, stream)
  {
    hide Fold, SubmitStep, PopStep, PushStep;
    match a
    case Submit => KeepSubmit(c, s, e0, stream);
    case Pop => KeepPop(c, s, e0, stream);
    case Push => KeepPush(c, s, e0, stream);
    case Poll => KeepPoll(c, s, e0, stream);
    case _ =>
  }

  ghost predicate Runs<E, M, R>(c: Config<E, M, R>, s: State<E, M, R>, acts: seq<Action>)
    decreases acts
  {
    acts == [] || (Enabled(s, acts[0]) && Runs(c, Next(c, s, acts[0]), acts[1..]))
  }

  ghost function Run<E, M, R>(c: Config<E, M, R>, s: State<E, M, R>, acts: seq<Action>): State<E, M, R>
    requires Runs(c, s, acts)
    decreases acts
  {
    if acts == [] then s else Run(c, Next(c, s, acts[0]), acts[1..])
  }

  lemma {:induction false} RunInv<E, M, R>(c: Config<E, M, R>, s: State<E, M, R>, acts: seq<Action>, e0: E,
                                           stream: seq<M>)
    requires Inv(c, s, e0, stream) && Runs(c, s, acts)
    ensures Inv(c, Run(c, s, acts), e0, stream)
    decreases acts
  {
    hide Inv, Enabled, Next;
    if acts != [] {
      Keep(c, s, acts[0], e0, stream);
      RunInv(c, Next(c, s, acts[0]), acts[1..], e0, stream);
    }
  }

  lemma InitInv<E, M, R>(c: Config<E, M, R>, s: State<E, M, R>, e0: E, stream: seq<M>)
    requires Initial(s, e0, stream)
    ensures Inv(c, s, e0, stream)
  {
    assert s.consumed + s.inbound + s.todo == stream;
  }

  // ---- Schedule independence ----

  /** wait_until_drained returned because the count caught up: the engine is quiescent, so
      stop() finds it quiet. */
  lemma WaitMakesQuiet<E, M, R>(c: Config<E, M, R>, s0: State<E, M, R>, acts: seq<Action>, e0: E, stream: seq<M>)
    requires Initial(s0, e0, stream) && Runs(c, s0, acts)
    requires var s := Run(c, s0, acts); s.main == Active && s.processed >= |stream|
    ensures var s := Run(c, s0, acts);
            s.todo == [] && s.inbound == [] && !s.busy && s.pending == [] && Enabled(s, Clear)
                && Next(c, s, Clear).quiet
  {
    InitInv(c, s0, e0, stream);
    RunInv(c, s0, acts, e0, stream);
    AllProcessed(c, Run(c, s0, acts), e0, stream);
  }

  lemma AllProcessed<E, M, R>(c: Config<E, M, R>, s: State<E, M, R>, e0: E, stream: seq<M>)
    requires Inv(c, s, e0, stream) && s.main == Active && s.processed >= |stream|
    ensures s.todo == [] && s.inbound == [] && !s.busy && s.pending == []
  {
    hide Fold;
    assert |s.consumed| + |s.inbound| + |s.todo| == |stream|;
  }

  /** Every schedule, at every moment: submissions are accepted or rejected, the accepted
      ones are a prefix of the stream in order, and the engine has folded a prefix of them. */
  lemma Conservation<E, M, R>(c: Config<E, M, R>, s0: State<E, M, R>, acts: seq<Action>, e0: E, stream: seq<M>)
    requires Initial(s0, e0, stream) && Runs(c, s0, acts)
    ensures var s := Run(c, s0, acts);
            && s.submitted == s.accepted + s.rejects
            && s.accepted <= |stream| && s.consumed + s.inbound == stream[..s.accepted]
            && Fold(c.step, e0, s.consumed) == (s.engine, s.produced + s.pending)
            && |s.drained| + |s.outbound| + s.dropped == |s.produced|
            && (s.dropped == 0 ==> s.drained <= s.produced)
  {
    InitInv(c, s0, e0, stream);
    RunInv(c, s0, acts, e0, stream);
    PrefixAccepted(c, Run(c, s0, acts), e0, stream);
  }

  lemma PrefixAccepted<E, M, R>(c: Config<E, M, R>, s: State<E, M, R>, e0: E, stream: seq<M>)
    requires Inv(c, s, e0, stream)
    ensures s.accepted <= |stream| && s.consumed + s.inbound == stream[..s.accepted]
    ensures s.dropped == 0 ==> s.drained <= s.produced
  {
    hide Fold;
    assert stream == (s.consumed + s.inbound) + s.todo;
  }

  /** Every schedule that stops a quiet engine and drops nothing has drained exactly the
      reports of the sequential fold, in order, each once, and counted every message. */
  lemma ScheduleIndependence<E, M, R>(c: Config<E, M, R>, s0: State<E, M, R>, acts: seq<Action>, e0: E, stream: seq<M>)
    requires Initial(s0, e0, stream) && Runs(c, s0, acts)
    requires var s := Run(c, s0, acts); s.main == Stopped && s.quiet && s.dropped == 0
    ensures var s := Run(c, s0, acts);
            && Fold(c.step, e0, stream) == (s.engine, s.drained)
            && s.accepted == s.processed == |stream|
  {
    InitInv(c, s0, e0, stream);
    RunInv(c, s0, acts, e0, stream);
    StoppedQuiet(c, Run(c, s0, acts), e0, stream);
  }

  /** Two schedules of one stream, with any queue sizes, report the same fills. */
  lemma SameReports<E, M, R>(c: Config<E, M, R>, c': Config<E, M, R>, s: State<E, M, R>, s': State<E, M, R>,
                             acts: seq<Action>, acts': seq<Action>, e0: E, stream: seq<M>)
    requires c'.step == c.step && Initial(s, e0, stream) && Initial(s', e0, stream) && Runs(c, s, acts)
             && Runs(c', s', acts')
    requires var t := Run(c, s, acts); t.main == Stopped && t.quiet && t.dropped == 0
    requires var t := Run(c', s', acts'); t.main == Stopped && t.quiet && t.dropped == 0
    ensures Run(c, s, acts).drained == Run(c', s', acts').drained
    ensures Run(c, s, acts).engine == Run(c', s', acts').engine
  {
    hide *;
    ScheduleIndependence(c, s, acts, e0, stream);
    ScheduleIndependence(c', s', acts', e0, stream);
  }

  /** Whatever was drained or dropped, a stopped engine has folded the whole stream, and has
      counted all of it if it was quiet at the stop. */
  lemma StoppedEngine<E, M, R>(c: Config<E, M, R>, s0: State<E, M, R>, acts: seq<Action>, e0: E, stream: seq<M>)
    requires Initial(s0, e0, stream) && Runs(c, s0, acts) && Run(c, s0, acts).main == Stopped
    ensures Run(c, s0, acts).engine == Fold(c.step, e0, stream).0
    ensures Run(c, s0, acts).quiet ==> Run(c, s0, acts).processed == |stream|
  {
    InitInv(c, s0, e0, stream);
    RunInv(c, s0, acts, e0, stream);
    var s := Run(c, s0, acts);
    hide Fold, Run;
    assert s.consumed + s.inbound + s.todo == s.consumed;
  }

  lemma StoppedQuiet<E, M, R>(c: Config<E, M, R>, s: State<E, M, R>, e0: E, stream: seq<M>)
    requires Inv(c, s, e0, stream) && s.main == Stopped && s.quiet && s.dropped == 0
    ensures Fold(c.step, e0, stream) == (s.engine, s.drained) && s.accepted == s.processed == |stream|
  {
    hide Fold;
    assert s.consumed + s.inbound + s.todo == s.consumed;
    assert s.produced + s.pending == s.produced;
    assert s.drained + s.outbound == s.drained;
  }

  // ---- Exactly when the report queue can overflow ----

  lemma {:induction false} FoldAppend<E, M, R>(step: (E, M) -> (E, seq<R>), e: E, ms: seq<M>, ns: seq<M>)
    ensures Fold(step, e, ms + ns) ==
            var (e', rs) := Fold(step, e, ms);
            var (e'', ts) := Fold(step, e', ns);
            (e'', rs + ts)
    decreases ns
  {
    if ns == [] {
      assert ms + ns == ms;
      assert Fold(step, e, ms).1 + [] == Fold(step, e, ms).1;
    } else {
      var init, m := ns[..|ns| - 1], ns[|ns| - 1];
      assert ms + ns == (ms + init) + [m] && ns == init + [m];
      FoldAppend(step, e, ms, init);
      FoldSnoc(step, e, ms + init, m);
      FoldSnoc(step, Fold(step, e, ms).0, init, m);
      AssocReports(Fold(step, e, ms).1, Fold(step, Fold(step, e, ms).0, init).1, step(Fold(step, e, ms + init).0, m).1);
    }
  }

  lemma AssocReports<R>(a: seq<R>, b: seq<R>, c: seq<R>)
    ensures (a + b) + c == a + (b + c)
  {
  }

  /** What is still to be reported, from any state of a run. */
  lemma Outstanding<E, M, R>(c: Config<E, M, R>, s: State<E, M, R>, e0: E, stream: seq<M>)
    requires Inv(c, s, e0, stream)
    ensures |Fold(c.step, e0, stream).1| == |s.produced| + |s.pending| + |Fold(c.step, s.engine, s.inbound + s.todo).1|
  {
    assert stream == s.consumed + (s.inbound + s.todo);
    hide Fold;
    FoldAppend(c.step, e0, s.consumed, s.inbound + s.todo);
  }

  lemma {:induction false} NeverDrops<E, M, R>(c: Config<E, M, R>, s: State<E, M, R>, acts: seq<Action>, e0: E,
      stream: seq<M>)
    requires Inv(c, s, e0, stream) && Runs(c, s, acts) && s.dropped == 0 && |Fold(c.step, e0, stream).1| <= c.outCap
    ensures Run(c, s, acts).dropped == 0
    decreases acts
  {
    if acts != [] {
      var a := acts[0];
      Outstanding(c, s, e0, stream);
      Keep(c, s, a, e0, stream);
      assert Next(c, s, a).dropped == 0 by { RoomToPush(c, s, a, e0, stream); }
      hide Inv, Enabled, Next, Fold;
      NeverDrops(c, Next(c, s, a), acts[1..], e0, stream);
    }
  }

  lemma RoomToPush<E, M, R>(c: Config<E, M, R>, s: State<E, M, R>, a: Action, e0: E, stream: seq<M>)
    requires Inv(c, s, e0, stream) && Enabled(s, a) && s.dropped == 0 && |s.produced| + |s.pending| <= c.outCap
    ensures Next(c, s, a).dropped == 0
  {
    hide Fold;
  }

  ghost predicate Path<E, M, R>(c: Config<E, M, R>, s: State<E, M, R>, t: State<E, M, R>) {
    exists acts :: Runs(c, s, acts) && Run(c, s, acts) == t
  }

  lemma {:induction false} RunConcat<E, M, R>(c: Config<E, M, R>, s: State<E, M, R>, xs: seq<Action>, ys: seq<Action>)
    requires Runs(c, s, xs) && Runs(c, Run(c, s, xs), ys)
    ensures Runs(c, s, xs + ys) && Run(c, s, xs + ys) == Run(c, Run(c, s, xs), ys)
    decreases xs
  {
    hide Enabled, Next;
    if xs == [] {
      assert xs + ys == ys;
    } else {
      assert (xs + ys)[0] == xs[0] && (xs + ys)[1..] == xs[1..] + ys;
      RunConcat(c, Next(c, s, xs[0]), xs[1..], ys);
    }
  }

  lemma Stay<E, M, R>(c: Config<E, M, R>, s: State<E, M, R>)
    ensures Path(c, s, s)
  {
    assert Runs(c, s, []) && Run(c, s, []) == s;
  }

  lemma Trans<E, M, R>(c: Config<E, M, R>, s: State<E, M, R>, t: State<E, M, R>, u: State<E, M, R>)
    requires Path(c, s, t) && Path(c, t, u)
    ensures Path(c, s, u)
  {
    hide Runs, Run;
    var xs :| Runs(c, s, xs) && Run(c, s, xs) == t;
    var ys :| Runs(c, t, ys) && Run(c, t, ys) == u;
    RunConcat(c, s, xs, ys);
  }

  lemma Then<E, M, R>(c: Config<E, M, R>, s: State<E, M, R>, t: State<E, M, R>, a: Action)
    requires Path(c, s, t) && Enabled(t, a)
    ensures Path(c, s, Next(c, t, a))
  {
    hide Enabled, Next;
    assert [a][0] == a && [a][1..] == [];
    assert Runs(c, Next(c, t, a), []);
    assert Runs(c, t, [a]) && Run(c, t, [a]) == Run(c, Next(c, t, a), []);
    Trans(c, s, t, Next(c, t, a));
  }

  /** What the engine's own steps leave alone. */
  ghost predicate EngineOnly<E, M, R>(s: State<E, M, R>, t: State<E, M, R>) {
    t.main == s.main && t.loop == s.loop && t.drain == s.drain && t.drained == s.drained && t.todo == s.todo
  }

  /** The engine alone can work off everything queued. */
  lemma {:induction false} Flush<E, M, R>(c: Config<E, M, R>, s: State<E, M, R>) returns (t: State<E, M, R>)
    requires s.loop != Ended
    ensures Path(c, s, t) && EngineOnly(s, t) && t.inbound == [] && !t.busy
    decreases |s.inbound|, s.busy, |s.pending|
  {
    Stay(c, s);
    if s.busy || s.inbound != [] {
      var a := if s.busy then (if s.pending != [] then Push else Done) else Pop;
      var s' := Next(c, s, a);
      Then(c, s, s, a);
      t := Flush(c, s');
      hide Path;
      Trans(c, s, s', t);
    } else {
      t := s;
    }
  }

  /** With room for one message the whole stream can be processed before anything is drained. */
  lemma {:induction false} Flood<E, M, R>(c: Config<E, M, R>, s: State<E, M, R>) returns (t: State<E, M, R>)
    requires c.inCap >= 1 && s.main == Active && s.loop == Polling && s.inbound == [] && !s.busy
    ensures Path(c, s, t) && t.todo == [] && t.inbound == [] && !t.busy && t.drained == s.drained && t.main == Active
    decreases |s.todo|
  {
    Stay(c, s);
    if s.todo == [] {
      t := s;
    } else {
      hide Path;
      var s1 := SubmitStep(c.inCap, s);
      Then(c, s, s, Submit);
      var s2 := Flush(c, s1);
      Trans(c, s, s1, s2);
      t := Flood(c, s2);
      Trans(c, s, s2, t);
    }
  }

  lemma {:induction false} OutboundBounded<E, M, R>(c: Config<E, M, R>, s: State<E, M, R>, acts: seq<Action>)
    requires Runs(c, s, acts) && |s.outbound| <= c.outCap
    ensures |Run(c, s, acts).outbound| <= c.outCap
    decreases acts
  {
    if acts != [] {
      OutboundBounded(c, Next(c, s, acts[0]), acts[1..]);
    }
  }

  ghost predicate SomeDropped<E, M, R>(s: State<E, M, R>) {
    s.dropped > 0
  }

  lemma FloodDrops<E, M, R>(c: Config<E, M, R>, s0: State<E, M, R>, e0: E, stream: seq<M>) returns (t: State<E, M, R>)
    requires Initial(s0, e0, stream) && c.inCap >= 1 && |Fold(c.step, e0, stream).1| > c.outCap
    ensures Path(c, s0, t) && SomeDropped(t)
  {
    hide Fold;
    t := Flood(c, s0);
    var acts :| Runs(c, s0, acts) && Run(c, s0, acts) == t;
    InitInv(c, s0, e0, stream);
    RunInv(c, s0, acts, e0, stream);
    OutboundBounded(c, s0, acts);
    Outstanding(c, t, e0, stream);
    NothingQueued(c.step, t.engine, t.inbound + t.todo);
  }

  lemma NothingQueued<E, M, R>(step: (E, M) -> (E, seq<R>), e: E, ms: seq<M>)
    requires |ms| == 0
    ensures Fold(step, e, ms) == (e, [])
  {
  }

  /** No schedule drops a report if and only if the stream's reports all fit the queue. */
  lemma NoDropIff<E, M, R>(c: Config<E, M, R>, s0: State<E, M, R>, e0: E, stream: seq<M>)
    requires Initial(s0, e0, stream) && c.inCap >= 1
    ensures (forall t :: Path(c, s0, t) ==> !SomeDropped(t)) <==> |Fold(c.step, e0, stream).1| <= c.outCap
  {
    hide Fold;
    if |Fold(c.step, e0, stream).1| <= c.outCap {
      forall t | Path(c, s0, t) ensures !SomeDropped(t) {
        var acts :| Runs(c, s0, acts) && Run(c, s0, acts) == t;
        InitInv(c, s0, e0, stream);
        NeverDrops(c, s0, acts, e0, stream);
      }
    } else {
      var t := FloodDrops(c, s0, e0, stream);
    }
  }

  // ---- Exactly when nothing is rejected ----

  lemma {:induction false} NeverRejects<E, M, R>(c: Config<E, M, R>, s: State<E, M, R>, acts: seq<Action>, e0: E,
      stream: seq<M>)
    requires Inv(c, s, e0, stream) && Runs(c, s, acts) && s.rejects == 0 && |stream| <= c.inCap
    ensures Run(c, s, acts).rejects == 0
    decreases acts
  {
    if acts != [] {
      var a := acts[0];
      Keep(c, s, a, e0, stream);
      RoomToSubmit(c, s, a, e0, stream);
      hide Inv, Enabled, Next, Fold;
      NeverRejects(c, Next(c, s, a), acts[1..], e0, stream);
    }
  }

  lemma RoomToSubmit<E, M, R>(c: Config<E, M, R>, s: State<E, M, R>, a: Action, e0: E, stream: seq<M>)
    requires Inv(c, s, e0, stream) && Enabled(s, a) && s.rejects == 0 && |stream| <= c.inCap
    ensures Next(c, s, a).rejects == 0
  {
    hide Fold;
    assert |s.consumed| + |s.inbound| + |s.todo| == |stream|;
  }

  ghost predicate SomeRejected<E, M, R>(s: State<E, M, R>) {
    s.rejects > 0
  }

  /** A producer that runs alone fills the queue and is rejected. */
  lemma {:induction false} SubmitOnly<E, M, R>(c: Config<E, M, R>, s: State<E, M, R>) returns (t: State<E, M, R>)
    requires s.main == Active && |s.inbound| <= c.inCap && |s.inbound| + |s.todo| > c.inCap
    ensures Path(c, s, t) && SomeRejected(t)
    decreases |s.todo|
  {
    Stay(c, s);
    var s' := SubmitStep(c.inCap, s);
    Then(c, s, s, Submit);
    if |s.inbound| < c.inCap {
      t := SubmitOnly(c, s');
      hide Path;
      Trans(c, s, s', t);
    } else {
      t := s';
    }
  }

  /** No schedule rejects a submission if and only if the whole stream fits the queue. */
  lemma NoRejectIff<E, M, R>(c: Config<E, M, R>, s0: State<E, M, R>, e0: E, stream: seq<M>)
    requires Initial(s0, e0, stream)
    ensures (forall t :: Path(c, s0, t) ==> !SomeRejected(t)) <==> |stream| <= c.inCap
  {
    hide Fold;
    if |stream| <= c.inCap {
      forall t | Path(c, s0, t) ensures !SomeRejected(t) {
        var acts :| Runs(c, s0, acts) && Run(c, s0, acts) == t;
        InitInv(c, s0, e0, stream);
        NeverRejects(c, s0, acts, e0, stream);
      }
    } else {
      var t := SubmitOnly(c, s0);
    }
  }

  /** So a stream that fits is submitted exactly once by every schedule that finishes. */
  lemma SubmittedOnce<E, M, R>(c: Config<E, M, R>, s0: State<E, M, R>, acts: seq<Action>, e0: E, stream: seq<M>)
    requires Initial(s0, e0, stream) && Runs(c, s0, acts) && Run(c, s0, acts).main != Active && |stream| <= c.inCap
    ensures Run(c, s0, acts).submitted == Run(c, s0, acts).accepted == |stream|
  {
    InitInv(c, s0, e0, stream);
    RunInv(c, s0, acts, e0, stream);
    NeverRejects(c, s0, acts, e0, stream);
    var s := Run(c, s0, acts);
    hide Fold, Run;
    assert |s.consumed| + |s.inbound| + |s.todo| == |stream|;
  }

  // ---- Exactly when stopping early loses nothing ----

  /** Everything the stream reports has been pushed, and a drain that exits has it all. */
  ghost predicate AllPushed<E, M, R>(c: Config<E, M, R>, s: State<E, M, R>, e0: E, stream: seq<M>) {
    |s.produced| == |Fold(c.step, e0, stream).1| && s.dropped == 0 && (s.drain == Exited ==> s.outbound == [])
  }

  lemma PushedStep<E, M, R>(c: Config<E, M, R>, s: State<E, M, R>, a: Action, e0: E, stream: seq<M>)
    requires Inv(c, s, e0, stream) && Enabled(s, a) && AllPushed(c, s, e0, stream)
    ensures AllPushed(c, Next(c, s, a), e0, stream)
  {
    Outstanding(c, s, e0, stream);
    hide Fold, Inv;
    assert s.pending == [];
  }

  lemma {:induction false} PushedRun<E, M, R>(c: Config<E, M, R>, s: State<E, M, R>, acts: seq<Action>, e0: E,
                                              stream: seq<M>)
    requires Inv(c, s, e0, stream) && Runs(c, s, acts) && AllPushed(c, s, e0, stream)
    ensures AllPushed(c, Run(c, s, acts), e0, stream)
    decreases acts
  {
    hide Fold;
    if acts != [] {
      var a := acts[0];
      hide Inv, Next, Enabled, AllPushed;
      Keep(c, s, a, e0, stream);
      PushedStep(c, s, a, e0, stream);
      PushedRun(c, Next(c, s, a), acts[1..], e0, stream);
    }
  }

  ghost predicate Complete<E, M, R>(c: Config<E, M, R>, t: State<E, M, R>, e0: E, stream: seq<M>) {
    t.main == Stopped ==> t.drained == Fold(c.step, e0, stream).1
  }

  lemma PushedComplete<E, M, R>(c: Config<E, M, R>, t: State<E, M, R>, e0: E, stream: seq<M>)
    requires Inv(c, t, e0, stream) && AllPushed(c, t, e0, stream)
    ensures Complete(c, t, e0, stream)
  {
    if t.main == Stopped {
      hide Fold;
      assert t.consumed + t.inbound + t.todo == t.consumed;
      assert t.produced + t.pending == t.produced;
      assert t.drained + t.outbound == t.drained;
    }
  }

  /** The drain can empty its queue and exit before the engine is done. */
  lemma {:induction false} EmptyOut<E, M, R>(c: Config<E, M, R>, s: State<E, M, R>) returns (t: State<E, M, R>)
    requires s.drain == Finishing
    ensures Path(c, s, t) && t == s.(outbound := [], drained := s.drained + s.outbound)
    decreases |s.outbound|
  {
    Stay(c, s);
    if s.outbound == [] {
      t := s;
      assert s.drained + s.outbound == s.drained;
    } else {
      hide Path;
      var s' := Next(c, s, Poll);
      Then(c, s, s, Poll);
      t := EmptyOut(c, s');
      Trans(c, s, s', t);
      assert s'.drained + s'.outbound == s.drained + s.outbound;
    }
  }

  lemma EarlyExit<E, M, R>(c: Config<E, M, R>, s: State<E, M, R>) returns (t: State<E, M, R>)
    requires s.main == Cleared && s.drain == Draining && s.loop == Polling
    ensures Path(c, s, t) && t.main == Stopped && t.drained == s.drained + s.outbound
  {
    hide Path;
    Stay(c, s);
    var s1 := s.(drain := Finishing);
    Then(c, s, s, LeavePolling);
    var s2 := EmptyOut(c, s1);
    Trans(c, s, s1, s2);
    var s3 := s2.(drain := Exited);
    Then(c, s, s2, Exit);
    t := FinishStop(c, s, s3);
  }

  lemma FinishStop<E, M, R>(c: Config<E, M, R>, s: State<E, M, R>, s3: State<E, M, R>) returns (t: State<E, M, R>)
    requires Path(c, s, s3) && s3.main == Cleared && s3.drain == Exited && s3.loop == Polling
    ensures Path(c, s, t) && t.main == Stopped && t.drained == s3.drained
  {
    hide Path;
    var s4 := s3.(main := Stopping);
    Then(c, s, s3, StopEngine);
    var s5 := Flush(c, s4);
    Trans(c, s, s4, s5);
    Then(c, s, s5, LeaveLoop);
    var s6 := s5.(loop := Emptying);
    Then(c, s, s6, EndEngine);
    var s7 := s6.(loop := Ended);
    Then(c, s, s7, JoinEngine);
    var s8 := s7.(main := Joined);
    Then(c, s, s8, JoinDrain);
    t := s8.(main := Stopped);
  }

  /** When stop() clears the flag, every way to finish delivers all reports if and only if the
      engine has none left to make: otherwise the drain may exit first and the tail is lost. */
  lemma TailIff<E, M, R>(c: Config<E, M, R>, s: State<E, M, R>, e0: E, stream: seq<M>)
    requires Inv(c, s, e0, stream) && s.main == Cleared && s.drain == Draining && s.dropped == 0
    ensures (forall t :: Path(c, s, t) ==> Complete(c, t, e0, stream))
       <==> (s.pending == [] && Fold(c.step, s.engine, s.inbound).1 == [])
  {
    hide Fold;
    assert s.todo == [] && s.loop == Polling;
    assert s.inbound + s.todo == s.inbound;
    Outstanding(c, s, e0, stream);
    if s.pending == [] && Fold(c.step, s.engine, s.inbound).1 == [] {
      forall t | Path(c, s, t) ensures Complete(c, t, e0, stream) {
        TailDelivered(c, s, t, e0, stream);
      }
    } else {
      var t := EarlyExit(c, s);
      assert |t.drained| == |s.produced|;
      assert !Complete(c, t, e0, stream);
    }
  }

  lemma TailDelivered<E, M, R>(c: Config<E, M, R>, s: State<E, M, R>, t: State<E, M, R>, e0: E, stream: seq<M>)
    requires Inv(c, s, e0, stream) && AllPushed(c, s, e0, stream) && Path(c, s, t)
    ensures Complete(c, t, e0, stream)
  {
    hide Fold, Inv, AllPushed;
    var acts :| Runs(c, s, acts) && Run(c, s, acts) == t;
    RunInv(c, s, acts, e0, stream);
    PushedRun(c, s, acts, e0, stream);
    PushedComplete(c, t, e0, stream);
  }

  // ---- Stopping early and the message count ----

  /** The whole stream but its last message can be processed before that one is submitted. */
  lemma {:induction false} FloodButOne<E, M, R>(c: Config<E, M, R>, s: State<E, M, R>) returns (t: State<E, M, R>)
    requires c.inCap >= 1 && s.main == Active && s.loop == Polling && s.inbound == [] && !s.busy && s.todo != []
             && s.drain == Draining
    ensures Path(c, s, t) && t.todo == [] && |t.inbound| == 1 && !t.busy && t.main == Active && t.loop == Polling
            && t.drain == Draining
    decreases |s.todo|
  {
    Stay(c, s);
    hide Path;
    var s1 := SubmitStep(c.inCap, s);
    Then(c, s, s, Submit);
    if |s.todo| == 1 {
      t := s1;
    } else {
      var s2 := Flush(c, s1);
      Trans(c, s, s1, s2);
      t := FloodButOne(c, s2);
      Trans(c, s, s2, t);
    }
  }

  /** The engine's shutdown loop takes the last message without counting it. */
  lemma LastUncounted<E, M, R>(c: Config<E, M, R>, s: State<E, M, R>, u: State<E, M, R>) returns (t: State<E, M, R>)
    requires Path(c, s, u) && u.main == Active && u.todo == [] && |u.inbound| == 1 && !u.busy && u.loop == Polling
             && u.drain == Draining
    ensures Path(c, s, t) && t.main == Stopping && t.loop == Emptying && t.inbound == [] && !t.busy
            && t.drain == Draining
    ensures t.processed == u.processed && !t.quiet
  {
    hide Path;
    var s1 := Next(c, u, Clear);
    Then(c, s, u, Clear);
    var s2 := s1.(main := Stopping);
    Then(c, s, s1, StopEngine);
    var s3 := s2.(loop := Emptying);
    Then(c, s, s2, LeaveLoop);
    t := FlushUncounted(c, s3);
    Trans(c, s, s3, t);
  }

  lemma {:induction false} FlushUncounted<E, M, R>(c: Config<E, M, R>, s: State<E, M, R>) returns (t: State<E, M, R>)
    requires s.loop == Emptying
    ensures Path(c, s, t) && EngineOnly(s, t) && t.inbound == [] && !t.busy && t.processed == s.processed
            && t.quiet == s.quiet
    decreases |s.inbound|, s.busy, |s.pending|
  {
    Stay(c, s);
    if s.busy || s.inbound != [] {
      var a := if s.busy then (if s.pending != [] then Push else Done) else Pop;
      var s' := Next(c, s, a);
      Then(c, s, s, a);
      t := FlushUncounted(c, s');
      hide Path;
      Trans(c, s, s', t);
    } else {
      t := s;
    }
  }

  lemma StopFrom<E, M, R>(c: Config<E, M, R>, s: State<E, M, R>, u: State<E, M, R>) returns (t: State<E, M, R>)
    requires Path(c, s, u) && u.main == Stopping && u.loop == Emptying && u.inbound == [] && !u.busy
             && u.drain == Draining
    ensures Path(c, s, t) && t.main == Stopped && t.processed == u.processed && t.quiet == u.quiet
  {
    hide Path;
    var s1 := u.(loop := Ended);
    Then(c, s, u, EndEngine);
    var s2 := s1.(main := Joined);
    Then(c, s, s1, JoinEngine);
    var s3 := s2.(drain := Finishing);
    Then(c, s, s2, LeavePolling);
    var s4 := EmptyOut(c, s3);
    Trans(c, s, s3, s4);
    var s5 := s4.(drain := Exited);
    Then(c, s, s4, Exit);
    Then(c, s, s5, JoinDrain);
    t := s5.(main := Stopped);
  }

  /** Whatever the stream, stopping before the engine is quiet can leave its message count
      short of what was sent although it has processed everything. */
  lemma EarlyStopMiscounts<E, M, R>(c: Config<E, M, R>, s0: State<E, M, R>, e0: E, stream: seq<M>)
    returns (t: State<E, M, R>)
    requires Initial(s0, e0, stream) && c.inCap >= 1 && stream != []
    ensures Path(c, s0, t) && t.main == Stopped && !t.quiet
    ensures t.processed < |stream| && t.engine == Fold(c.step, e0, stream).0
  {
    hide Fold;
    var u := FloodButOne(c, s0);
    CountedConsumed(c, s0, u, e0, stream);
    var v := LastUncounted(c, s0, u);
    t := StopFrom(c, s0, v);
    var acts :| Runs(c, s0, acts) && Run(c, s0, acts) == t;
    StoppedEngine(c, s0, acts, e0, stream);
  }

  lemma CountedConsumed<E, M, R>(c: Config<E, M, R>, s0: State<E, M, R>, u: State<E, M, R>, e0: E, stream: seq<M>)
    requires Initial(s0, e0, stream) && Path(c, s0, u) && |u.inbound| == 1 && u.loop == Polling
    ensures u.processed < |stream|
  {
    hide Fold;
    var acts :| Runs(c, s0, acts) && Run(c, s0, acts) == u;
    InitInv(c, s0, e0, stream);
    RunInv(c, s0, acts, e0, stream);
    assert |u.consumed| + |u.inbound| + |u.todo| == |stream|;
  }
}
