/** Three holders of the order table (include/hft/itch50.hpp): the reference book, the
    translator, and whoever applies the translator's messages by order id. */
module Tables {
  import opened Itch
  import opened Engine
  import Ref = ReferenceBook
  import Tr = Translation

  // ---- The reference book's counters ----

  lemma StepCounts(s: Ref.State, e: Event)
    ensures Ref.Step(s, e).an.unknownRef == s.an.unknownRef + (if Unknown(s.orders, e) then 1 else 0)
    ensures Ref.Step(s, e).an.duplicateRef == s.an.duplicateRef + (if Duplicates(s.orders, e) then 1 else 0)
    ensures Ref.Step(s, e).an.overReduce == s.an.overReduce + (if OverReduces(s.orders, e) then 1 else 0)
  {
  }

  function OverReduced(t: Table, es: seq<Event>): nat
    decreases es
  {
    if es == [] then 0 else (if OverReduces(t, es[0]) then 1 else 0) + OverReduced(TableStep(t, es[0]), es[1..])
  }

  function Duplicated(t: Table, es: seq<Event>): nat
    decreases es
  {
    if es == [] then 0 else (if Duplicates(t, es[0]) then 1 else 0) + Duplicated(TableStep(t, es[0]), es[1..])
  }

  lemma {:induction false} NoneDuplicated(t: Table, es: seq<Event>)
    ensures Duplicated(t, es) == 0 <==> Tr.NoDuplicates(t, es)
    decreases es
  {
    hide TableStep;
    if es != [] {
      NoneDuplicated(TableStep(t, es[0]), es[1..]);
    }
  }

  /** The reference book's three counters count exactly the events of the run that named an
      unknown reference, repeated a live one, or took more shares than the order had. */
  lemma {:induction false} RunCounts(s: Ref.State, es: seq<Event>)
    ensures Ref.Run(s, es).orders == TableRun(s.orders, es)
    ensures Ref.Run(s, es).an.unknownRef == s.an.unknownRef + Tr.UnknownCount(s.orders, es)
    ensures Ref.Run(s, es).an.duplicateRef == s.an.duplicateRef + Duplicated(s.orders, es)
    ensures Ref.Run(s, es).an.overReduce == s.an.overReduce + OverReduced(s.orders, es)
    decreases es
  {
    hide Ref.Step, TableStep;
    if es != [] {
      StepCounts(s, es[0]);
      Ref.StepTable(s, es[0]);
      RunCounts(Ref.Step(s, es[0]), es[1..]);
    }
  }

  /** On every run for which the reference book counts no duplicate, it and the translator hold
      equal tables and have counted equally many unknown references. */
  lemma TwoTablesOneMeaning(r: Ref.State, s: Tr.State, es: seq<Event>)
    requires r.orders == s.orders && Ref.Run(r, es).an.duplicateRef == r.an.duplicateRef
    ensures Tr.Run(s, es).orders == Ref.Run(r, es).orders
    ensures Tr.Run(s, es).c.unknownRef - s.c.unknownRef == Ref.Run(r, es).an.unknownRef - r.an.unknownRef
  {
    hide *;
    RunCounts(r, es);
    NoneDuplicated(r.orders, es);
    Tr.RunTable(s, es);
  }

  // ---- The messages mean the table ----

  datatype Held = Held(price: int, qty: nat, buy: bool)

  /** A book keyed by order id that does what each message says. */
  function IdStep(m: map<nat, Held>, msg: Msg): map<nat, Held> {
    match msg.kind
    case NewOrder => m[msg.id := Held(msg.price, msg.qty, msg.buy)]
    case CancelOrder => m - {msg.id}
    case ModifyOrder => if msg.id in m then m[msg.id := m[msg.id].(qty := msg.qty)] else m
  }

  function IdRun(m: map<nat, Held>, ms: seq<Msg>): map<nat, Held>
    decreases ms
  {
    if ms == [] then m else IdRun(IdStep(m, ms[0]), ms[1..])
  }

  lemma {:induction false} IdRunAppend(m: map<nat, Held>, ms: seq<Msg>, ns: seq<Msg>)
    ensures IdRun(m, ms + ns) == IdRun(IdRun(m, ms), ns)
    decreases ms
  {
    hide IdStep;
    if ms == [] {
      assert ms + ns == ns;
    } else {
      assert (ms + ns)[1..] == ms[1..] + ns;
      IdRunAppend(IdStep(m, ms[0]), ms[1..], ns);
    }
  }

  /** The same orders, prices times 100. */
  ghost predicate Holds(m: map<nat, Held>, t: Table) {
    && (forall id :: id in m ==> id in t)
    && (forall r :: r in t ==> r in m && m[r] == Held(t[r].price * 100, t[r].qty, IsBid(t[r].side)))
  }

  lemma HoldsUnique(m: map<nat, Held>, n: map<nat, Held>, t: Table)
    requires Holds(m, t) && Holds(n, t)
    ensures m == n
  {
    assert forall id :: id in m <==> id in n;
    assert forall id :: id in m ==> m[id] == n[id];
  }

  lemma RunOne(m: map<nat, Held>, a: Msg)
    ensures IdRun(m, [a]) == IdStep(m, a)
  {
    assert [a][1..] == [];
    assert IdRun(IdStep(m, a), []) == IdStep(m, a);
  }

  lemma EmitHolds(m: map<nat, Held>, t: Table, n: nat, e: Event)
    requires Holds(m, t)
    ensures Holds(IdRun(m, Tr.Emit(t, n, e)), Tr.Overwrite(t, e))
  {
    hide IdRun;
    var ms := Tr.Emit(t, n, e);
    if Unknown(t, e) {
      NoMessages(m);
      UnknownKeeps(t, e);
    } else if e.Replace? {
      assert ms == [ms[0]] + [ms[1]];
      IdRunAppend(m, [ms[0]], [ms[1]]);
      RunOne(m, ms[0]);
      RunOne(IdStep(m, ms[0]), ms[1]);
    } else {
      RunOne(m, ms[0]);
    }
  }

  lemma NoMessages(m: map<nat, Held>)
    ensures IdRun(m, []) == m
  {
  }

  lemma UnknownKeeps(t: Table, e: Event)
    requires Unknown(t, e)
    ensures Tr.Overwrite(t, e) == t
  {
    if e.Delete? {
      assert t - {e.ref} == t;
    }
  }

  /** For every run of events, duplicates included, applying the emitted messages by id gives
      exactly the translator's table. */
  lemma {:induction false} MessagesMeanTable(m: map<nat, Held>, s: Tr.State, es: seq<Event>)
    requires Holds(m, s.orders)
    ensures Holds(IdRun(m, Tr.EmitAll(s, es)), Tr.Run(s, es).orders)
    decreases es
  {
    hide Holds, IdRun, Tr.Emit, Tr.Overwrite;
    if es == [] {
      NoMessages(m);
    } else {
      var ms := Tr.Emit(s.orders, s.seqNum, es[0]);
      EmitHolds(m, s.orders, s.seqNum, es[0]);
      IdRunAppend(m, ms, Tr.EmitAll(Tr.Step(s, es[0]), es[1..]));
      MessagesMeanTable(IdRun(m, ms), Tr.Step(s, es[0]), es[1..]);
    }
  }
}
