/** The translator of include/hft/itch50.hpp: ITCH book events become engine messages. */
module Translation {
  import opened Itch
  import Engine

  datatype Counters = Counters(adds: nat, execs: nat, partialCancels: nat, deletes: nat, replacements: nat,
      unknownRef: nat)

  datatype State = State(orders: Table, seqNum: nat, c: Counters)

  const EMPTY := State(map[], 0, Counters(0, 0, 0, 0, 0, 0))

  /** ITCH prices carry four implied decimals and engine prices six: an exact x100. */
  function Make(kind: Engine.Kind, seqNum: nat, id: u64, price: u32, qty: u32, side: char): Engine.Msg {
    Engine.Msg(kind, seqNum, id, price * 100, qty, IsBid(side))
  }

  /** The table the translator keeps: it overwrites where the reference book refuses. */
  function Overwrite(t: Table, e: Event): Table {
    match e
    case Add(ref, side, price, shares) => t[ref := Order(side, price, shares)]
    case Replace(orig, nref, shares, price) =>
      if orig !in t then t else (t - {orig})[nref := Order(t[orig].side, price, shares)]
    case _ => TableStep(t, e)
  }

  function Emit(t: Table, n: nat, e: Event): seq<Engine.Msg> {
    if Unknown(t, e) then []
    else match e
      case Add(ref, side, price, shares) => [Make(Engine.NewOrder, n + 1, ref, price, shares, side)]
      case Reduce(ref, shares, _) =>
        var o := t[ref];
        if shares >= o.qty then [Make(Engine.CancelOrder, n + 1, ref, o.price, 0, o.side)]
        else [Make(Engine.ModifyOrder, n + 1, ref, o.price, o.qty - shares, o.side)]
      case Delete(ref) => [Make(Engine.CancelOrder, n + 1, ref, t[ref].price, 0, t[ref].side)]
      case Replace(orig, nref, shares, price) =>
        [Make(Engine.CancelOrder, n + 1, orig, t[orig].price, 0, t[orig].side),
         Make(Engine.NewOrder, n + 2, nref, price, shares, t[orig].side)]
  }

  function Count(c: Counters, t: Table, e: Event): Counters {
    if Unknown(t, e) then c.(unknownRef := c.unknownRef + 1)
    else match e
      case Add(_, _, _, _) => c.(adds := c.adds + 1)
      case Reduce(_, _, exec) =>
        if exec then c.(execs := c.execs + 1) else c.(partialCancels := c.partialCancels + 1)
      case Delete(_) => c.(deletes := c.deletes + 1)
      case Replace(_, _, _, _) => c.(replacements := c.replacements + 1)
  }

  function Step(s: State, e: Event): State {
    State(Overwrite(s.orders, e), s.seqNum + |Emit(s.orders, s.seqNum, e)|, Count(s.c, s.orders, e))
  }

  function Run(s: State, es: seq<Event>): State
    decreases es
  {
    if es == [] then s else Run(Step(s, es[0]), es[1..])
  }

  function EmitAll(s: State, es: seq<Event>): seq<Engine.Msg>
    decreases es
  {
    if es == [] then [] else Emit(s.orders, s.seqNum, es[0]) + EmitAll(Step(s, es[0]), es[1..])
  }

  /** The order a duplicate would install. */
  function Installs(t: Table, e: Event): Order
    requires Duplicates(t, e)
  {
    if e.Add? then Order(e.side, e.price, e.shares) else Order(t[e.orig].side, e.price, e.shares)
  }

  function NewRef(e: Event): u64
    requires e.Add? || e.Replace?
  {
    if e.Add? then e.ref else e.nref
  }

  /** From equal tables, the two tables stay equal through an event if and only if the
      event does not give a live reference a different order. */
  lemma TablesAgreeIff(t: Table, e: Event)
    ensures Overwrite(t, e) == TableStep(t, e) <==> !(Duplicates(t, e) && t[NewRef(e)] != Installs(t, e))
  {
    if Duplicates(t, e) {
      var n := NewRef(e);
      assert n in TableStep(t, e) && TableStep(t, e)[n] == t[n];
      assert n in Overwrite(t, e) && Overwrite(t, e)[n] == Installs(t, e);
      if t[n] == Installs(t, e) {
        assert Overwrite(t, e) == TableStep(t, e);
      }
    }
  }

  /** The message says of its order what the table says: price times 100 and side, and its
      quantity unless it is a cancel, which carries none. */
  ghost predicate Describes(m: Engine.Msg, t: Table) {
    && m.id in t
    && m.price == t[m.id].price * 100
    && m.buy == IsBid(t[m.id].side)
  }

  /** Every message describes its order: a new or modified one as it is after the event, size
      included, a modified or cancelled one as it was before. The sequence numbers go on by one. */
  lemma MessagesDescribe(t: Table, n: nat, e: Event, i: nat)
    requires i < |Emit(t, n, e)|
    ensures var m, after := Emit(t, n, e)[i], Overwrite(t, e);
            && m.seqNum == n + 1 + i
            && (m.kind != Engine.NewOrder ==> Describes(m, t))
            && (m.kind != Engine.CancelOrder ==> Describes(m, after) && m.qty == after[m.id].qty)
            && (m.kind == Engine.CancelOrder ==> m.qty == 0 && (m.id in after ==> e.Replace? && m.id == e.nref))
  {
  }

  /** Which messages an event makes: none for an unknown reference, one that enters, changes or
      takes out the order named, and two for a replace. */
  lemma MessageKinds(t: Table, n: nat, e: Event)
    ensures var ms, after := Emit(t, n, e), Overwrite(t, e);
            && |ms| == (if Unknown(t, e) then 0 else if e.Replace? then 2 else 1)
            && (e.Replace? && e.orig in t ==>
                  && ms[0].kind == Engine.CancelOrder && ms[0].id == e.orig
                  && ms[1].kind == Engine.NewOrder && ms[1].id == e.nref)
            && (!e.Replace? && ms != [] ==>
                  && ms[0].id == e.ref
                  && (ms[0].kind == Engine.NewOrder <==> e.Add?)
                  && (ms[0].kind == Engine.CancelOrder <==> e.ref !in after))
  {
  }

  /** Over a whole run every message's sequence number is one more than the one before. */
  lemma {:induction false} StampsCount(s: State, es: seq<Event>, i: nat)
    requires i < |EmitAll(s, es)|
    ensures EmitAll(s, es)[i].seqNum == s.seqNum + 1 + i
    ensures Run(s, es).seqNum == s.seqNum + |EmitAll(s, es)|
    decreases es
  {
    hide Emit;
    var ms := Emit(s.orders, s.seqNum, es[0]);
    var rest := EmitAll(Step(s, es[0]), es[1..]);
    if i < |ms| {
      MessagesDescribe(s.orders, s.seqNum, es[0], i);
    }
    if rest != [] {
      StampsCount(Step(s, es[0]), es[1..], if i < |ms| then 0 else i - |ms|);
    } else {
      NoMoreStamps(Step(s, es[0]), es[1..]);
    }
  }

  lemma {:induction false} NoMoreStamps(s: State, es: seq<Event>)
    requires EmitAll(s, es) == []
    ensures Run(s, es).seqNum == s.seqNum
    decreases es
  {
    hide Emit;
    if es != [] {
      assert Emit(s.orders, s.seqNum, es[0]) == [] && EmitAll(Step(s, es[0]), es[1..]) == [];
      NoMoreStamps(Step(s, es[0]), es[1..]);
    }
  }

  // ---- The counters ----

  datatype EventKind = AddKind | ExecKind | CancelKind | DeleteKind | ReplaceKind

  function KindOf(e: Event): EventKind {
    match e
    case Add(_, _, _, _) => AddKind
    case Reduce(_, _, exec) => if exec then ExecKind else CancelKind
    case Delete(_) => DeleteKind
    case Replace(_, _, _, _) => ReplaceKind
  }

  /** Events of a kind whose reference the translator knew. */
  function Known(s: State, es: seq<Event>, k: EventKind): nat
    decreases es
  {
    if es == [] then 0
    else (if KindOf(es[0]) == k && !Unknown(s.orders, es[0]) then 1 else 0) + Known(Step(s, es[0]), es[1..], k)
  }

  /** Each counter is the number of known events of its kind. */
  lemma {:induction false} CountersCount(s: State, es: seq<Event>)
    ensures var c := Run(s, es).c;
            && c.adds == s.c.adds + Known(s, es, AddKind)
            && c.execs == s.c.execs + Known(s, es, ExecKind)
            && c.partialCancels == s.c.partialCancels + Known(s, es, CancelKind)
            && c.deletes == s.c.deletes + Known(s, es, DeleteKind)
            && c.replacements == s.c.replacements + Known(s, es, ReplaceKind)
    decreases es
  {
    hide Overwrite, Emit;
    if es != [] {
      CountersCount(Step(s, es[0]), es[1..]);
    }
  }

  ghost predicate NoDuplicates(t: Table, es: seq<Event>)
    decreases es
  {
    es == [] || (!Duplicates(t, es[0]) && NoDuplicates(TableStep(t, es[0]), es[1..]))
  }

  function UnknownCount(t: Table, es: seq<Event>): nat
    decreases es
  {
    if es == [] then 0 else (if Unknown(t, es[0]) then 1 else 0) + UnknownCount(TableStep(t, es[0]), es[1..])
  }

  /** On every run without duplicate references the translator holds the section 4.4
      table and has counted exactly the events that named an unknown reference. */
  lemma {:induction false} RunTable(s: State, es: seq<Event>)
    requires NoDuplicates(s.orders, es)
    ensures Run(s, es).orders == TableRun(s.orders, es)
    ensures Run(s, es).c.unknownRef == s.c.unknownRef + UnknownCount(s.orders, es)
    decreases es
  {
    if es != [] {
      TablesAgreeIff(s.orders, es[0]);
      RunTable(Step(s, es[0]), es[1..]);
    }
  }

  /** snapshot(): the resting orders as new orders in ascending reference order. */
  ghost predicate IsSnapshot(ms: seq<Engine.Msg>, t: Table) {
    && (forall i, j :: 0 <= i < j < |ms| ==> ms[i].id < ms[j].id)
    && (forall i :: 0 <= i < |ms| ==>
          ms[i].id in t && ms[i]
              == Make(Engine.NewOrder, ms[i].seqNum, ms[i].id, t[ms[i].id].price, t[ms[i].id].qty, t[ms[i].id].side))
    && (forall r :: r in t ==> exists i :: 0 <= i < |ms| && ms[i].id == r)
  }

  lemma {:induction false} HasLeast(s: set<u64>) returns (least: u64)
    requires s != {}
    ensures least in s && forall r :: r in s ==> least <= r
    decreases s
  {
    var x :| x in s;
    least := x;
    if s != {x} {
      assert s - {x} != {};
      var other := HasLeast(s - {x});
      if other < x { least := other; }
      assert forall r :: r in s ==> r == x || r in s - {x};
    }
  }

  class Translator {
    var orders: Table
    var seqNum: nat
    var c: Counters

    ghost function View(): State
      reads this
    {
      State(orders, seqNum, c)
    }

    constructor ()
      ensures View() == EMPTY
    {
      orders, seqNum, c := map[], 0, Counters(0, 0, 0, 0, 0, 0);
    }

    method MakeMsg(kind: Engine.Kind, id: u64, price: u32, qty: u32, side: char) returns (m: Engine.Msg)
      modifies this`seqNum
      ensures seqNum == old(seqNum) + 1 && m == Make(kind, seqNum, id, price, qty, side)
    {
      seqNum := seqNum + 1;
      m := Engine.Msg(kind, seqNum, id, price * 100, qty, IsBid(side));
    }

    method OnAdd(ref: u64, side: char, price: u32, shares: u32) returns (out: seq<Engine.Msg>)
      modifies this
      ensures out == Emit(old(orders), old(seqNum), Add(ref, side, price, shares))
      ensures View() == Step(old(View()), Add(ref, side, price, shares))
    {
      orders := orders[ref := Order(side, price, shares)];
      c := c.(adds := c.adds + 1);
      var m := MakeMsg(Engine.NewOrder, ref, price, shares, side);
      out := [m];
    }

    method OnReduce(ref: u64, shares: u32, isExec: bool) returns (out: seq<Engine.Msg>)
      modifies this
      ensures out == Emit(old(orders), old(seqNum), Reduce(ref, shares, isExec))
      ensures View() == Step(old(View()), Reduce(ref, shares, isExec))
    {
      if ref !in orders {
        c := c.(unknownRef := c.unknownRef + 1);
        return [];
      }
      var d := Min(shares, orders[ref].qty);
      var o := orders[ref].(qty := orders[ref].qty - d);
      if isExec { c := c.(execs := c.execs + 1); } else { c := c.(partialCancels := c.partialCancels + 1); }
      var m;
      if o.qty == 0 {
        m := MakeMsg(Engine.CancelOrder, ref, o.price, 0, o.side);
        orders := orders - {ref};
      } else {
        m := MakeMsg(Engine.ModifyOrder, ref, o.price, o.qty, o.side);
        orders := orders[ref := o];
      }
      out := [m];
    }

    method OnDelete(ref: u64) returns (out: seq<Engine.Msg>)
      modifies this
      ensures out == Emit(old(orders), old(seqNum), Delete(ref))
      ensures View() == Step(old(View()), Delete(ref))
    {
      if ref !in orders {
        c := c.(unknownRef := c.unknownRef + 1);
        assert orders - {ref} == orders;
        return [];
      }
      c := c.(deletes := c.deletes + 1);
      var m := MakeMsg(Engine.CancelOrder, ref, orders[ref].price, 0, orders[ref].side);
      orders := orders - {ref};
      out := [m];
    }

    method OnReplace(orig: u64, nref: u64, shares: u32, price: u32) returns (out: seq<Engine.Msg>)
      modifies this
      ensures out == Emit(old(orders), old(seqNum), Replace(orig, nref, shares, price))
      ensures View() == Step(old(View()), Replace(orig, nref, shares, price))
    {
      if orig !in orders {
        c := c.(unknownRef := c.unknownRef + 1);
        return [];
      }
      c := c.(replacements := c.replacements + 1);
      var side := orders[orig].side;
      var m1 := MakeMsg(Engine.CancelOrder, orig, orders[orig].price, 0, side);
      orders := orders - {orig};
      orders := orders[nref := Order(side, price, shares)];
      var m2 := MakeMsg(Engine.NewOrder, nref, price, shares, side);
      out := [m1, m2];
    }

    method On(e: Event) returns (out: seq<Engine.Msg>)
      modifies this
      ensures out == Emit(old(orders), old(seqNum), e)
      ensures View() == Step(old(View()), e)
    {
      match e
      case Add(ref, side, price, shares) => out := OnAdd(ref, side, price, shares);
      case Reduce(ref, shares, exec) => out := OnReduce(ref, shares, exec);
      case Delete(ref) => out := OnDelete(ref);
      case Replace(orig, nref, shares, price) => out := OnReplace(orig, nref, shares, price);
    }

    /** Collecting the references and sorting them is taking the least remaining one. */
    method Snapshot() returns (out: seq<Engine.Msg>)
      modifies this`seqNum
      ensures IsSnapshot(out, orders)
      ensures seqNum == old(seqNum) + |out|
      ensures forall i :: 0 <= i < |out| ==> out[i].seqNum == old(seqNum) + 1 + i
    {
      var rest := orders.Keys;
      out := [];
      while rest != {}
        invariant rest <= orders.Keys && seqNum == old(seqNum) + |out|
        invariant forall i :: 0 <= i < |out| ==> out[i].seqNum == old(seqNum) + 1 + i
        invariant forall i, j :: 0 <= i < j < |out| ==> out[i].id < out[j].id
        invariant forall i, r :: 0 <= i < |out| && r in rest ==> out[i].id < r
        invariant forall i :: 0 <= i < |out| ==>
          out[i].id in orders && out[i]
              == Make(Engine.NewOrder, out[i].seqNum, out[i].id, orders[out[i].id].price, orders[out[i].id].qty,
                  orders[out[i].id].side)
        invariant forall r :: r in orders ==> r in rest || exists i :: 0 <= i < |out| && out[i].id == r
        decreases rest
      {
        ghost var least := HasLeast(rest);
        var r :| r in rest && forall x :: x in rest ==> r <= x;
        ghost var out0 := out;
        var m := MakeMsg(Engine.NewOrder, r, orders[r].price, orders[r].qty, orders[r].side);
        out := out + [m];
        rest := rest - {r};
        assert out[|out0|].id == r && forall i :: 0 <= i < |out0| ==> out[i] == out0[i];
      }
    }
  }
}
