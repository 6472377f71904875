/** Every price the translator emits is a whole number of ITCH ticks (include/hft/itch50.hpp,
    make), so every price level of an engine fed by it is: whatever crossed, was refused,
    duplicated or filled, the comparison's division by 100 loses nothing. */
module Ticks {
  import opened Itch
  import opened Engine
  import opened Verdict
  import Tr = Translation
  import R = Replay

  ghost predicate TickLevels(ls: seq<Level>) {
    forall i :: 0 <= i < |ls| ==> Tick(ls[i].price)
  }

  ghost predicate TickBook(b: Book) {
    TickLevels(b.bids) && TickLevels(b.asks)
  }

  ghost predicate TickMsgs(ms: seq<Msg>) {
    forall i :: 0 <= i < |ms| ==> Tick(ms[i].price)
  }

  // ---- The engine keeps to the grid ----

  lemma FillTicks(b: Book, buy: bool, fill: nat)
    requires TickBook(b) && Side(b, !buy) != [] && Side(b, !buy)[0].queue != [] && fill <= Side(b, !buy)[0].queue[0].qty
    ensures TickBook(FillHead(b, buy, fill))
  {
    hide Tick;
    var ls := Side(b, !buy);
    var ls' := FillLevels(ls, fill);
    assert Tick(ls[0].price);
    assert forall i :: 1 <= i < |ls| ==> Tick(ls[i].price);
    assert TickLevels(ls');
  }

  lemma {:induction false} MatchTicks(b: Book, id: nat, price: int, qty: nat, buy: bool)
    requires TickBook(b)
    ensures TickBook(Match(b, id, price, qty, buy).0)
    decreases |Side(b, !buy)|, if Side(b, !buy) == [] then 0 else |Side(b, !buy)[0].queue|, qty
  {
    hide TickBook;
    var ls := Side(b, !buy);
    if !(qty == 0 || ls == [] || !Crosses(buy, price, ls[0].price) || ls[0].queue == []) {
      var head := ls[0].queue[0];
      var fill := if qty < head.qty then qty else head.qty;
      FillTicks(b, buy, fill);
      if head.qty <= fill {
        MatchTicks(FillHead(b, buy, fill), id, price, qty - fill, buy);
      }
    }
  }

  lemma JoinTicks(ls: seq<Level>, id: nat, price: int, qty: nat, buy: bool)
    requires TickLevels(ls) && Tick(price)
    ensures TickLevels(JoinLevels(ls, id, price, qty, buy))
  {
    hide Tick;
  }

  lemma RestTicks(b: Book, id: nat, price: int, qty: nat, buy: bool)
    requires TickBook(b) && Tick(price)
    ensures TickBook(Rest(b, id, price, qty, buy))
  {
    hide Tick, JoinLevels;
    JoinTicks(Side(b, buy), id, price, qty, buy);
  }

  lemma CancelTicks(b: Book, id: nat)
    requires TickBook(b)
    ensures TickBook(Cancel(b, id))
  {
    hide Tick;
  }

  lemma ModifyTicks(b: Book, id: nat, qty: nat)
    requires TickBook(b)
    ensures TickBook(Modify(b, id, qty))
  {
    hide Tick, Cancel;
    CancelTicks(b, id);
  }

  lemma ProcessTicks(b: Book, m: Msg)
    requires TickBook(b) && Tick(m.price)
    ensures TickBook(Process(b, m).0)
  {
    hide Match, Rest, Cancel, Modify, Tick;
    match m.kind
    case NewOrder =>
      var id := if m.id != 0 then m.id else b.nextId;
      var b' := if m.id != 0 then b else b.(nextId := b.nextId + 1);
      MatchTicks(b', id, m.price, m.qty, m.buy);
      var (b'', left, _) := Match(b', id, m.price, m.qty, m.buy);
      RestTicks(b'', id, m.price, left, m.buy);
    case CancelOrder => CancelTicks(b, m.id);
    case ModifyOrder => ModifyTicks(b, m.id, m.qty);
  }

  lemma {:induction false} FeedTicks(b: Book, ms: seq<Msg>)
    requires TickBook(b) && TickMsgs(ms)
    ensures TickBook(Feed(b, ms).0)
    decreases ms
  {
    hide Process, TickBook, Tick;
    if ms != [] {
      ProcessTicks(b, ms[0]);
      FeedTicks(Process(b, ms[0]).0, ms[1..]);
    }
  }

  // ---- The translator emits on the grid ----

  lemma EmitTicks(t: Table, n: nat, e: Event)
    ensures TickMsgs(Tr.Emit(t, n, e))
  {
    var ms := Tr.Emit(t, n, e);
    forall i | 0 <= i < |ms| ensures Tick(ms[i].price) {
    }
  }

  lemma {:induction false} EmitAllTicks(s: Tr.State, es: seq<Event>)
    ensures TickMsgs(Tr.EmitAll(s, es))
    decreases es
  {
    hide Tr.Emit, Tr.Step, Tick;
    if es != [] {
      EmitTicks(s.orders, s.seqNum, es[0]);
      EmitAllTicks(Tr.Step(s, es[0]), es[1..]);
    }
  }

  lemma SnapshotTicks(ms: seq<Msg>, t: Table)
    requires Tr.IsSnapshot(ms, t)
    ensures TickMsgs(ms)
  {
    forall i | 0 <= i < |ms| ensures Tick(ms[i].price) {
      assert ms[i].price == t[ms[i].id].price * 100;
    }
  }

  lemma ShownOnGrid(ls: seq<Level>)
    requires TickLevels(ls)
    ensures WholeTicks(Shown(ls))
  {
    hide Tick;
  }

  /** Whatever the day, crossed, duplicated or over capacity: what the driver sends leaves an
      engine whose every level is on the tick grid. */
  lemma FedOnGrid(sent: seq<Msg>, now: Tr.State, pre: seq<Event>, mid: Tr.State, snap: seq<Msg>, post: seq<Event>)
    requires R.SentSince(sent, now, pre, mid, snap, post)
    ensures WholeTicks(Shown(Feed(Engine.EMPTY, sent).0.bids)) && WholeTicks(Shown(Feed(Engine.EMPTY, sent).0.asks))
  {
    hide Feed, Tr.EmitAll, Tr.Run, Tr.IsSnapshot, Tick;
    SnapshotTicks(snap, mid.orders);
    EmitAllTicks(mid, post);
    FeedTicks(Engine.EMPTY, sent);
    ShownOnGrid(Feed(Engine.EMPTY, sent).0.bids);
    ShownOnGrid(Feed(Engine.EMPTY, sent).0.asks);
  }
}
