/** The synthetic trading day of scripts/gen_itch50_oracle.py: whatever its random draws, its
    messages keep every promise the replay relies on. */
module Generator {
  import opened Itch
  import opened Replication
  import opened Options
  import opened Capacity
  import Snapshots
  import Engine
  import Ref = ReferenceBook
  import Tr = Translation

  /** The price bands: bids below 100.0000, asks at or above it. */
  predicate InBand(side: char, price: u32) {
    if side == 'B' then 995000 <= price <= 999900 && price % 100 == 0
    else side == 'S' && 1000000 <= price <= 1005000 && price % 100 == 0
  }

  /** What gen_day may emit for one symbol: new orders take the next reference and one to 500
      shares in their side's band, executions take at most what is left, a cancel leaves
      something, and only live orders are named. */
  ghost predicate MayEmit(t: Table, ctr: nat, e: Event) {
    match e
    case Add(ref, side, price, shares) => ref >= ctr && InBand(side, price) && 1 <= shares <= 500
    case Reduce(ref, shares, exec) => ref in t && 1 <= shares
        && (if exec then shares <= t[ref].qty else shares < t[ref].qty)
    case Delete(ref) => ref in t
    case Replace(orig, nref, shares, price) =>
      orig in t && nref >= ctr && InBand(t[orig].side, price) && 1 <= shares <= 500
  }

  /** The reference counter after an event: other symbols may advance it further. */
  function Advance(ctr: nat, e: Event): nat {
    match e
    case Add(ref, _, _, _) => ref + 1
    case Replace(_, nref, _, _) => nref + 1
    case _ => ctr
  }

  ghost predicate Generated(t: Table, ctr: nat, es: seq<Event>)
    decreases es
  {
    es == [] || (MayEmit(t, ctr, es[0]) && Generated(TableStep(t, es[0]), Advance(ctr, es[0]), es[1..]))
  }

  function AdvanceAll(ctr: nat, es: seq<Event>): nat
    decreases es
  {
    if es == [] then ctr else AdvanceAll(Advance(ctr, es[0]), es[1..])
  }

  /** Every live order has shares, a used reference and a price in its side's band. */
  ghost predicate Banded(t: Table, ctr: nat) {
    forall r :: r in t ==> 1000 <= r < ctr && t[r].qty > 0 && InBand(t[r].side, t[r].price)
  }

  lemma BandedStep(t: Table, ctr: nat, e: Event)
    requires Banded(t, ctr) && MayEmit(t, ctr, e) && ctr >= 1000
    ensures Banded(TableStep(t, e), Advance(ctr, e)) && Advance(ctr, e) >= ctr
    ensures !Duplicates(t, e) && !Unknown(t, e) && !OverReduces(t, e) && !ZeroShares(e)
  {
    assert forall r :: r in t ==> r < ctr;
    hide InBand;
  }

  lemma BandedUncrossed(t: Table, ctr: nat)
    requires Banded(t, ctr)
    ensures !Crossed(t)
  {
    forall b, a | b in t && a in t && IsBid(t[b].side) && !IsBid(t[a].side)
      ensures t[b].price < t[a].price
    {
      assert InBand(t[b].side, t[b].price) && InBand(t[a].side, t[a].price);
    }
  }

  /** The first n positions of a band. */
  function Slots(n: nat): (s: set<nat>)
    ensures |s| == n && forall k :: k in s <==> 0 <= k < n
  {
    if n == 0 then {} else Slots(n - 1) + {n - 1}
  }

  /** A band has at most 51 prices. */
  lemma BandLevels(t: Table, ctr: nat, bid: bool)
    requires Banded(t, ctr)
    ensures |Prices(t, bid)| <= 51
  {
    var base: u32 := if bid then 995000 else 1000000;
    var ps := Prices(t, bid);
    forall p | p in ps ensures base <= p <= base + 5000 && p % 100 == 0 {
      var r :| r in t && IsBid(t[r].side) == bid && t[r].price == p;
      assert InBand(t[r].side, t[r].price);
    }
    BandImage(ps, base);
  }

  lemma {:induction false} BandImage(ps: set<u32>, base: u32)
    requires base <= 1000000 && base % 100 == 0
    requires forall p :: p in ps ==> base <= p <= base + 5000 && p % 100 == 0
    ensures |ps| <= 51
  {
    var ks := set p | p in ps :: Slot(p, base);
    assert ks <= Slots(51);
    SubsetSize(ks, Slots(51));
    SlotSize(ps, ks, base);
  }

  function Slot(p: u32, base: u32): nat {
    if p >= base then (p - base) / 100 else 0
  }

  lemma SlotInjective(p: u32, q: u32, base: u32)
    requires base <= p && base <= q && p != q && base % 100 == 0 && p % 100 == 0 && q % 100 == 0
    ensures Slot(p, base) != Slot(q, base)
  {
  }

  lemma {:induction false} SlotSize(ps: set<u32>, ks: set<nat>, base: u32)
    requires base % 100 == 0 && forall p :: p in ps ==> base <= p && p % 100 == 0
    requires ks == set p | p in ps :: Slot(p, base)
    ensures |ks| == |ps|
    decreases ps
  {
    hide Slot;
    if ps == {} {
      assert ks == {};
    } else {
      var p :| p in ps;
      var rest := set q | q in ps - {p} :: Slot(q, base);
      SlotSize(ps - {p}, rest, base);
      forall q | q in ps - {p} ensures Slot(q, base) != Slot(p, base) {
        SlotInjective(p, q, base);
      }
      assert ks == rest + {Slot(p, base)};
    }
  }

  // ---- Every generated run ----

  lemma NoAnomaly(s: Ref.State, e: Event)
    requires !Duplicates(s.orders, e) && !Unknown(s.orders, e) && !OverReduces(s.orders, e)
    ensures Ref.Step(s, e).an == s.an
  {
  }

  /** Whatever is drawn: the reference book sees no unknown, duplicate or over-reduced
      reference, its levels stay exact, and its table is the section 4.4 table, never crossed
      after any event. */
  lemma {:induction false} GeneratedIsSound(s: Ref.State, ctr: nat, es: seq<Event>)
    requires Banded(s.orders, ctr) && ctr >= 1000 && Generated(s.orders, ctr, es) && Ref.Indexed(s)
    ensures Ref.Run(s, es).an == s.an
    ensures Ref.Run(s, es).orders == TableRun(s.orders, es) && Ref.Indexed(Ref.Run(s, es))
    ensures NeverCrosses(s.orders, es)
    ensures Banded(TableRun(s.orders, es), AdvanceAll(ctr, es))
    decreases es
  {
    hide Ref.Step, Ref.Indexed, TableStep, MayEmit, Banded, Crossed;
    if es != [] {
      var e, s' := es[0], Ref.Step(s, es[0]);
      BandedStep(s.orders, ctr, e);
      NoAnomaly(s, e);
      Ref.StepTable(s, e);
      BandedUncrossed(s'.orders, Advance(ctr, e));
      BandedKeepsIndex(s, ctr, e);
      GeneratedIsSound(s', Advance(ctr, e), es[1..]);
    }
  }

  lemma BandedKeepsIndex(s: Ref.State, ctr: nat, e: Event)
    requires Banded(s.orders, ctr) && !ZeroShares(e) && Ref.Indexed(s)
    ensures Ref.Indexed(Ref.Step(s, e))
  {
    hide Ref.Step, Ref.Indexed;
    Ref.PositiveNeverStrands(s.orders, e);
    Ref.StepIndexedIff(s, e);
  }

  /** A generated day of any length whose tables the engine's order slots can hold is a clean
      run with rising references: everything proved about replays and snapshots applies. */
  lemma {:induction false} GeneratedIsClean(t: Table, ctr: nat, hi: nat, es: seq<Event>)
    requires Banded(t, ctr) && ctr >= 1000 && hi < ctr && Generated(t, ctr, es)
             && TablesWithin(Engine.MAX_ORDERS, t, es)
    ensures CleanRun(t, es) && Rising(hi, t, es) && Tr.NoDuplicates(t, es)
    decreases es
  {
    hide TableStep, Banded, Prices;
    if es != [] {
      var e, u := es[0], TableStep(t, es[0]);
      BandedStep(t, ctr, e);
      BandLevels(u, Advance(ctr, e), true);
      BandLevels(u, Advance(ctr, e), false);
      GeneratedIsClean(u, Advance(ctr, e), if Inserts(t, e) then Tr.NewRef(e) else hi, es[1..]);
    }
  }

  lemma {:induction false} GeneratedSnoc(t: Table, ctr: nat, es: seq<Event>, c: nat, e: Event)
    requires Generated(t, ctr, es) && AdvanceAll(ctr, es) <= c && MayEmit(TableRun(t, es), c, e)
    ensures Generated(t, ctr, es + [e]) && AdvanceAll(ctr, es + [e]) <= Advance(c, e)
    ensures TableRun(t, es + [e]) == TableStep(TableRun(t, es), e)
    decreases es
  {
    hide TableStep;
    if es == [] {
      assert es + [e] == [e] && [e][1..] == [];
      assert Generated(TableStep(t, e), Advance(ctr, e), []);
      assert TableRun(TableStep(t, e), []) == TableStep(t, e);
      assert AdvanceAll(ctr, [e]) == AdvanceAll(Advance(ctr, e), []);
    } else {
      assert (es + [e])[1..] == es[1..] + [e];
      GeneratedSnoc(TableStep(t, es[0]), Advance(ctr, es[0]), es[1..], c, e);
    }
  }

  // ---- gen_day ----

  datatype Message = Message(locate: nat, ev: Event)

  /** The shares of a script's draws: below `add` a new order, if the symbol has room, then up to
      `exec` an execution, up to `cancel` a partial cancel, up to `delete` a delete, up to `book` a
      replace, and above that no book message. */
  datatype Mix = Mix(add: real, exec: real, cancel: real, delete: real, book: real, cap: Option<nat>)

  const DAY := Mix(0.40, 0.56, 0.66, 0.74, 0.80, None)

  function Target(e: Event): u64
    requires !e.Add?
  {
    match e
    case Reduce(ref, _, _) => ref
    case Delete(ref) => ref
    case Replace(orig, _, _, _) => orig
  }

  /** The event is of the kind the draw selects: an empty symbol only gets new orders, and an
      order of a single share is deleted where a larger one is partially cancelled. */
  ghost predicate Answers(m: Mix, t: Table, x: real, e: Event) {
    && (e.Add? <==> t == map[] || (x < m.add && (m.cap.Some? ==> |t| < m.cap.value)))
    && (!e.Add? ==>
          && Target(e) in t
          && (e.Reduce? && e.exec <==> x < m.exec)
          && (e.Reduce? && !e.exec <==> m.exec <= x < m.cancel && t[Target(e)].qty > 1)
          && (e.Delete? <==> m.exec <= x < m.delete && (x >= m.cancel || t[Target(e)].qty <= 1))
          && (e.Replace? <==> m.delete <= x))
  }

  /** One turn of a script: the symbol and the draw. */
  datatype Draw = Draw(loc: nat, x: real)

  /** Turn by turn: a draw beyond the book's share leaves nothing, any other one leaves one message
      for its symbol, of the kind it selects from the symbol's orders by then. */
  ghost predicate Answered(m: Mix, draws: seq<Draw>, out: seq<Message>)
    decreases |draws|
  {
    if draws == [] then out == []
    else
      var before, d := draws[..|draws| - 1], draws[|draws| - 1];
      if d.x >= m.book then Answered(m, before, out)
      else
        && out != [] && out[|out| - 1].locate == d.loc
        && Answers(m, TableRun(map[], EventsOf(out[..|out| - 1], d.loc)), d.x, out[|out| - 1].ev)
        && Answered(m, before, out[..|out| - 1])
  }

  lemma AnsweredQuiet(m: Mix, draws: seq<Draw>, out: seq<Message>, d: Draw)
    requires Answered(m, draws, out) && d.x >= m.book
    ensures Answered(m, draws + [d], out)
  {
    assert (draws + [d])[..|draws|] == draws;
  }

  lemma AnsweredNext(m: Mix, draws: seq<Draw>, out: seq<Message>, d: Draw, e: Event)
    requires Answered(m, draws, out) && d.x < m.book
    requires Answers(m, TableRun(map[], EventsOf(out, d.loc)), d.x, e)
    ensures Answered(m, draws + [d], out + [Message(d.loc, e)])
  {
    hide Answers, TableRun, EventsOf;
    assert (draws + [d])[..|draws|] == draws;
    assert (out + [Message(d.loc, e)])[..|out|] == out;
  }

  /** So there are as many messages as draws within the book's share. */
  lemma {:induction false} AnsweredLength(m: Mix, draws: seq<Draw>, out: seq<Message>)
    requires Answered(m, draws, out)
    ensures |out| == BookDraws(m, draws)
    decreases |draws|
  {
    hide Answers;
    if draws != [] {
      var before, d := draws[..|draws| - 1], draws[|draws| - 1];
      AnsweredLength(m, before, if d.x >= m.book then out else out[..|out| - 1]);
    }
  }

  function BookDraws(m: Mix, draws: seq<Draw>): nat {
    if draws == [] then 0
    else BookDraws(m, draws[..|draws| - 1]) + if draws[|draws| - 1].x < m.book then 1 else 0
  }

  function EventsOf(out: seq<Message>, loc: nat): seq<Event> {
    if out == [] then []
    else EventsOf(out[..|out| - 1], loc) + if out[|out| - 1].locate == loc then [out[|out| - 1].ev] else []
  }

  lemma EventsOfSnoc(out: seq<Message>, m: Message, loc: nat)
    ensures EventsOf(out + [m], loc) == EventsOf(out, loc) + if m.locate == loc then [m.ev] else []
  {
    assert (out + [m])[..|out|] == out;
  }

  const SYMBOLS: set<nat> := {1, 2, 3}

  /** The messages so far are generated ones, and the generator's own tables are what they
      mean. */
  ghost predicate Sound(out: seq<Message>, orders: map<nat, Table>, ctr: nat) {
    && ctr >= 1000
    && orders.Keys == SYMBOLS
    && forall loc :: loc in SYMBOLS ==>
         && Generated(map[], 1000, EventsOf(out, loc))
         && AdvanceAll(1000, EventsOf(out, loc)) <= ctr
         && orders[loc] == TableRun(map[], EventsOf(out, loc))
  }

  lemma SoundStep(out: seq<Message>, orders: map<nat, Table>, ctr: nat, loc: nat, e: Event, t: Table)
    requires Sound(out, orders, ctr) && loc in SYMBOLS && MayEmit(orders[loc], ctr, e) && t == TableStep(orders[loc], e)
    ensures Sound(out + [Message(loc, e)], orders[loc := t], Advance(ctr, e))
  {
    hide Generated, TableRun, TableStep, AdvanceAll;
    var m := Message(loc, e);
    forall l | l in SYMBOLS
      ensures Generated(map[], 1000, EventsOf(out + [m], l))
              && AdvanceAll(1000, EventsOf(out + [m], l)) <= Advance(ctr, e)
      ensures orders[loc := t][l] == TableRun(map[], EventsOf(out + [m], l))
    {
      EventsOfSnoc(out, m, l);
      if l == loc {
        GeneratedSnoc(map[], 1000, EventsOf(out, l), ctr, e);
      } else {
        assert EventsOf(out, l) + [] == EventsOf(out, l);
      }
    }
  }

  lemma SoundStart(orders: map<nat, Table>)
    requires orders == map[1 := map[], 2 := map[], 3 := map[]]
    ensures Sound([], orders, 1000)
  {
  }

  /** rprice: a draw in the side's band. */
  method DrawPrice(side: char) returns (price: u32)
    requires side == 'B' || side == 'S'
    ensures InBand(side, price)
  {
    var lo, hi := 995000, 999900;
    if side == 'S' {
      lo, hi := 1000000, 1005000;
    }
    var k: nat :| k <= (hi - lo) / 100;
    price := lo + 100 * k;
  }

  method DrawBetween(lo: nat, hi: nat) returns (n: nat)
    requires lo <= hi
    ensures lo <= n <= hi
  {
    n :| lo <= n <= hi;
  }

  /** gen_day for every outcome of its draws: which symbol, which action, which live order, how
      many shares, which price. Every draw is answered by the message it selects. */
  method GenDay(nEvents: nat) returns (out: seq<Message>, orders: map<nat, Table>, draws: seq<Draw>)
    requires nEvents < 0xFFFF_FFFF_FFFF_0000
    ensures orders.Keys == SYMBOLS && |out| <= nEvents
    ensures |draws| == nEvents && (forall i :: 0 <= i < |draws| ==> draws[i].loc in SYMBOLS)
            && Answered(DAY, draws, out)
    ensures forall loc :: loc in SYMBOLS ==>
              && Generated(map[], 1000, EventsOf(out, loc))
              && orders[loc] == TableRun(map[], EventsOf(out, loc))
  {
    hide Generated, TableRun, AdvanceAll, EventsOf, Answers;
    out, orders, draws := [], map[1 := map[], 2 := map[], 3 := map[]], [];
    var refCtr: nat := 1000;
    SoundStart(orders);
    for i := 0 to nEvents
      invariant Sound(out, orders, refCtr) && |out| <= i && refCtr <= 1000 + i
      invariant |draws| == i && (forall k :: 0 <= k < |draws| ==> draws[k].loc in SYMBOLS)
      invariant Answered(DAY, draws, out)
      invariant forall loc :: loc in SYMBOLS ==> Banded(orders[loc], refCtr)
    {
      var loc :| loc in SYMBOLS;
      var x: real := *;
      if x >= 0.80 {
        AnsweredQuiet(DAY, draws, out, Draw(loc, x));
        draws := draws + [Draw(loc, x)];
        continue;
      }
      var e, o, next := DrawEvent(orders[loc], refCtr, x);
      SoundStep(out, orders, refCtr, loc, e, o);
      BandedStep(orders[loc], refCtr, e);
      BandedLater(orders, refCtr, next);
      AnsweredNext(DAY, draws, out, Draw(loc, x), e);
      draws := draws + [Draw(loc, x)];
      out := out + [Message(loc, e)];
      orders := orders[loc := o];
      refCtr := next;
    }
  }

  lemma BandedLater(orders: map<nat, Table>, ctr: nat, next: nat)
    requires ctr <= next && forall loc :: loc in orders ==> Banded(orders[loc], ctr)
    ensures forall loc :: loc in orders ==> Banded(orders[loc], next)
  {
  }

  /** One book event, of the kind the draw selects, and the dictionary after it. New orders take
      the next reference. */
  method DrawEvent(o: Table, refCtr: nat, x: real) returns (e: Event, o': Table, next: nat)
    requires refCtr < 0xFFFF_FFFF_FFFF_FFFF && refCtr >= 1000 && Banded(o, refCtr)
    ensures MayEmit(o, refCtr, e) && o' == TableStep(o, e) && next == Advance(refCtr, e)
    ensures next <= refCtr + 1
    ensures Answers(DAY, o, x, e) && (e.Add? ==> e.ref == refCtr) && (e.Replace? ==> e.nref == refCtr)
  {
    next := refCtr;
    if x < 0.40 || o == map[] {
      var buy: bool := *;
      var side := if buy then 'B' else 'S';
      var price := DrawPrice(side);
      var shares := DrawBetween(1, 500);
      e := Add(refCtr, side, price, shares);
      next := refCtr + 1;
      o' := o[refCtr := Order(side, price, shares)];
      return;
    }
    var ref :| ref in o;
    var qty := o[ref].qty;
    if x < 0.56 {
      var ex := DrawBetween(1, qty);
      e := Reduce(ref, ex, true);
      o' := if ex == qty then o - {ref} else o[ref := o[ref].(qty := qty - ex)];
    } else if x < 0.66 && qty > 1 {
      var c := DrawBetween(1, qty - 1);
      e := Reduce(ref, c, false);
      o' := o[ref := o[ref].(qty := qty - c)];
    } else if x < 0.74 || (qty == 1 && x < 0.66) {
      e := Delete(ref);
      o' := o - {ref};
    } else {
      var shares := DrawBetween(1, 500);
      var price := DrawPrice(o[ref].side);
      e := Replace(ref, refCtr, shares, price);
      next := refCtr + 1;
      o' := (o - {ref})[refCtr := Order(o[ref].side, price, shares)];
    }
  }

  lemma EmptyBook(s: Ref.State)
    requires s.orders == map[] && s.bids == map[] && s.asks == map[]
    ensures Ref.Indexed(s) && Banded(s.orders, 1000)
  {
    assert forall bid, p: u32 :: At(map[], bid, p) == {};
  }

  /** The reference book after a generated day: no anomalies, never crossed, and the very table
      the generator kept. */
  lemma DayIsSound(es: seq<Event>, t: Table)
    requires Generated(map[], 1000, es) && t == TableRun(map[], es)
    ensures Ref.Run(Ref.EMPTY, es).an == Ref.Anomalies(0, 0, 0)
    ensures Ref.Run(Ref.EMPTY, es).orders == t && Ref.Indexed(Ref.Run(Ref.EMPTY, es))
    ensures NeverCrosses(map[], es)
  {
    EmptyBook(Ref.EMPTY);
    GeneratedIsSound(Ref.EMPTY, 1000, es);
  }

  lemma {:induction false} GeneratedPrefix(t: Table, ctr: nat, es: seq<Event>, k: nat)
    requires Generated(t, ctr, es) && k <= |es|
    ensures Generated(t, ctr, es[..k])
    decreases es
  {
    hide MayEmit, TableStep;
    if k > 0 {
      assert es[..k][0] == es[0] && es[..k][1..] == es[1..][..k - 1];
      GeneratedPrefix(TableStep(t, es[0]), Advance(ctr, es[0]), es[1..], k - 1);
    }
  }

  lemma {:induction false} GeneratedSoundRun(t: Table, ctr: nat, es: seq<Event>)
    requires Banded(t, ctr) && ctr >= 1000 && Generated(t, ctr, es)
    ensures SoundRun(t, es)
    decreases es
  {
    hide TableStep, Banded;
    if es != [] {
      BandedStep(t, ctr, es[0]);
      GeneratedSoundRun(TableStep(t, es[0]), Advance(ctr, es[0]), es[1..]);
    }
  }

  lemma {:induction false} CleanFits(t: Table, es: seq<Event>)
    requires CleanRun(t, es) && Fits(t)
    ensures FitsAlong(t, es)
    decreases es
  {
    hide Fits, TableStep;
    if es != [] {
      CleanFits(TableStep(t, es[0]), es[1..]);
    }
  }

  lemma EmptyFits()
    ensures Fits(map[]) && HoldsSome(Engine.EMPTY, map[])
  {
    Snapshots.EmptyIsUpTo();
    assert Prices(map[], true) == {} && Prices(map[], false) == {};
  }

  /** Nothing of a generated day ever fills, however large it is. */
  lemma DayNeverFills(es: seq<Event>)
    requires Generated(map[], 1000, es)
    ensures Engine.Feed(Engine.EMPTY, Tr.EmitAll(Tr.EMPTY, es)).1 == []
  {
    hide Generated, Tr.EmitAll, Engine.Feed, NeverCrosses, Ref.Run, SoundRun, HoldsSome;
    DayIsSound(es, TableRun(map[], es));
    EmptyBook(Ref.EMPTY);
    GeneratedSoundRun(map[], 1000, es);
    EmptyFits();
    NeverFilled(Engine.EMPTY, Tr.EMPTY, es);
  }

  /** A generated day can be cut wherever its tables so far have fitted the order slots: starting
      the engine from a snapshot there gives the same book and reports as feeding it the whole
      day, whatever the size of the rest, and nothing ever fills. */
  lemma DayCanBeCut(es: seq<Event>, k: nat, ms: seq<Engine.Msg>, s: Tr.State)
    requires k <= |es| && Generated(map[], 1000, es) && TablesWithin(Engine.MAX_ORDERS, map[], es[..k])
    requires s.orders == TableRun(map[], es[..k]) && Tr.IsSnapshot(ms, s.orders)
    ensures Engine.Feed(Engine.EMPTY, ms + Tr.EmitAll(s, es[k..]))
            == Engine.Feed(Engine.EMPTY, Tr.EmitAll(Tr.EMPTY, es))
    ensures Engine.Feed(Engine.EMPTY, Tr.EmitAll(Tr.EMPTY, es)).1 == []
  {
    hide Generated, TablesWithin, TableRun, Tr.IsSnapshot, Tr.EmitAll, Engine.Feed, CleanRun, NeverCrosses, Rising,
      Ref.Run, SoundRun, FitsAlong, Fits;
    DayNeverFills(es);
    var pre := es[..k];
    GeneratedPrefix(map[], 1000, es, k);
    DayIsSound(pre, TableRun(map[], pre));
    EmptyBook(Ref.EMPTY);
    GeneratedIsClean(map[], 1000, 0, pre);
    GeneratedSoundRun(map[], 1000, pre);
    EmptyFits();
    CleanFits(map[], pre);
    Snapshots.SnapshotEquivalence(es, k, ms, s);
  }

  // ---- summarize ----

  ghost function Among(t: Table, s: set<u64>, bid: bool, p: u32): set<u64> {
    set r | r in s && r in t && IsBid(t[r].side) == bid && t[r].price == p
  }

  /** A dictionary of totals over part of the orders. */
  ghost predicate Totals(m: map<u32, nat>, t: Table, s: set<u64>, bid: bool) {
    && (forall p :: p in m <==> Among(t, s, bid, p) != {})
    && (forall p :: p in m ==> m[p] == SumQty(t, Among(t, s, bid, p)))
  }

  lemma AmongGrows(t: Table, s: set<u64>, r: u64, bid: bool, p: u32)
    requires r in t && r !in s
    ensures Among(t, s + {r}, bid, p) ==
            if IsBid(t[r].side) == bid && t[r].price == p then Among(t, s, bid, p) + {r} else Among(t, s, bid, p)
    ensures r !in Among(t, s, bid, p)
  {
  }

  lemma TotalsGrow(m: map<u32, nat>, t: Table, s: set<u64>, r: u64, bid: bool)
    requires Totals(m, t, s, bid) && r in t && r !in s && IsBid(t[r].side) == bid
    ensures Totals(m[t[r].price := (if t[r].price in m then m[t[r].price] else 0) + t[r].qty], t, s + {r}, bid)
  {
    hide SumQty;
    forall p: u32 {
      AmongGrows(t, s, r, bid, p);
    }
    var p := t[r].price;
    var a := Among(t, s, bid, p);
    SumQtyRemove(t, a + {r}, r);
    assert a + {r} - {r} == a;
    assert p !in m ==> a == {};
    EmptySum(t);
    hide Among;
  }

  lemma EmptySum(t: Table)
    ensures SumQty(t, {}) == 0
  {
  }

  lemma TotalsOther(m: map<u32, nat>, t: Table, s: set<u64>, r: u64, bid: bool)
    requires Totals(m, t, s, bid) && r in t && r !in s && IsBid(t[r].side) != bid
    ensures Totals(m, t, s + {r}, bid)
  {
    hide SumQty;
    forall p: u32 {
      AmongGrows(t, s, r, bid, p);
    }
    hide Among;
  }

  /** max or min of the dictionary's keys, and the total there, or zeros. */
  method BestOf(m: map<u32, nat>, bid: bool, ghost t: Table) returns (px: u32, qty: nat)
    requires Totals(m, t, t.Keys, bid)
    ensures Ref.IsTouch(t, bid, px, qty) && |m| == |Prices(t, bid)|
  {
    hide SumQty;
    px, qty := 0, 0;
    KeysArePrices(m, t, bid);
    if m != map[] {
      ghost var best := Ref.HasBest(m.Keys, bid);
      px :| px in m.Keys && Ref.IsBest(m.Keys, bid, px);
      qty := m[px];
      assert Among(t, t.Keys, bid, px) == At(t, bid, px);
    }
  }

  lemma KeysArePrices(m: map<u32, nat>, t: Table, bid: bool)
    requires Totals(m, t, t.Keys, bid)
    ensures m.Keys == Prices(t, bid)
  {
    forall p: u32 ensures p in m <==> p in Prices(t, bid) {
      assert Among(t, t.Keys, bid, p) == At(t, bid, p);
      Ref.PricesAreOccupied(t, bid, p);
    }
  }

  /** summarize: the top of book from scratch. The reference book's incremental one equals it
      because both are determined by the live orders. */
  method Summarize(t: Table) returns (b: Ref.Bbo)
    ensures Ref.IsBbo(t, b)
  {
    hide Totals, SumQty, Prices, At;
    var bids: map<u32, nat>, asks: map<u32, nat> := map[], map[];
    var rest := t.Keys;
    ghost var done: set<u64> := {};
    NoTotals(t);
    while rest != {}
      invariant done + rest == t.Keys && done !! rest
      invariant Totals(bids, t, done, true) && Totals(asks, t, done, false)
      decreases rest
    {
      var r :| r in rest;
      var o := t[r];
      if o.side == 'B' {
        TotalsGrow(bids, t, done, r, true);
        TotalsOther(asks, t, done, r, false);
        bids := bids[o.price := (if o.price in bids then bids[o.price] else 0) + o.qty];
      } else {
        TotalsOther(bids, t, done, r, true);
        TotalsGrow(asks, t, done, r, false);
        asks := asks[o.price := (if o.price in asks then asks[o.price] else 0) + o.qty];
      }
      rest := rest - {r};
      done := done + {r};
    }
    assert done == t.Keys;
    var bidPx, bidQty := BestOf(bids, true, t);
    var askPx, askQty := BestOf(asks, false, t);
    b := Ref.Bbo(bidPx, askPx, bidQty, askQty, |bids|, |asks|, |t|);
  }

  lemma NoTotals(t: Table)
    ensures Totals(map[], t, {}, true) && Totals(map[], t, {}, false)
  {
    assert forall bid, p: u32 :: Among(t, {}, bid, p) == {};
  }

  // ---- The second model ----

  /** model_from_oracle keeps Python integers: a share count may go negative. */
  datatype OracleOrder = OracleOrder(side: char, price: u32, qty: int)

  /** None is a KeyError. An execution deletes at zero; a cancel never deletes. */
  function OracleStep(d: map<u64, OracleOrder>, e: Event): Option<map<u64, OracleOrder>> {
    match e
    case Add(ref, side, price, shares) => Some(d[ref := OracleOrder(side, price, shares)])
    case Reduce(ref, shares, exec) =>
      if ref !in d then None
      else
        var left := d[ref].qty - shares;
        if exec && left == 0 then Some(d - {ref}) else Some(d[ref := d[ref].(qty := left)])
    case Delete(ref) => if ref !in d then None else Some(d - {ref})
    case Replace(orig, nref, shares, price) =>
      if orig !in d then None else Some((d - {orig})[nref := OracleOrder(d[orig].side, price, shares)])
  }

  function OracleRun(d: map<u64, OracleOrder>, es: seq<Event>): Option<map<u64, OracleOrder>>
    decreases es
  {
    if es == [] then Some(d)
    else match OracleStep(d, es[0])
      case None => None
      case Some(d') => OracleRun(d', es[1..])
  }

  ghost predicate SameOrders(d: map<u64, OracleOrder>, t: Table) {
    d.Keys == t.Keys && forall r :: r in t ==> d[r] == OracleOrder(t[r].side, t[r].price, t[r].qty)
  }

  /** From the same orders, the second model and section 4.4 agree on an event if and only if the
      reference is known, no live reference is given a different order, and a reduction leaves
      shares, or is an execution of exactly what is left. */
  lemma OracleStepIff(d: map<u64, OracleOrder>, t: Table, e: Event)
    requires SameOrders(d, t)
    ensures OracleStep(d, e).Some? && SameOrders(OracleStep(d, e).value, TableStep(t, e)) <==>
              && !Unknown(t, e)
              && (Duplicates(t, e) ==> t[Tr.NewRef(e)] == Tr.Installs(t, e))
              && (e.Reduce? ==> e.shares < t[e.ref].qty || (e.exec && e.shares == t[e.ref].qty))
  {
    if OracleStep(d, e).Some? {
      var d', t' := OracleStep(d, e).value, TableStep(t, e);
      if e.Reduce? {
        assert e.ref in d' && e.ref in t' ==> (d'[e.ref].qty == t'[e.ref].qty <==> e.shares < t[e.ref].qty);
      } else if Duplicates(t, e) {
        assert Tr.NewRef(e) in d' && t'[Tr.NewRef(e)] == t[Tr.NewRef(e)];
      }
    }
  }

  lemma OracleAgreesStep(d: map<u64, OracleOrder>, t: Table, ctr: nat, e: Event)
    requires SameOrders(d, t) && Banded(t, ctr) && MayEmit(t, ctr, e)
    ensures OracleStep(d, e).Some? && SameOrders(OracleStep(d, e).value, TableStep(t, e))
  {
    hide InBand;
  }

  /** The two models the script compares agree on every generated day, and neither fails. */
  lemma {:induction false} OracleAgrees(d: map<u64, OracleOrder>, t: Table, ctr: nat, es: seq<Event>)
    requires SameOrders(d, t) && Banded(t, ctr) && ctr >= 1000 && Generated(t, ctr, es)
    ensures OracleRun(d, es).Some? && SameOrders(OracleRun(d, es).value, TableRun(t, es))
    decreases es
  {
    hide SameOrders, Banded, MayEmit, TableStep, OracleStep;
    if es != [] {
      OracleAgreesStep(d, t, ctr, es[0]);
      BandedStep(t, ctr, es[0]);
      OracleAgrees(OracleStep(d, es[0]).value, TableStep(t, es[0]), Advance(ctr, es[0]), es[1..]);
    }
  }
}
