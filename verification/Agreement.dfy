/** What the replay's verdict is worth: the engine behind the pipeline, fed what the driver
    sent, against the reference book (tools/replay_itch50.cpp). */
module Agreement {
  import opened Itch
  import opened Engine
  import opened PriceTime
  import opened Replication
  import opened Verdict
  import opened Replay
  import Ref = ReferenceBook
  import Tr = Translation
  import Pipe = Pipeline
  import Ticks

  // ---- The pipeline feeds the engine ----

  lemma {:induction false} FoldIsFeed(b: Book, ms: seq<Msg>)
    ensures Pipe.Fold(Process, b, ms) == Feed(b, ms)
    decreases ms
  {
    hide Process;
    if ms != [] {
      var init, m := ms[..|ms| - 1], ms[|ms| - 1];
      assert ms == init + [m];
      FoldIsFeed(b, init);
      FeedAppend(b, init, [m]);
      FeedOne(Feed(b, init).0, m);
    }
  }

  /** Every schedule of the pipeline leaves the book that feeding the messages one by one
      leaves. */
  lemma PipelineFeeds(c: Pipe.Config<Book, Msg, Report>, s0: Pipe.State<Book, Msg, Report>, acts: seq<Pipe.Action>,
                      sent: seq<Msg>)
    requires c.step == Process && Pipe.Initial(s0, Engine.EMPTY, sent)
    requires Pipe.Runs(c, s0, acts) && Pipe.Run(c, s0, acts).main == Pipe.Stopped
    ensures Pipe.Run(c, s0, acts).engine == Feed(Engine.EMPTY, sent).0
    ensures Pipe.Run(c, s0, acts).quiet ==> Pipe.Run(c, s0, acts).processed == |sent|
  {
    hide *;
    Pipe.StoppedEngine(c, s0, acts, Engine.EMPTY, sent);
    FoldIsFeed(Engine.EMPTY, sent);
  }

  // ---- The verdict ----

  /** From an engine start on a table it can rest, over any clean run: the engine never fills
      if and only if the reference book is never crossed, and then the depth comparison finds
      no difference if and only if every level total fits 32 bits. */
  lemma ReplayAgreesIff(sent: seq<Msg>, now: Tr.State, pre: seq<Event>, mid: Tr.State, snap: seq<Msg>, post: seq<Event>,
                        vb: seq<Ref.DepthLevel>, va: seq<Ref.DepthLevel>)
    requires SentSince(sent, now, pre, mid, snap, post) && Tr.NoDuplicates(map[], pre)
    requires Restable(TableRun(map[], pre)) && CleanRun(TableRun(map[], pre), post)
    requires Ref.IsDepth(TableRun(map[], pre + post), true, vb) && Ref.IsDepth(TableRun(map[], pre + post), false, va)
    ensures Feed(Engine.EMPTY, sent).1 == [] <==> NeverCrosses(TableRun(map[], pre), post)
    ensures NeverCrosses(TableRun(map[], pre), post) ==>
              var b := Feed(Engine.EMPTY, sent).0;
              && WholeTicks(Shown(b.bids)) && WholeTicks(Shown(b.asks))
              && (SameDepth(Shown(b.bids), vb) <==> QtyFits(vb))
              && (SameDepth(Shown(b.asks), va) <==> QtyFits(va))
  {
    StartTable(sent, now, pre, mid, snap, post);
    TableRunAppend(map[], pre, post);
    hide *;
    MidDayStart(mid, snap, post);
    if NeverCrosses(mid.orders, post) {
      var b := Feed(Engine.EMPTY, sent).0;
      var a :| Rep(b, a) && Matches(a, TableRun(mid.orders, post));
      RepSides(b, a);
      ShownTicks(b.bids, a, TableRun(mid.orders, post), true, vb);
      ShownTicks(b.asks, a, TableRun(mid.orders, post), false, va);
    }
  }

  lemma RepSides(b: Book, a: seq<Arrival>)
    requires Rep(b, a)
    ensures IsSide(b.bids, a, true) && IsSide(b.asks, a, false)
  {
  }

  lemma StartTable(sent: seq<Msg>, now: Tr.State, pre: seq<Event>, mid: Tr.State, snap: seq<Msg>, post: seq<Event>)
    requires SentSince(sent, now, pre, mid, snap, post) && Tr.NoDuplicates(map[], pre)
    ensures mid.orders == TableRun(map[], pre)
    ensures Tr.IsSnapshot(snap, mid.orders) && sent == snap + Tr.EmitAll(mid, post)
  {
    Tr.RunTable(Tr.EMPTY, pre);
  }

  // ---- The whole program ----

  /** Every level of the table fits the engine's 32-bit quantity. */
  ghost predicate LevelsFit32(t: Table) {
    forall bid, p: u32 :: p in Prices(t, bid) ==> Ref.LevelAt(t, bid, p).qty < QTY_MOD
  }

  lemma DepthFits(t: Table, vb: seq<Ref.DepthLevel>, va: seq<Ref.DepthLevel>)
    requires Ref.IsDepth(t, true, vb) && Ref.IsDepth(t, false, va)
    ensures LevelsFit32(t) <==> QtyFits(vb) && QtyFits(va)
  {
    hide Ref.LevelAt, Prices;
    if LevelsFit32(t) {
      forall i | 0 <= i < |vb| ensures vb[i].qty < QTY_MOD {
        assert vb[i].price in Prices(t, true);
        assert Ref.LevelAt(t, true, vb[i].price).qty < QTY_MOD;
      }
      forall i | 0 <= i < |va| ensures va[i].qty < QTY_MOD {
        assert va[i].price in Prices(t, false);
        assert Ref.LevelAt(t, false, va[i].price).qty < QTY_MOD;
      }
    }
    if QtyFits(vb) && QtyFits(va) {
      forall bid, p: u32 | p in Prices(t, bid) ensures Ref.LevelAt(t, bid, p).qty < QTY_MOD {
        if bid {
          var i :| 0 <= i < |vb| && vb[i].price == p;
        } else {
          var i :| 0 <= i < |va| && va[i].price == p;
        }
      }
    }
  }

  /** The first book message at or after the start time, or the end. */
  function CutAt(msgs: seq<BookMsg>, startNs: nat): (cut: nat)
    ensures StartsAt(msgs, startNs, cut)
  {
    if startNs == 0 || msgs == [] || msgs[0].ts >= startNs then 0
    else
      var cut := CutAt(msgs[1..], startNs);
      assert forall j :: 1 <= j < |msgs| ==> msgs[j] == msgs[1..][j - 1];
      cut + 1
  }

  lemma CutUnique(msgs: seq<BookMsg>, startNs: nat, cut: nat)
    requires StartsAt(msgs, startNs, cut)
    ensures cut == CutAt(msgs, startNs)
  {
  }

  lemma {:induction false} RoomSame(capacity: nat, s: Tr.State, s': Tr.State, es: seq<Event>)
    requires s.orders == s'.orders
    ensures RoomAll(capacity, s, es) <==> RoomAll(capacity, s', es)
    decreases es
  {
    if es != [] {
      RoomSame(capacity, Tr.Step(s, es[0]), Tr.Step(s', es[0]), es[1..]);
    }
  }

  lemma {:induction false} RoomIsTables(capacity: nat, s: Tr.State, es: seq<Event>)
    requires CleanRun(s.orders, es)
    ensures RoomAll(capacity, s, es) <==> TablesWithin(capacity, s.orders, es)
    decreases es
  {
    hide Tr.Step, TableStep, CleanEvent;
    if es != [] {
      CleanStep(s, es[0]);
      RoomIsTables(capacity, Tr.Step(s, es[0]), es[1..]);
    }
  }

  /** The day up to the engine's start leaves a table it can rest, and the rest of the day is
      clean and never crosses the reference book. */
  ghost predicate Replayable(msgs: seq<BookMsg>, cut: nat)
    requires cut <= |msgs|
  {
    var pre, post := Events(msgs[..cut]), Events(msgs[cut..]);
    && NoZero(Events(msgs)) && Tr.NoDuplicates(map[], pre) && Restable(TableRun(map[], pre))
    && CleanRun(TableRun(map[], pre), post) && NeverCrosses(TableRun(map[], pre), post)
  }

  // ---- The reference depth is one list ----

  function AsLevels(v: seq<Ref.DepthLevel>): seq<Level> {
    seq(|v|, i requires 0 <= i < |v| => Level(v[i].price, v[i].qty, v[i].orders, []))
  }

  /** The list has exactly these prices, best first. */
  ghost predicate Covers(ps: set<u32>, bid: bool, v: seq<Ref.DepthLevel>) {
    && (forall i, j :: 0 <= i < j < |v| ==> Ref.Better(bid, v[i].price, v[j].price))
    && (forall i :: 0 <= i < |v| ==> v[i].price in ps)
    && (forall p :: p in ps ==> exists i :: 0 <= i < |v| && v[i].price == p)
  }

  lemma AsLevelsPrices(ps: set<u32>, bid: bool, v: seq<Ref.DepthLevel>, p: int)
    requires Covers(ps, bid, v)
    ensures HasPrice(AsLevels(v), p) <==> 0 <= p < 0x1_0000_0000 && p in ps
  {
    var ls := AsLevels(v);
    if HasPrice(ls, p) {
      var i :| 0 <= i < |ls| && ls[i].price == p;
      assert v[i].price in ps;
    }
    if 0 <= p < 0x1_0000_0000 && p in ps {
      var i :| 0 <= i < |v| && v[i].price == p;
      assert ls[i].price == p;
    }
  }

  lemma CoversUnique(ps: set<u32>, bid: bool, v: seq<Ref.DepthLevel>, u: seq<Ref.DepthLevel>)
    requires Covers(ps, bid, v) && Covers(ps, bid, u)
    ensures |v| == |u| && forall i :: 0 <= i < |v| ==> v[i].price == u[i].price
  {
    var x, y := AsLevels(v), AsLevels(u);
    forall p ensures HasPrice(x, p) <==> HasPrice(y, p) {
      AsLevelsPrices(ps, bid, v, p);
      AsLevelsPrices(ps, bid, u, p);
    }
    assert Sorted(x, bid) && Sorted(y, bid);
    SortedUnique(x, y, bid);
    forall i | 0 <= i < |v| ensures v[i].price == u[i].price {
      assert x[i].price == v[i].price && y[i].price == u[i].price;
    }
  }

  lemma DepthUnique(t: Table, bid: bool, v: seq<Ref.DepthLevel>, u: seq<Ref.DepthLevel>)
    requires Ref.IsDepth(t, bid, v) && Ref.IsDepth(t, bid, u)
    ensures v == u
  {
    hide Prices, Ref.LevelAt;
    CoversUnique(Prices(t, bid), bid, v, u);
  }

  lemma ListsUnique(m: Ref.Levels, bid: bool, v: seq<Ref.DepthLevel>, u: seq<Ref.DepthLevel>)
    requires Ref.Lists(m, bid, v) && Ref.Lists(m, bid, u)
    ensures v == u
  {
    ListsCovers(m, bid, v);
    ListsCovers(m, bid, u);
    hide Covers, Ref.Better;
    CoversUnique(m.Keys, bid, v, u);
  }

  lemma ListsCovers(m: Ref.Levels, bid: bool, v: seq<Ref.DepthLevel>)
    requires Ref.Lists(m, bid, v)
    ensures Covers(m.Keys, bid, v)
  {
  }

  // ---- The program ----

  /** The engine's lists are the reference depth of the table: every price, total and count. */
  ghost predicate Shows(b: Book, t: Table) {
    exists vb, va :: IsReference(t, vb, va) && SameDepth(Shown(b.bids), vb) && SameDepth(Shown(b.asks), va)
  }

  ghost predicate IsReference(t: Table, vb: seq<Ref.DepthLevel>, va: seq<Ref.DepthLevel>) {
    Ref.IsDepth(t, true, vb) && Ref.IsDepth(t, false, va)
  }

  lemma ShowsIff(b: Book, t: Table, vb: seq<Ref.DepthLevel>, va: seq<Ref.DepthLevel>)
    requires IsReference(t, vb, va)
    ensures Shows(b, t) <==> SameDepth(Shown(b.bids), vb) && SameDepth(Shown(b.asks), va)
  {
    hide SameDepth, Ref.IsDepth;
    if Shows(b, t) {
      var ub, ua :| IsReference(t, ub, ua) && SameDepth(Shown(b.bids), ub) && SameDepth(Shown(b.asks), ua);
      DepthUnique(t, true, vb, ub);
      DepthUnique(t, false, va, ua);
    }
  }

  /** The engine's lists are the reference book's level maps, exact or not. */
  ghost predicate ShowsLevels(b: Book, s: Ref.State) {
    exists vb, va :: ListsBoth(s, vb, va) && SameDepth(Shown(b.bids), vb) && SameDepth(Shown(b.asks), va)
  }

  ghost predicate ListsBoth(s: Ref.State, vb: seq<Ref.DepthLevel>, va: seq<Ref.DepthLevel>) {
    Ref.Lists(s.bids, true, vb) && Ref.Lists(s.asks, false, va)
  }

  lemma ShowsLevelsIff(b: Book, s: Ref.State, vb: seq<Ref.DepthLevel>, va: seq<Ref.DepthLevel>)
    requires ListsBoth(s, vb, va)
    ensures ShowsLevels(b, s) <==> SameDepth(Shown(b.bids), vb) && SameDepth(Shown(b.asks), va)
  {
    hide SameDepth, Ref.Lists;
    if ShowsLevels(b, s) {
      var ub, ua :| ListsBoth(s, ub, ua) && SameDepth(Shown(b.bids), ub) && SameDepth(Shown(b.asks), ua);
      ListsUnique(s.bids, true, vb, ub);
      ListsUnique(s.asks, false, va, ua);
    }
  }

  /** What the driver sends for these events. */
  ghost predicate SentFor(sent: seq<Msg>, pre: seq<Event>, post: seq<Event>) {
    exists now, mid, snap :: SentSince(sent, now, pre, mid, snap, post)
  }

  /** The whole program, given how many messages the stopped engine had counted. On every day
      the verdict is positive exactly when the tables measured stayed within the capacity,
      every message was counted, and the engine's lists are the reference book's level maps.
      If new orders have shares, those are the depth of the live orders; and on a replayable day
      the last means that every level of the final table fits 32 bits. */
  method ReplaySymbol(msgs: seq<BookMsg>, startNs: nat, capacity: nat, counted: nat)
    returns (agree: bool, sent: seq<Msg>)
    ensures var cut := CutAt(msgs, startNs); SentFor(sent, Events(msgs[..cut]), Events(msgs[cut..]))
    ensures var cut := CutAt(msgs, startNs);
            agree <==>
              && RoomAll(capacity, Tr.Run(Tr.EMPTY, Events(msgs[..cut])), Events(msgs[cut..]))
              && counted == |sent|
              && ShowsLevels(Feed(Engine.EMPTY, sent).0, Ref.Run(Ref.EMPTY, Events(msgs)))
    ensures var cut := CutAt(msgs, startNs);
            NoZero(Events(msgs)) ==>
              (agree <==>
                && RoomAll(capacity, Tr.Run(Tr.EMPTY, Events(msgs[..cut])), Events(msgs[cut..]))
                && counted == |sent|
                && Shows(Feed(Engine.EMPTY, sent).0, TableRun(map[], Events(msgs))))
    ensures var cut := CutAt(msgs, startNs);
            Replayable(msgs, cut) ==>
              (agree <==>
                && TablesWithin(capacity, TableRun(map[], Events(msgs[..cut])), Events(msgs[cut..]))
                && counted == |sent|
                && LevelsFit32(TableRun(map[], Events(msgs))))
  {
    hide RoomAll, SentSince, Ref.Run, Ref.Indexed, Events, TableRun, NoZero, Feed, Ref.IsDepth, Ref.IsBbo,
      SameDepth, WholeTicks, CutAt, LooksSame, Shows, ShowsLevels, Tr.Run, LevelsFit32, TablesWithin, CleanRun,
      NeverCrosses, Restable, Tr.NoDuplicates, Ref.Lists, Ref.TouchOf, Ref.HeadIs;
    var ref, tr, sent', malformed, crossed, exceeded, cut, mid, snap := Drive(msgs, startNs, capacity);
    sent := sent';
    CutUnique(msgs, startNs, cut);
    MidOrders(sent, tr.View(), Events(msgs[..cut]), mid, snap, Events(msgs[cut..]));
    RoomSame(capacity, mid, Tr.Run(Tr.EMPTY, Events(msgs[..cut])), Events(msgs[cut..]));
    var book := Feed(Engine.EMPTY, sent).0;
    var bids := ref.Depth('B');
    var asks := ref.Depth('S');
    var top := ref.TopOfBook();
    Ref.TouchIsHead(ref.bids, true, bids, top.bidPx, top.bidQty);
    Ref.TouchIsHead(ref.asks, false, asks, top.askPx, top.askQty);
    agree := Judge(Shown(book.bids), Shown(book.asks), bids, asks, top, |sent|, counted, exceeded != 0);
    Ticks.FedOnGrid(sent, tr.View(), Events(msgs[..cut]), mid, snap, Events(msgs[cut..]));
    LooksAreReal(Shown(book.bids), bids);
    LooksAreReal(Shown(book.asks), asks);
    ShowsLevelsIff(book, ref.View(), bids, asks);
    if NoZero(Events(msgs)) {
      RunExact(Events(msgs));
      ShowsIff(book, ref.orders, bids, asks);
      if Replayable(msgs, cut) {
        ReplayableAgreesIff(msgs, cut, sent, capacity, bids, asks);
      }
    }
  }

  lemma MidOrders(sent: seq<Msg>, now: Tr.State, pre: seq<Event>, mid: Tr.State, snap: seq<Msg>, post: seq<Event>)
    requires SentSince(sent, now, pre, mid, snap, post)
    ensures mid.orders == Tr.Run(Tr.EMPTY, pre).orders && SentFor(sent, pre, post)
  {
  }

  /** On a replayable day, that is when the tables stayed within the capacity and every level of
      the final one fits 32 bits. */
  lemma ReplayableAgreesIff(msgs: seq<BookMsg>, cut: nat, sent: seq<Msg>, capacity: nat, vb: seq<Ref.DepthLevel>,
                            va: seq<Ref.DepthLevel>)
    requires cut <= |msgs| && Replayable(msgs, cut) && SentFor(sent, Events(msgs[..cut]), Events(msgs[cut..]))
    requires IsReference(TableRun(map[], Events(msgs)), vb, va)
    ensures Shows(Feed(Engine.EMPTY, sent).0, TableRun(map[], Events(msgs)))
            <==> LevelsFit32(TableRun(map[], Events(msgs)))
    ensures RoomAll(capacity, Tr.Run(Tr.EMPTY, Events(msgs[..cut])), Events(msgs[cut..])) <==>
            TablesWithin(capacity, TableRun(map[], Events(msgs[..cut])), Events(msgs[cut..]))
  {
    hide RoomAll, SentSince, Events, NeverCrosses, CleanRun, Restable, TableRun, NoZero, Feed, Ref.IsDepth,
      Tr.NoDuplicates, LevelsFit32, SameDepth, QtyFits, WholeTicks, Shows, Tr.Run, TablesWithin;
    var pre, post, t := Events(msgs[..cut]), Events(msgs[cut..]), TableRun(map[], Events(msgs));
    var now, mid, snap :| SentSince(sent, now, pre, mid, snap, post);
    EventsSplit(msgs, cut);
    StartTable(sent, now, pre, mid, snap, post);
    MidOrders(sent, now, pre, mid, snap, post);
    RoomSame(capacity, mid, Tr.Run(Tr.EMPTY, pre), post);
    RoomIsTables(capacity, mid, post);
    ReplayAgreesIff(sent, now, pre, mid, snap, post, vb, va);
    DepthFits(t, vb, va);
    ShowsIff(Feed(Engine.EMPTY, sent).0, t, vb, va);
  }

  /** More live prices on a side than the engine has levels: the lists differ, so the verdict is
      negative, although the capacity report, which counts orders, may be silent. */
  lemma TooManyPricesDisagree(sent: seq<Msg>, t: Table, bid: bool)
    requires |Prices(t, bid)| > MAX_LEVELS
    ensures !Shows(Feed(Engine.EMPTY, sent).0, t)
  {
    hide Feed, Prices;
    var b := Feed(Engine.EMPTY, sent).0;
    FeedBound(Engine.EMPTY, sent);
    if Shows(b, t) {
      var vb, va :| IsReference(t, vb, va) && SameDepth(Shown(b.bids), vb) && SameDepth(Shown(b.asks), va);
      DepthLength(t, bid, if bid then vb else va);
    }
  }

  ghost function PriceSet(v: seq<Ref.DepthLevel>): set<u32> {
    set i | 0 <= i < |v| :: v[i].price
  }

  lemma {:induction false} PriceSetSize(v: seq<Ref.DepthLevel>, bid: bool)
    requires forall i, j :: 0 <= i < j < |v| ==> Ref.Better(bid, v[i].price, v[j].price)
    ensures |PriceSet(v)| == |v|
  {
    if v == [] {
      assert PriceSet(v) == {};
    } else {
      var init, last := v[..|v| - 1], v[|v| - 1];
      PriceSetSize(init, bid);
      assert last.price !in PriceSet(init);
      assert PriceSet(v) == PriceSet(init) + {last.price} by {
        forall p | p in PriceSet(v) ensures p in PriceSet(init) + {last.price} {
          var i :| 0 <= i < |v| && v[i].price == p;
          if i < |init| {
            assert init[i].price == p;
          }
        }
        forall p | p in PriceSet(init) ensures p in PriceSet(v) {
          var i :| 0 <= i < |init| && init[i].price == p;
          assert v[i].price == p;
        }
      }
    }
  }

  lemma DepthLength(t: Table, bid: bool, v: seq<Ref.DepthLevel>)
    requires Ref.IsDepth(t, bid, v)
    ensures |v| == |Prices(t, bid)|
  {
    hide Prices, Ref.LevelAt;
    PriceSetSize(v, bid);
    assert PriceSet(v) == Prices(t, bid);
  }

  // ---- The count the verdict needs ----

  /** A quiet stop has counted every message; an early one may not have, and then the verdict is
      negative although the engine's book is the one that was fed. */
  lemma EarlyStopDisagrees(c: Pipe.Config<Book, Msg, Report>, s0: Pipe.State<Book, Msg, Report>, sent: seq<Msg>)
    returns (t: Pipe.State<Book, Msg, Report>)
    requires c.step == Process && Pipe.Initial(s0, Engine.EMPTY, sent) && c.inCap >= 1 && sent != []
    ensures Pipe.Path(c, s0, t) && t.main == Pipe.Stopped && !t.quiet
    ensures t.processed != |sent| && t.engine == Feed(Engine.EMPTY, sent).0
  {
    hide *;
    t := Pipe.EarlyStopMiscounts(c, s0, Engine.EMPTY, sent);
    FoldIsFeed(Engine.EMPTY, sent);
  }

  lemma EventsSplit(msgs: seq<BookMsg>, cut: nat)
    requires cut <= |msgs|
    ensures Events(msgs) == Events(msgs[..cut]) + Events(msgs[cut..])
  {
    assert msgs == msgs[..cut] + msgs[cut..];
    EventsConcat(msgs[..cut], msgs[cut..]);
  }
}
