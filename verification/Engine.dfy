/** The matching engine's book for limit orders (third_party/options-engine):
    per side an array of price levels, best first, each with a FIFO queue, a cached
    32-bit quantity and a cached count; an id index; and fixed capacities. The slot
    pool and its intrusive lists are represented by the queues themselves. */
module Engine {
  const MAX_LEVELS := 4096
  const MAX_ORDERS := 65536
  const QTY_MOD := 0x1_0000_0000

  datatype Kind = NewOrder | CancelOrder | ModifyOrder

  datatype Msg = Msg(kind: Kind, seqNum: nat, id: nat, price: int, qty: nat, buy: bool)

  datatype Resting = Resting(id: nat, qty: nat)

  datatype Level = Level(price: int, qty: nat, count: int, queue: seq<Resting>)

  datatype Loc = Loc(buy: bool, price: int)

  datatype Book = Book(bids: seq<Level>, asks: seq<Level>, index: map<nat, Loc>, used: int, nextId: nat)

  /** One report per match, describing the aggressor: `leaves` is what is left of it. */
  datatype Report = Report(id: nat, contra: nat, price: int, qty: nat, leaves: nat, buy: bool)

  const EMPTY := Book([], [], map[], 0, 1)

  function Side(b: Book, buy: bool): seq<Level> {
    if buy then b.bids else b.asks
  }

  function SetSide(b: Book, buy: bool, ls: seq<Level>): Book {
    if buy then b.(bids := ls) else b.(asks := ls)
  }

  /** Price `p` stands before price `q` in the level array of a side. */
  predicate Before(buy: bool, p: int, q: int) {
    if buy then p > q else p < q
  }

  /** An incoming order at `price` reaches a resting order of the other side. */
  predicate Crosses(buy: bool, price: int, resting: int) {
    if buy then price >= resting else price <= resting
  }

  function FindLevel(ls: seq<Level>, p: int): (r: int)
    ensures -1 <= r < |ls|
    ensures r >= 0 ==> ls[r].price == p
    ensures r < 0 ==> forall i :: 0 <= i < |ls| ==> ls[i].price != p
  {
    if ls == [] then -1
    else if ls[0].price == p then 0
    else
      var r := FindLevel(ls[1..], p);
      assert forall i :: 1 <= i < |ls| ==> ls[i] == ls[1..][i - 1];
      if r < 0 then -1 else r + 1
  }

  function InsertPos(ls: seq<Level>, p: int, buy: bool): (r: nat)
    ensures r <= |ls|
    ensures forall i :: 0 <= i < r ==> Before(buy, ls[i].price, p)
    ensures r < |ls| ==> !Before(buy, ls[r].price, p)
  {
    if ls == [] || !Before(buy, ls[0].price, p) then 0
    else
      var r := InsertPos(ls[1..], p, buy);
      assert forall i :: 1 <= i < |ls| ==> ls[i] == ls[1..][i - 1];
      1 + r
  }

  /** A level after one order has joined its tail. */
  function Joined(l: Level, id: nat, qty: nat): Level {
    Level(l.price, (l.qty + qty) % QTY_MOD, l.count + 1, l.queue + [Resting(id, qty)])
  }

  function JoinLevels(ls: seq<Level>, id: nat, price: int, qty: nat, buy: bool): seq<Level> {
    var i := FindLevel(ls, price);
    if i < 0 then
      var pos := InsertPos(ls, price, buy);
      ls[..pos] + [Joined(Level(price, 0, 0, []), id, qty)] + ls[pos..]
    else ls[i := Joined(ls[i], id, qty)]
  }

  /** Rests what is left of a limit order, or drops it when a capacity is reached. */
  function Rest(b: Book, id: nat, price: int, qty: nat, buy: bool): Book {
    var ls := Side(b, buy);
    if (FindLevel(ls, price) < 0 && |ls| >= MAX_LEVELS) || b.used >= MAX_ORDERS then b
    else
      SetSide(b, buy, JoinLevels(ls, id, price, qty, buy))
        .(index := b.index[id := Loc(buy, price)], used := b.used + 1)
  }

  /** Takes `fill` from the order at the head of the first level; a filled order leaves
      the queue and an emptied level leaves the array. */
  function FillLevels(ls: seq<Level>, fill: nat): seq<Level>
    requires ls != [] && ls[0].queue != [] && fill <= ls[0].queue[0].qty
  {
    var l, head := ls[0], ls[0].queue[0];
    var q := (l.qty - fill) % QTY_MOD;
    if head.qty > fill then [Level(l.price, q, l.count, [Resting(head.id, head.qty - fill)] + l.queue[1..])] + ls[1..]
    else if |l.queue| == 1 then ls[1..]
    else [Level(l.price, q, l.count - 1, l.queue[1..])] + ls[1..]
  }

  function FillHead(b: Book, buy: bool, fill: nat): Book
    requires Side(b, !buy) != [] && Side(b, !buy)[0].queue != [] && fill <= Side(b, !buy)[0].queue[0].qty
  {
    var ls := Side(b, !buy);
    var head := ls[0].queue[0];
    var b' := SetSide(b, !buy, FillLevels(ls, fill));
    if head.qty > fill then b' else b'.(index := b.index - {head.id}, used := b.used - 1)
  }

  /** try_match: fills against the head of the best opposing level while it crosses. */
  function Match(b: Book, id: nat, price: int, qty: nat, buy: bool): (Book, nat, seq<Report>)
    decreases |Side(b, !buy)|, if Side(b, !buy) == [] then 0 else |Side(b, !buy)[0].queue|, qty
  {
    var ls := Side(b, !buy);
    if qty == 0 || ls == [] || !Crosses(buy, price, ls[0].price) || ls[0].queue == [] then (b, qty, [])
    else
      var head := ls[0].queue[0];
      var fill := if qty < head.qty then qty else head.qty;
      var rpt := Report(id, head.id, ls[0].price, fill, qty - fill, buy);
      if head.qty > fill then (FillHead(b, buy, fill), 0, [rpt])
      else
        var (b', left, rpts) := Match(FillHead(b, buy, fill), id, price, qty - fill, buy);
        (b', left, [rpt] + rpts)
  }

  /** The last entry with this id: the one the index points at. */
  function QtyOf(q: seq<Resting>, id: nat): nat {
    if q == [] then 0
    else if q[|q| - 1].id == id then q[|q| - 1].qty
    else QtyOf(q[..|q| - 1], id)
  }

  function Unlink(q: seq<Resting>, id: nat): seq<Resting> {
    if q == [] then []
    else if q[|q| - 1].id == id then q[..|q| - 1]
    else Unlink(q[..|q| - 1], id) + [q[|q| - 1]]
  }

  function Resize(q: seq<Resting>, id: nat, qty: nat): seq<Resting> {
    if q == [] then []
    else if q[|q| - 1].id == id then q[..|q| - 1] + [Resting(id, qty)]
    else Resize(q[..|q| - 1], id, qty) + [q[|q| - 1]]
  }

  /** A level after one order has left it. */
  function Left(l: Level, id: nat): Level {
    Level(l.price, (l.qty - QtyOf(l.queue, id)) % QTY_MOD, l.count - 1, Unlink(l.queue, id))
  }

  function LeaveLevels(ls: seq<Level>, i: nat, id: nat): seq<Level>
    requires i < |ls|
  {
    var l' := Left(ls[i], id);
    if l'.count == 0 then ls[..i] + ls[i + 1..] else ls[i := l']
  }

  function Cancel(b: Book, id: nat): Book {
    if id !in b.index then b
    else
      var loc := b.index[id];
      var ls := Side(b, loc.buy);
      var i := FindLevel(ls, loc.price);
      var b' := b.(index := b.index - {id});
      if i < 0 then b' else SetSide(b', loc.buy, LeaveLevels(ls, i, id)).(used := b.used - 1)
  }

  /** A level after one of its orders changed size: a decrease keeps the place in the
      queue, an increase loses it. */
  function Resized(l: Level, id: nat, qty: nat): Level {
    var was := QtyOf(l.queue, id);
    var queue := if qty < was then Resize(l.queue, id, qty) else Unlink(l.queue, id) + [Resting(id, qty)];
    Level(l.price, (l.qty - was + qty) % QTY_MOD, l.count, queue)
  }

  function Modify(b: Book, id: nat, qty: nat): Book {
    if id !in b.index then b
    else
      var loc := b.index[id];
      var ls := Side(b, loc.buy);
      var i := FindLevel(ls, loc.price);
      if i < 0 then b.(index := b.index - {id})
      else
        var was := QtyOf(ls[i].queue, id);
        if qty == was then b
        else if qty == 0 then Cancel(b, id)
        else SetSide(b, loc.buy, ls[i := Resized(ls[i], id, qty)])
  }

  /** process_message: a zero order id is replaced by a synthetic one. */
  function Process(b: Book, m: Msg): (Book, seq<Report>) {
    match m.kind
    case NewOrder =>
      var id := if m.id != 0 then m.id else b.nextId;
      var b' := if m.id != 0 then b else b.(nextId := b.nextId + 1);
      var (b'', left, rpts) := Match(b', id, m.price, m.qty, m.buy);
      (if left == 0 then b'' else Rest(b'', id, m.price, left, m.buy), rpts)
    case CancelOrder => (Cancel(b, m.id), [])
    case ModifyOrder => (Modify(b, m.id, m.qty), [])
  }

  function Feed(b: Book, ms: seq<Msg>): (Book, seq<Report>)
    decreases ms
  {
    if ms == [] then (b, [])
    else
      var (b', r) := Process(b, ms[0]);
      var (b'', rs) := Feed(b', ms[1..]);
      (b'', r + rs)
  }

  lemma {:induction false} FeedAppend(b: Book, ms: seq<Msg>, ns: seq<Msg>)
    ensures Feed(b, ms + ns) ==
            var (b', r) := Feed(b, ms);
            var (b'', rs) := Feed(b', ns);
            (b'', r + rs)
    decreases ms
  {
    if ms == [] {
      assert ms + ns == ns;
      assert [] + Feed(b, ns).1 == Feed(b, ns).1;
    } else {
      assert (ms + ns)[1..] == ms[1..] + ns;
      var (b', r) := Process(b, ms[0]);
      FeedAppend(b', ms[1..], ns);
      var (c, rs) := Feed(b', ms[1..]);
      assert r + (rs + Feed(c, ns).1) == (r + rs) + Feed(c, ns).1;
    }
  }

  lemma StampIgnored(b: Book, m: Msg, n: nat)
    ensures Process(b, m.(seqNum := n)) == Process(b, m)
  {
    hide Match, Rest, Cancel, Modify;
  }

  /** The same messages but for their sequence numbers. */
  ghost predicate SameButStamps(ms: seq<Msg>, ns: seq<Msg>) {
    |ms| == |ns| && forall i :: 0 <= i < |ms| ==> ns[i] == ms[i].(seqNum := ns[i].seqNum)
  }

  /** The engine does not look at sequence numbers. */
  lemma {:induction false} StampsIgnored(b: Book, ms: seq<Msg>, ns: seq<Msg>)
    requires SameButStamps(ms, ns)
    ensures Feed(b, ms) == Feed(b, ns)
    decreases ms
  {
    hide Process;
    if ms != [] {
      StampIgnored(b, ms[0], ns[0].seqNum);
      StampsIgnored(Process(b, ms[0]).0, ms[1..], ns[1..]);
    }
  }
}
