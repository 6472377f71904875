/** The engine's book as one list of resting orders in order of arrival, which is what
    price-time priority means, and the proof that the level arrays refine it. */
module PriceTime {
  import opened Engine

  datatype Arrival = Arrival(id: nat, buy: bool, price: int, qty: nat)

  /** The FIFO queue at one price: the arrivals there, oldest first. */
  function Queue(a: seq<Arrival>, buy: bool, price: int): seq<Resting> {
    if a == [] then []
    else
      var x := a[|a| - 1];
      Queue(a[..|a| - 1], buy, price) + if x.buy == buy && x.price == price then [Resting(x.id, x.qty)] else []
  }

  function Total(q: seq<Resting>): nat {
    if q == [] then 0 else Total(q[..|q| - 1]) + q[|q| - 1].qty
  }

  ghost predicate HasPrice(ls: seq<Level>, p: int) {
    exists i :: 0 <= i < |ls| && ls[i].price == p
  }

  ghost predicate Sorted(ls: seq<Level>, buy: bool) {
    forall i, j :: 0 <= i < j < |ls| ==> Before(buy, ls[i].price, ls[j].price)
  }

  /** `ls` is the sorted array of the occupied prices of a side, where `q` gives the
      queue of every price. */
  ghost predicate Lists(ls: seq<Level>, buy: bool, q: int -> seq<Resting>) {
    && Sorted(ls, buy)
    && (forall i :: 0 <= i < |ls| ==> ls[i].queue == q(ls[i].price))
    && (forall p :: HasPrice(ls, p) <==> q(p) != [])
  }

  /** The cached count and 32-bit quantity of a level agree with its queue. */
  ghost predicate Cached(l: Level) {
    l.count == |l.queue| && l.qty == Total(l.queue) % QTY_MOD
  }

  ghost predicate AllCached(ls: seq<Level>) {
    forall i :: 0 <= i < |ls| ==> Cached(ls[i])
  }

  ghost function Queues(a: seq<Arrival>, buy: bool): int -> seq<Resting> {
    p => Queue(a, buy, p)
  }

  ghost predicate IsSide(ls: seq<Level>, a: seq<Arrival>, buy: bool) {
    Lists(ls, buy, Queues(a, buy)) && AllCached(ls)
  }

  ghost predicate HasId(a: seq<Arrival>, id: nat) {
    exists k :: 0 <= k < |a| && a[k].id == id
  }

  ghost predicate Distinct(a: seq<Arrival>) {
    forall j, k :: 0 <= j < k < |a| ==> a[j].id != a[k].id
  }

  function IndexFor(a: seq<Arrival>): map<nat, Loc> {
    if a == [] then map[]
    else IndexFor(a[..|a| - 1])[a[|a| - 1].id := Loc(a[|a| - 1].buy, a[|a| - 1].price)]
  }

  ghost predicate AllPositive(a: seq<Arrival>) {
    forall k :: 0 <= k < |a| ==> a[k].qty > 0
  }

  /** `b` holds exactly the arrivals of `a`, level by level and in FIFO order. */
  ghost predicate Rep(b: Book, a: seq<Arrival>) {
    && IsSide(b.bids, a, true)
    && IsSide(b.asks, a, false)
    && b.index == IndexFor(a)
    && b.used == |a|
    && Distinct(a)
    && AllPositive(a)
  }

  lemma EmptyRep()
    ensures Rep(EMPTY, [])
  {
  }

  // ---- The representation is unique ----

  lemma {:induction false} SortedUnique(xs: seq<Level>, ys: seq<Level>, buy: bool)
    requires Sorted(xs, buy) && Sorted(ys, buy)
    requires forall p :: HasPrice(xs, p) <==> HasPrice(ys, p)
    ensures |xs| == |ys| && forall i :: 0 <= i < |xs| ==> xs[i].price == ys[i].price
    decreases |xs|
  {
    if xs == [] {
      NoPrices(ys);
    } else {
      assert HasPrice(xs, xs[0].price);
      assert HasPrice(ys, ys[0].price);
      assert xs[0].price == ys[0].price;
      forall p
        ensures HasPrice(xs[1..], p) <==> HasPrice(ys[1..], p)
      {
        TailPrices(xs, buy, p);
        TailPrices(ys, buy, p);
      }
      SortedUnique(xs[1..], ys[1..], buy);
      assert forall i :: 1 <= i < |xs| ==> xs[i] == xs[1..][i - 1] && ys[i] == ys[1..][i - 1];
    }
  }

  lemma NoPrices(ys: seq<Level>)
    ensures ys != [] ==> HasPrice(ys, ys[0].price)
  {
  }

  lemma TailPrices(xs: seq<Level>, buy: bool, p: int)
    requires xs != [] && Sorted(xs, buy)
    ensures HasPrice(xs[1..], p) <==> HasPrice(xs, p) && p != xs[0].price
  {
    if HasPrice(xs[1..], p) {
      var i :| 0 <= i < |xs[1..]| && xs[1..][i].price == p;
      assert xs[i + 1].price == p;
    }
    if HasPrice(xs, p) && p != xs[0].price {
      var i :| 0 <= i < |xs| && xs[i].price == p;
      assert xs[1..][i - 1].price == p;
    }
  }

  lemma SideUnique(xs: seq<Level>, ys: seq<Level>, a: seq<Arrival>, buy: bool)
    requires IsSide(xs, a, buy) && IsSide(ys, a, buy)
    ensures xs == ys
  {
    SortedUnique(xs, ys, buy);
    forall i | 0 <= i < |xs|
      ensures xs[i] == ys[i]
    {
      assert Cached(xs[i]) && Cached(ys[i]);
    }
  }

  /** Two books with the same arrivals are the same book. */
  lemma RepUnique(b: Book, c: Book, a: seq<Arrival>)
    requires Rep(b, a) && Rep(c, a) && b.nextId == c.nextId
    ensures b == c
  {
    SideUnique(b.bids, c.bids, a, true);
    SideUnique(b.asks, c.asks, a, false);
  }

  // ---- Changing one level of a side ----

  ghost predicate SameBut(f: int -> seq<Resting>, g: int -> seq<Resting>, price: int) {
    forall p :: p != price ==> f(p) == g(p)
  }

  ghost predicate SameAll(f: int -> seq<Resting>, g: int -> seq<Resting>) {
    forall p :: f(p) == g(p)
  }

  lemma SamePrices(xs: seq<Level>, ys: seq<Level>, p: int)
    requires |xs| == |ys| && forall j :: 0 <= j < |xs| ==> xs[j].price == ys[j].price
    ensures HasPrice(xs, p) <==> HasPrice(ys, p)
  {
    if HasPrice(xs, p) {
      var i :| 0 <= i < |xs| && xs[i].price == p;
      assert ys[i].price == p;
    }
    if HasPrice(ys, p) {
      var i :| 0 <= i < |ys| && ys[i].price == p;
      assert xs[i].price == p;
    }
  }

  lemma LevelReplaced(ls: seq<Level>, ls': seq<Level>, buy: bool, q: int -> seq<Resting>, q': int -> seq<Resting>,
                      i: nat)
    requires Lists(ls, buy, q) && i < |ls| && SameBut(q, q', ls[i].price)
    requires |ls'| == |ls| && ls'[i].price == ls[i].price && ls'[i].queue == q'(ls[i].price) != []
    requires forall j :: 0 <= j < |ls| && j != i ==> ls'[j] == ls[j]
    ensures Lists(ls', buy, q')
  {
    assert forall j :: 0 <= j < |ls| ==> ls'[j].price == ls[j].price;
    assert HasPrice(ls, ls[i].price);
    forall p { SamePrices(ls, ls', p); }
  }

  ghost predicate Inserted(ls: seq<Level>, ls': seq<Level>, pos: nat, l: Level) {
    && |ls'| == |ls| + 1
    && pos <= |ls|
    && ls'[pos] == l
    && (forall i :: 0 <= i < pos ==> ls'[i] == ls[i])
    && (forall i :: pos <= i < |ls| ==> ls'[i + 1] == ls[i])
  }

  lemma InsertFacts(ls: seq<Level>, pos: nat, l: Level)
    requires pos <= |ls|
    ensures Inserted(ls, ls[..pos] + [l] + ls[pos..], pos, l)
  {
  }

  lemma InsertPrices(ls: seq<Level>, ls': seq<Level>, pos: nat, l: Level, p: int)
    requires Inserted(ls, ls', pos, l)
    ensures HasPrice(ls', p) <==> HasPrice(ls, p) || p == l.price
  {
    if HasPrice(ls', p) {
      var i :| 0 <= i < |ls'| && ls'[i].price == p;
      if i < pos { assert ls[i].price == p; }
      if i > pos { assert ls'[(i - 1) + 1] == ls[i - 1]; assert ls[i - 1].price == p; }
    }
    if HasPrice(ls, p) {
      var i :| 0 <= i < |ls| && ls[i].price == p;
      assert ls'[if i < pos then i else i + 1].price == p;
    }
    assert p == l.price ==> ls'[pos].price == p;
  }

  lemma SortedInsert(ls: seq<Level>, ls': seq<Level>, pos: nat, l: Level, buy: bool)
    requires Sorted(ls, buy) && Inserted(ls, ls', pos, l) && pos == InsertPos(ls, l.price, buy)
    requires forall i :: 0 <= i < |ls| ==> ls[i].price != l.price
    ensures Sorted(ls', buy)
  {
    forall i, j | 0 <= i < j < |ls'|
      ensures Before(buy, ls'[i].price, ls'[j].price)
    {
      var i', j' := if i < pos then i else i - 1, if j < pos then j else j - 1;
      assert i != pos ==> ls'[i] == ls[i'];
      assert j != pos ==> ls'[j] == ls[j'];
      if i == pos {
        assert pos < |ls| && Before(buy, l.price, ls[pos].price);
      }
    }
  }

  lemma LevelInserted(ls: seq<Level>, ls': seq<Level>, pos: nat, l: Level, buy: bool, q: int -> seq<Resting>,
                      q': int -> seq<Resting>)
    requires Lists(ls, buy, q) && SameBut(q, q', l.price) && l.queue == q'(l.price) != []
    requires Inserted(ls, ls', pos, l) && pos == InsertPos(ls, l.price, buy)
    requires forall i :: 0 <= i < |ls| ==> ls[i].price != l.price
    ensures Lists(ls', buy, q')
  {
    SortedInsert(ls, ls', pos, l, buy);
    forall i | 0 <= i < |ls'|
      ensures ls'[i].queue == q'(ls'[i].price)
    {
      if i < pos { assert ls'[i] == ls[i]; }
      if i > pos { assert ls'[(i - 1) + 1] == ls[i - 1]; }
    }
    forall p { InsertPrices(ls, ls', pos, l, p); }
  }

  ghost predicate Deleted(ls: seq<Level>, ls': seq<Level>, i: nat) {
    && i < |ls| == |ls'| + 1
    && (forall j :: 0 <= j < i ==> ls'[j] == ls[j])
    && (forall j :: i <= j < |ls'| ==> ls'[j] == ls[j + 1])
  }

  lemma DeletePrices(ls: seq<Level>, ls': seq<Level>, buy: bool, i: nat, p: int)
    requires Sorted(ls, buy) && Deleted(ls, ls', i)
    ensures HasPrice(ls', p) <==> HasPrice(ls, p) && p != ls[i].price
  {
    if HasPrice(ls', p) {
      var j :| 0 <= j < |ls'| && ls'[j].price == p;
      assert ls[if j < i then j else j + 1].price == p;
    }
    if HasPrice(ls, p) && p != ls[i].price {
      var j :| 0 <= j < |ls| && ls[j].price == p;
      assert ls'[if j < i then j else j - 1].price == p;
    }
  }

  lemma LevelDeleted(ls: seq<Level>, ls': seq<Level>, buy: bool, q: int -> seq<Resting>, q': int -> seq<Resting>,
                     i: nat)
    requires Lists(ls, buy, q) && Deleted(ls, ls', i) && SameBut(q, q', ls[i].price)
    requires q'(ls[i].price) == []
    ensures Lists(ls', buy, q')
  {
    forall p { DeletePrices(ls, ls', buy, i, p); }
    assert forall j :: 0 <= j < |ls'| ==> ls'[j].price != ls[i].price;
  }

  lemma ListsSame(ls: seq<Level>, buy: bool, q: int -> seq<Resting>, q': int -> seq<Resting>)
    requires Lists(ls, buy, q) && SameAll(q, q')
    ensures Lists(ls, buy, q')
  {
  }

  // ---- A new order joins the tail of its level ----

  lemma QueueAppend(a: seq<Arrival>, x: Arrival, buy: bool, p: int)
    ensures Queue(a + [x], buy, p) ==
            if x.buy == buy && x.price == p then Queue(a, buy, p) + [Resting(x.id, x.qty)] else Queue(a, buy, p)
  {
    assert (a + [x])[..|a|] == a;
    assert Queue(a, buy, p) + [] == Queue(a, buy, p);
  }

  lemma QueuesAppend(a: seq<Arrival>, x: Arrival)
    ensures SameBut(Queues(a, x.buy), Queues(a + [x], x.buy), x.price)
    ensures Queues(a + [x], x.buy)(x.price) == Queues(a, x.buy)(x.price) + [Resting(x.id, x.qty)]
  {
    forall p { QueueAppend(a, x, x.buy, p); }
  }

  lemma QueuesAppendOther(a: seq<Arrival>, x: Arrival, buy: bool)
    requires buy != x.buy
    ensures SameAll(Queues(a, buy), Queues(a + [x], buy))
  {
    forall p { QueueAppend(a, x, buy, p); }
  }

  lemma IndexAppend(a: seq<Arrival>, x: Arrival)
    ensures IndexFor(a + [x]) == IndexFor(a)[x.id := Loc(x.buy, x.price)]
  {
    assert (a + [x])[..|a|] == a;
  }

  lemma TotalAppend(q: seq<Resting>, r: Resting)
    ensures Total(q + [r]) == Total(q) + r.qty
  {
    assert (q + [r])[..|q|] == q;
  }

  lemma ModAdd(m: int, n: int)
    ensures (m % QTY_MOD + n) % QTY_MOD == (m + n) % QTY_MOD
  {
  }

  lemma JoinedCached(l: Level, id: nat, qty: nat)
    requires Cached(l)
    ensures Cached(Joined(l, id, qty))
  {
    TotalAppend(l.queue, Resting(id, qty));
    ModAdd(Total(l.queue), qty);
  }

  lemma DistinctAppend(a: seq<Arrival>, x: Arrival)
    requires Distinct(a) && !HasId(a, x.id)
    ensures Distinct(a + [x])
  {
  }

  /** There is a slot and, if the price is new, a level for one more order. */
  ghost predicate HasRoom(b: Book, buy: bool, price: int) {
    b.used < MAX_ORDERS && (|Side(b, buy)| < MAX_LEVELS || HasPrice(Side(b, buy), price))
  }

  lemma JoinNewPrice(ls: seq<Level>, ls': seq<Level>, pos: nat, l: Level, a: seq<Arrival>, x: Arrival)
    requires Lists(ls, x.buy, Queues(a, x.buy)) && forall i :: 0 <= i < |ls| ==> ls[i].price != x.price
    requires Inserted(ls, ls', pos, l) && pos == InsertPos(ls, x.price, x.buy)
    requires l.price == x.price && l.queue == [Resting(x.id, x.qty)]
    ensures Lists(ls', x.buy, Queues(a + [x], x.buy))
  {
    QueuesAppend(a, x);
    assert !HasPrice(ls, x.price);
    assert Queues(a, x.buy)(x.price) == [];
    LevelInserted(ls, ls', pos, l, x.buy, Queues(a, x.buy), Queues(a + [x], x.buy));
  }

  lemma JoinOldPrice(ls: seq<Level>, ls': seq<Level>, i: nat, a: seq<Arrival>, x: Arrival)
    requires Lists(ls, x.buy, Queues(a, x.buy)) && i < |ls| == |ls'| && ls[i].price == x.price
    requires ls'[i].price == x.price && ls'[i].queue == ls[i].queue + [Resting(x.id, x.qty)]
    requires forall j :: 0 <= j < |ls| && j != i ==> ls'[j] == ls[j]
    ensures Lists(ls', x.buy, Queues(a + [x], x.buy))
  {
    QueuesAppend(a, x);
    LevelReplaced(ls, ls', x.buy, Queues(a, x.buy), Queues(a + [x], x.buy), i);
  }

  lemma JoinCached(ls: seq<Level>, id: nat, price: int, qty: nat, buy: bool)
    requires AllCached(ls)
    ensures AllCached(JoinLevels(ls, id, price, qty, buy))
  {
    var i := FindLevel(ls, price);
    if i < 0 {
      JoinedCached(Level(price, 0, 0, []), id, qty);
    } else {
      JoinedCached(ls[i], id, qty);
    }
  }

  lemma JoinSide(ls: seq<Level>, a: seq<Arrival>, x: Arrival)
    requires IsSide(ls, a, x.buy)
    ensures IsSide(JoinLevels(ls, x.id, x.price, x.qty, x.buy), a + [x], x.buy)
  {
    var i := FindLevel(ls, x.price);
    var ls' := JoinLevels(ls, x.id, x.price, x.qty, x.buy);
    JoinCached(ls, x.id, x.price, x.qty, x.buy);
    if i < 0 {
      var l := Joined(Level(x.price, 0, 0, []), x.id, x.qty);
      var pos := InsertPos(ls, x.price, x.buy);
      InsertFacts(ls, pos, l);
      JoinNewPrice(ls, ls', pos, l, a, x);
    } else {
      JoinOldPrice(ls, ls', i, a, x);
    }
  }

  lemma JoinOther(ls: seq<Level>, a: seq<Arrival>, x: Arrival, buy: bool)
    requires buy != x.buy && IsSide(ls, a, buy)
    ensures IsSide(ls, a + [x], buy)
  {
    QueuesAppendOther(a, x, buy);
    ListsSame(ls, buy, Queues(a, buy), Queues(a + [x], buy));
  }

  lemma RestFields(b: Book, x: Arrival)
    requires HasRoom(b, x.buy, x.price)
    ensures var b' := Rest(b, x.id, x.price, x.qty, x.buy);
            && Side(b', x.buy) == JoinLevels(Side(b, x.buy), x.id, x.price, x.qty, x.buy)
            && Side(b', !x.buy) == Side(b, !x.buy)
            && b'.index == b.index[x.id := Loc(x.buy, x.price)]
            && b'.used == b.used + 1 && b'.nextId == b.nextId
  {
  }

  lemma RestRep(b: Book, a: seq<Arrival>, x: Arrival)
    requires Rep(b, a) && !HasId(a, x.id) && x.qty > 0 && HasRoom(b, x.buy, x.price)
    ensures Rep(Rest(b, x.id, x.price, x.qty, x.buy), a + [x])
    ensures Rest(b, x.id, x.price, x.qty, x.buy).nextId == b.nextId
  {
    RestFields(b, x);
    JoinSide(Side(b, x.buy), a, x);
    JoinOther(Side(b, !x.buy), a, x, !x.buy);
    IndexAppend(a, x);
    DistinctAppend(a, x);
  }

  // ---- An order leaves, shrinks or grows ----

  function Without(a: seq<Arrival>, k: nat): seq<Arrival>
    requires k < |a|
  {
    a[..k] + a[k + 1..]
  }

  function With(a: seq<Arrival>, k: nat, qty: nat): seq<Arrival>
    requires k < |a|
  {
    a[k := a[k].(qty := qty)]
  }

  predicate Sits(x: Arrival, buy: bool, p: int) {
    x.buy == buy && x.price == p
  }

  lemma SnocQueue(q: seq<Resting>, r: Resting, id: nat, qty: nat)
    ensures QtyOf(q + [r], id) == if r.id == id then r.qty else QtyOf(q, id)
    ensures Unlink(q + [r], id) == if r.id == id then q else Unlink(q, id) + [r]
    ensures Resize(q + [r], id, qty) == if r.id == id then q + [Resting(id, qty)] else Resize(q, id, qty) + [r]
    ensures Total(q + [r]) == Total(q) + r.qty
  {
    assert (q + [r])[..|q|] == q;
  }

  lemma WithoutSnoc(a: seq<Arrival>, y: Arrival, k: nat)
    requires k <= |a|
    ensures Without(a + [y], k) == if k == |a| then a else Without(a, k) + [y]
  {
    if k == |a| {
      assert Without(a + [y], k) == a;
    } else {
      assert Without(a + [y], k) == Without(a, k) + [y];
    }
  }

  lemma WithSnoc(a: seq<Arrival>, y: Arrival, k: nat, qty: nat)
    requires k <= |a|
    ensures With(a + [y], k, qty) == if k == |a| then a + [y.(qty := qty)] else With(a, k, qty) + [y]
  {
    if k == |a| {
      assert With(a + [y], k, qty) == a + [y.(qty := qty)];
    } else {
      assert With(a + [y], k, qty) == With(a, k, qty) + [y];
    }
  }

  lemma Snoc(a: seq<Arrival>) returns (init: seq<Arrival>, y: Arrival)
    requires a != []
    ensures a == init + [y] && |init| == |a| - 1
    ensures y == a[|init|] && forall i :: 0 <= i < |init| ==> init[i] == a[i]
    ensures Distinct(a) ==> Distinct(init)
  {
    init, y := a[..|a| - 1], a[|a| - 1];
  }

  /** The queue loses exactly the order that left, wherever it stands. */
  lemma {:induction false} QueueWithout(a: seq<Arrival>, k: nat, buy: bool, p: int)
    requires Distinct(a) && k < |a|
    ensures Queue(Without(a, k), buy, p) ==
            if Sits(a[k], buy, p) then Unlink(Queue(a, buy, p), a[k].id) else Queue(a, buy, p)
    decreases |a|
  {
    var init, y := Snoc(a);
    QueueAppend(init, y, buy, p);
    SnocQueue(Queue(init, buy, p), Resting(y.id, y.qty), a[k].id, 0);
    WithoutSnoc(init, y, k);
    if k < |init| {
      QueueWithout(init, k, buy, p);
      QueueAppend(Without(init, k), y, buy, p);
    }
  }

  lemma QueueWithLast(a: seq<Arrival>, y: Arrival, qty: nat, buy: bool, p: int)
    ensures Queue(With(a + [y], |a|, qty), buy, p) ==
            if Sits(y, buy, p) then Resize(Queue(a + [y], buy, p), y.id, qty) else Queue(a + [y], buy, p)
  {
    WithSnoc(a, y, |a|, qty);
    QueueAppend(a, y, buy, p);
    QueueAppend(a, y.(qty := qty), buy, p);
    SnocQueue(Queue(a, buy, p), Resting(y.id, y.qty), y.id, qty);
  }

  lemma QueueWithEarlier(a: seq<Arrival>, y: Arrival, k: nat, qty: nat, buy: bool, p: int)
    requires k < |a| && y.id != a[k].id
    requires Queue(With(a, k, qty), buy, p) ==
             if Sits(a[k], buy, p) then Resize(Queue(a, buy, p), a[k].id, qty) else Queue(a, buy, p)
    ensures Queue(With(a + [y], k, qty), buy, p) ==
            if Sits(a[k], buy, p) then Resize(Queue(a + [y], buy, p), a[k].id, qty) else Queue(a + [y], buy, p)
  {
    WithSnoc(a, y, k, qty);
    QueueAppend(a, y, buy, p);
    QueueAppend(With(a, k, qty), y, buy, p);
    SnocQueue(Queue(a, buy, p), Resting(y.id, y.qty), a[k].id, qty);
  }

  /** A resized order keeps its place. */
  lemma {:induction false} QueueWith(a: seq<Arrival>, k: nat, qty: nat, buy: bool, p: int)
    requires Distinct(a) && k < |a|
    ensures Queue(With(a, k, qty), buy, p) ==
            if Sits(a[k], buy, p) then Resize(Queue(a, buy, p), a[k].id, qty) else Queue(a, buy, p)
    decreases |a|
  {
    var init, y := Snoc(a);
    if k == |init| {
      QueueWithLast(init, y, qty, buy, p);
    } else {
      QueueWith(init, k, qty, buy, p);
      QueueWithEarlier(init, y, k, qty, buy, p);
    }
  }

  ghost predicate Queued(q: seq<Resting>, id: nat) {
    exists i :: 0 <= i < |q| && q[i].id == id
  }

  lemma {:induction false} QueueHas(a: seq<Arrival>, k: nat)
    requires Distinct(a) && k < |a|
    ensures Queued(Queue(a, a[k].buy, a[k].price), a[k].id)
    ensures QtyOf(Queue(a, a[k].buy, a[k].price), a[k].id) == a[k].qty
    decreases |a|
  {
    var n := |a| - 1;
    var init, y := a[..n], a[n];
    assert a == init + [y];
    QueueAppend(init, y, a[k].buy, a[k].price);
    var q := Queue(init, a[k].buy, a[k].price);
    SnocQueue(q, Resting(y.id, y.qty), a[k].id, 0);
    if k == n {
      assert (q + [Resting(y.id, y.qty)])[|q|].id == a[k].id;
    } else {
      QueueHas(init, k);
      var i :| 0 <= i < |q| && q[i].id == a[k].id;
      assert (q + [Resting(y.id, y.qty)])[i].id == a[k].id;
    }
  }

  lemma {:induction false} UnlinkSize(q: seq<Resting>, id: nat)
    requires Queued(q, id)
    ensures |Unlink(q, id)| == |q| - 1
    ensures Total(Unlink(q, id)) == Total(q) - QtyOf(q, id)
    decreases |q|
  {
    var n := |q| - 1;
    var init, r := q[..n], q[n];
    assert q == init + [r];
    if r.id != id {
      var i :| 0 <= i < |q| && q[i].id == id;
      assert init[i].id == id;
      UnlinkSize(init, id);
      SnocQueue(Unlink(init, id), r, id, 0);
    }
  }

  lemma {:induction false} ResizeSize(q: seq<Resting>, id: nat, qty: nat)
    requires Queued(q, id)
    ensures |Resize(q, id, qty)| == |q|
    ensures Total(Resize(q, id, qty)) == Total(q) - QtyOf(q, id) + qty
    decreases |q|
  {
    var n := |q| - 1;
    var init, r := q[..n], q[n];
    assert q == init + [r];
    if r.id == id {
      SnocQueue(init, Resting(id, qty), id, 0);
    } else {
      var i :| 0 <= i < |q| && q[i].id == id;
      assert init[i].id == id;
      ResizeSize(init, id, qty);
      SnocQueue(Resize(init, id, qty), r, id, 0);
    }
  }

  lemma LeftCached(l: Level, id: nat)
    requires Cached(l) && Queued(l.queue, id)
    ensures Cached(Left(l, id))
  {
    UnlinkSize(l.queue, id);
    ModAdd(Total(l.queue), 0 - QtyOf(l.queue, id));
  }

  lemma ModResize(t: int, was: int, qty: int)
    ensures (t % QTY_MOD - was + qty) % QTY_MOD == (t - was + qty) % QTY_MOD
  {
    ModAdd(t, qty - was);
  }

  lemma ResizedQueue(q: seq<Resting>, id: nat, qty: nat)
    requires Queued(q, id)
    ensures var was := QtyOf(q, id);
            var q' := if qty < was then Resize(q, id, qty) else Unlink(q, id) + [Resting(id, qty)];
            |q'| == |q| && Total(q') == Total(q) - was + qty
  {
    if qty < QtyOf(q, id) {
      ResizeSize(q, id, qty);
    } else {
      UnlinkSize(q, id);
      TotalAppend(Unlink(q, id), Resting(id, qty));
    }
  }

  lemma ResizedCached(l: Level, id: nat, qty: nat)
    requires Cached(l) && Queued(l.queue, id)
    ensures Cached(Resized(l, id, qty))
  {
    ModResize(Total(l.queue), QtyOf(l.queue, id), qty);
    ResizedQueue(l.queue, id, qty);
  }

  lemma {:induction false} IndexEntries(a: seq<Arrival>, k: nat)
    requires Distinct(a) && k < |a|
    ensures a[k].id in IndexFor(a) && IndexFor(a)[a[k].id] == Loc(a[k].buy, a[k].price)
    decreases |a|
  {
    if k < |a| - 1 {
      IndexEntries(a[..|a| - 1], k);
    }
  }

  lemma {:induction false} IndexIds(a: seq<Arrival>, id: nat)
    ensures id in IndexFor(a) <==> HasId(a, id)
    decreases |a|
  {
    if a != [] {
      var init := a[..|a| - 1];
      IndexIds(init, id);
      if HasId(a, id) && a[|a| - 1].id != id {
        var k :| 0 <= k < |a| && a[k].id == id;
        assert init[k].id == id;
      }
      assert a[|a| - 1].id == id ==> HasId(a, id);
      if HasId(init, id) {
        var k :| 0 <= k < |init| && init[k].id == id;
        assert a[k].id == id;
      }
    }
  }

  lemma {:induction false} IndexWithout(a: seq<Arrival>, k: nat)
    requires Distinct(a) && k < |a|
    ensures IndexFor(Without(a, k)) == IndexFor(a) - {a[k].id}
    decreases |a|
  {
    var n := |a| - 1;
    var init, y := a[..n], a[n];
    assert a == init + [y];
    IndexAppend(init, y);
    if k == n {
      assert Without(a, k) == init;
      IndexIds(init, y.id);
      assert !HasId(init, y.id);
      PutThenDrop(IndexFor(init), y.id, Loc(y.buy, y.price));
    } else {
      IndexWithout(init, k);
      assert Without(a, k) == Without(init, k) + [y];
      IndexAppend(Without(init, k), y);
      assert y.id != a[k].id;
      PutDropCommute(IndexFor(init), y.id, Loc(y.buy, y.price), a[k].id);
    }
  }

  lemma PutThenDrop<K, V>(m: map<K, V>, k: K, v: V)
    requires k !in m
    ensures m[k := v] - {k} == m
  {
  }

  lemma PutDropCommute<K, V>(m: map<K, V>, k: K, v: V, j: K)
    requires k != j
    ensures m[k := v] - {j} == (m - {j})[k := v]
  {
  }

  lemma {:induction false} IndexWith(a: seq<Arrival>, k: nat, qty: nat)
    requires k < |a|
    ensures IndexFor(With(a, k, qty)) == IndexFor(a)
    decreases |a|
  {
    var n := |a| - 1;
    assert a == a[..n] + [a[n]];
    if k == n {
      assert With(a, k, qty)[..n] == a[..n];
    } else {
      IndexWith(a[..n], k, qty);
      assert With(a, k, qty)[..n] == With(a[..n], k, qty);
    }
  }

  lemma OccupiedBy(ls: seq<Level>, a: seq<Arrival>, k: nat)
    requires Distinct(a) && k < |a| && IsSide(ls, a, a[k].buy)
    ensures var i := FindLevel(ls, a[k].price);
            && i >= 0
            && ls[i].price == a[k].price
            && ls[i].queue == Queue(a, a[k].buy, a[k].price)
            && Queued(ls[i].queue, a[k].id)
            && QtyOf(ls[i].queue, a[k].id) == a[k].qty
            && Cached(ls[i])
  {
    QueueHas(a, k);
    assert Queues(a, a[k].buy)(a[k].price) != [];
    assert HasPrice(ls, a[k].price);
  }

  lemma QueuesWithout(a: seq<Arrival>, k: nat)
    requires Distinct(a) && k < |a|
    ensures SameBut(Queues(a, a[k].buy), Queues(Without(a, k), a[k].buy), a[k].price)
    ensures Queues(Without(a, k), a[k].buy)(a[k].price) == Unlink(Queues(a, a[k].buy)(a[k].price), a[k].id)
    ensures SameAll(Queues(a, !a[k].buy), Queues(Without(a, k), !a[k].buy))
  {
    forall buy, p { QueueWithout(a, k, buy, p); }
  }

  lemma LeaveLists(ls: seq<Level>, ls': seq<Level>, i: nat, a: seq<Arrival>, k: nat)
    requires Distinct(a) && k < |a| && i < |ls| && ls[i].price == a[k].price
    requires Lists(ls, a[k].buy, Queues(a, a[k].buy))
    requires if Unlink(ls[i].queue, a[k].id) == [] then Deleted(ls, ls', i)
             else && |ls'| == |ls| && ls'[i].price == ls[i].price && ls'[i].queue == Unlink(ls[i].queue, a[k].id)
                  && (forall j :: 0 <= j < |ls| && j != i ==> ls'[j] == ls[j])
    ensures Lists(ls', a[k].buy, Queues(Without(a, k), a[k].buy))
  {
    QueuesWithout(a, k);
    if Unlink(ls[i].queue, a[k].id) == [] {
      LevelDeleted(ls, ls', a[k].buy, Queues(a, a[k].buy), Queues(Without(a, k), a[k].buy), i);
    } else {
      LevelReplaced(ls, ls', a[k].buy, Queues(a, a[k].buy), Queues(Without(a, k), a[k].buy), i);
    }
  }

  lemma DeleteFacts(ls: seq<Level>, i: nat)
    requires i < |ls|
    ensures Deleted(ls, ls[..i] + ls[i + 1..], i)
  {
  }

  lemma DeletedCached(ls: seq<Level>, ls': seq<Level>, i: nat)
    requires AllCached(ls) && Deleted(ls, ls', i)
    ensures AllCached(ls')
  {
    forall j | 0 <= j < |ls'|
      ensures Cached(ls'[j])
    {
      assert ls'[j] == ls[if j < i then j else j + 1];
    }
  }

  lemma LeaveLevelsFacts(ls: seq<Level>, i: nat, id: nat)
    requires i < |ls| && AllCached(ls) && Queued(ls[i].queue, id)
    ensures AllCached(LeaveLevels(ls, i, id))
    ensures var ls' := LeaveLevels(ls, i, id);
            if Unlink(ls[i].queue, id) == [] then Deleted(ls, ls', i)
            else && |ls'| == |ls| && ls'[i].price == ls[i].price && ls'[i].queue == Unlink(ls[i].queue, id)
                 && (forall j :: 0 <= j < |ls| && j != i ==> ls'[j] == ls[j])
  {
    assert Cached(ls[i]);
    LeftCached(ls[i], id);
    if Left(ls[i], id).count == 0 {
      DeleteFacts(ls, i);
      DeletedCached(ls, ls[..i] + ls[i + 1..], i);
    }
  }

  lemma LeaveSide(ls: seq<Level>, i: nat, a: seq<Arrival>, k: nat)
    requires Distinct(a) && k < |a| && IsSide(ls, a, a[k].buy) && i == FindLevel(ls, a[k].price)
    ensures IsSide(LeaveLevels(ls, i, a[k].id), Without(a, k), a[k].buy)
  {
    OccupiedBy(ls, a, k);
    LeaveLevelsFacts(ls, i, a[k].id);
    LeaveLists(ls, LeaveLevels(ls, i, a[k].id), i, a, k);
  }

  lemma CancelFields(b: Book, id: nat, i: nat)
    requires id in b.index && i < |Side(b, b.index[id].buy)|
             && i == FindLevel(Side(b, b.index[id].buy), b.index[id].price)
    ensures var buy, b' := b.index[id].buy, Cancel(b, id);
            && Side(b', buy) == LeaveLevels(Side(b, buy), i, id)
            && Side(b', !buy) == Side(b, !buy)
            && b'.index == b.index - {id} && b'.used == b.used - 1 && b'.nextId == b.nextId
  {
  }

  lemma WithoutKeeps(a: seq<Arrival>, k: nat)
    requires Distinct(a) && AllPositive(a) && k < |a|
    ensures Distinct(Without(a, k)) && AllPositive(Without(a, k)) && !HasId(Without(a, k), a[k].id)
  {
    var a' := Without(a, k);
    assert forall j :: 0 <= j < |a'| ==> a'[j] == a[if j < k then j else j + 1];
  }

  /** cancel_order takes exactly the named order out. */
  lemma CancelRep(b: Book, a: seq<Arrival>, k: nat)
    requires Rep(b, a) && k < |a|
    ensures Rep(Cancel(b, a[k].id), Without(a, k)) && Cancel(b, a[k].id).nextId == b.nextId
  {
    var x := a[k];
    IndexEntries(a, k);
    IndexWithout(a, k);
    OccupiedBy(Side(b, x.buy), a, k);
    var i := FindLevel(Side(b, x.buy), x.price);
    CancelFields(b, x.id, i);
    LeaveSide(Side(b, x.buy), i, a, k);
    QueuesWithout(a, k);
    ListsSame(Side(b, !x.buy), !x.buy, Queues(a, !x.buy), Queues(Without(a, k), !x.buy));
    WithoutKeeps(a, k);
  }

  /** modify_order on the arrival list. */
  function Amend(a: seq<Arrival>, k: nat, qty: nat): seq<Arrival>
    requires k < |a|
  {
    if qty == 0 then Without(a, k)
    else if qty <= a[k].qty then With(a, k, qty)
    else Without(a, k) + [a[k].(qty := qty)]
  }

  lemma QueueAmend(a: seq<Arrival>, k: nat, qty: nat, buy: bool, p: int)
    requires Distinct(a) && k < |a| && 0 < qty != a[k].qty
    ensures Queue(Amend(a, k, qty), buy, p) ==
            var q := Queue(a, buy, p);
            if !Sits(a[k], buy, p) then q
            else if qty < a[k].qty then Resize(q, a[k].id, qty)
            else Unlink(q, a[k].id) + [Resting(a[k].id, qty)]
  {
    if qty < a[k].qty {
      QueueWith(a, k, qty, buy, p);
    } else {
      QueueWithout(a, k, buy, p);
      QueueAppend(Without(a, k), a[k].(qty := qty), buy, p);
    }
  }

  lemma QueuesAmend(a: seq<Arrival>, k: nat, qty: nat)
    requires Distinct(a) && k < |a| && 0 < qty != a[k].qty
    ensures SameBut(Queues(a, a[k].buy), Queues(Amend(a, k, qty), a[k].buy), a[k].price)
    ensures SameAll(Queues(a, !a[k].buy), Queues(Amend(a, k, qty), !a[k].buy))
  {
    forall buy, p { QueueAmend(a, k, qty, buy, p); }
  }

  lemma IndexAmend(a: seq<Arrival>, k: nat, qty: nat)
    requires Distinct(a) && k < |a| && 0 < qty
    ensures IndexFor(Amend(a, k, qty)) == IndexFor(a) && |Amend(a, k, qty)| == |a|
  {
    if qty <= a[k].qty {
      IndexWith(a, k, qty);
    } else {
      IndexWithout(a, k);
      IndexAppend(Without(a, k), a[k].(qty := qty));
      IndexEntries(a, k);
      DropThenPut(IndexFor(a), a[k].id);
    }
  }

  lemma DropThenPut<K, V>(m: map<K, V>, k: K)
    requires k in m
    ensures (m - {k})[k := m[k]] == m
  {
  }

  lemma AmendKeeps(a: seq<Arrival>, k: nat, qty: nat)
    requires Distinct(a) && AllPositive(a) && k < |a| && 0 < qty
    ensures Distinct(Amend(a, k, qty)) && AllPositive(Amend(a, k, qty))
  {
    if qty > a[k].qty {
      WithoutKeeps(a, k);
      DistinctAppend(Without(a, k), a[k].(qty := qty));
    }
  }

  lemma AmendLists(ls: seq<Level>, ls': seq<Level>, i: nat, a: seq<Arrival>, k: nat, qty: nat)
    requires Distinct(a) && k < |a| && 0 < qty != a[k].qty && i < |ls| == |ls'| && ls[i].price == a[k].price
    requires Lists(ls, a[k].buy, Queues(a, a[k].buy))
    requires ls'[i].price == a[k].price && ls'[i].queue == Queue(Amend(a, k, qty), a[k].buy, a[k].price) != []
    requires forall j :: 0 <= j < |ls| && j != i ==> ls'[j] == ls[j]
    ensures Lists(ls', a[k].buy, Queues(Amend(a, k, qty), a[k].buy))
  {
    QueuesAmend(a, k, qty);
    LevelReplaced(ls, ls', a[k].buy, Queues(a, a[k].buy), Queues(Amend(a, k, qty), a[k].buy), i);
  }

  lemma AmendLevel(l: Level, a: seq<Arrival>, k: nat, qty: nat)
    requires Distinct(a) && k < |a| && 0 < qty != a[k].qty
    requires l.queue == Queue(a, a[k].buy, a[k].price) && Queued(l.queue, a[k].id)
             && QtyOf(l.queue, a[k].id) == a[k].qty
    requires Cached(l)
    ensures var l' := Resized(l, a[k].id, qty);
            Cached(l') && l'.price == l.price && l'.queue == Queue(Amend(a, k, qty), a[k].buy, a[k].price) != []
  {
    hide Queue, Queued, Distinct, QtyOf, Amend;
    ResizedCached(l, a[k].id, qty);
    ResizedQueue(l.queue, a[k].id, qty);
    hide Cached;
    QueueAmend(a, k, qty, a[k].buy, a[k].price);
  }

  lemma AmendSide(ls: seq<Level>, i: nat, a: seq<Arrival>, k: nat, qty: nat)
    requires Distinct(a) && k < |a| && 0 < qty != a[k].qty
    requires IsSide(ls, a, a[k].buy) && i == FindLevel(ls, a[k].price)
    ensures IsSide(ls[i := Resized(ls[i], a[k].id, qty)], Amend(a, k, qty), a[k].buy)
  {
    OccupiedBy(ls, a, k);
    assert Cached(ls[i]);
    hide Queue, Queued, Distinct, QtyOf, Amend, Lists, Cached, Resized;
    AmendLevel(ls[i], a, k, qty);
    var l' := Resized(ls[i], a[k].id, qty);
    AmendLists(ls, ls[i := l'], i, a, k, qty);
    ReplacedCached(ls, i, l');
  }

  lemma ReplacedCached(ls: seq<Level>, i: nat, l: Level)
    requires AllCached(ls) && i < |ls| && Cached(l)
    ensures AllCached(ls[i := l])
  {
  }

  lemma ModifyFields(b: Book, id: nat, qty: nat, i: nat)
    requires id in b.index && i < |Side(b, b.index[id].buy)|
             && i == FindLevel(Side(b, b.index[id].buy), b.index[id].price)
    requires 0 < qty != QtyOf(Side(b, b.index[id].buy)[i].queue, id)
    ensures var buy, b' := b.index[id].buy, Modify(b, id, qty);
            && Side(b', buy) == Side(b, buy)[i := Resized(Side(b, buy)[i], id, qty)]
            && Side(b', !buy) == Side(b, !buy)
            && b'.index == b.index && b'.used == b.used && b'.nextId == b.nextId
  {
  }

  lemma AmendRep(b: Book, a: seq<Arrival>, k: nat, qty: nat)
    requires Rep(b, a) && k < |a| && 0 < qty != a[k].qty
    ensures Rep(Modify(b, a[k].id, qty), Amend(a, k, qty)) && Modify(b, a[k].id, qty).nextId == b.nextId
  {
    var x := a[k];
    IndexEntries(a, k);
    OccupiedBy(Side(b, x.buy), a, k);
    var i := FindLevel(Side(b, x.buy), x.price);
    ModifyFields(b, x.id, qty, i);
    AmendSide(Side(b, x.buy), i, a, k, qty);
    QueuesAmend(a, k, qty);
    ListsSame(Side(b, !x.buy), !x.buy, Queues(a, !x.buy), Queues(Amend(a, k, qty), !x.buy));
    IndexAmend(a, k, qty);
    AmendKeeps(a, k, qty);
  }

  /** modify_order: a decrease keeps the order's place, an increase sends it to the
      tail of its level, and zero removes it. */
  lemma ModifyRep(b: Book, a: seq<Arrival>, k: nat, qty: nat)
    requires Rep(b, a) && k < |a|
    ensures Rep(Modify(b, a[k].id, qty), Amend(a, k, qty)) && Modify(b, a[k].id, qty).nextId == b.nextId
  {
    if 0 < qty != a[k].qty {
      AmendRep(b, a, k, qty);
    } else {
      hide Lists;
      IndexEntries(a, k);
      OccupiedBy(Side(b, a[k].buy), a, k);
      if qty == 0 {
        CancelRep(b, a, k);
      } else {
        assert With(a, k, qty) == a;
      }
    }
  }

  // ---- Matching is price-time priority ----

  /** `k` is the opposing order with the best price and, there, the oldest. */
  ghost predicate Best(a: seq<Arrival>, buy: bool, k: nat) {
    && k < |a|
    && a[k].buy != buy
    && forall j :: 0 <= j < |a| && a[j].buy != buy ==>
                     Before(!buy, a[k].price, a[j].price) || (a[j].price == a[k].price && k <= j)
  }

  lemma BestUnique(a: seq<Arrival>, buy: bool, j: nat, k: nat)
    requires Best(a, buy, j) && Best(a, buy, k)
    ensures j == k
  {
  }

  ghost predicate Reaches(a: seq<Arrival>, buy: bool, price: int, k: nat) {
    Best(a, buy, k) && Crosses(buy, price, a[k].price)
  }

  /** Price-time priority: the incoming order trades with the best, oldest opposing
      order as long as its limit reaches it. */
  ghost function Trade(a: seq<Arrival>, id: nat, price: int, qty: nat, buy: bool): (seq<Arrival>, nat, seq<Report>)
    decreases |a|, qty
  {
    if qty == 0 || !exists k: nat :: Reaches(a, buy, price, k) then (a, qty, [])
    else
      var k: nat :| Reaches(a, buy, price, k);
      var fill := if qty < a[k].qty then qty else a[k].qty;
      var rpt := Report(id, a[k].id, a[k].price, fill, qty - fill, buy);
      if a[k].qty > fill then (With(a, k, a[k].qty - fill), 0, [rpt])
      else
        var (a', left, rpts) := Trade(Without(a, k), id, price, qty - fill, buy);
        (a', left, [rpt] + rpts)
  }

  lemma {:induction false} Oldest(a: seq<Arrival>, buy: bool, p: int) returns (k: nat)
    requires Queue(a, buy, p) != []
    ensures k < |a| && Sits(a[k], buy, p) && Queue(a, buy, p)[0] == Resting(a[k].id, a[k].qty)
    ensures forall j :: 0 <= j < k ==> !Sits(a[j], buy, p)
    decreases |a|
  {
    var init, y := Snoc(a);
    QueueAppend(init, y, buy, p);
    if Queue(init, buy, p) != [] {
      k := Oldest(init, buy, p);
    } else {
      k := |init|;
      forall j | 0 <= j < k
        ensures !Sits(a[j], buy, p)
      {
        if Sits(init[j], buy, p) { QueueSits(init, j); }
      }
    }
  }

  lemma {:induction false} QueueSits(a: seq<Arrival>, k: nat)
    requires k < |a|
    ensures Queue(a, a[k].buy, a[k].price) != []
    decreases |a|
  {
    var init, y := Snoc(a);
    QueueAppend(init, y, a[k].buy, a[k].price);
    if k < |init| { QueueSits(init, k); }
  }

  /** The head of the first opposing level is the best, oldest opposing order. */
  lemma HeadIsBest(ls: seq<Level>, a: seq<Arrival>, buy: bool) returns (k: nat)
    requires IsSide(ls, a, !buy) && ls != []
    ensures ls[0].queue != [] && Best(a, buy, k) && a[k].price == ls[0].price
    ensures ls[0].queue[0] == Resting(a[k].id, a[k].qty)
  {
    assert HasPrice(ls, ls[0].price);
    assert Queues(a, !buy)(ls[0].price) != [];
    k := Oldest(a, !buy, ls[0].price);
    forall j | 0 <= j < |a| && a[j].buy != buy
      ensures Before(!buy, a[k].price, a[j].price) || (a[j].price == a[k].price && k <= j)
    {
      QueueSits(a, j);
      assert Queues(a, !buy)(a[j].price) != [];
      assert HasPrice(ls, a[j].price);
      var i :| 0 <= i < |ls| && ls[i].price == a[j].price;
      if i == 0 {
        assert Sits(a[j], !buy, ls[0].price);
      } else {
        assert Before(!buy, ls[0].price, ls[i].price);
      }
    }
  }

  lemma NoLevelsNoBest(a: seq<Arrival>, buy: bool)
    requires IsSide([], a, !buy)
    ensures forall k: nat :: !Best(a, buy, k)
  {
    forall k | 0 <= k < |a|
      ensures a[k].buy == buy
    {
      QueueSits(a, k);
      assert !HasPrice([], a[k].price);
      assert Queues(a, !buy)(a[k].price) == [];
    }
  }

  ghost predicate QueueDistinct(q: seq<Resting>) {
    forall i, j :: 0 <= i < j < |q| ==> q[i].id != q[j].id
  }

  lemma {:induction false} QueueIds(a: seq<Arrival>, buy: bool, p: int)
    requires Distinct(a)
    ensures QueueDistinct(Queue(a, buy, p))
    ensures forall i :: 0 <= i < |Queue(a, buy, p)| ==> HasId(a, Queue(a, buy, p)[i].id)
    decreases |a|
  {
    if a != [] {
      var init, y := Snoc(a);
      QueueIds(init, buy, p);
      QueueAppend(init, y, buy, p);
      var q := Queue(init, buy, p);
      forall i | 0 <= i < |q|
        ensures HasId(a, q[i].id) && q[i].id != y.id
      {
        var k :| 0 <= k < |init| && init[k].id == q[i].id;
        assert a[k].id == q[i].id;
      }
      assert a[|init|].id == y.id;
    }
  }

  lemma {:induction false} HeadOps(q: seq<Resting>, qty: nat)
    requires QueueDistinct(q) && q != []
    ensures Queued(q, q[0].id) && QtyOf(q, q[0].id) == q[0].qty
    ensures Unlink(q, q[0].id) == q[1..]
    ensures Resize(q, q[0].id, qty) == [Resting(q[0].id, qty)] + q[1..]
    decreases |q|
  {
    if |q| > 1 {
      var init, r := q[..|q| - 1], q[|q| - 1];
      assert q == init + [r] && init[0] == q[0];
      HeadOps(init, qty);
      assert q[1..] == init[1..] + [r];
      assert [Resting(q[0].id, qty)] + init[1..] + [r] == [Resting(q[0].id, qty)] + q[1..];
    }
  }

  lemma FullFillLevels(ls: seq<Level>)
    requires ls != [] && ls[0].queue != [] && QueueDistinct(ls[0].queue) && Cached(ls[0])
    ensures FillLevels(ls, ls[0].queue[0].qty) == LeaveLevels(ls, 0, ls[0].queue[0].id)
  {
    var l := ls[0];
    HeadOps(l.queue, 0);
    assert ls[..0] + ls[1..] == ls[1..];
    assert Left(l, l.queue[0].id) == Level(l.price, (l.qty - l.queue[0].qty) % QTY_MOD, l.count - 1, l.queue[1..]);
    assert ls[0 := Left(l, l.queue[0].id)] == [Left(l, l.queue[0].id)] + ls[1..];
  }

  lemma PartFillLevel(l: Level, fill: nat)
    requires l.queue != [] && QueueDistinct(l.queue) && 0 < fill < l.queue[0].qty
    ensures Resized(l, l.queue[0].id, l.queue[0].qty - fill) ==
            Level(l.price, (l.qty - fill) % QTY_MOD, l.count,
                [Resting(l.queue[0].id, l.queue[0].qty - fill)] + l.queue[1..])
  {
    hide QueueDistinct, Queued, Resize, Unlink, QtyOf;
    HeadOps(l.queue, l.queue[0].qty - fill);
  }

  lemma PartFillLevels(ls: seq<Level>, fill: nat)
    requires ls != [] && ls[0].queue != [] && QueueDistinct(ls[0].queue) && 0 < fill < ls[0].queue[0].qty
    ensures FillLevels(ls, fill) == ls[0 := Resized(ls[0], ls[0].queue[0].id, ls[0].queue[0].qty - fill)]
  {
    hide QueueDistinct, Resized;
    PartFillLevel(ls[0], fill);
    var l' := Resized(ls[0], ls[0].queue[0].id, ls[0].queue[0].qty - fill);
    assert ls[0 := l'] == [l'] + ls[1..];
  }

  /** `k` is the arrival at the head of the best opposing level. */
  ghost predicate AtHead(b: Book, a: seq<Arrival>, buy: bool, k: nat) {
    var ls := Side(b, !buy);
    && Best(a, buy, k)
    && ls != [] && ls[0].queue != []
    && a[k].price == ls[0].price && ls[0].queue[0] == Resting(a[k].id, a[k].qty)
  }

  lemma HeadFacts(b: Book, a: seq<Arrival>, buy: bool, k: nat)
    requires Rep(b, a) && AtHead(b, a, buy, k)
    ensures var ls := Side(b, !buy);
            && QueueDistinct(ls[0].queue) && Cached(ls[0]) && FindLevel(ls, a[k].price) == 0
            && a[k].id in b.index && b.index[a[k].id] == Loc(!buy, a[k].price)
            && QtyOf(ls[0].queue, a[k].id) == a[k].qty
  {
    QueueIds(a, !buy, Side(b, !buy)[0].price);
    IndexEntries(a, k);
    HeadOps(Side(b, !buy)[0].queue, 0);
  }

  /** A full fill of the head does to the book what a cancel of it does, and a partial
      fill what a modify to the remainder does. */
  lemma FillIsCancelOrModify(b: Book, a: seq<Arrival>, buy: bool, k: nat, fill: nat)
    requires Rep(b, a) && AtHead(b, a, buy, k) && 0 < fill <= a[k].qty
    ensures FillHead(b, buy, fill) ==
            if a[k].qty > fill then Modify(b, a[k].id, a[k].qty - fill) else Cancel(b, a[k].id)
  {
    hide Rep, FillLevels, QueueDistinct, Cached;
    HeadFacts(b, a, buy, k);
    if a[k].qty > fill {
      PartFillLevels(Side(b, !buy), fill);
    } else {
      FullFillLevels(Side(b, !buy));
    }
  }

  lemma TradeStep(a: seq<Arrival>, id: nat, price: int, qty: nat, buy: bool, k: nat)
    requires qty > 0 && Reaches(a, buy, price, k)
    ensures var fill := if qty < a[k].qty then qty else a[k].qty;
            var rpt := Report(id, a[k].id, a[k].price, fill, qty - fill, buy);
            Trade(a, id, price, qty, buy) ==
            if a[k].qty > fill then (Amend(a, k, a[k].qty - fill), 0, [rpt])
            else Prepend(rpt, Trade(Without(a, k), id, price, qty - fill, buy))
  {
    var j: nat :| Reaches(a, buy, price, j) && forall i: nat | Reaches(a, buy, price, i) :: i == j by {
      forall i: nat | Reaches(a, buy, price, i) ensures i == k { BestUnique(a, buy, i, k); }
    }
  }

  ghost predicate Agree(m: (Book, nat, seq<Report>), t: (seq<Arrival>, nat, seq<Report>), nextId: nat) {
    Rep(m.0, t.0) && m.1 == t.1 && m.2 == t.2 && m.0.nextId == nextId
  }

  function Prepend<T>(r: Report, m: (T, nat, seq<Report>)): (T, nat, seq<Report>) {
    (m.0, m.1, [r] + m.2)
  }

  lemma MatchStep(b: Book, a: seq<Arrival>, id: nat, price: int, qty: nat, buy: bool, k: nat)
    requires AtHead(b, a, buy, k) && qty > 0 && Crosses(buy, price, a[k].price)
    ensures var fill := if qty < a[k].qty then qty else a[k].qty;
            var rpt := Report(id, a[k].id, a[k].price, fill, qty - fill, buy);
            Match(b, id, price, qty, buy) ==
            if a[k].qty > fill then (FillHead(b, buy, fill), 0, [rpt])
            else Prepend(rpt, Match(FillHead(b, buy, fill), id, price, qty - fill, buy))
  {
  }

  lemma MatchStops(b: Book, a: seq<Arrival>, id: nat, price: int, qty: nat, buy: bool)
    requires Rep(b, a)
    requires qty == 0 || Side(b, !buy) == [] || !Crosses(buy, price, Side(b, !buy)[0].price)
    ensures Match(b, id, price, qty, buy) == (b, qty, []) && Trade(a, id, price, qty, buy) == (a, qty, [])
  {
    if qty > 0 {
      if Side(b, !buy) == [] {
        NoLevelsNoBest(a, buy);
      } else {
        var k := HeadIsBest(Side(b, !buy), a, buy);
        forall i: nat | Best(a, buy, i) ensures i == k { BestUnique(a, buy, i, k); }
      }
    }
  }

  lemma MatchPart(b: Book, a: seq<Arrival>, id: nat, price: int, qty: nat, buy: bool, k: nat)
    requires Rep(b, a) && AtHead(b, a, buy, k) && 0 < qty < a[k].qty && Crosses(buy, price, a[k].price)
    ensures Agree(Match(b, id, price, qty, buy), Trade(a, id, price, qty, buy), b.nextId)
  {
    hide Rep, Match, Trade, FillHead, Modify;
    FillIsCancelOrModify(b, a, buy, k, qty);
    MatchStep(b, a, id, price, qty, buy, k);
    TradeStep(a, id, price, qty, buy, k);
    ModifyRep(b, a, k, a[k].qty - qty);
  }

  lemma MatchFull(b: Book, a: seq<Arrival>, id: nat, price: int, qty: nat, buy: bool, k: nat)
    requires Rep(b, a) && AtHead(b, a, buy, k) && 0 < a[k].qty <= qty && Crosses(buy, price, a[k].price)
    requires Agree(Match(Cancel(b, a[k].id), id, price, qty - a[k].qty, buy),
                   Trade(Without(a, k), id, price, qty - a[k].qty, buy), b.nextId)
    ensures Agree(Match(b, id, price, qty, buy), Trade(a, id, price, qty, buy), b.nextId)
  {
    hide Rep, Match, Trade, FillHead, Cancel;
    FillIsCancelOrModify(b, a, buy, k, a[k].qty);
    MatchStep(b, a, id, price, qty, buy, k);
    TradeStep(a, id, price, qty, buy, k);
  }

  lemma RepSide(b: Book, a: seq<Arrival>, buy: bool)
    requires Rep(b, a)
    ensures IsSide(Side(b, buy), a, buy) && AllPositive(a) && Distinct(a)
  {
  }

  /** try_match is price-time priority: the same reports in the same order, the same
      remainder, and a book that holds what priority trading leaves. */
  lemma {:induction false} MatchRep(b: Book, a: seq<Arrival>, id: nat, price: int, qty: nat, buy: bool)
    requires Rep(b, a)
    ensures Agree(Match(b, id, price, qty, buy), Trade(a, id, price, qty, buy), b.nextId)
    decreases |a|, qty
  {
    hide Rep, IsSide, Match, Trade, Cancel;
    RepSide(b, a, !buy);
    if qty == 0 || Side(b, !buy) == [] || !Crosses(buy, price, Side(b, !buy)[0].price) {
      MatchStops(b, a, id, price, qty, buy);
    } else {
      var k := HeadIsBest(Side(b, !buy), a, buy);
      if a[k].qty > qty {
        MatchPart(b, a, id, price, qty, buy, k);
      } else {
        CancelRep(b, a, k);
        MatchRep(Cancel(b, a[k].id), Without(a, k), id, price, qty - a[k].qty, buy);
        MatchFull(b, a, id, price, qty, buy, k);
      }
    }
  }

  // ---- Whole messages ----

  ghost predicate Holds(a: seq<Arrival>, id: nat, k: nat) {
    k < |a| && a[k].id == id
  }

  /** One message on the arrival list: priority trading, then join the tail; leave;
      or change size. */
  ghost function ListStep(a: seq<Arrival>, m: Msg): (seq<Arrival>, seq<Report>) {
    if m.kind == NewOrder then
      var (a', left, rpts) := Trade(a, m.id, m.price, m.qty, m.buy);
      (if left == 0 then a' else a' + [Arrival(m.id, m.buy, m.price, left)], rpts)
    else if exists k: nat :: Holds(a, m.id, k) then
      var k: nat :| Holds(a, m.id, k);
      (if m.kind == CancelOrder then Without(a, k) else Amend(a, k, m.qty), [])
    else (a, [])
  }

  /** The message is one the engine can honour: a new order has a fresh non-zero id and
      what is left of it after matching finds a slot and a level. */
  ghost predicate Admissible(b: Book, a: seq<Arrival>, m: Msg) {
    m.kind == NewOrder ==>
      && m.id != 0 && !HasId(a, m.id)
      && var (b', left, _) := Match(b, m.id, m.price, m.qty, m.buy);
      left > 0 ==> HasRoom(b', m.buy, m.price)
  }

  lemma {:induction false} TradeFrom(a: seq<Arrival>, id: nat, price: int, qty: nat, buy: bool, r: nat)
    requires !HasId(a, r)
    ensures !HasId(Trade(a, id, price, qty, buy).0, r)
    decreases |a|, qty
  {
    if qty > 0 && exists k: nat :: Reaches(a, buy, price, k) {
      var k: nat :| Reaches(a, buy, price, k);
      TradeStep(a, id, price, qty, buy, k);
      if a[k].qty <= qty {
        assert forall j :: 0 <= j < |Without(a, k)| ==> Without(a, k)[j] == a[if j < k then j else j + 1];
        TradeFrom(Without(a, k), id, price, qty - a[k].qty, buy, r);
      } else {
        var a' := With(a, k, a[k].qty - qty);
        assert forall j :: 0 <= j < |a| ==> a'[j].id == a[j].id;
      }
    }
  }

  lemma NewRep(b: Book, a: seq<Arrival>, m: Msg)
    requires Rep(b, a) && m.kind == NewOrder && Admissible(b, a, m)
    ensures Rep(Process(b, m).0, ListStep(a, m).0) && Process(b, m).1 == ListStep(a, m).1
    ensures Process(b, m).0.nextId == b.nextId
  {
    hide Rep, Match, Trade, Rest, HasId, HasRoom;
    MatchRep(b, a, m.id, m.price, m.qty, m.buy);
    TradeFrom(a, m.id, m.price, m.qty, m.buy, m.id);
    var (b', left, rpts) := Match(b, m.id, m.price, m.qty, m.buy);
    var (a', _, _) := Trade(a, m.id, m.price, m.qty, m.buy);
    if left > 0 {
      RestRep(b', a', Arrival(m.id, m.buy, m.price, left));
    }
  }

  lemma HoldsUnique(a: seq<Arrival>, id: nat, j: nat, k: nat)
    requires Distinct(a) && Holds(a, id, j) && Holds(a, id, k)
    ensures j == k
  {
  }

  /** The level-array engine refines price-time priority, message by message: same
      book, same reports. */
  lemma ProcessRep(b: Book, a: seq<Arrival>, m: Msg)
    requires Rep(b, a) && Admissible(b, a, m)
    ensures Rep(Process(b, m).0, ListStep(a, m).0) && Process(b, m).1 == ListStep(a, m).1
    ensures Process(b, m).0.nextId == b.nextId
  {
    if m.kind == NewOrder {
      NewRep(b, a, m);
    } else {
      hide Rep, Cancel, Modify;
      if exists k: nat :: Holds(a, m.id, k) {
        var k: nat :| Holds(a, m.id, k) && (m.kind == CancelOrder ==> ListStep(a, m).0 == Without(a, k))
            && (m.kind == ModifyOrder ==> ListStep(a, m).0 == Amend(a, k, m.qty));
        CancelRep(b, a, k);
        ModifyRep(b, a, k, m.qty);
      } else {
        UnknownIdIgnored(b, a, m.id, m.qty);
      }
    }
  }

  /** A new order has a non-zero id that no resting order has. */
  ghost predicate FreshId(a: seq<Arrival>, m: Msg) {
    m.kind == NewOrder ==> m.id != 0 && !HasId(a, m.id)
  }

  /** What is left of a new order finds no slot or no level, and is dropped. */
  ghost predicate Refused(b: Book, m: Msg) {
    m.kind == NewOrder &&
    var (b', left, _) := Match(b, m.id, m.price, m.qty, m.buy);
    left > 0 && !HasRoom(b', m.buy, m.price)
  }

  /** The list after a message, refusals included. */
  ghost function After(b: Book, a: seq<Arrival>, m: Msg): seq<Arrival> {
    if Refused(b, m) then Trade(a, m.id, m.price, m.qty, m.buy).0 else ListStep(a, m).0
  }

  lemma RefusedRest(b: Book, id: nat, price: int, qty: nat, buy: bool)
    requires !HasRoom(b, buy, price)
    ensures Rest(b, id, price, qty, buy) == b
  {
    var ls := Side(b, buy);
    if FindLevel(ls, price) >= 0 {
      assert HasPrice(ls, price);
    }
  }

  /** The same without any promise of room: a refused remainder is dropped, nothing else. */
  lemma ProcessAny(b: Book, a: seq<Arrival>, m: Msg)
    requires Rep(b, a) && FreshId(a, m)
    ensures Rep(Process(b, m).0, After(b, a, m)) && Process(b, m).1 == ListStep(a, m).1
    ensures Process(b, m).0.nextId == b.nextId
  {
    if Refused(b, m) {
      hide Rep, Match, Trade, Rest, HasId, HasRoom;
      MatchRep(b, a, m.id, m.price, m.qty, m.buy);
      var (b', left, _) := Match(b, m.id, m.price, m.qty, m.buy);
      RefusedRest(b', m.id, m.price, left, m.buy);
    } else {
      hide Rep, Match, Process, ListStep, HasRoom, HasId;
      ProcessRep(b, a, m);
    }
  }

  ghost function ListFeed(a: seq<Arrival>, ms: seq<Msg>): (seq<Arrival>, seq<Report>)
    decreases ms
  {
    if ms == [] then (a, [])
    else
      var (a', r) := ListStep(a, ms[0]);
      var (a'', rs) := ListFeed(a', ms[1..]);
      (a'', r + rs)
  }

  ghost predicate AllAdmissible(b: Book, a: seq<Arrival>, ms: seq<Msg>)
    decreases ms
  {
    ms == [] || (Admissible(b, a, ms[0]) && AllAdmissible(Process(b, ms[0]).0, ListStep(a, ms[0]).0, ms[1..]))
  }

  /** And over every run of admissible messages. */
  lemma {:induction false} FeedRep(b: Book, a: seq<Arrival>, ms: seq<Msg>)
    requires Rep(b, a) && AllAdmissible(b, a, ms)
    ensures Rep(Feed(b, ms).0, ListFeed(a, ms).0) && Feed(b, ms).1 == ListFeed(a, ms).1
    decreases ms
  {
    hide Rep, Process, ListStep, Admissible;
    if ms != [] {
      ProcessRep(b, a, ms[0]);
      FeedRep(Process(b, ms[0]).0, ListStep(a, ms[0]).0, ms[1..]);
    }
  }

  lemma UnknownIdIgnored(b: Book, a: seq<Arrival>, id: nat, qty: nat)
    requires Rep(b, a) && forall k: nat :: !Holds(a, id, k)
    ensures Cancel(b, id) == b && Modify(b, id, qty) == b
  {
    IndexIds(a, id);
    if HasId(a, id) {
      var k: nat :| k < |a| && a[k].id == id;
      assert Holds(a, id, k);
      assert false;
    }
  }

  // ---- The engine's own book never crosses ----

  ghost predicate Uncrossed(a: seq<Arrival>) {
    forall i, j :: 0 <= i < |a| && 0 <= j < |a| && a[i].buy && !a[j].buy ==> a[i].price < a[j].price
  }

  /** Every arrival of `a'` stands where some arrival of `a` stands. */
  ghost predicate Stays(a': seq<Arrival>, a: seq<Arrival>) {
    forall j :: 0 <= j < |a'| ==> Stands(a'[j], a)
  }

  ghost predicate Stands(x: Arrival, a: seq<Arrival>) {
    exists i :: 0 <= i < |a| && a[i].buy == x.buy && a[i].price == x.price
  }

  lemma StaysUncrossed(a': seq<Arrival>, a: seq<Arrival>)
    requires Stays(a', a) && Uncrossed(a)
    ensures Uncrossed(a')
  {
    assert forall j :: 0 <= j < |a'| ==> Stands(a'[j], a);
  }

  lemma StaysWithout(a: seq<Arrival>, k: nat)
    requires k < |a|
    ensures Stays(Without(a, k), a)
  {
    var a' := Without(a, k);
    forall j | 0 <= j < |a'|
      ensures Stands(a'[j], a)
    {
      assert a'[j] == a[if j < k then j else j + 1];
    }
  }

  lemma StaysAmend(a: seq<Arrival>, k: nat, qty: nat)
    requires k < |a|
    ensures Stays(Amend(a, k, qty), a)
  {
    StaysWithout(a, k);
    var a' := Amend(a, k, qty);
    if 0 < qty <= a[k].qty {
      assert forall j :: 0 <= j < |a| ==> a'[j].buy == a[j].buy && a'[j].price == a[j].price;
    } else if qty > a[k].qty {
      assert forall j :: 0 <= j < |a'| - 1 ==> a'[j] == Without(a, k)[j];
      assert a'[|a'| - 1].buy == a[k].buy && a'[|a'| - 1].price == a[k].price;
    }
  }

  lemma {:induction false} HasBestOpposing(a: seq<Arrival>, buy: bool, j: nat) returns (k: nat)
    requires j < |a| && a[j].buy != buy
    ensures Best(a, buy, k)
    decreases |a|
  {
    var init, y := Snoc(a);
    if i :| 0 <= i < |init| && init[i].buy != buy {
      k := HasBestOpposing(init, buy, i);
      if y.buy != buy && Before(!buy, y.price, a[k].price) { k := |init|; }
    } else {
      k := |init|;
    }
  }

  lemma {:induction false} TradeUncrossed(a: seq<Arrival>, id: nat, price: int, qty: nat, buy: bool)
    requires Uncrossed(a)
    ensures var (a', left, _) := Trade(a, id, price, qty, buy);
            && Uncrossed(a')
            && (left > 0 ==> forall j :: 0 <= j < |a'| && a'[j].buy != buy ==> !Crosses(buy, price, a'[j].price))
    decreases |a|, qty
  {
    hide Uncrossed, Stays, Without, Amend;
    if qty > 0 && exists k: nat :: Reaches(a, buy, price, k) {
      var k: nat :| Reaches(a, buy, price, k);
      TradeIndex(a, buy, price, k);
      TradeStep(a, id, price, qty, buy, k);
      if a[k].qty <= qty {
        StaysWithout(a, k);
        StaysUncrossed(Without(a, k), a);
        TradeUncrossed(Without(a, k), id, price, qty - a[k].qty, buy);
      } else {
        StaysAmend(a, k, a[k].qty - qty);
        StaysUncrossed(Amend(a, k, a[k].qty - qty), a);
      }
    } else if qty > 0 {
      forall j | 0 <= j < |a| && a[j].buy != buy
        ensures !Crosses(buy, price, a[j].price)
      {
        var k := HasBestOpposing(a, buy, j);
        assert !Reaches(a, buy, price, k);
      }
    }
  }

  /** No message can leave the engine's book crossed. */
  lemma ListStepUncrossed(a: seq<Arrival>, m: Msg)
    requires Uncrossed(a)
    ensures Uncrossed(ListStep(a, m).0)
  {
    if m.kind == NewOrder {
      TradeUncrossed(a, m.id, m.price, m.qty, m.buy);
    } else if exists k: nat :: Holds(a, m.id, k) {
      var k: nat :| Holds(a, m.id, k) && (m.kind == CancelOrder ==> ListStep(a, m).0 == Without(a, k))
          && (m.kind == ModifyOrder ==> ListStep(a, m).0 == Amend(a, k, m.qty));
      StaysWithout(a, k);
      StaysAmend(a, k, m.qty);
      StaysUncrossed(ListStep(a, m).0, a);
    }
  }

  // ---- Shares are conserved by matching ----

  function Filled(rpts: seq<Report>): nat {
    if rpts == [] then 0 else rpts[0].qty + Filled(rpts[1..])
  }

  function Volume(a: seq<Arrival>, buy: bool): nat {
    if a == [] then 0 else Volume(a[..|a| - 1], buy) + if a[|a| - 1].buy == buy then a[|a| - 1].qty else 0
  }

  lemma {:induction false} VolumeWithout(a: seq<Arrival>, k: nat, buy: bool)
    requires k < |a|
    ensures Volume(Without(a, k), buy) == Volume(a, buy) - if a[k].buy == buy then a[k].qty else 0
    decreases |a|
  {
    var init, y := Snoc(a);
    WithoutSnoc(init, y, k);
    assert a[..|a| - 1] == init;
    if k < |init| {
      VolumeWithout(init, k, buy);
      assert (Without(init, k) + [y])[..|Without(init, k)|] == Without(init, k);
    }
  }

  lemma {:induction false} VolumeWith(a: seq<Arrival>, k: nat, qty: nat, buy: bool)
    requires k < |a|
    ensures Volume(With(a, k, qty), buy) == Volume(a, buy) + if a[k].buy == buy then qty - a[k].qty else 0
    decreases |a|
  {
    var init, y := Snoc(a);
    WithSnoc(init, y, k, qty);
    assert a[..|a| - 1] == init;
    if k < |init| {
      VolumeWith(init, k, qty, buy);
      assert (With(init, k, qty) + [y])[..|init|] == With(init, k, qty);
    } else {
      assert (init + [y.(qty := qty)])[..|init|] == init;
    }
  }

  /** Shares an id rests with. */
  function Size(a: seq<Arrival>, id: nat): nat {
    if a == [] then 0 else Size(a[..|a| - 1], id) + if a[|a| - 1].id == id then a[|a| - 1].qty else 0
  }

  lemma {:induction false} SizeWithout(a: seq<Arrival>, k: nat, id: nat)
    requires k < |a|
    ensures Size(Without(a, k), id) == Size(a, id) - if a[k].id == id then a[k].qty else 0
    decreases |a|
  {
    var init, y := Snoc(a);
    WithoutSnoc(init, y, k);
    assert a[..|a| - 1] == init;
    if k < |init| {
      SizeWithout(init, k, id);
      assert (Without(init, k) + [y])[..|Without(init, k)|] == Without(init, k);
    }
  }

  lemma {:induction false} SizeWith(a: seq<Arrival>, k: nat, qty: nat, id: nat)
    requires k < |a|
    ensures Size(With(a, k, qty), id) == Size(a, id) + if a[k].id == id then qty - a[k].qty else 0
    decreases |a|
  {
    var init, y := Snoc(a);
    WithSnoc(init, y, k, qty);
    assert a[..|a| - 1] == init;
    if k < |init| {
      SizeWith(init, k, qty, id);
      assert (With(init, k, qty) + [y])[..|init|] == With(init, k, qty);
    } else {
      assert (init + [y.(qty := qty)])[..|init|] == init;
    }
  }

  lemma SizeAppend(a: seq<Arrival>, y: Arrival, id: nat)
    ensures Size(a + [y], id) == Size(a, id) + if y.id == id then y.qty else 0
  {
    assert (a + [y])[..|a|] == a;
  }

  /** Shares that reports take from one resting order. */
  function Taken(rpts: seq<Report>, id: nat): nat {
    if rpts == [] then 0 else (if rpts[0].contra == id then rpts[0].qty else 0) + Taken(rpts[1..], id)
  }

  lemma TradeIndex(a: seq<Arrival>, buy: bool, price: int, k: nat)
    requires Reaches(a, buy, price, k)
    ensures k < |a| && a[k].buy == !buy && |Without(a, k)| < |a|
  {
  }

  /** What the incoming order loses is reported and is taken from the other side, and every
      resting order loses exactly what the reports say was taken from it. */
  lemma {:induction false} TradeConserves(a: seq<Arrival>, id: nat, price: int, qty: nat, buy: bool)
    ensures var (a', left, rpts) := Trade(a, id, price, qty, buy);
            && left + Filled(rpts) == qty
            && Volume(a', !buy) + Filled(rpts) == Volume(a, !buy)
            && Volume(a', buy) == Volume(a, buy)
            && forall x :: Size(a', x) + Taken(rpts, x) == Size(a, x)
    decreases |a|, qty
  {
    hide Reaches, Volume, Without, With, Size;
    if qty > 0 && exists k: nat :: Reaches(a, buy, price, k) {
      var k: nat :| Reaches(a, buy, price, k);
      TradeIndex(a, buy, price, k);
      TradeStep(a, id, price, qty, buy, k);
      if a[k].qty <= qty {
        VolumeWithout(a, k, buy);
        VolumeWithout(a, k, !buy);
        TradeConserves(Without(a, k), id, price, qty - a[k].qty, buy);
        forall x ensures Size(Trade(a, id, price, qty, buy).0, x)
            + Taken(Trade(a, id, price, qty, buy).2, x) == Size(a, x) {
          SizeWithout(a, k, x);
        }
      } else {
        VolumeWith(a, k, a[k].qty - qty, buy);
        VolumeWith(a, k, a[k].qty - qty, !buy);
        forall x ensures Size(Trade(a, id, price, qty, buy).0, x)
            + Taken(Trade(a, id, price, qty, buy).2, x) == Size(a, x) {
          SizeWith(a, k, a[k].qty - qty, x);
        }
      }
    }
  }

  // ---- Where the orders of a list come from ----

  predicate SameButQty(x: Arrival, y: Arrival) {
    x.id == y.id && x.buy == y.buy && x.price == y.price
  }

  ghost predicate From(x: Arrival, a: seq<Arrival>) {
    exists k :: 0 <= k < |a| && SameButQty(x, a[k])
  }

  ghost predicate AllFrom(a': seq<Arrival>, a: seq<Arrival>) {
    forall j :: 0 <= j < |a'| ==> From(a'[j], a)
  }

  lemma FromWithout(a: seq<Arrival>, k: nat)
    requires k < |a|
    ensures AllFrom(Without(a, k), a)
  {
    var a' := Without(a, k);
    forall j | 0 <= j < |a'| ensures From(a'[j], a) {
      assert SameButQty(a'[j], a[if j < k then j else j + 1]);
    }
  }

  lemma FromWith(a: seq<Arrival>, k: nat, qty: nat)
    requires k < |a|
    ensures AllFrom(With(a, k, qty), a)
  {
    var a' := With(a, k, qty);
    forall j | 0 <= j < |a'| ensures From(a'[j], a) {
      assert SameButQty(a'[j], a[j]);
    }
  }

  lemma FromAmend(a: seq<Arrival>, k: nat, qty: nat)
    requires k < |a|
    ensures AllFrom(Amend(a, k, qty), a)
  {
    FromWithout(a, k);
    FromWith(a, k, qty);
    var x := a[k].(qty := qty);
    assert SameButQty(x, a[k]);
  }

  lemma FromTrans(x: Arrival, a': seq<Arrival>, a: seq<Arrival>)
    requires From(x, a') && AllFrom(a', a)
    ensures From(x, a)
  {
    var j :| 0 <= j < |a'| && SameButQty(x, a'[j]);
    var k :| 0 <= k < |a| && SameButQty(a'[j], a[k]);
    assert SameButQty(x, a[k]);
  }

  lemma FromAllTrans(a'': seq<Arrival>, a': seq<Arrival>, a: seq<Arrival>)
    requires AllFrom(a'', a') && AllFrom(a', a)
    ensures AllFrom(a'', a)
  {
    hide From;
    forall j | 0 <= j < |a''| ensures From(a''[j], a) {
      FromTrans(a''[j], a', a);
    }
  }

  lemma FromSelf(a: seq<Arrival>)
    ensures AllFrom(a, a)
  {
    forall j | 0 <= j < |a| ensures From(a[j], a) {
      assert SameButQty(a[j], a[j]);
    }
  }

  lemma {:induction false} FromTrade(a: seq<Arrival>, id: nat, price: int, qty: nat, buy: bool)
    ensures AllFrom(Trade(a, id, price, qty, buy).0, a)
    decreases |a|, qty
  {
    hide Reaches, Without, With, AllFrom;
    FromSelf(a);
    if qty > 0 && exists k: nat :: Reaches(a, buy, price, k) {
      var k: nat :| Reaches(a, buy, price, k);
      TradeIndex(a, buy, price, k);
      TradeStep(a, id, price, qty, buy, k);
      if a[k].qty <= qty {
        FromWithout(a, k);
        FromTrade(Without(a, k), id, price, qty - a[k].qty, buy);
        FromAllTrans(Trade(Without(a, k), id, price, qty - a[k].qty, buy).0, Without(a, k), a);
      } else {
        FromWith(a, k, a[k].qty - qty);
      }
    }
  }

  /** After a message every resting order was there before, or is the message's own. */
  lemma FromAfter(b: Book, a: seq<Arrival>, m: Msg, j: nat)
    requires j < |After(b, a, m)|
    ensures var x := After(b, a, m)[j];
            From(x, a) || (m.kind == NewOrder && x.id == m.id && x.buy == m.buy && x.price == m.price)
  {
    assert m.kind != NewOrder ==> After(b, a, m) == ListStep(a, m).0;
    hide Trade, Refused, From, Without, Amend;
    var a' := After(b, a, m);
    if m.kind == NewOrder {
      FromTrade(a, m.id, m.price, m.qty, m.buy);
      assert AllFrom(Trade(a, m.id, m.price, m.qty, m.buy).0, a);
    } else {
      FromSelf(a);
      if exists k: nat :: Holds(a, m.id, k) {
        var k: nat :| Holds(a, m.id, k) && a' == if m.kind == CancelOrder then Without(a, k) else Amend(a, k, m.qty);
        FromWithout(a, k);
        FromAmend(a, k, m.qty);
      }
    }
  }

  // ---- What the reports say ----

  /** A live opposing order is named at its own price, which the limit reaches. */
  ghost predicate Names(r: Report, a: seq<Arrival>, price: int, buy: bool) {
    && Crosses(buy, price, r.price)
    && exists k :: 0 <= k < |a| && a[k].id == r.contra && a[k].buy != buy && a[k].price == r.price
  }

  /** Every report is about the incoming order: its id and side, and what is left of it after all
      reports so far. It names an order of the other side at that order's price, which the limit
      reaches, and prices only get worse from report to report. */
  lemma {:induction false} TradeReports(a: seq<Arrival>, id: nat, price: int, qty: nat, buy: bool, i: nat)
    requires i < |Trade(a, id, price, qty, buy).2|
    ensures var rpts := Trade(a, id, price, qty, buy).2;
            && rpts[i].id == id && rpts[i].buy == buy
            && rpts[i].leaves + Filled(rpts[..i + 1]) == qty
            && Names(rpts[i], a, price, buy)
            && (i > 0 ==> !Before(!buy, rpts[i].price, rpts[i - 1].price))
    decreases |a|, qty
  {
    var k: nat :| Reaches(a, buy, price, k);
    TradeIndex(a, buy, price, k);
    TradeStep(a, id, price, qty, buy, k);
    hide Trade, Names;
    var rpts := Trade(a, id, price, qty, buy).2;
    NamesBest(rpts[0], a, price, buy, k);
    if i == 0 {
      assert rpts[..1] == [rpts[0]] && Filled([rpts[0]]) == rpts[0].qty;
    } else {
      var u := Without(a, k);
      var rest := Trade(u, id, price, qty - a[k].qty, buy).2;
      TradeReports(u, id, price, qty - a[k].qty, buy, i - 1);
      NamesFrom(rest[i - 1], u, a, price, buy, k);
      NamesWorse(rest[i - 1], a, price, buy, k);
      var upto := rpts[..i + 1];
      assert upto[0] == rpts[0] && upto[1..] == rest[..i];
    }
  }

  lemma NamesWorse(r: Report, a: seq<Arrival>, price: int, buy: bool, k: nat)
    requires Reaches(a, buy, price, k) && Names(r, a, price, buy)
    ensures !Before(!buy, r.price, a[k].price)
  {
  }

  lemma NamesBest(r: Report, a: seq<Arrival>, price: int, buy: bool, k: nat)
    requires Reaches(a, buy, price, k) && r.contra == a[k].id && r.price == a[k].price
    ensures Names(r, a, price, buy)
  {
  }

  lemma NamesFrom(r: Report, u: seq<Arrival>, a: seq<Arrival>, price: int, buy: bool, k: nat)
    requires k < |a| && u == Without(a, k) && Names(r, u, price, buy)
    ensures Names(r, a, price, buy)
  {
    var j :| 0 <= j < |u| && u[j].id == r.contra && u[j].buy != buy && u[j].price == r.price;
    assert u[j] == a[if j < k then j else j + 1];
  }
}
