/** Book events of NASDAQ TotalView-ITCH 5.0 (section 4.4) for one symbol, and the
    order table they describe. Every other module talks about runs of these events. */
module Itch {
  type u16 = n: nat | n < 0x1_0000
  type u32 = n: nat | n < 0x1_0000_0000
  type u64 = n: nat | n < 0x1_0000_0000_0000_0000

  /** A live order. `side` is the wire character; anything but 'B' is the ask side. */
  datatype Order = Order(side: char, price: u32, qty: u32)

  type Table = map<u64, Order>

  datatype Event =
    | Add(ref: u64, side: char, price: u32, shares: u32)
    | Reduce(ref: u64, shares: u32, exec: bool)
    | Delete(ref: u64)
    | Replace(orig: u64, nref: u64, shares: u32, price: u32)

  predicate IsBid(side: char) {
    side == 'B'
  }

  function Min(a: nat, b: nat): nat {
    if a < b then a else b
  }

  /** Section 4.4: executions and cancels are cumulative reductions and an order is
      dead at zero; delete removes; replace kills the original and creates a new
      order on the same side. A reference that is already live is refused. */
  function TableStep(t: Table, e: Event): Table {
    match e
    case Add(ref, side, price, shares) => TableAdd(t, ref, Order(side, price, shares))
    case Reduce(ref, shares, _) =>
      if ref !in t then t
      else if shares >= t[ref].qty then t - {ref}
      else t[ref := t[ref].(qty := t[ref].qty - shares)]
    case Delete(ref) => t - {ref}
    case Replace(orig, nref, shares, price) =>
      if orig !in t then t
      else TableAdd(t - {orig}, nref, Order(t[orig].side, price, shares))
  }

  function TableAdd(t: Table, ref: u64, o: Order): Table {
    if ref in t then t else t[ref := o]
  }

  function TableRun(t: Table, es: seq<Event>): Table
    decreases es
  {
    if es == [] then t else TableRun(TableStep(t, es[0]), es[1..])
  }

  lemma {:induction false} TableRunAppend(t: Table, es: seq<Event>, fs: seq<Event>)
    ensures TableRun(t, es + fs) == TableRun(TableRun(t, es), fs)
    decreases es
  {
    if es == [] {
      assert es + fs == fs;
    } else {
      assert (es + fs)[1..] == es[1..] + fs;
      TableRunAppend(TableStep(t, es[0]), es[1..], fs);
    }
  }

  /** The table stays within the capacity after every event. */
  ghost predicate TablesWithin(capacity: nat, t: Table, es: seq<Event>)
    decreases es
  {
    es == [] || (|TableStep(t, es[0])| <= capacity && TablesWithin(capacity, TableStep(t, es[0]), es[1..]))
  }

  /** The event names a new reference that is still live. */
  predicate Duplicates(t: Table, e: Event) {
    match e
    case Add(r, _, _, _) => r in t
    case Replace(orig, nref, _, _) => orig in t && nref in t && nref != orig
    case _ => false
  }

  /** The event refers to a reference that is not live. */
  predicate Unknown(t: Table, e: Event) {
    match e
    case Add(_, _, _, _) => false
    case Reduce(r, _, _) => r !in t
    case Delete(r) => r !in t
    case Replace(orig, _, _, _) => orig !in t
  }

  /** The event takes more shares than the order has. */
  predicate OverReduces(t: Table, e: Event) {
    e.Reduce? && e.ref in t && e.shares > t[e.ref].qty
  }

  /** The event carries a share count of zero for a new order. */
  predicate ZeroShares(e: Event) {
    match e
    case Add(_, _, _, shares) => shares == 0
    case Replace(_, _, shares, _) => shares == 0
    case _ => false
  }

  ghost predicate Positive(t: Table) {
    forall r :: r in t ==> t[r].qty > 0
  }

  lemma PositiveStep(t: Table, e: Event)
    requires Positive(t) && !ZeroShares(e)
    ensures Positive(TableStep(t, e))
  {
  }

  /** Some live bid is at or above some live ask. */
  ghost predicate Crossed(t: Table) {
    exists b, a :: b in t && a in t && IsBid(t[b].side) && !IsBid(t[a].side) && t[b].price >= t[a].price
  }

  // ---- Price levels recomputed from the order table ----

  ghost function At(t: Table, bid: bool, price: u32): set<u64> {
    set r | r in t && IsBid(t[r].side) == bid && t[r].price == price
  }

  ghost function Prices(t: Table, bid: bool): set<u32> {
    set r | r in t && IsBid(t[r].side) == bid :: t[r].price
  }

  ghost function SumQty(t: Table, s: set<u64>): nat
    requires s <= t.Keys
  {
    if s == {} then 0
    else
      var r :| r in s;
      t[r].qty + SumQty(t, s - {r})
  }

  lemma {:induction false} SumQtyRemove(t: Table, s: set<u64>, r: u64)
    requires s <= t.Keys && r in s
    ensures SumQty(t, s) == t[r].qty + SumQty(t, s - {r})
    decreases s
  {
    var x :| x in s && SumQty(t, s) == t[x].qty + SumQty(t, s - {x});
    if x != r {
      SumQtyRemove(t, s - {x}, r);
      SumQtyRemove(t, s - {r}, x);
      assert s - {x} - {r} == s - {r} - {x};
    }
  }

  lemma {:induction false} SumQtyFrame(t: Table, u: Table, s: set<u64>)
    requires s <= t.Keys && s <= u.Keys
    requires forall r :: r in s ==> t[r].qty == u[r].qty
    ensures SumQty(t, s) == SumQty(u, s)
    decreases s
  {
    if s != {} {
      var r :| r in s;
      SumQtyRemove(t, s, r);
      SumQtyRemove(u, s, r);
      SumQtyFrame(t, u, s - {r});
    }
  }

  /** Quantities of at most 2^32 - 1 each: a level of n orders holds less than n * 2^32. */
  lemma {:induction false} SumQtyBound(t: Table, s: set<u64>)
    requires s <= t.Keys
    ensures SumQty(t, s) <= |s| * 0xFFFF_FFFF
    decreases s
  {
    if s != {} {
      var r :| r in s;
      SumQtyRemove(t, s, r);
      SumQtyBound(t, s - {r});
      assert |s| == |s - {r}| + 1;
    }
  }

  lemma SumQtyZero(t: Table, s: set<u64>)
    requires s <= t.Keys
    ensures SumQty(t, s) == 0 <==> forall r :: r in s ==> t[r].qty == 0
    decreases s
  {
    if s != {} {
      var r :| r in s;
      SumQtyRemove(t, s, r);
      SumQtyZero(t, s - {r});
    }
  }

  lemma {:induction false} SubsetSize<T>(a: set<T>, b: set<T>)
    requires a <= b
    ensures |a| <= |b|
    decreases a
  {
    if a != {} {
      var x :| x in a;
      SubsetSize(a - {x}, b - {x});
    }
  }
}
