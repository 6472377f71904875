/** Average-cost accounting of the market maker (include/hft/market_maker.hpp). */
module Accounting {

  datatype Fill = Fill(buy: bool, price: int, qty: nat)

  /** Signed position, fixed-point average cost and realized profit. */
  datatype Account = Account(position: int, avg: int, realized: int)

  function Abs(x: int): nat {
    if x < 0 then -x else x
  }

  /** C++ integer division truncates toward zero; Dafny's does not. */
  function Quot(a: int, b: int): int
    requires b != 0
  {
    if (a >= 0) == (b > 0) then Abs(a) / Abs(b) else -(Abs(a) / Abs(b))
  }

  /** What truncation drops. */
  function Rem(a: int, b: int): int
    requires b != 0
  {
    a - Quot(a, b) * b
  }

  function Signed(f: Fill): int {
    if f.buy then f.qty else 0 - f.qty
  }

  /** The fill opens or extends the position, so it is blended into the average. */
  predicate Blends(s: Account, f: Fill) {
    s.position == 0 || ((s.position > 0) == (Signed(f) > 0))
  }

  /** Only a zero fill of a flat account is undefined: it divides by zero. */
  predicate Defined(s: Account, f: Fill) {
    s.position != 0 || f.qty != 0
  }

  function Cost(s: Account, f: Fill): int {
    s.avg * s.position + f.price * Signed(f)
  }

  function Apply(s: Account, f: Fill): Account
    requires Defined(s, f)
  {
    var signed := Signed(f);
    var position := s.position + signed;
    if Blends(s, f) then Account(position, Quot(Cost(s, f), position), s.realized)
    else
      var closing := if Abs(signed) < Abs(s.position) then Abs(signed) else Abs(s.position);
      var direction := if s.position > 0 then 1 else -1;
      var realized := s.realized + direction * closing * (f.price - s.avg);
      var avg :=
        if position == 0 then 0
        else if (position > 0) != (direction > 0) then f.price
        else s.avg;
      Account(position, avg, realized)
  }

  function Unrealized(s: Account, mark: int): int {
    if s.position == 0 then 0 else s.position * (mark - s.avg)
  }

  // ---- Truncating division ----

  lemma MulNeg(a: int, b: int)
    ensures (-a) * b == -(a * b) && a * (-b) == -(a * b) && (-a) * (-b) == a * b
  {
  }

  /** The remainder is smaller than the divisor and never changes the sign. */
  lemma RemBound(a: int, b: int)
    requires b != 0
    ensures Abs(Rem(a, b)) < Abs(b)
    ensures a >= 0 ==> Rem(a, b) >= 0
    ensures a <= 0 ==> Rem(a, b) <= 0
  {
    var m, n := Abs(a), Abs(b);
    var q := m / n;
    assert m == q * n + m % n && 0 <= m % n < n;
    MulNeg(q, n);
  }

  lemma QuotNeg(a: int, b: int)
    requires b != 0
    ensures Quot(-a, -b) == Quot(a, b)
  {
    if a == 0 {
      assert 0 / Abs(b) == 0;
    }
  }

  lemma MulMono(a: int, b: int, n: int)
    requires a <= b && n >= 0
    ensures a * n <= b * n
  {
  }

  lemma MulSmaller(a: int, b: int, n: int)
    requires n > 0 && a * n < b * n
    ensures a < b
  {
    if b <= a {
      MulMono(b, a, n);
    }
  }

  lemma DivBetween(lo: int, hi: int, num: int, n: int)
    requires n > 0 && lo * n <= num <= hi * n
    ensures lo <= num / n <= hi
  {
    var q := num / n;
    assert q * n <= num < q * n + n;
    assert (q + 1) * n == q * n + n && (hi + 1) * n == hi * n + n;
    MulSmaller(lo, q + 1, n);
    MulSmaller(q, hi + 1, n);
  }

  /** Truncation keeps an average between integer bounds. */
  lemma QuotBetween(lo: int, hi: int, num: int, n: int)
    requires n > 0 && lo * n <= num <= hi * n
    ensures lo <= Quot(num, n) <= hi
  {
    if num >= 0 {
      DivBetween(lo, hi, num, n);
    } else {
      MulNeg(lo, n);
      MulNeg(hi, n);
      DivBetween(-hi, -lo, -num, n);
    }
  }

  // ---- The equity identity ----

  /** What the account is worth apart from the marked position. */
  function Basis(s: Account): int {
    s.realized - s.position * s.avg
  }

  /** The remainder dropped by a fill: only blending drops anything. */
  function Dropped(s: Account, f: Fill): int
    requires Defined(s, f)
  {
    if Blends(s, f) then Rem(Cost(s, f), s.position + Signed(f)) else 0
  }

  lemma BlendNonzero(s: Account, f: Fill)
    requires Defined(s, f) && Blends(s, f)
    ensures s.position + Signed(f) != 0
  {
  }

  lemma ReduceAlgebra(p: int, avg: int, q: int, price: int, direction: int, closing: int)
    requires direction * closing == -q
    ensures direction * closing * (price - avg) - (p + q) * avg == -(p * avg) - q * price
  {
    assert (direction * closing) * (price - avg) == (-q) * (price - avg);
    assert (-q) * (price - avg) == -(q * price) + q * avg;
    assert (p + q) * avg == p * avg + q * avg;
  }

  lemma CrossAlgebra(p: int, avg: int, q: int, price: int, direction: int, closing: int, avg': int)
    requires direction * closing == p && (p + q) * avg' == (p + q) * price
    ensures direction * closing * (price - avg) - (p + q) * avg' == -(p * avg) - q * price
  {
    assert (direction * closing) * (price - avg) == p * (price - avg);
    assert p * (price - avg) == p * price - p * avg;
    assert (p + q) * price == p * price + q * price;
  }

  lemma BlendAlgebra(p: int, avg: int, q: int, price: int, avg': int)
    ensures -((p + q) * avg') == -(p * avg) - q * price + (avg * p + price * q - avg' * (p + q))
  {
  }

  lemma BasisBlend(s: Account, f: Fill)
    requires Defined(s, f) && Blends(s, f)
    ensures Basis(Apply(s, f)) == Basis(s) - Signed(f) * f.price + Dropped(s, f)
  {
    hide Quot, Signed;
    BlendNonzero(s, f);
    BlendAlgebra(s.position, s.avg, Signed(f), f.price, Apply(s, f).avg);
  }

  lemma BasisOffset(s: Account, f: Fill)
    requires Defined(s, f) && !Blends(s, f)
    ensures Basis(Apply(s, f)) == Basis(s) - Signed(f) * f.price
  {
    hide Quot;
    var q, s' := Signed(f), Apply(s, f);
    var direction := if s.position > 0 then 1 else -1;
    if Abs(q) < Abs(s.position) {
      assert direction * Abs(q) == -q;
      ReduceAlgebra(s.position, s.avg, q, f.price, direction, Abs(q));
    } else {
      assert direction * Abs(s.position) == s.position;
      CrossAlgebra(s.position, s.avg, q, f.price, direction, Abs(s.position), s'.avg);
    }
  }

  /** A fill moves the basis by its cash flow plus what its division dropped; reducing,
      closing and flipping fills drop nothing. */
  lemma BasisStep(s: Account, f: Fill)
    requires Defined(s, f)
    ensures Basis(Apply(s, f)) == Basis(s) - Signed(f) * f.price + Dropped(s, f)
  {
    hide Quot, Rem, Signed, Apply, Basis;
    if Blends(s, f) {
      BasisBlend(s, f);
    } else {
      BasisOffset(s, f);
    }
  }

  ghost predicate DefinedRun(s: Account, fs: seq<Fill>)
    decreases fs
  {
    fs == [] || (Defined(s, fs[0]) && DefinedRun(Apply(s, fs[0]), fs[1..]))
  }

  function Run(s: Account, fs: seq<Fill>): Account
    requires DefinedRun(s, fs)
    decreases fs
  {
    if fs == [] then s else Run(Apply(s, fs[0]), fs[1..])
  }

  function Cash(fs: seq<Fill>): int {
    if fs == [] then 0 else Cash(fs[1..]) - Signed(fs[0]) * fs[0].price
  }

  function Drops(s: Account, fs: seq<Fill>): int
    requires DefinedRun(s, fs)
    decreases fs
  {
    if fs == [] then 0 else Dropped(s, fs[0]) + Drops(Apply(s, fs[0]), fs[1..])
  }

  /** The sum of the sizes the position had after each blending fill. */
  function BlendedSize(s: Account, fs: seq<Fill>): nat
    requires DefinedRun(s, fs)
    decreases fs
  {
    if fs == [] then 0
    else (if Blends(s, fs[0]) then Abs(s.position + Signed(fs[0])) else 0) + BlendedSize(Apply(s, fs[0]), fs[1..])
  }

  lemma {:induction false} BasisRun(s: Account, fs: seq<Fill>)
    requires DefinedRun(s, fs)
    ensures Basis(Run(s, fs)) == Basis(s) + Cash(fs) + Drops(s, fs)
    decreases fs
  {
    hide Apply, Signed, Dropped, Basis;
    if fs != [] {
      BasisStep(s, fs[0]);
      BasisRun(Apply(s, fs[0]), fs[1..]);
    }
  }

  lemma {:induction false} DropsBound(s: Account, fs: seq<Fill>)
    requires DefinedRun(s, fs)
    ensures Abs(Drops(s, fs)) <= BlendedSize(s, fs)
    decreases fs
  {
    if fs != [] {
      if Blends(s, fs[0]) {
        BlendNonzero(s, fs[0]);
        RemBound(Cost(s, fs[0]), s.position + Signed(fs[0]));
      }
      DropsBound(Apply(s, fs[0]), fs[1..]);
    }
  }

  lemma MarkedBasis(s: Account, mark: int)
    ensures s.realized + Unrealized(s, mark) == Basis(s) + s.position * mark
  {
    assert s.position * (mark - s.avg) == s.position * mark - s.position * s.avg;
  }

  lemma FlatBasis(s: Account)
    requires s.position == 0
    ensures Basis(s) == s.realized
  {
  }

  /** For every run of fills from flat and every mark: realized plus unrealized profit is the
      net cash flow plus the marked position plus exactly the dropped remainders, which
      together are bounded by the position sizes after the blending fills. */
  lemma EquityIdentity(s: Account, fs: seq<Fill>, mark: int)
    requires s.position == 0 && DefinedRun(s, fs)
    ensures Run(s, fs).realized + Unrealized(Run(s, fs), mark)
         == s.realized + Cash(fs) + Run(s, fs).position * mark + Drops(s, fs)
    ensures Abs(Drops(s, fs)) <= BlendedSize(s, fs)
  {
    hide *;
    FlatBasis(s);
    BasisRun(s, fs);
    DropsBound(s, fs);
    MarkedBasis(Run(s, fs), mark);
  }

  /** One blending fill: the dropped part is smaller than the new position, and has the
      sign of the blended cost. */
  lemma DroppedBound(s: Account, f: Fill)
    requires Defined(s, f)
    ensures Blends(s, f) ==> Abs(Dropped(s, f)) < Abs(Apply(s, f).position)
    ensures !Blends(s, f) ==> Dropped(s, f) == 0
  {
    if Blends(s, f) {
      BlendNonzero(s, f);
      RemBound(Cost(s, f), s.position + Signed(f));
    }
  }

  // ---- The average stays between the prices it averages ----

  ghost predicate Between(prices: seq<int>, lo: int, hi: int) {
    forall k :: 0 <= k < |prices| ==> lo <= prices[k] <= hi
  }

  /** The prices that opened or extended the position since it was last flat or flipped. */
  function OpenStep(s: Account, open: seq<int>, f: Fill): seq<int> {
    var position := s.position + Signed(f);
    if Blends(s, f) then (if f.qty == 0 then open else open + [f.price])
    else if position == 0 then []
    else if (position > 0) != (s.position > 0) then [f.price]
    else open
  }

  function Open(s: Account, open: seq<int>, fs: seq<Fill>): seq<int>
    requires DefinedRun(s, fs)
    decreases fs
  {
    if fs == [] then open else Open(Apply(s, fs[0]), OpenStep(s, open, fs[0]), fs[1..])
  }

  /** A flat account has no opening prices and no average; otherwise every interval that
      holds the opening prices holds the average. */
  ghost predicate InRange(s: Account, open: seq<int>) {
    && (s.position == 0 <==> open == [])
    && (s.position == 0 ==> s.avg == 0)
    && (s.position != 0 ==> forall lo, hi :: Between(open, lo, hi) ==> lo <= s.avg <= hi)
  }

  /** A weighted sum of two prices in range, both weights of one sign. */
  lemma CostBetween(p: int, avg: int, q: int, price: int, lo: int, hi: int)
    requires p >= 0 && q >= 0
    requires p != 0 ==> lo <= avg <= hi
    requires q != 0 ==> lo <= price <= hi
    ensures lo * (p + q) <= avg * p + price * q <= hi * (p + q)
  {
    if p != 0 {
      MulMono(lo, avg, p);
      MulMono(avg, hi, p);
    }
    if q != 0 {
      MulMono(lo, price, q);
      MulMono(price, hi, q);
    }
    assert lo * (p + q) == lo * p + lo * q && hi * (p + q) == hi * p + hi * q;
  }

  lemma BlendBetween(s: Account, f: Fill, lo: int, hi: int)
    requires Defined(s, f) && Blends(s, f)
    requires s.position != 0 ==> lo <= s.avg <= hi
    requires f.qty != 0 ==> lo <= f.price <= hi
    ensures lo <= Apply(s, f).avg <= hi
  {
    hide Quot, Abs;
    var p, q := s.position, Signed(f);
    BlendNonzero(s, f);
    if p + q > 0 {
      CostBetween(p, s.avg, q, f.price, lo, hi);
      QuotBetween(lo, hi, Cost(s, f), p + q);
    } else {
      CostBetween(-p, s.avg, -q, f.price, lo, hi);
      MulNeg(s.avg, p);
      MulNeg(f.price, q);
      QuotNeg(Cost(s, f), p + q);
      QuotBetween(lo, hi, -Cost(s, f), -(p + q));
    }
  }

  lemma BlendInRange(s: Account, open: seq<int>, f: Fill)
    requires Defined(s, f) && Blends(s, f) && InRange(s, open)
    ensures InRange(Apply(s, f), OpenStep(s, open, f))
  {
    hide Quot, Abs, Cost;
    BlendNonzero(s, f);
    var s', open' := Apply(s, f), OpenStep(s, open, f);
    forall lo, hi | Between(open', lo, hi)
      ensures lo <= s'.avg <= hi
    {
      assert Between(open, lo, hi) by {
        assert forall k :: 0 <= k < |open| ==> open'[k] == open[k];
      }
      if f.qty != 0 {
        assert open'[|open|] == f.price;
      }
      BlendBetween(s, f, lo, hi);
    }
  }

  lemma OffsetInRange(s: Account, open: seq<int>, f: Fill)
    requires Defined(s, f) && !Blends(s, f) && InRange(s, open)
    ensures InRange(Apply(s, f), OpenStep(s, open, f))
  {
    var s', open' := Apply(s, f), OpenStep(s, open, f);
    if s'.position != 0 && (s'.position > 0) != (s.position > 0) {
      assert open'[0] == f.price;
    }
  }

  /** For every run of fills the average of an open position lies between the least and the
      greatest price of the fills that opened it. */
  lemma {:induction false} AverageInRange(s: Account, open: seq<int>, fs: seq<Fill>)
    requires DefinedRun(s, fs) && InRange(s, open)
    ensures InRange(Run(s, fs), Open(s, open, fs))
    decreases fs
  {
    hide Apply, OpenStep, InRange, Defined;
    if fs != [] {
      if Blends(s, fs[0]) {
        BlendInRange(s, open, fs[0]);
      } else {
        OffsetInRange(s, open, fs[0]);
      }
      AverageInRange(Apply(s, fs[0]), OpenStep(s, open, fs[0]), fs[1..]);
    }
  }

  // ---- 64-bit arithmetic ----

  /** Every fill price is within p and every position along the run within q. */
  ghost predicate Bounded(s: Account, fs: seq<Fill>, p: nat, q: nat)
    requires DefinedRun(s, fs)
    decreases fs
  {
    && Abs(s.position) <= q
    && (fs != [] ==> Abs(fs[0].price) <= p && Bounded(Apply(s, fs[0]), fs[1..], p, q))
  }

  /** Both products and the sum of every blending division stay within the bound. */
  ghost predicate FitsRun(s: Account, fs: seq<Fill>, bound: nat)
    requires DefinedRun(s, fs)
    decreases fs
  {
    fs == [] ||
    (&& (Blends(s, fs[0]) ==>
           && Abs(s.avg * s.position) <= bound
           && Abs(fs[0].price * Signed(fs[0])) <= bound
           && Abs(Cost(s, fs[0])) <= bound)
     && FitsRun(Apply(s, fs[0]), fs[1..], bound))
  }

  lemma AbsMul(a: int, b: int, p: nat, q: nat)
    requires Abs(a) <= p && Abs(b) <= q
    ensures Abs(a * b) <= p * q
  {
    var m, n := Abs(a), Abs(b);
    MulNeg(m, n);
    MulMono(m, p, n);
    MulMono(n, q, p);
  }

  lemma FitsAlgebra(x: int, y: int, a: nat, b: nat, p: nat, q: nat)
    requires Abs(x) <= p * a && Abs(y) <= p * b && a + b <= q
    ensures Abs(x) <= p * q && Abs(y) <= p * q && Abs(x + y) <= p * q
  {
    assert p * (a + b) == p * a + p * b;
    MulMono(a + b, q, p);
  }

  lemma BlendFits(s: Account, f: Fill, p: nat, q: nat)
    requires Blends(s, f)
    requires Abs(s.avg) <= p && Abs(f.price) <= p
    requires Abs(s.position) <= q && Abs(s.position + Signed(f)) <= q
    ensures Abs(s.avg * s.position) <= p * q
    ensures Abs(f.price * Signed(f)) <= p * q
    ensures Abs(Cost(s, f)) <= p * q
  {
    var a, b := Abs(s.position), Abs(Signed(f));
    assert a + b <= q;
    hide Abs, Signed;
    AbsMul(s.avg, s.position, p, a);
    AbsMul(f.price, Signed(f), p, b);
    FitsAlgebra(s.avg * s.position, f.price * Signed(f), a, b, p, q);
  }

  lemma OffsetKeepsAverage(s: Account, f: Fill, p: nat)
    requires Defined(s, f) && !Blends(s, f)
    requires Abs(s.avg) <= p && Abs(f.price) <= p
    ensures Abs(Apply(s, f).avg) <= p
  {
    hide Cost, Quot;
  }

  lemma BlendKeepsAverage(s: Account, f: Fill, p: nat)
    requires Defined(s, f) && Blends(s, f)
    requires Abs(s.avg) <= p && Abs(f.price) <= p
    ensures Abs(Apply(s, f).avg) <= p
  {
    hide Apply, Cost, Quot;
    BlendBetween(s, f, 0 - p, p);
  }

  /** With prices within p and positions within q, no blending numerator leaves p * q: with
      p * q below 2^63 the 64-bit arithmetic never overflows. */
  lemma {:induction false} NeverOverflows(s: Account, fs: seq<Fill>, p: nat, q: nat)
    requires DefinedRun(s, fs) && Bounded(s, fs, p, q) && Abs(s.avg) <= p
    ensures FitsRun(s, fs, p * q)
    decreases fs
  {
    hide Cost, Quot, Abs, Signed, Blends, Defined;
    if fs != [] {
      var f := fs[0];
      assert Abs(Apply(s, f).position) <= q;
      assert Apply(s, f).position == s.position + Signed(f);
      hide Apply;
      if Blends(s, f) {
        BlendFits(s, f, p, q);
        BlendKeepsAverage(s, f, p);
      } else {
        OffsetKeepsAverage(s, f, p);
      }
      NeverOverflows(Apply(s, f), fs[1..], p, q);
    }
  }

  // ---- Round trips ----

  /** The position never leaves the side it opens on. */
  ghost predicate OneSided(buy: bool, s: Account, fs: seq<Fill>)
    requires DefinedRun(s, fs)
    decreases fs
  {
    && (if buy then s.position >= 0 else s.position <= 0)
    && (fs != [] ==> OneSided(buy, Apply(s, fs[0]), fs[1..]))
  }

  /** Every fill on one side has that side's price. */
  ghost predicate Priced(buy: bool, opening: int, closing: int, fs: seq<Fill>) {
    forall k :: 0 <= k < |fs| ==> fs[k].price == if fs[k].buy == buy then opening else closing
  }

  /** Shares traded on one side. */
  function Traded(buy: bool, fs: seq<Fill>): nat {
    if fs == [] then 0 else (if fs[0].buy == buy then fs[0].qty else 0) + Traded(buy, fs[1..])
  }

  lemma {:induction false} PositionTraded(s: Account, fs: seq<Fill>)
    requires DefinedRun(s, fs)
    ensures Run(s, fs).position == s.position + Traded(true, fs) - Traded(false, fs)
    decreases fs
  {
    if fs != [] {
      var f := fs[0];
      assert Apply(s, f).position == s.position + Signed(f);
      hide Apply;
      PositionTraded(Apply(s, f), fs[1..]);
    }
  }

  lemma {:induction false} CashPriced(buy: bool, opening: int, closing: int, fs: seq<Fill>)
    requires Priced(buy, opening, closing, fs)
    ensures Cash(fs) == (if buy then 1 else -1) * (Traded(!buy, fs) * closing - Traded(buy, fs) * opening)
  {
    if fs != [] {
      var f, rest := fs[0], fs[1..];
      CashPriced(buy, opening, closing, rest);
      var a, b := Traded(buy, rest), Traded(!buy, rest);
      assert (a + f.qty) * opening == a * opening + f.qty * opening;
      assert (b + f.qty) * closing == b * closing + f.qty * closing;
      assert (0 - f.qty) * f.price == -(f.qty * f.price);
    }
  }

  lemma QuotExact(a: int, b: int)
    requires b != 0
    ensures Quot(a * b, b) == a
  {
    if b > 0 {
      QuotBetween(a, a, a * b, b);
    } else {
      QuotNeg(a * b, b);
      MulNeg(a, b);
      QuotBetween(a, a, -(a * b), -b);
    }
  }

  /** Blending at the price already held drops nothing and keeps it. */
  lemma BlendSamePrice(s: Account, f: Fill, price: int)
    requires Defined(s, f) && Blends(s, f)
    requires s.position != 0 ==> s.avg == price
    requires f.qty != 0 ==> f.price == price
    ensures Apply(s, f).avg == price && Dropped(s, f) == 0
  {
    hide Quot;
    BlendNonzero(s, f);
    var n := s.position + Signed(f);
    assert Cost(s, f) == price * n by {
      assert price * n == price * s.position + price * Signed(f);
      assert s.position == 0 ==> s.avg * s.position == price * s.position;
      assert f.qty == 0 ==> f.price * Signed(f) == price * Signed(f);
    }
    QuotExact(price, n);
  }

  /** A blending fill is on the side the position is on. */
  lemma BlendSide(s: Account, f: Fill, buy: bool)
    requires Defined(s, f) && Blends(s, f)
    requires if buy then s.position >= 0 else s.position <= 0
    requires if buy then Apply(s, f).position >= 0 else Apply(s, f).position <= 0
    ensures f.qty != 0 ==> f.buy == buy
  {
    hide Quot, Cost;
  }

  lemma OffsetKeeps(s: Account, f: Fill, buy: bool)
    requires Defined(s, f) && !Blends(s, f)
    requires if buy then s.position >= 0 else s.position <= 0
    requires if buy then Apply(s, f).position >= 0 else Apply(s, f).position <= 0
    ensures Apply(s, f).position != 0 ==> Apply(s, f).avg == s.avg
    ensures Dropped(s, f) == 0
  {
    hide Quot, Cost;
  }

  lemma SamePriceStep(s: Account, f: Fill, buy: bool, opening: int, closing: int)
    requires Defined(s, f) && (s.position != 0 ==> s.avg == opening)
    requires f.price == if f.buy == buy then opening else closing
    requires if buy then s.position >= 0 else s.position <= 0
    requires if buy then Apply(s, f).position >= 0 else Apply(s, f).position <= 0
    ensures Dropped(s, f) == 0
    ensures Apply(s, f).position != 0 ==> Apply(s, f).avg == opening
  {
    hide Dropped, Quot, Cost;
    if Blends(s, f) {
      BlendSide(s, f, buy);
      BlendSamePrice(s, f, opening);
    } else {
      OffsetKeeps(s, f, buy);
    }
  }

  lemma {:induction false} OnePriceDropsNothing(s: Account, fs: seq<Fill>, buy: bool, opening: int, closing: int)
    requires DefinedRun(s, fs) && OneSided(buy, s, fs) && Priced(buy, opening, closing, fs)
    requires s.position != 0 ==> s.avg == opening
    ensures Drops(s, fs) == 0
    decreases fs
  {
    hide Apply, Dropped, Blends, Defined;
    if fs != [] {
      SamePriceStep(s, fs[0], buy, opening, closing);
      OnePriceDropsNothing(Apply(s, fs[0]), fs[1..], buy, opening, closing);
    }
  }

  lemma TradedDifference(buy: bool, n: nat, opening: int, closing: int)
    ensures (if buy then 1 else -1) * (n * closing - n * opening)
         == n * (if buy then closing - opening else opening - closing)
  {
    assert n * (closing - opening) == n * closing - n * opening;
    assert n * (opening - closing) == n * opening - n * closing;
  }

  /** However the buys and sells of a round trip are split and interleaved, opening at one
      price and closing at another realizes exactly shares times the difference. */
  lemma RoundTrip(s: Account, fs: seq<Fill>, buy: bool, opening: int, closing: int)
    requires DefinedRun(s, fs) && OneSided(buy, s, fs) && Priced(buy, opening, closing, fs)
    requires s.position == Run(s, fs).position == 0
    ensures Traded(buy, fs) == Traded(!buy, fs)
    ensures Run(s, fs).realized
         == s.realized + Traded(buy, fs) * (if buy then closing - opening else opening - closing)
  {
    hide *;
    OnePriceDropsNothing(s, fs, buy, opening, closing);
    PositionTraded(s, fs);
    CashPriced(buy, opening, closing, fs);
    BasisRun(s, fs);
    FlatBasis(s);
    FlatBasis(Run(s, fs));
    assert Traded(buy, fs) == Traded(!buy, fs) by {
      if buy { assert Traded(true, fs) == Traded(buy, fs); }
    }
    TradedDifference(buy, Traded(buy, fs), opening, closing);
  }

  // ---- When truncation matters ----

  /** Every blending fill of the run divides without remainder. */
  ghost predicate Even(s: Account, fs: seq<Fill>)
    requires DefinedRun(s, fs)
    decreases fs
  {
    fs == [] || (Dropped(s, fs[0]) == 0 && Even(Apply(s, fs[0]), fs[1..]))
  }

  ghost predicate NonNegative(fs: seq<Fill>) {
    forall k :: 0 <= k < |fs| ==> fs[k].price >= 0
  }

  /** With prices of at least zero, blending understates the cost of a long position and
      of a short one. */
  lemma DroppedSign(s: Account, f: Fill, buy: bool)
    requires Defined(s, f) && f.price >= 0 && s.avg >= 0
    requires if buy then s.position >= 0 else s.position <= 0
    requires if buy then Apply(s, f).position >= 0 else Apply(s, f).position <= 0
    ensures if buy then Dropped(s, f) >= 0 else Dropped(s, f) <= 0
    ensures Apply(s, f).avg >= 0
  {
    hide Quot, Rem;
    if Blends(s, f) {
      BlendNonzero(s, f);
      BlendSide(s, f, buy);
      var p, q := s.position, Signed(f);
      if buy {
        MulMono(0, s.avg, p);
        MulMono(0, f.price, q);
      } else {
        MulMono(0, s.avg, -p);
        MulMono(0, f.price, -q);
        MulNeg(s.avg, p);
        MulNeg(f.price, q);
      }
      RemBound(Cost(s, f), p + q);
      var hi := if s.avg < f.price then f.price else s.avg;
      BlendBetween(s, f, 0, hi);
    }
  }

  lemma {:induction false} DropsSign(s: Account, fs: seq<Fill>, buy: bool)
    requires DefinedRun(s, fs) && OneSided(buy, s, fs) && NonNegative(fs) && s.avg >= 0
    ensures if buy then Drops(s, fs) >= 0 else Drops(s, fs) <= 0
    ensures Drops(s, fs) == 0 <==> Even(s, fs)
    decreases fs
  {
    hide Apply, Dropped, Defined;
    if fs != [] {
      var f := fs[0];
      DroppedSign(s, f, buy);
      DropsSign(Apply(s, f), fs[1..], buy);
    }
  }

  /** From flat, while the position stays long or stays short: the books balance exactly if and
      only if no blending fill left a remainder. In particular a round trip then realizes
      exactly its cash; otherwise a long one reports too much profit and a short one too
      little. */
  lemma ExactIffEven(s: Account, fs: seq<Fill>, buy: bool)
    requires DefinedRun(s, fs) && OneSided(buy, s, fs) && NonNegative(fs)
    requires s.position == 0 && s.avg == 0
    ensures var t := Run(s, fs);
            && (t.realized - t.position * t.avg == s.realized + Cash(fs) <==> Even(s, fs))
            && (if buy then t.realized - t.position * t.avg >= s.realized + Cash(fs)
                else t.realized - t.position * t.avg <= s.realized + Cash(fs))
            && (t.position == 0 ==> (t.realized == s.realized + Cash(fs) <==> Even(s, fs)))
  {
    BasisIs(Run(s, fs));
    hide *;
    BasisRun(s, fs);
    DropsSign(s, fs, buy);
    FlatBasis(s);
    if Run(s, fs).position == 0 {
      FlatBasis(Run(s, fs));
    }
  }

  lemma BasisIs(s: Account)
    ensures Basis(s) == s.realized - s.position * s.avg
  {
  }

  lemma {:induction false} EvenDropsNothing(s: Account, fs: seq<Fill>)
    requires DefinedRun(s, fs) && Even(s, fs)
    ensures Drops(s, fs) == 0
    decreases fs
  {
    hide Apply, Dropped, Defined;
    if fs != [] {
      EvenDropsNothing(Apply(s, fs[0]), fs[1..]);
    }
  }

  lemma MulCancel(n: int, a: int, b: int)
    requires n != 0 && n * a == n * b
    ensures a == b
  {
  }

  /** Without remainders the order of the fills does not matter: runs that built the same
      position for the same cash and have realized nothing hold the same average. */
  lemma EvenIgnoresOrder(s: Account, fs: seq<Fill>, gs: seq<Fill>)
    requires DefinedRun(s, fs) && DefinedRun(s, gs) && Even(s, fs) && Even(s, gs)
    requires Cash(fs) == Cash(gs) && Run(s, fs).position == Run(s, gs).position != 0
    requires Run(s, fs).realized == Run(s, gs).realized
    ensures Run(s, fs) == Run(s, gs)
  {
    hide *;
    EvenDropsNothing(s, fs);
    EvenDropsNothing(s, gs);
    BasisRun(s, fs);
    BasisRun(s, gs);
    SameBasis(Run(s, fs), Run(s, gs));
  }

  lemma SameBasis(s: Account, t: Account)
    requires Basis(s) == Basis(t) && s.position == t.position != 0 && s.realized == t.realized
    ensures s == t
  {
    MulCancel(s.position, s.avg, t.avg);
  }

  // ---- Permutations ----

  /** Every fill is on one side and not empty. */
  ghost predicate Opening(buy: bool, fs: seq<Fill>) {
    forall k :: 0 <= k < |fs| ==> fs[k].buy == buy && fs[k].qty > 0
  }

  lemma OpenOne(s: Account, f: Fill, buy: bool)
    requires (if buy then s.position >= 0 else s.position <= 0) && f.buy == buy && f.qty > 0
    ensures Defined(s, f) && Apply(s, f).realized == s.realized
    ensures if buy then Apply(s, f).position > 0 else Apply(s, f).position < 0
  {
    hide Quot, Cost;
  }

  /** Opening and extending fills realize nothing. */
  lemma {:induction false} OpeningRealizesNothing(s: Account, fs: seq<Fill>, buy: bool)
    requires (if buy then s.position >= 0 else s.position <= 0) && Opening(buy, fs)
    ensures DefinedRun(s, fs) && Run(s, fs).realized == s.realized
    ensures fs != [] ==> Run(s, fs).position != 0
    ensures if buy then Run(s, fs).position >= 0 else Run(s, fs).position <= 0
    decreases fs
  {
    hide Apply, Defined;
    if fs != [] {
      var f, rest := fs[0], fs[1..];
      OpenOne(s, f, buy);
      OpeningRealizesNothing(Apply(s, f), rest, buy);
      if rest != [] {
        assert Run(s, fs).position != 0;
      } else {
        assert Run(s, fs) == Apply(s, f);
      }
    }
  }

  lemma {:induction false} SumsWithout(fs: seq<Fill>, k: nat)
    requires k < |fs|
    ensures var gs := fs[..k] + fs[k + 1..];
            && Cash(fs) == Cash(gs) - Signed(fs[k]) * fs[k].price
            && (forall buy :: Traded(buy, fs) == Traded(buy, gs) + if fs[k].buy == buy then fs[k].qty else 0)
            && multiset(fs) == multiset(gs) + multiset{fs[k]}
    decreases k
  {
    var gs := fs[..k] + fs[k + 1..];
    assert fs == fs[..k] + [fs[k]] + fs[k + 1..];
    if k == 0 {
      assert gs == fs[1..];
    } else {
      SumsWithout(fs[1..], k - 1);
      assert gs[1..] == fs[1..][..k - 1] + fs[1..][k..];
      assert gs[0] == fs[0];
    }
  }

  /** Cash and traded shares do not depend on order. */
  lemma {:induction false} SumsPermute(fs: seq<Fill>, gs: seq<Fill>)
    requires multiset(fs) == multiset(gs)
    ensures Cash(fs) == Cash(gs) && forall buy :: Traded(buy, fs) == Traded(buy, gs)
    decreases |fs|
  {
    if fs == [] {
      assert |gs| == |multiset(gs)| == 0;
    } else {
      assert fs[0] in multiset(gs);
      var k :| 0 <= k < |gs| && gs[k] == fs[0];
      var hs := gs[..k] + gs[k + 1..];
      SumsWithout(gs, k);
      assert fs == [fs[0]] + fs[1..];
      assert multiset(fs) == multiset{fs[0]} + multiset(fs[1..]);
      assert multiset(fs[1..]) == multiset(fs) - multiset{fs[0]};
      assert multiset(hs) == multiset(gs) - multiset{gs[k]};
      SumsPermute(fs[1..], hs);
    }
  }

  /** Exactly when the promise that fill order does not matter holds: two orders of fills that
      open or extend a position leave the same account if and only if their divisions dropped
      equally much. */
  lemma OrderFreeIff(s: Account, fs: seq<Fill>, gs: seq<Fill>, buy: bool)
    requires (if buy then s.position >= 0 else s.position <= 0) && Opening(buy, fs) && multiset(fs) == multiset(gs)
    ensures DefinedRun(s, fs) && DefinedRun(s, gs)
    ensures Run(s, fs) == Run(s, gs) <==> Drops(s, fs) == Drops(s, gs)
  {
    OpeningPermutes(fs, gs, buy);
    assert fs == [] ==> gs == [];
    hide *;
    OpeningRealizesNothing(s, fs, buy);
    OpeningRealizesNothing(s, gs, buy);
    SumsPermute(fs, gs);
    PositionTraded(s, fs);
    PositionTraded(s, gs);
    BasisRun(s, fs);
    BasisRun(s, gs);
    if fs == [] {
      assert fs == gs;
    } else if Drops(s, fs) == Drops(s, gs) {
      SameBasis(Run(s, fs), Run(s, gs));
    }
  }

  lemma OpeningPermutes(fs: seq<Fill>, gs: seq<Fill>, buy: bool)
    requires Opening(buy, fs) && multiset(fs) == multiset(gs)
    ensures Opening(buy, gs) && |fs| == |gs|
  {
    forall k | 0 <= k < |gs| ensures gs[k].buy == buy && gs[k].qty > 0 {
      assert gs[k] in multiset(fs);
    }
    assert |fs| == |multiset(fs)| == |multiset(gs)| == |gs|;
  }

  /** In particular orders without remainders agree. */
  lemma EvenPermutation(s: Account, fs: seq<Fill>, gs: seq<Fill>, buy: bool)
    requires (if buy then s.position >= 0 else s.position <= 0) && Opening(buy, fs) && multiset(fs) == multiset(gs)
    ensures DefinedRun(s, fs) && DefinedRun(s, gs)
    ensures Even(s, fs) && Even(s, gs) ==> Run(s, fs) == Run(s, gs)
  {
    hide *;
    OrderFreeIff(s, fs, gs, buy);
    if Even(s, fs) && Even(s, gs) {
      EvenDropsNothing(s, fs);
      EvenDropsNothing(s, gs);
    }
  }

  lemma ApplyBlend(s: Account, f: Fill, t: Account, cost: int)
    requires s.position >= 0 && f.buy && f.qty > 0
    requires t.position == s.position + f.qty && t.realized == s.realized
    requires cost == s.avg * s.position + f.price * f.qty >= 0 && t.avg == cost / t.position
    ensures Defined(s, f) && Apply(s, f) == t
  {
  }

  /** With remainders it does: the same three buys in another order leave another average,
      so closing them at one price realizes another profit. */
  lemma OrderMatters(flat: Account)
    requires flat == Account(0, 0, 0)
    ensures var a, b := Fill(true, 0, 1), Fill(true, 3, 1);
            && DefinedRun(flat, [a, b, b]) && Run(flat, [a, b, b]).avg == 1
            && DefinedRun(flat, [b, b, a]) && Run(flat, [b, b, a]).avg == 2
  {
    hide DefinedRun, Run, Apply, Defined;
    var a, b := Fill(true, 0, 1), Fill(true, 3, 1);
    var s1, s2, s3 := Account(1, 0, 0), Account(2, 1, 0), Account(3, 1, 0);
    ApplyBlend(flat, a, s1, 0);
    ApplyBlend(s1, b, s2, 3);
    ApplyBlend(s2, b, s3, 5);
    RunThree(flat, a, b, b, s1, s2, s3);
    var t1, t2, t3 := Account(1, 3, 0), Account(2, 3, 0), Account(3, 2, 0);
    ApplyBlend(flat, b, t1, 3);
    ApplyBlend(t1, b, t2, 6);
    ApplyBlend(t2, a, t3, 6);
    RunThree(flat, b, b, a, t1, t2, t3);
  }

  lemma RunThree(s: Account, a: Fill, b: Fill, c: Fill, s1: Account, s2: Account, s3: Account)
    requires Defined(s, a) && Apply(s, a) == s1
    requires Defined(s1, b) && Apply(s1, b) == s2
    requires Defined(s2, c) && Apply(s2, c) == s3
    ensures DefinedRun(s, [a, b, c]) && Run(s, [a, b, c]) == s3
  {
    hide Apply, Defined;
    assert [a, b, c][1..] == [b, c] && [b, c][1..] == [c] && [c][1..] == [];
    assert DefinedRun(s3, []) && Run(s3, []) == s3;
    assert DefinedRun(s2, [c]) && Run(s2, [c]) == s3;
    assert DefinedRun(s1, [b, c]) && Run(s1, [b, c]) == s3;
  }
}
