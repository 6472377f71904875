/** The market maker object (include/hft/market_maker.hpp). Its accounting is specified by
    `Accounting`, its attribution of reports by `QuoteLoop` and `Attribution`. */
module MarketMaking {
  import Acc = Accounting
  import opened Engine
  import opened Options
  import QL = QuoteLoop
  import At = Attribution

  datatype Quote = Quote(bid: Option<int>, ask: Option<int>)

  class MarketMaker {
    const halfSpread: int
    const limit: int
    const quoteQty: nat

    var position: int
    var avgCost: int
    var realized: int
    var fills: nat
    var suppressed: nat
    var openOrders: map<nat, bool>

    constructor (halfSpread: int, limit: int, quoteQty: nat)
      ensures this.halfSpread == halfSpread && this.limit == limit && this.quoteQty == quoteQty
      ensures View() == Acc.Account(0, 0, 0) && fills == 0 && suppressed == 0 && openOrders == map[]
    {
      this.halfSpread, this.limit, this.quoteQty := halfSpread, limit, quoteQty;
      position, avgCost, realized, fills, suppressed, openOrders := 0, 0, 0, 0, 0, map[];
    }

    function View(): Acc.Account
      reads this
    {
      Acc.Account(position, avgCost, realized)
    }

    method RegisterOrder(id: nat, buy: bool)
      modifies this`openOrders
      ensures openOrders == old(openOrders)[id := buy]
    {
      openOrders := openOrders[id := buy];
    }

    /** A zero fill of a flat account divides by zero in the source. */
    method ApplyFill(buy: bool, price: int, qty: nat)
      requires position != 0 || qty != 0
      modifies this`position, this`avgCost, this`realized
      ensures View() == Acc.Apply(old(View()), Acc.Fill(buy, price, qty))
    {
      var signed := if buy then qty else -(qty as int);
      var was := position;
      if was == 0 || (was > 0) == (signed > 0) {
        var now := was + signed;
        avgCost := Acc.Quot(avgCost * was + price * signed, now);
        position := now;
        return;
      }
      var closing := if Acc.Abs(signed) < Acc.Abs(was) then Acc.Abs(signed) else Acc.Abs(was);
      var direction := if was > 0 then 1 else -1;
      realized := realized + direction * closing * (price - avgCost);
      position := was + signed;
      if position == 0 {
        avgCost := 0;
      } else if (position > 0) != (direction > 0) {
        avgCost := price;
      }
    }

    /** A report counts for the order of ours it names, on the side that order was
        registered with; a report that names none changes nothing. */
    method OnFill(r: Report) returns (ours: bool)
      requires r.id in openOrders || r.contra in openOrders ==> position != 0 || r.qty != 0
      modifies this`position, this`avgCost, this`realized, this`fills, this`openOrders
      ensures ours == (r.id in old(openOrders) || r.contra in old(openOrders))
      ensures openOrders == At.OpenAfter(old(openOrders), r)
      ensures !ours ==> View() == old(View()) && fills == old(fills)
      ensures ours ==> fills == old(fills) + 1
      ensures ours ==> var side := old(openOrders)[QL.Attributed(old(openOrders), r)];
                       && View() == Acc.Apply(old(View()), Acc.Fill(side, r.price, r.qty))
                       && position == old(position) + QL.Signed(side, r.qty)
    {
      var id := r.id;
      if id !in openOrders {
        id := r.contra;
      }
      if id !in openOrders {
        return false;
      }
      ApplyFill(openOrders[id], r.price, r.qty);
      fills := fills + 1;
      if r.leaves == 0 {
        openOrders := openOrders - {id};
      }
      return true;
    }

    /** A side is quoted exactly when filling it whole stays within the limit; with a
        positive half spread the two quotes cannot trade with each other. */
    method ComputeQuote(reservation: int) returns (q: Quote)
      modifies this`suppressed
      ensures q.bid.Some? <==> position + quoteQty <= limit
      ensures q.ask.Some? <==> position - quoteQty >= -limit
      ensures q.bid.Some? ==> reservation - q.bid.value == halfSpread
      ensures q.ask.Some? ==> q.ask.value - reservation == halfSpread
      ensures q.bid.Some? && q.ask.Some? && halfSpread > 0 ==>
                !Crosses(true, q.bid.value, q.ask.value) && !Crosses(false, q.ask.value, q.bid.value)
      ensures suppressed == old(suppressed) + (if q.bid.None? then 1 else 0) + (if q.ask.None? then 1 else 0)
    {
      q := Quote(None, None);
      if position + quoteQty <= limit {
        q := q.(bid := Some(reservation - halfSpread));
      } else {
        suppressed := suppressed + 1;
      }
      if position - quoteQty >= -limit {
        q := q.(ask := Some(reservation + halfSpread));
      } else {
        suppressed := suppressed + 1;
      }
    }

    /** The mark-to-market identity: with what was realized it is the basis at the mark. */
    method UnrealizedPnl(mark: int) returns (pnl: int)
      ensures pnl == Acc.Unrealized(View(), mark)
      ensures realized + pnl == Acc.Basis(View()) + position * mark
    {
      Acc.MarkedBasis(View(), mark);
      if position == 0 {
        return 0;
      }
      return position * (mark - avgCost);
    }
  }
}
