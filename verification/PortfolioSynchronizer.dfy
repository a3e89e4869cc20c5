/** The synchronizer object over a live portfolio. */
module PortfolioSynchronizers {
  import opened Common
  import opened Execution
  import opened Ledger
  import opened LiveFills
  import opened Portfolios

  class PortfolioSynchronizer {
    const portfolio: Portfolio
    var keys: set<FillKey>
    var recorded: set<int>

    function View(): Sync
      reads this, portfolio, portfolio.position
    {
      Sync(portfolio.View(), keys, recorded)
    }

    constructor (portfolio: Portfolio)
      ensures this.portfolio == portfolio && View() == StartSync(portfolio.View())
    {
      this.portfolio := portfolio;
      keys, recorded := {}, {};
    }

    /** `raised` where the portfolio raises: the debit stands, the fill is not remembered. */
    method ApplyOrder(order: Order, bar: int) returns (after: Order, applied: bool, trade: Option<Trade>, raised: bool)
      modifies this, portfolio, portfolio.position
      ensures View() == Present(old(View()), Presented(order, bar))
      ensures raised <==> Raises(old(View()), Presented(order, bar))
      ensures applied <==> Carries(Presented(order, bar)) && KeyOf(Presented(order, bar)) !in old(keys) && !raised
      ensures !applied ==> after == order && trade.None?
      ensures applied ==> var r := Ledger.ApplyOrder(Recorded(old(View()), order).account, order, bar);
                          after == r.order && trade == r.trade
    {
      hide Ledger.ApplyOrder, KeyOf, Raises;
      after, applied, trade, raised := order, false, None, false;
      RaisesAsTheLedgerDoes(View(), Presented(order, bar));
      RecordOrder(order);
      if !(order.status.Filled? && order.fill.Some?) {
        return;
      }
      var key := KeyOf(Presented(order, bar));
      if key in keys {
        return;
      }
      after, trade, raised := portfolio.ApplyOrder(order, bar);
      if raised {
        RaisedLeavesOrder(Recorded(old(View()), order).account, order, bar);
        return;
      }
      keys := keys + {key};
      applied := true;
    }

    /** A batch stops at the first order that raises. */
    method ApplyOrders(ps: seq<Presented>) returns (done: nat, raised: bool)
      modifies this, portfolio, portfolio.position
      ensures done <= |ps| && View() == PresentAll(old(View()), ps[..done])
      ensures raised <==> done > 0 && Raises(PresentAll(old(View()), ps[..done - 1]), ps[done - 1])
      ensures forall i | 0 <= i < done - 1 :: !Raises(PresentAll(old(View()), ps[..i]), ps[i])
      ensures !raised ==> done == |ps|
    {
      hide Present, Raises;
      done, raised := 0, false;
      ghost var start := View();
      while done < |ps|
        invariant 0 <= done <= |ps|
        invariant View() == PresentAll(start, ps[..done])
        invariant !raised
        invariant forall i | 0 <= i < done :: !Raises(PresentAll(start, ps[..i]), ps[i])
      {
        assert ps[..done + 1][..done] == ps[..done];
        assert ps[done] == Presented(ps[done].order, ps[done].bar);
        var _, _, _, failed := ApplyOrder(ps[done].order, ps[done].bar);
        done := done + 1;
        if failed {
          return done, true;
        }
      }
    }

    method RecordOrder(order: Order)
      modifies this, portfolio
      ensures View() == Recorded(old(View()), order)
    {
      if order.id !in recorded {
        portfolio.RecordOrder(order);
        recorded := recorded + {order.id};
      }
    }
  }

  lemma RaisedLeavesOrder(a: Account, order: Order, bar: int)
    requires Ledger.ApplyOrder(a, order, bar).raised
    ensures Ledger.ApplyOrder(a, order, bar).order == order && Ledger.ApplyOrder(a, order, bar).trade.None?
  {
    hide Blend, Gross, Ratio, Worth, Fill.Slippage, Fill.Notional;
  }
}
