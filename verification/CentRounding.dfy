/** Money is kept in whole cents; the P&L validator allows one cent of disagreement. */
module CentRounding {
  import opened Common

  /** Half-up rounding to cents, ties away from zero. */
  function ToCents(x: real): int {
    if x >= 0.0 then (x * 100.0 + 0.5).Floor else -((-x * 100.0 + 0.5).Floor)
  }

  datatype Money = Money(cents: int) {
    function Amount(): real {
      Real(cents) / 100.0
    }

    /** Adding two amounts quantises again. */
    function Plus(other: Money): Money {
      Money(ToCents(Amount() + other.Amount()))
    }

    function Minus(other: Money): Money {
      Money(ToCents(Amount() - other.Amount()))
    }
  }

  function MoneyOf(x: real): Money {
    Money(ToCents(x))
  }

  datatype PnlFields = PnlFields(grossProfit: Money, grossLoss: Money, net: Money, commission: Money, slippage: Money)

  /** The snapshot factory: gross is net plus costs, split by its sign, each field rounded alone. */
  function SnapshotFields(net: real, commission: real, slippage: real): PnlFields {
    var gross := net + (commission + slippage);
    PnlFields(MoneyOf(Max(gross, 0.0)), MoneyOf(Min(gross, 0.0)), MoneyOf(net), MoneyOf(commission), MoneyOf(slippage))
  }

  function ExpectedNet(f: PnlFields): Money {
    f.grossProfit.Plus(f.grossLoss).Minus(f.commission).Minus(f.slippage)
  }

  predicate SignsAccepted(f: PnlFields) {
    f.grossProfit.cents >= 0 && f.grossLoss.cents <= 0 && f.commission.cents >= 0 && f.slippage.cents >= 0
  }

  /** _validate_pnl_consistency: the recomputed net is within one quantum of the stored one. */
  predicate ConsistencyAccepted(f: PnlFields) {
    Abs(ExpectedNet(f).Amount() - f.net.Amount()) <= 0.01
  }

  /** Rounding is off by at most half a cent, by exactly half a cent only upwards in size. */
  lemma RoundingError(x: real)
    ensures Abs(Real(ToCents(x)) - 100.0 * x) <= 0.5
    ensures Real(ToCents(x)) - 100.0 * x == 0.5 ==> x > 0.0
    ensures Real(ToCents(x)) - 100.0 * x == -0.5 ==> x < 0.0
    ensures x >= 0.0 ==> ToCents(x) >= 0
    ensures x <= 0.0 ==> ToCents(x) <= 0
  {
  }

  /** Whole cents are not moved by quantising. */
  lemma CentsAreStable(a: Money, b: Money)
    ensures a.Plus(b) == Money(a.cents + b.cents)
    ensures a.Minus(b) == Money(a.cents - b.cents)
  {
  }

  lemma SplitRounds(gross: real)
    ensures ToCents(Max(gross, 0.0)) + ToCents(Min(gross, 0.0)) == ToCents(gross)
  {
  }

  /** For all exact net P&L and costs, of either sign, the recomputed net is within one cent of
      the rounded net; and with costs that are not negative the sign checks pass as well. */
  lemma RoundingNeverTripsValidator(net: real, commission: real, slippage: real)
    ensures var f := SnapshotFields(net, commission, slippage);
            && ConsistencyAccepted(f)
            && -1 <= ExpectedNet(f).cents - f.net.cents <= 1
            && (commission >= 0.0 && slippage >= 0.0 ==> SignsAccepted(f))
  {
    hide ToCents, ExpectedNet;
    var f := SnapshotFields(net, commission, slippage);
    var gross := net + (commission + slippage);
    ExpectedCents(f);
    SplitRounds(gross);
    WithinOneCent(net, commission, slippage);
    RoundedSign(commission);
    RoundedSign(slippage);
    RoundedSign(Max(gross, 0.0));
    RoundedSign(Min(gross, 0.0));
    OneCentApart(ExpectedNet(f), f.net);
  }

  lemma RoundedSign(x: real)
    ensures x >= 0.0 ==> ToCents(x) >= 0
    ensures x <= 0.0 ==> ToCents(x) <= 0
  {
  }

  lemma OneCentApart(a: Money, b: Money)
    requires -1 <= a.cents - b.cents <= 1
    ensures Abs(a.Amount() - b.Amount()) <= 0.01
  {
    assert a.Amount() - b.Amount() == Real(a.cents - b.cents) / 100.0;
  }

  lemma ExpectedCents(f: PnlFields)
    ensures ExpectedNet(f) == Money(f.grossProfit.cents + f.grossLoss.cents - f.commission.cents - f.slippage.cents)
  {
    hide Money.Plus, Money.Minus;
    var gross := f.grossProfit.Plus(f.grossLoss);
    CentsAreStable(f.grossProfit, f.grossLoss);
    CentsAreStable(gross, f.commission);
    CentsAreStable(gross.Minus(f.commission), f.slippage);
  }

  lemma WithinOneCent(net: real, commission: real, slippage: real)
    ensures -1 <= ToCents(net + (commission + slippage)) - ToCents(commission) - ToCents(slippage) - ToCents(net) <= 1
  {
    hide ToCents;
    var gross := net + (commission + slippage);
    RoundingError(net);
    RoundingError(commission);
    RoundingError(slippage);
    RoundingError(gross);
    var d := ToCents(gross) - ToCents(commission) - ToCents(slippage) - ToCents(net);
    assert -2.0 <= Real(d) <= 2.0;
  }

  /** The bound is met: half a cent of each cost moves the recomputed net by a whole cent. */
  lemma OneCentIsReached()
    ensures var f := SnapshotFields(0.0, 0.005, 0.005);
            ExpectedNet(f) == Money(-1) && f.net == Money(0)
  {
    var f := SnapshotFields(0.0, 0.005, 0.005);
    assert ToCents(0.005) == 1 && ToCents(0.01) == 1 && ToCents(0.0) == 0;
    ExpectedCents(f);
  }
}
