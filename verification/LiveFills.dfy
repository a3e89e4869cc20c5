/** Live fills: every fill is applied to the portfolio exactly once. */
module LiveFills {
  import opened Common
  import opened Execution
  import opened Ledger

  /** The text that identifies a fill, as a value: texts made of different parts differ. */
  datatype FillKey =
    Explicit(id: string)
  | Composite(broker: string, order: int, side: Side, timestamp: int, price: real, quantity: real)

  /** An order as it looks when presented, and the bar it is presented at. */
  datatype Presented = Presented(order: Order, bar: int)

  predicate Carries(p: Presented) {
    p.order.status.Filled? && p.order.fill.Some?
  }

  function Given(text: Option<string>): bool {
    text.Some? && text.value != ""
  }

  function KeyOf(p: Presented): FillKey
    requires Carries(p)
  {
    var f := p.order.fill.value;
    if Given(f.fillId) then Explicit(f.fillId.value)
    else Composite(if Given(p.order.brokerId) then p.order.brokerId.value else "local", p.order.id, f.side,
                   f.timestamp, f.price, f.quantity)
  }

  /** The same fill: by its id where there is one, else by the broker's id for the order, "local" where
      there is none, the order's own, and the side, time, price and quantity filled. */
  predicate SameFill(p: Presented, q: Presented)
    requires Carries(p) && Carries(q)
  {
    var f, g := p.order.fill.value, q.order.fill.value;
    if f.fillId.GetOr("") != "" || g.fillId.GetOr("") != "" then f.fillId == g.fillId
    else
      && Broker(p.order) == Broker(q.order) && p.order.id == q.order.id
      && f.side == g.side && f.timestamp == g.timestamp && f.price == g.price && f.quantity == g.quantity
  }

  function Broker(order: Order): (r: string) {
    if order.brokerId.GetOr("") == "" then "local" else order.brokerId.value
  }

  /** Two fills have one key exactly when they are the same fill. */
  lemma KeysAgreeIff(p: Presented, q: Presented)
    requires Carries(p) && Carries(q)
    ensures KeyOf(p) == KeyOf(q) <==> SameFill(p, q)
  {
  }

  /** A filled buy of nothing, which the position refuses. */
  predicate IsEmptyBuy(p: Presented) {
    Carries(p) && p.order.side.Buy? && p.order.fill.value.quantity <= 0.0
  }

  datatype Sync = Sync(account: Account, keys: set<FillKey>, recorded: set<int>)

  function Recorded(s: Sync, order: Order): Sync {
    if order.id in s.recorded then s
    else s.(account := RecordOrder(s.account, order), recorded := s.recorded + {order.id})
  }

  /** One presentation. A fill is remembered only if applying it does not raise. */
  function Present(s: Sync, p: Presented): Sync {
    var noted := Recorded(s, p.order);
    if !Carries(p) || KeyOf(p) in s.keys then noted
    else
      var r := ApplyOrder(noted.account, p.order, p.bar);
      noted.(account := r.account, keys := if r.raised then s.keys else s.keys + {KeyOf(p)})
  }

  /** The guard of the branch that raises: an unseen buy of nothing that the cash covers. */
  predicate Raises(s: Sync, p: Presented) {
    IsEmptyBuy(p) && KeyOf(p) !in s.keys && Affordable(Unreserved(s.account, p.order), p.order.fill.value)
  }

  /** Presentations one after the other; whoever presents goes on after an error. */
  function PresentAll(s: Sync, ps: seq<Presented>): Sync {
    if ps == [] then s else Present(PresentAll(s, ps[..|ps| - 1]), ps[|ps| - 1])
  }

  function StartSync(a: Account): Sync {
    Sync(a, {}, {})
  }

  predicate NeverRaises(a: Account, ps: seq<Presented>) {
    ps == [] || (NeverRaises(a, ps[..|ps| - 1]) && !Raises(PresentAll(StartSync(a), ps[..|ps| - 1]), ps[|ps| - 1]))
  }

  /** Every fill is remembered as soon as it has been presented. */
  predicate EachRemembered(a: Account, ps: seq<Presented>) {
    ps == [] || (&& EachRemembered(a, ps[..|ps| - 1])
                 && (Carries(ps[|ps| - 1]) ==> KeyOf(ps[|ps| - 1]) in PresentAll(StartSync(a), ps).keys))
  }

  // ---- the independent account: no keys, only first occurrences ---------------------

  /** The i-th presentation is the first to carry its fill. */
  predicate IsFirst(ps: seq<Presented>, i: nat)
    requires i < |ps|
  {
    Carries(ps[i]) && forall j | 0 <= j < i :: Carries(ps[j]) ==> !SameFill(ps[j], ps[i])
  }

  lemma FirstByKey(ps: seq<Presented>, i: nat)
    requires i < |ps|
    ensures IsFirst(ps, i) <==> Carries(ps[i]) && forall j | 0 <= j < i :: Carries(ps[j]) ==> KeyOf(ps[j]) != KeyOf(ps[i])
  {
    hide KeyOf, SameFill, Carries;
    if Carries(ps[i]) {
      forall j | 0 <= j < i && Carries(ps[j]) ensures KeyOf(ps[j]) == KeyOf(ps[i]) <==> SameFill(ps[j], ps[i]) {
        KeysAgreeIff(ps[j], ps[i]);
      }
    }
  }

  function Firsts(ps: seq<Presented>): seq<Presented> {
    if ps == [] then []
    else Firsts(ps[..|ps| - 1]) + if IsFirst(ps, |ps| - 1) then [ps[|ps| - 1]] else []
  }

  /** The plain ledger, applied to every fill it is handed. */
  function ApplyAll(a: Account, ps: seq<Presented>): Account {
    if ps == [] then a
    else ApplyOrder(ApplyAll(a, ps[..|ps| - 1]), ps[|ps| - 1].order, ps[|ps| - 1].bar).account
  }

  predicate IsFirstOfOrder(ps: seq<Presented>, i: nat)
    requires i < |ps|
  {
    forall j | 0 <= j < i :: ps[j].order.id != ps[i].order.id
  }

  /** The ids in the order they first appear. */
  function FirstIds(ps: seq<Presented>): seq<int> {
    if ps == [] then []
    else FirstIds(ps[..|ps| - 1]) + if IsFirstOfOrder(ps, |ps| - 1) then [ps[|ps| - 1].order.id] else []
  }

  ghost predicate KeysOf(keys: set<FillKey>, ps: seq<Presented>) {
    && (forall i | 0 <= i < |ps| && Carries(ps[i]) :: KeyOf(ps[i]) in keys)
    && (forall k | k in keys :: exists i :: 0 <= i < |ps| && Carries(ps[i]) && KeyOf(ps[i]) == k)
  }

  ghost predicate IdsOf(ids: set<int>, ps: seq<Presented>) {
    && (forall i | 0 <= i < |ps| :: ps[i].order.id in ids)
    && (forall id | id in ids :: exists i :: 0 <= i < |ps| && ps[i].order.id == id)
  }

  lemma {:induction false} FirstsComeFrom(ps: seq<Presented>)
    ensures forall k | 0 <= k < |Firsts(ps)| :: Carries(Firsts(ps)[k])
    ensures forall k | 0 <= k < |Firsts(ps)| :: exists i :: 0 <= i < |ps| && ps[i] == Firsts(ps)[k]
  {
    if ps != [] {
      var prefix := ps[..|ps| - 1];
      FirstsComeFrom(prefix);
      assert Firsts(ps) == Firsts(prefix) + (if IsFirst(ps, |ps| - 1) then [ps[|ps| - 1]] else []);
      forall k | 0 <= k < |Firsts(ps)|
        ensures Carries(Firsts(ps)[k])
        ensures exists i :: 0 <= i < |ps| && ps[i] == Firsts(ps)[k] {
        if k < |Firsts(prefix)| {
          var i :| 0 <= i < |prefix| && prefix[i] == Firsts(prefix)[k];
          assert ps[i] == Firsts(ps)[k];
        } else {
          assert ps[|ps| - 1] == Firsts(ps)[k];
        }
      }
    } else {
      assert Firsts(ps) == [];
    }
  }

  lemma OrdersDoNotMatter(a: Account, orders: seq<int>, order: Order, bar: int)
    ensures var r, q := ApplyOrder(a.(orders := orders), order, bar), ApplyOrder(a, order, bar);
            r.account == q.account.(orders := orders) && r.raised == q.raised
  {
    hide Blend, Gross, Ratio, Worth, Fill.Slippage, Fill.Notional;
  }

  lemma ApplyAllStep(a: Account, ps: seq<Presented>, p: Presented)
    ensures ApplyAll(a, ps + [p]) == ApplyOrder(ApplyAll(a, ps), p.order, p.bar).account
  {
    assert (ps + [p])[..|ps|] == ps;
  }

  /** The guard is the branch's. */
  lemma RaisesAsTheLedgerDoes(s: Sync, p: Presented)
    ensures Raises(s, p) <==> Carries(p) && KeyOf(p) !in s.keys
                              && ApplyOrder(Recorded(s, p.order).account, p.order, p.bar).raised
  {
    hide ApplyOrder, KeyOf, Fill.Notional;
    RaisesIff(Recorded(s, p.order).account, p.order, p.bar);
  }

  /** Buys of something never raise, whatever the portfolio. */
  lemma {:induction false} PositiveFillsNeverRaise(a: Account, ps: seq<Presented>)
    requires forall i | 0 <= i < |ps| :: !IsEmptyBuy(ps[i])
    ensures NeverRaises(a, ps)
  {
    if ps != [] {
      PositiveFillsNeverRaise(a, ps[..|ps| - 1]);
    }
  }

  /** What a synchronizer that starts over portfolio `a` has done after any sequence of presented
      orders. Every fill is remembered once presented exactly when no presentation raises. Then cash,
      reservations, position, trades, costs and equity curve are the plain ledger's over the first
      occurrence of each fill; each order id is recorded once, at its first appearance; the
      remembered keys and ids are exactly those presented. */
  lemma {:induction false} FillsApplyOnce(a: Account, ps: seq<Presented>)
    ensures EachRemembered(a, ps) <==> NeverRaises(a, ps)
    ensures IdsOf(PresentAll(StartSync(a), ps).recorded, ps)
    ensures NeverRaises(a, ps) ==>
              var s := PresentAll(StartSync(a), ps);
              && s.account == ApplyAll(a, Firsts(ps)).(orders := a.orders + FirstIds(ps))
              && KeysOf(s.keys, ps)
  {
    hide ApplyOrder, Raises, KeyOf, Carries;
    if ps == [] {
      assert a.orders + [] == a.orders;
    } else {
      var n := |ps| - 1;
      var prefix := ps[..n];
      FillsApplyOnce(a, prefix);
      var before := PresentAll(StartSync(a), prefix);
      RecordedOnce(before.recorded, ps);
      RaisesAsTheLedgerDoes(before, ps[n]);
      if NeverRaises(a, ps) {
        AppliesLast(a, ps);
      }
    }
  }

  lemma PresentUnraised(s: Sync, p: Presented)
    requires !Raises(s, p)
    ensures var noted := Recorded(s, p.order);
            Present(s, p) == if !Carries(p) || KeyOf(p) in s.keys then noted
                             else noted.(account := ApplyOrder(noted.account, p.order, p.bar).account, keys := s.keys + {KeyOf(p)})
  {
    hide ApplyOrder, Raises;
    RaisesAsTheLedgerDoes(s, p);
  }

  lemma AppliesLast(a: Account, ps: seq<Presented>)
    requires ps != [] && !Raises(PresentAll(StartSync(a), ps[..|ps| - 1]), ps[|ps| - 1])
    requires var prefix := ps[..|ps| - 1];
             var before := PresentAll(StartSync(a), prefix);
             && before.account == ApplyAll(a, Firsts(prefix)).(orders := a.orders + FirstIds(prefix))
             && KeysOf(before.keys, prefix) && IdsOf(before.recorded, prefix)
    ensures var s := PresentAll(StartSync(a), ps);
            && s.account == ApplyAll(a, Firsts(ps)).(orders := a.orders + FirstIds(ps))
            && KeysOf(s.keys, ps)
  {
    hide ApplyOrder, Raises, Present, KeyOf, Carries, KeysOf, IdsOf, IsFirst, IsFirstOfOrder, PresentAll, Firsts, FirstIds, ApplyAll;
    var n := |ps| - 1;
    var prefix := ps[..n];
    var before := PresentAll(StartSync(a), prefix);
    var money := ApplyAll(a, Firsts(prefix));
    LastStep(a, ps);
    RecordedOnce(before.recorded, ps);
    AppliedOnce(before.keys, ps);
    assert a.orders + FirstIds(ps) == a.orders + FirstIds(prefix) + (if ps[n].order.id in before.recorded then [] else [ps[n].order.id]);
    StepMoney(before, ps[n], money, a.orders + FirstIds(prefix), a.orders + FirstIds(ps));
    if IsFirst(ps, n) {
      ApplyAllStep(a, Firsts(prefix), ps[n]);
    }
  }

  lemma LastStep(a: Account, ps: seq<Presented>)
    requires ps != []
    ensures var n := |ps| - 1;
            && PresentAll(StartSync(a), ps) == Present(PresentAll(StartSync(a), ps[..n]), ps[n])
            && Firsts(ps) == (if IsFirst(ps, n) then Firsts(ps[..n]) + [ps[n]] else Firsts(ps[..n]))
            && FirstIds(ps) == FirstIds(ps[..n]) + if IsFirstOfOrder(ps, n) then [ps[n].order.id] else []
  {
    hide Present, IsFirst, IsFirstOfOrder;
  }

  lemma StepMoney(s: Sync, p: Presented, money: Account, before: seq<int>, after: seq<int>)
    requires !Raises(s, p) && s.account == money.(orders := before)
    requires after == before + if p.order.id in s.recorded then [] else [p.order.id]
    ensures Present(s, p).account
            == (if Carries(p) && KeyOf(p) !in s.keys then ApplyOrder(money, p.order, p.bar).account else money).(orders := after)
    ensures Present(s, p).keys == if Carries(p) then s.keys + {KeyOf(p)} else s.keys
  {
    hide ApplyOrder, Raises, Present, KeyOf, Carries;
    assert before + [] == before;
    PresentUnraised(s, p);
    OrdersDoNotMatter(money, after, p.order, p.bar);
  }

  lemma RecordedOnce(ids: set<int>, ps: seq<Presented>)
    requires ps != [] && IdsOf(ids, ps[..|ps| - 1])
    ensures ps[|ps| - 1].order.id in ids <==> !IsFirstOfOrder(ps, |ps| - 1)
    ensures IdsOf(ids + {ps[|ps| - 1].order.id}, ps)
  {
    var prefix := ps[..|ps| - 1];
    assert forall i | 0 <= i < |prefix| :: prefix[i] == ps[i];
    var id := ps[|ps| - 1].order.id;
    if id in ids {
      var i :| 0 <= i < |prefix| && prefix[i].order.id == id;
      assert ps[i].order.id == id;
      assert ids + {id} == ids;
    }
    forall other | other in ids + {id} ensures exists i :: 0 <= i < |ps| && ps[i].order.id == other {
      if other in ids {
        var i :| 0 <= i < |prefix| && prefix[i].order.id == other;
        assert ps[i].order.id == other;
      } else {
        assert ps[|ps| - 1].order.id == other;
      }
    }
  }

  lemma AppliedOnce(keys: set<FillKey>, ps: seq<Presented>)
    requires ps != [] && KeysOf(keys, ps[..|ps| - 1])
    ensures var p := ps[|ps| - 1];
            && (IsFirst(ps, |ps| - 1) <==> Carries(p) && KeyOf(p) !in keys)
            && KeysOf(if Carries(p) then keys + {KeyOf(p)} else keys, ps)
  {
    hide KeyOf, Carries, SameFill, IsFirst;
    FirstByKey(ps, |ps| - 1);
    var prefix := ps[..|ps| - 1];
    var p := ps[|ps| - 1];
    assert forall i | 0 <= i < |prefix| :: prefix[i] == ps[i];
    if Carries(p) && KeyOf(p) in keys {
      var i :| 0 <= i < |prefix| && Carries(prefix[i]) && KeyOf(prefix[i]) == KeyOf(p);
      assert Carries(ps[i]) && KeyOf(ps[i]) == KeyOf(p);
    }
    var after := if Carries(p) then keys + {KeyOf(p)} else keys;
    forall k | k in after ensures exists i :: 0 <= i < |ps| && Carries(ps[i]) && KeyOf(ps[i]) == k {
      if k in keys {
        var i :| 0 <= i < |prefix| && Carries(prefix[i]) && KeyOf(prefix[i]) == k;
        assert Carries(ps[i]) && KeyOf(ps[i]) == k;
      } else {
        assert Carries(ps[|ps| - 1]) && KeyOf(ps[|ps| - 1]) == k;
      }
    }
  }

  /** An id is recorded exactly when an order with it was presented. */
  lemma {:induction false} FirstIdsAre(ps: seq<Presented>, id: int)
    ensures id in FirstIds(ps) <==> exists i :: 0 <= i < |ps| && ps[i].order.id == id
  {
    if ps != [] {
      var n := |ps| - 1;
      var prefix := ps[..n];
      FirstIdsAre(prefix, id);
      if id in FirstIds(prefix) {
        var i :| 0 <= i < |prefix| && prefix[i].order.id == id;
        assert ps[i].order.id == id;
      }
      if i :| 0 <= i < |ps| && ps[i].order.id == id {
        if i < n {
          assert prefix[i].order.id == id;
        } else if !IsFirstOfOrder(ps, n) {
          var j :| 0 <= j < n && ps[j].order.id == id;
          assert prefix[j].order.id == id;
        }
      }
    } else {
      assert FirstIds(ps) == [];
    }
  }

  /** Recorded ids do not repeat. */
  lemma {:induction false} FirstIdsAreDistinct(ps: seq<Presented>)
    ensures forall i, j | 0 <= i < j < |FirstIds(ps)| :: FirstIds(ps)[i] != FirstIds(ps)[j]
  {
    if ps != [] {
      var n := |ps| - 1;
      FirstIdsAreDistinct(ps[..n]);
      FirstIdsAre(ps[..n], ps[n].order.id);
      assert forall i | 0 <= i < n :: ps[..n][i] == ps[i];
    }
  }

  /** Among first occurrences no key repeats. */
  lemma {:induction false} FirstsAreDistinct(ps: seq<Presented>)
    ensures forall k | 0 <= k < |Firsts(ps)| :: IsFirst(Firsts(ps), k)
  {
    hide SameFill, Carries;
    if ps != [] {
      var n := |ps| - 1;
      var prefix := ps[..n];
      FirstsAreDistinct(prefix);
      FirstsComeFrom(prefix);
      assert Firsts(ps) == Firsts(prefix) + (if IsFirst(ps, n) then [ps[n]] else []);
      forall k | 0 <= k < |Firsts(ps)| ensures IsFirst(Firsts(ps), k) {
        if k < |Firsts(prefix)| {
          assert IsFirst(Firsts(prefix), k);
        } else {
          forall j | 0 <= j < k ensures Carries(Firsts(ps)[j]) && !SameFill(Firsts(ps)[j], ps[n]) {
            var i :| 0 <= i < |prefix| && prefix[i] == Firsts(prefix)[j];
            assert ps[i] == Firsts(ps)[j];
          }
        }
      }
    } else {
      assert Firsts(ps) == [];
    }
  }

  lemma {:induction false} AllFirstsStay(ps: seq<Presented>)
    requires forall k | 0 <= k < |ps| :: IsFirst(ps, k)
    ensures Firsts(ps) == ps
  {
    hide SameFill, Carries;
    if ps != [] {
      var prefix := ps[..|ps| - 1];
      forall k | 0 <= k < |prefix| ensures IsFirst(prefix, k) {
        assert IsFirst(ps, k);
      }
      AllFirstsStay(prefix);
    }
  }

  /** Nothing raises when only the first occurrences are presented. */
  lemma {:induction false} FirstsNeverRaise(a: Account, ps: seq<Presented>)
    requires NeverRaises(a, ps)
    ensures NeverRaises(a, Firsts(ps))
  {
    hide ApplyOrder, KeyOf, Fill.Notional;
    if ps != [] {
      var n := |ps| - 1;
      FirstsNeverRaise(a, ps[..n]);
      if IsFirst(ps, n) {
        FillsApplyOnce(a, ps[..n]);
        FillsApplyOnce(a, Firsts(ps[..n]));
        FirstsAreDistinct(ps[..n]);
        AllFirstsStay(Firsts(ps[..n]));
        AppliedOnce(PresentAll(StartSync(a), ps[..n]).keys, ps);
        assert Firsts(ps)[..|Firsts(ps[..n])|] == Firsts(ps[..n]);
      } else {
        assert Firsts(ps) == Firsts(ps[..n]);
      }
    }
  }

  /** When nothing raises, presenting orders with repeats does to the money exactly what presenting
      only the first occurrence of each fill does. */
  lemma RepeatsChangeNothing(a: Account, ps: seq<Presented>)
    requires NeverRaises(a, ps)
    ensures PresentAll(StartSync(a), ps).account.(orders := []) == PresentAll(StartSync(a), Firsts(ps)).account.(orders := [])
    ensures PresentAll(StartSync(a), ps).keys == PresentAll(StartSync(a), Firsts(ps)).keys
  {
    hide ApplyOrder, KeyOf, NeverRaises;
    FillsApplyOnce(a, ps);
    FirstsNeverRaise(a, ps);
    FillsApplyOnce(a, Firsts(ps));
    FirstsAreDistinct(ps);
    AllFirstsStay(Firsts(ps));
    SameKeys(a, ps, PresentAll(StartSync(a), ps).keys, PresentAll(StartSync(a), Firsts(ps)).keys);
  }

  // ---- what is new is applied -----------------------------------------------------------------

  lemma {:induction false} KeysComeFrom(a: Account, ps: seq<Presented>)
    ensures forall k | k in PresentAll(StartSync(a), ps).keys :: exists i :: 0 <= i < |ps| && Carries(ps[i]) && KeyOf(ps[i]) == k
  {
    hide KeyOf, Carries, ApplyOrder;
    if ps != [] {
      var n := |ps| - 1;
      KeysComeFrom(a, ps[..n]);
      forall k | k in PresentAll(StartSync(a), ps).keys ensures exists i :: 0 <= i < |ps| && Carries(ps[i]) && KeyOf(ps[i]) == k {
        if k in PresentAll(StartSync(a), ps[..n]).keys {
          var i :| 0 <= i < n && Carries(ps[..n][i]) && KeyOf(ps[..n][i]) == k;
          assert Carries(ps[i]) && KeyOf(ps[i]) == k;
        } else {
          assert Carries(ps[n]) && KeyOf(ps[n]) == k;
        }
      }
    }
  }

  /** After any presentations, a fill that is the same as none of them is applied, whatever was repeated
      or raised before it. */
  lemma {:induction false} NewFillIsApplied(a: Account, ps: seq<Presented>, p: Presented)
    requires Carries(p) && forall j | 0 <= j < |ps| && Carries(ps[j]) :: !SameFill(ps[j], p)
    ensures var s := PresentAll(StartSync(a), ps);
            Present(s, p).account == ApplyOrder(Recorded(s, p.order).account, p.order, p.bar).account
  {
    hide KeyOf, SameFill, ApplyOrder, PresentAll;
    KeysComeFrom(a, ps);
    if KeyOf(p) in PresentAll(StartSync(a), ps).keys {
      var i :| 0 <= i < |ps| && Carries(ps[i]) && KeyOf(ps[i]) == KeyOf(p);
      KeysAgreeIff(ps[i], p);
    }
  }

  // ---- repeats, exactly ---------------------------------------------------------------------

  /** Applying this fill moves no money and no reservation. */
  predicate MovesNothing(a: Account, order: Order)
    requires order.fill.Some?
  {
    var f := order.fill.value;
    && f.Notional() + f.cost == 0.0 && f.cost == 0.0 && f.Slippage() == 0.0
    && Unreserved(a, order).reserved == a.reserved
  }

  /** Presenting this order (again) would change something: a buy of nothing that is not remembered,
      unless it is paid for with nothing. */
  predicate Leaks(s: Sync, p: Presented) {
    IsEmptyBuy(p) && KeyOf(p) !in s.keys && !(Raises(s, p) && MovesNothing(s.account, p.order))
  }

  /** What was presented is recorded, and remembered unless it is a buy of nothing. */
  lemma {:induction false} PresentedIsKnown(a: Account, ps: seq<Presented>, j: nat)
    requires j < |ps|
    ensures var s := PresentAll(StartSync(a), ps);
            ps[j].order.id in s.recorded && (Carries(ps[j]) && !IsEmptyBuy(ps[j]) ==> KeyOf(ps[j]) in s.keys)
    decreases |ps|
  {
    hide ApplyOrder, KeyOf, Carries;
    var n := |ps| - 1;
    var before := PresentAll(StartSync(a), ps[..n]);
    if j < n {
      PresentedIsKnown(a, ps[..n], j);
    } else {
      RaisesAsTheLedgerDoes(before, ps[n]);
    }
  }

  /** After any run, presenting any of its orders again changes nothing at all, neither money nor
      memory, exactly when none of them is an unremembered buy of nothing that moves something. */
  lemma {:induction false} RepeatsChangeNothingIff(a: Account, ps: seq<Presented>)
    ensures var s := PresentAll(StartSync(a), ps);
            (forall j | 0 <= j < |ps| :: Present(s, ps[j]) == s) <==> (forall j | 0 <= j < |ps| :: !Leaks(s, ps[j]))
  {
    hide Present, Leaks;
    forall j | 0 <= j < |ps|
      ensures Present(PresentAll(StartSync(a), ps), ps[j]) == PresentAll(StartSync(a), ps)
              <==> !Leaks(PresentAll(StartSync(a), ps), ps[j])
    {
      PresentingAgainIff(a, ps, j);
    }
  }

  lemma {:induction false} PresentingAgainIff(a: Account, ps: seq<Presented>, j: nat)
    requires j < |ps|
    ensures var s := PresentAll(StartSync(a), ps);
            Present(s, ps[j]) == s <==> !Leaks(s, ps[j])
  {
    hide PresentAll, ApplyOrder, KeyOf, MovesNothing;
    var s, p := PresentAll(StartSync(a), ps), ps[j];
    PresentedIsKnown(a, ps, j);
    RaisesAsTheLedgerDoes(s, p);
    if IsEmptyBuy(p) && KeyOf(p) !in s.keys {
      assert Recorded(s, p.order) == s;
      if Raises(s, p) {
        EmptyBuyMoves(s.account, p.order, p.bar);
      } else {
        assert KeyOf(p) in Present(s, p).keys;
      }
    }
  }

  lemma EmptyBuyMoves(a: Account, order: Order, bar: int)
    requires order.side.Buy? && order.fill.Some? && order.fill.value.quantity <= 0.0
    requires Affordable(Unreserved(a, order), order.fill.value)
    ensures ApplyOrder(a, order, bar).account == a <==> MovesNothing(a, order)
  {
    hide Fill.Slippage;
  }

  const EMPTY_FILL: Presented :=
    Presented(Order(1, Buy, Entry, 0.0, 100.0, 0, Filled, Some(Fill(100.0, 0.0, 5.0, 100.0, Buy, 0, None)), 0.0, None), 0)

  /** Such an order: a buy filled for nothing at a cost of 5 is charged every time it is presented. */
  lemma EmptyFillIsChargedAgain()
    ensures var a := NewAccount(1000.0, 1.0);
            var once, twice := PresentAll(StartSync(a), [EMPTY_FILL]), PresentAll(StartSync(a), [EMPTY_FILL, EMPTY_FILL]);
            && once.account.cash == 995.0 && once.keys == {}
            && twice.account.cash == 990.0 && twice.account.brokerage == 10.0
            && !twice.account.position.IsOpen()
  {
    hide ApplyOrder, KeyOf;
    var a := NewAccount(1000.0, 1.0);
    var one, two := [EMPTY_FILL], [EMPTY_FILL, EMPTY_FILL];
    assert one[..0] == [] && two[..1] == one;
    var noted := Recorded(StartSync(a), EMPTY_FILL.order).account;
    EmptyFillCosts(noted);
    EmptyFillCosts(ApplyOrder(noted, EMPTY_FILL.order, 0).account);
  }

  lemma EmptyFillCosts(a: Account)
    requires a.cash >= 5.0 && a.reserved >= 0.0
    ensures var r := ApplyOrder(a, EMPTY_FILL.order, 0);
            && r.raised && r.account.cash == a.cash - 5.0 && r.account.brokerage == a.brokerage + 5.0
            && r.account.position == a.position && r.account.reserved == a.reserved
  {
    var f := EMPTY_FILL.order.fill.value;
    assert f.Notional() == 0.0;
  }

  lemma {:induction false} EveryKeyHasAFirst(ps: seq<Presented>, i: nat)
    requires i < |ps| && Carries(ps[i])
    ensures exists k :: 0 <= k < |Firsts(ps)| && Carries(Firsts(ps)[k]) && KeyOf(Firsts(ps)[k]) == KeyOf(ps[i])
    decreases |ps|
  {
    hide SameFill, KeyOf, Carries, IsFirst;
    var n := |ps| - 1;
    var prefix := ps[..n];
    FirstByKey(ps, n);
    if i < n {
      EveryKeyHasAFirst(prefix, i);
      var k :| 0 <= k < |Firsts(prefix)| && Carries(Firsts(prefix)[k]) && KeyOf(Firsts(prefix)[k]) == KeyOf(ps[i]);
      assert Firsts(ps)[k] == Firsts(prefix)[k];
    } else if IsFirst(ps, n) {
      assert Firsts(ps)[|Firsts(prefix)|] == ps[n];
    } else {
      var j :| 0 <= j < n && Carries(ps[j]) && KeyOf(ps[j]) == KeyOf(ps[n]);
      EveryKeyHasAFirst(prefix, j);
      var k :| 0 <= k < |Firsts(prefix)| && Carries(Firsts(prefix)[k]) && KeyOf(Firsts(prefix)[k]) == KeyOf(ps[j]);
      assert Firsts(ps)[k] == Firsts(prefix)[k];
    }
  }

  lemma SameKeys(a: Account, ps: seq<Presented>, all: set<FillKey>, firsts: set<FillKey>)
    requires KeysOf(all, ps) && KeysOf(firsts, Firsts(ps))
    ensures all == firsts
  {
    hide KeyOf, Carries;
    forall k | k in all ensures k in firsts {
      var i :| 0 <= i < |ps| && Carries(ps[i]) && KeyOf(ps[i]) == k;
      EveryKeyHasAFirst(ps, i);
    }
    forall k | k in firsts ensures k in all {
      var m :| 0 <= m < |Firsts(ps)| && Carries(Firsts(ps)[m]) && KeyOf(Firsts(ps)[m]) == k;
      FirstsComeFrom(ps);
      var i :| 0 <= i < |ps| && ps[i] == Firsts(ps)[m];
      assert KeyOf(ps[i]) == k;
    }
  }

  // ---- scale-ins -----------------------------------------------------------------------

  /** The ledger takes this fill into the position. */
  predicate Taken(a: Account, order: Order) {
    && order.fill.Some? && order.side.Buy? && order.fill.value.quantity > 0.0
    && Affordable(Unreserved(a, order), order.fill.value)
  }

  /** The buys a position is made of after one more order. */
  function NextBuys(a: Account, buys: seq<Fill>, order: Order): seq<Fill> {
    if order.fill.None? then buys
    else if order.side.Sell? then []
    else if Taken(a, order) then buys + [order.fill.value]
    else buys
  }

  /** The buy fills the ledger's position is made of: those it took since the last sell. */
  function OpenBuys(a: Account, ps: seq<Presented>): seq<Fill> {
    if ps == [] then []
    else NextBuys(ApplyAll(a, ps[..|ps| - 1]), OpenBuys(a, ps[..|ps| - 1]), ps[|ps| - 1].order)
  }

  /** The same for a run of the synchronizer, where only unseen fills reach the ledger. */
  function LiveBuys(a: Account, ps: seq<Presented>): seq<Fill> {
    if ps == [] then []
    else
      var before, p := PresentAll(StartSync(a), ps[..|ps| - 1]), ps[|ps| - 1];
      if !Carries(p) || KeyOf(p) in before.keys then LiveBuys(a, ps[..|ps| - 1])
      else NextBuys(before.account, LiveBuys(a, ps[..|ps| - 1]), p.order)
  }

  function SumQuantity(fs: seq<Fill>): real {
    if fs == [] then 0.0 else SumQuantity(fs[..|fs| - 1]) + fs[|fs| - 1].quantity
  }

  function SumNotional(fs: seq<Fill>): real {
    if fs == [] then 0.0 else SumNotional(fs[..|fs| - 1]) + fs[|fs| - 1].Notional()
  }

  function SumCost(fs: seq<Fill>): real {
    if fs == [] then 0.0 else SumCost(fs[..|fs| - 1]) + fs[|fs| - 1].cost
  }

  /** The position's size, entry notional and entry cost are those of the listed buys. */
  predicate MadeOf(p: PositionState, fs: seq<Fill>) {
    && p.IsOpen() == (fs != [])
    && (p.IsOpen() ==> && p.quantity == SumQuantity(fs)
                       && p.average * p.quantity == SumNotional(fs)
                       && p.entryCost == SumCost(fs))
  }

  lemma {:induction false} BuyExtends(p: PositionState, fs: seq<Fill>, f: Fill, bar: int)
    requires MadeOf(p, fs) && f.quantity > 0.0
    ensures MadeOf(OpenLong(p, f.price, f.quantity, f.cost, f.timestamp, bar), fs + [f])
  {
    assert (fs + [f])[..|fs|] == fs;
    if p.IsOpen() {
      BlendPreservesNotional(p.average, p.quantity, f.price, f.quantity);
    } else {
      assert SumNotional([]) == 0.0;
    }
  }

  lemma FlatIsMadeOfNothing(p: PositionState)
    requires !p.IsOpen()
    ensures MadeOf(p, [])
  {
  }

  lemma OrderExtends(a: Account, buys: seq<Fill>, order: Order, bar: int)
    requires MadeOf(a.position, buys)
    ensures MadeOf(ApplyOrder(a, order, bar).account.position, NextBuys(a, buys, order))
  {
    hide MadeOf, Blend, Gross, Ratio, Worth, Fill.Slippage, OpenLong;
    if order.fill.Some? {
      if order.side.Sell? {
        FlatIsMadeOfNothing(ApplyOrder(a, order, bar).account.position);
      } else if Taken(a, order) {
        BuyExtends(a.position, buys, order.fill.value, bar);
      }
    }
  }

  /** Over any run of orders from a flat portfolio, average entry price times quantity is the summed
      notional of the buys taken since the last sell. */
  lemma {:induction false} ScaleInsKeepNotional(a: Account, ps: seq<Presented>)
    requires !a.position.IsOpen()
    ensures MadeOf(ApplyAll(a, ps).position, OpenBuys(a, ps))
  {
    hide MadeOf, ApplyOrder, NextBuys;
    if ps == [] {
      FlatIsMadeOfNothing(a.position);
    } else {
      ScaleInsKeepNotional(a, ps[..|ps| - 1]);
      OrderExtends(ApplyAll(a, ps[..|ps| - 1]), OpenBuys(a, ps[..|ps| - 1]), ps[|ps| - 1].order, ps[|ps| - 1].bar);
    }
  }

  /** The same after any presentations, repeats and raising ones included: the open position is
      worth at entry what the distinct buys the ledger took since the last sell cost. */
  lemma {:induction false} LivePositionIsItsBuys(a: Account, ps: seq<Presented>)
    requires !a.position.IsOpen()
    ensures MadeOf(PresentAll(StartSync(a), ps).account.position, LiveBuys(a, ps))
  {
    hide MadeOf, ApplyOrder, NextBuys, KeyOf, Carries;
    if ps == [] {
      FlatIsMadeOfNothing(a.position);
    } else {
      var before, p := PresentAll(StartSync(a), ps[..|ps| - 1]), ps[|ps| - 1];
      LivePositionIsItsBuys(a, ps[..|ps| - 1]);
      if Carries(p) && KeyOf(p) !in before.keys {
        var noted := Recorded(before, p.order);
        OrderExtends(noted.account, LiveBuys(a, ps[..|ps| - 1]), p.order, p.bar);
        RecordingIsIdle(before, p.order, LiveBuys(a, ps[..|ps| - 1]));
      }
    }
  }

  lemma RecordingIsIdle(s: Sync, order: Order, buys: seq<Fill>)
    ensures NextBuys(Recorded(s, order).account, buys, order) == NextBuys(s.account, buys, order)
    ensures Recorded(s, order).account.position == s.account.position
  {
    hide Fill.Notional;
  }
}
