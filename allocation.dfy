/** Urgency weights and the proportional split of the available balance over
    the Pending bills. */
module Allocation {
  import opened Bills
  import opened Metrics
  import opened Sums

  /** The urgency weight of a bill due in `days` days: 1 / (days + 1). */
  function Weight(days: nat): (w: real)
    ensures 0.0 < w <= 1.0
    ensures w == 1.0 <==> days == 0
  {
    1.0 / (days as real + 1.0)
  }

  /** A bill due sooner never weighs less, and strictly more when it is due
      strictly sooner. */
  lemma WeightAntitone(sooner: nat, later: nat)
    requires sooner <= later
    ensures Weight(sooner) >= Weight(later)
    ensures sooner < later ==> Weight(sooner) > Weight(later)
  {
    ReciprocalAntitone(sooner as real + 1.0, later as real + 1.0);
  }

  /** The weight a bill contributes to the total: its urgency weight when it
      is Pending, 0 otherwise. */
  function PendingWeight(m: BillMetric): (w: real)
    ensures w >= 0.0
    ensures w > 0.0 <==> m.bill.status == Pending
  {
    if m.bill.status == Pending then Weight(m.daysUntilDue) else 0.0
  }

  function PendingWeights(ms: seq<BillMetric>): (ws: seq<real>)
    ensures |ws| == |ms| && AllNonNegative(ws)
    ensures forall i :: 0 <= i < |ms| ==> ws[i] == PendingWeight(ms[i])
  {
    seq(|ms|, i requires 0 <= i < |ms| => PendingWeight(ms[i]))
  }

  /** Some bill of the metrics is Pending. */
  predicate HasPending(ms: seq<BillMetric>)
  {
    AnyPending(BillsOf(ms))
  }

  /** The sum of the Pending bills' weights. It is never negative, and it is
      positive exactly when some bill is Pending. */
  function TotalWeight(ms: seq<BillMetric>): (t: real)
    ensures t >= 0.0
    ensures t > 0.0 <==> HasPending(ms)
  {
    var ws := PendingWeights(ms);
    SumNonNegative(ws);
    assert (exists i :: 0 <= i < |ws| && ws[i] > 0.0) <==> HasPending(ms);
    Sum(ws)
  }

  /** A bill with its share of the balance. */
  datatype AllocatedBill = AllocatedBill(
    bill: Bill,
    daysUntilDue: nat,
    allocationPercent: real,
    allocatedAmount: real)

  /** The share of one bill, given the total weight and the balance. */
  function AllocateOne(m: BillMetric, totalWeight: real, balance: real): AllocatedBill
  {
    if m.bill.status == Pending && totalWeight > 0.0 then
      var percent := (Weight(m.daysUntilDue) / totalWeight) * 100.0;
      AllocatedBill(m.bill, m.daysUntilDue, percent, (balance * percent) / 100.0)
    else
      AllocatedBill(m.bill, m.daysUntilDue, 0.0, 0.0)
  }

  /** The bills with their shares of `balance`. Every bill keeps its fields and
      days; a bill that is not Pending, or any bill when nothing is Pending,
      gets 0; every percentage lies in [0, 100]. */
  function Allocate(ms: seq<BillMetric>, balance: real): (r: seq<AllocatedBill>)
    ensures |r| == |ms|
    ensures forall i :: 0 <= i < |ms| ==>
      r[i].bill == ms[i].bill && r[i].daysUntilDue == ms[i].daysUntilDue
    ensures forall i :: 0 <= i < |ms| && (ms[i].bill.status != Pending || !HasPending(ms)) ==>
      r[i].allocationPercent == 0.0 && r[i].allocatedAmount == 0.0
    ensures forall i :: 0 <= i < |ms| ==> 0.0 <= r[i].allocationPercent <= 100.0
  {
    var t := TotalWeight(ms);
    var r := seq(|ms|, i requires 0 <= i < |ms| => AllocateOne(ms[i], t, balance));
    assert forall i :: 0 <= i < |ms| ==> 0.0 <= r[i].allocationPercent <= 100.0 by {
      forall i | 0 <= i < |ms| ensures 0.0 <= r[i].allocationPercent <= 100.0 {
        if ms[i].bill.status == Pending && t > 0.0 {
          TermWithinSum(PendingWeights(ms), i);
          FractionWithinOne(Weight(ms[i].daysUntilDue), t);
        }
      }
    }
    r
  }

  /** How a Pending bill's share is computed from its weight. */
  lemma AllocatedShare(ms: seq<BillMetric>, balance: real, i: nat)
    requires i < |ms| && ms[i].bill.status == Pending
    ensures TotalWeight(ms) > 0.0
    ensures Allocate(ms, balance)[i] == AllocateOne(ms[i], TotalWeight(ms), balance)
  {
  }

  // ---------------------------------------------------------------------
  // Sums over the Pending bills

  /** Each bill's percentage when it is Pending, 0 otherwise. */
  function PendingPercents(xs: seq<AllocatedBill>): (ps: seq<real>)
    ensures |ps| == |xs|
    ensures forall i :: 0 <= i < |xs| ==>
      ps[i] == if xs[i].bill.status == Pending then xs[i].allocationPercent else 0.0
  {
    seq(|xs|, i requires 0 <= i < |xs| =>
      if xs[i].bill.status == Pending then xs[i].allocationPercent else 0.0)
  }

  /** Each bill's allocated amount when it is Pending, 0 otherwise. */
  function PendingAmounts(xs: seq<AllocatedBill>): (ys: seq<real>)
    ensures |ys| == |xs|
    ensures forall i :: 0 <= i < |xs| ==>
      ys[i] == if xs[i].bill.status == Pending then xs[i].allocatedAmount else 0.0
  {
    seq(|xs|, i requires 0 <= i < |xs| =>
      if xs[i].bill.status == Pending then xs[i].allocatedAmount else 0.0)
  }

  /** The percentages of the Pending bills, added up. */
  function PercentTotal(xs: seq<AllocatedBill>): real
  {
    Sum(PendingPercents(xs))
  }

  /** The amounts allocated to the Pending bills, added up. */
  function AllocatedTotal(xs: seq<AllocatedBill>): real
  {
    Sum(PendingAmounts(xs))
  }

  /** With a positive total weight `t`, every Pending percentage is 100 times
      the bill's share of the weight, so they add up to 100 times the weight
      covered over `t`. */
  lemma PercentsScaleWeights(ms: seq<BillMetric>, balance: real, t: real)
    requires t > 0.0 && t == TotalWeight(ms)
    ensures PercentTotal(Allocate(ms, balance)) == (Sum(PendingWeights(ms)) / t) * 100.0
  {
    var ws, ps := PendingWeights(ms), PendingPercents(Allocate(ms, balance));
    forall i | 0 <= i < |ms| ensures ps[i] == (ws[i] / t) * 100.0 {
      if ms[i].bill.status != Pending {
        ZeroShare(t);
      }
    }
    SumScaled(ws, ps, t);
  }

  /** When some bill is Pending, the Pending percentages sum to exactly 100. */
  lemma PercentagesSumTo100(ms: seq<BillMetric>, balance: real)
    requires HasPending(ms)
    ensures PercentTotal(Allocate(ms, balance)) == 100.0
  {
    var t := TotalWeight(ms);
    PercentsScaleWeights(ms, balance, t);
    WholeShare(t);
  }

  /** When some bill is Pending, the Pending amounts sum to exactly the balance. */
  lemma AmountsSumToBalance(ms: seq<BillMetric>, balance: real)
    requires HasPending(ms)
    ensures AllocatedTotal(Allocate(ms, balance)) == balance
  {
    var xs := Allocate(ms, balance);
    var ps, ys := PendingPercents(xs), PendingAmounts(xs);
    PercentagesSumTo100(ms, balance);
    AmountsAreShares(ms, balance);
    SumShares(ps, ys, balance);
    HundredShare(balance);
  }

  /** Every bill's contribution to the allocated total is the balance times
      its contribution to the percentage total, over 100. */
  lemma AmountsAreShares(ms: seq<BillMetric>, balance: real)
    ensures var xs := Allocate(ms, balance);
      forall i :: 0 <= i < |xs| ==>
        PendingAmounts(xs)[i] == (balance * PendingPercents(xs)[i]) / 100.0
  {
    var xs := Allocate(ms, balance);
    AllocationShares(ms, balance);
    forall i | 0 <= i < |xs| ensures PendingAmounts(xs)[i] == (balance * PendingPercents(xs)[i]) / 100.0 {
      if xs[i].bill.status != Pending {
        ZeroAmount(balance);
      }
    }
  }

  /** Every bill's amount is its percentage of the balance. */
  lemma AllocationShares(ms: seq<BillMetric>, balance: real)
    ensures forall i :: 0 <= i < |ms| ==>
      IsShare(Allocate(ms, balance)[i].allocatedAmount, balance, Allocate(ms, balance)[i].allocationPercent)
  {
    var xs := Allocate(ms, balance);
    var t := TotalWeight(ms);
    forall i | 0 <= i < |ms| ensures IsShare(xs[i].allocatedAmount, balance, xs[i].allocationPercent) {
      assert xs[i] == AllocateOne(ms[i], t, balance);
      OneIsShare(ms[i], t, balance);
    }
  }

  lemma OneIsShare(m: BillMetric, t: real, balance: real)
    ensures IsShare(AllocateOne(m, t, balance).allocatedAmount, balance, AllocateOne(m, t, balance).allocationPercent)
  {
    if m.bill.status != Pending || t <= 0.0 {
      ZeroAmount(balance);
    }
  }

  /** When no bill is Pending, nothing is allocated. */
  lemma NothingPendingNothingAllocated(ms: seq<BillMetric>, balance: real)
    requires !HasPending(ms)
    ensures AllocatedTotal(Allocate(ms, balance)) == 0.0
    ensures PercentTotal(Allocate(ms, balance)) == 0.0
  {
    var xs := Allocate(ms, balance);
    SumOfZeros(PendingAmounts(xs));
    SumOfZeros(PendingPercents(xs));
  }

  /** Of two Pending bills given the same total weight, the one due no later
      never gets a smaller percentage, nor a smaller amount when the balance
      is not negative. */
  lemma OneMonotone(mi: BillMetric, mj: BillMetric, t: real, balance: real)
    requires t > 0.0
    requires mi.bill.status == Pending && mj.bill.status == Pending
    requires mi.daysUntilDue <= mj.daysUntilDue
    ensures AllocateOne(mi, t, balance).allocationPercent >= AllocateOne(mj, t, balance).allocationPercent
    ensures balance >= 0.0 ==>
      AllocateOne(mi, t, balance).allocatedAmount >= AllocateOne(mj, t, balance).allocatedAmount
  {
    var wi, wj := Weight(mi.daysUntilDue), Weight(mj.daysUntilDue);
    WeightAntitone(mi.daysUntilDue, mj.daysUntilDue);
    PercentMonotone(wi, wj, t);
    if balance >= 0.0 {
      ShareMonotone(balance, (wi / t) * 100.0, (wj / t) * 100.0);
    }
  }

  /** Of two Pending bills, the one due no later never gets a smaller
      percentage, nor a smaller amount when the balance is not negative. */
  lemma AllocationMonotone(ms: seq<BillMetric>, balance: real, i: nat, j: nat)
    requires i < |ms| && j < |ms|
    requires ms[i].bill.status == Pending && ms[j].bill.status == Pending
    requires ms[i].daysUntilDue <= ms[j].daysUntilDue
    ensures Allocate(ms, balance)[i].allocationPercent >= Allocate(ms, balance)[j].allocationPercent
    ensures balance >= 0.0 ==>
      Allocate(ms, balance)[i].allocatedAmount >= Allocate(ms, balance)[j].allocatedAmount
  {
    AllocatedShare(ms, balance, i);
    AllocatedShare(ms, balance, j);
    OneMonotone(ms[i], ms[j], TotalWeight(ms), balance);
  }

  /** Every Pending bill's share is in proportion to its weight: for two
      Pending bills the percentages stand in the ratio of their weights. With
      the percentages summing to 100 this fixes every share. */
  lemma AllocationProportional(ms: seq<BillMetric>, balance: real, i: nat, j: nat)
    requires i < |ms| && j < |ms|
    requires ms[i].bill.status == Pending && ms[j].bill.status == Pending
    ensures InRatio(Allocate(ms, balance)[i].allocationPercent, Allocate(ms, balance)[j].allocationPercent,
      Weight(ms[i].daysUntilDue), Weight(ms[j].daysUntilDue))
  {
    PercentOfWeight(ms, balance, i);
    PercentOfWeight(ms, balance, j);
    CrossRatio(Allocate(ms, balance)[i].allocationPercent, Allocate(ms, balance)[j].allocationPercent,
      Weight(ms[i].daysUntilDue), Weight(ms[j].daysUntilDue), TotalWeight(ms));
  }

  /** Every Pending bill's amount is in proportion to its weight: for two
      Pending bills the amounts stand in the ratio of their weights. */
  lemma AmountsProportional(ms: seq<BillMetric>, balance: real, i: nat, j: nat)
    requires i < |ms| && j < |ms|
    requires ms[i].bill.status == Pending && ms[j].bill.status == Pending
    ensures InRatio(Allocate(ms, balance)[i].allocatedAmount, Allocate(ms, balance)[j].allocatedAmount,
      Weight(ms[i].daysUntilDue), Weight(ms[j].daysUntilDue))
  {
    var xs := Allocate(ms, balance);
    AllocationProportional(ms, balance, i, j);
    AllocationShares(ms, balance);
    ShareRatio(xs[i].allocationPercent, xs[j].allocationPercent, Weight(ms[i].daysUntilDue),
      Weight(ms[j].daysUntilDue), xs[i].allocatedAmount, xs[j].allocatedAmount, balance);
  }

  lemma PercentOfWeight(ms: seq<BillMetric>, balance: real, i: nat)
    requires i < |ms| && ms[i].bill.status == Pending
    ensures TotalWeight(ms) != 0.0
    ensures Allocate(ms, balance)[i].allocationPercent == (Weight(ms[i].daysUntilDue) / TotalWeight(ms)) * 100.0
  {
    AllocatedShare(ms, balance, i);
  }

  // ---------------------------------------------------------------------
  // Real arithmetic, one step at a time

  /** `amount` is `percent` per cent of `balance`. */
  predicate IsShare(amount: real, balance: real, percent: real)
  {
    amount == (balance * percent) / 100.0
  }

  /** `p` is to `q` as `a` is to `b`, written without division. */
  predicate InRatio(p: real, q: real, a: real, b: real)
  {
    p * b == q * a
  }

  /** Taking the same share of two quantities keeps their ratio. */
  lemma ShareRatio(p: real, q: real, a: real, b: real, x: real, y: real, balance: real)
    requires InRatio(p, q, a, b) && IsShare(x, balance, p) && IsShare(y, balance, q)
    ensures InRatio(x, y, a, b)
  {
    var c := balance / 100.0;
    assert x == c * p && y == c * q;
    assert x * b == c * (p * b);
    assert y * a == c * (q * a);
  }

  lemma CrossRatio(p: real, q: real, a: real, b: real, t: real)
    requires t != 0.0 && p == (a / t) * 100.0 && q == (b / t) * 100.0
    ensures InRatio(p, q, a, b)
  {
  }

  lemma ReciprocalAntitone(a: real, b: real)
    requires 0.0 < a <= b
    ensures 1.0 / a >= 1.0 / b
    ensures a < b ==> 1.0 / a > 1.0 / b
  {
    var p := a * b;
    MulStrict(0.0, b, a);
    assert p > 0.0;
    assert 1.0 / a - 1.0 / b == (b - a) / p;
  }

  lemma MulMonotone(x: real, y: real, c: real)
    requires x <= y && c >= 0.0
    ensures c * x <= c * y
  {
  }

  lemma MulStrict(x: real, y: real, c: real)
    requires x < y && c > 0.0
    ensures c * x < c * y
  {
  }

  lemma FractionWithinOne(part: real, whole: real)
    requires 0.0 <= part <= whole && whole > 0.0
    ensures 0.0 <= (part / whole) * 100.0 <= 100.0
  {
    assert part / whole <= 1.0 by {
      assert (part / whole) * whole == part;
    }
  }

  lemma ZeroShare(t: real)
    requires t != 0.0
    ensures (0.0 / t) * 100.0 == 0.0
  {
  }

  lemma WholeShare(t: real)
    requires t != 0.0
    ensures (t / t) * 100.0 == 100.0
  {
  }

  lemma HundredShare(balance: real)
    ensures (balance * 100.0) / 100.0 == balance
  {
  }

  lemma ZeroAmount(balance: real)
    ensures (balance * 0.0) / 100.0 == 0.0
  {
  }

  lemma PercentMonotone(x: real, y: real, whole: real)
    requires whole > 0.0 && x >= y
    ensures (x / whole) * 100.0 >= (y / whole) * 100.0
  {
    assert (x / whole) - (y / whole) == (x - y) / whole;
  }

  lemma ShareMonotone(balance: real, p: real, q: real)
    requires balance >= 0.0 && p >= q
    ensures (balance * p) / 100.0 >= (balance * q) / 100.0
  {
    MulMonotone(q, p, balance);
  }
}
