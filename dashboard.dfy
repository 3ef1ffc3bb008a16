/** The dashboard's totals, over the whole pipeline from the bill list to the
    allocated bills. */
module Dashboard {
  import opened Bills
  import opened Metrics
  import opened Allocation
  import opened Sums

  /** With a Pending bill, the percentages of the pipeline's result add up
      to 100 and its amounts to the balance. */
  lemma PipelineTotals(bills: seq<Bill>, today: int, balance: real)
    requires AnyPending(bills)
    ensures PercentTotal(Allocate(CalculateBillMetrics(bills, today), balance)) == 100.0
    ensures AllocatedTotal(Allocate(CalculateBillMetrics(bills, today), balance)) == balance
  {
    PercentagesSumTo100(CalculateBillMetrics(bills, today), balance);
    AmountsSumToBalance(CalculateBillMetrics(bills, today), balance);
  }

  /** Two Pending bills of the pipeline's result have percentages in the
      ratio of their weights. */
  lemma PipelineProportional(bills: seq<Bill>, today: int, balance: real)
    ensures var r := Allocate(CalculateBillMetrics(bills, today), balance);
      forall i, j :: 0 <= i < |bills| && 0 <= j < |bills| && bills[i].status == Pending && bills[j].status == Pending ==>
        InRatio(r[i].allocationPercent, r[j].allocationPercent, Weight(r[i].daysUntilDue), Weight(r[j].daysUntilDue))
  {
    var ms := CalculateBillMetrics(bills, today);
    var r := Allocate(ms, balance);
    forall i, j | 0 <= i < |bills| && 0 <= j < |bills| && bills[i].status == Pending && bills[j].status == Pending
      ensures InRatio(r[i].allocationPercent, r[j].allocationPercent, Weight(r[i].daysUntilDue), Weight(r[j].daysUntilDue))
    {
      AllocationProportional(ms, balance, i, j);
    }
  }

  /** Every bill of the pipeline's result gets its percentage of the balance. */
  lemma PipelineShares(bills: seq<Bill>, today: int, balance: real)
    ensures var r := Allocate(CalculateBillMetrics(bills, today), balance);
      forall i :: 0 <= i < |bills| ==> IsShare(r[i].allocatedAmount, balance, r[i].allocationPercent)
  {
    AllocationShares(CalculateBillMetrics(bills, today), balance);
  }

  /** The bills with their days until due and their shares of the balance.
      Every bill is kept, in order, with its days until due. A bill that is not
      Pending, or any bill when none is, gets nothing; every percentage lies
      in [0, 100] and every amount is that percentage of the balance. With a Pending bill the percentages add up to 100 and the
      amounts to the balance, and two Pending bills' percentages stand in the
      ratio of their weights. */
  function BillsWithAllocation(bills: seq<Bill>, today: int, balance: real): (r: seq<AllocatedBill>)
    ensures |r| == |bills|
    ensures forall i :: 0 <= i < |bills| ==>
      r[i].bill == bills[i] && r[i].daysUntilDue == DaysUntilDue(bills[i].dueDate, today)
    ensures forall i :: 0 <= i < |bills| && (bills[i].status != Pending || !AnyPending(bills)) ==>
      r[i].allocationPercent == 0.0 && r[i].allocatedAmount == 0.0
    ensures forall i :: 0 <= i < |bills| ==> 0.0 <= r[i].allocationPercent <= 100.0
    ensures forall i :: 0 <= i < |bills| ==> IsShare(r[i].allocatedAmount, balance, r[i].allocationPercent)
    ensures AnyPending(bills) ==> PercentTotal(r) == 100.0 && AllocatedTotal(r) == balance
    ensures forall i, j :: 0 <= i < |bills| && 0 <= j < |bills| && bills[i].status == Pending && bills[j].status == Pending ==>
      InRatio(r[i].allocationPercent, r[j].allocationPercent, Weight(r[i].daysUntilDue), Weight(r[j].daysUntilDue))
  {
    PipelineProportional(bills, today, balance);
    PipelineShares(bills, today, balance);
    if AnyPending(bills) then
      PipelineTotals(bills, today, balance);
      Allocate(CalculateBillMetrics(bills, today), balance)
    else
      Allocate(CalculateBillMetrics(bills, today), balance)
  }

  /** The three figures on the dashboard. */
  datatype Stats = Stats(totalBills: real, totalAllocated: real, remaining: real)

  /** Each bill's amount when it is Pending, 0 otherwise. */
  function PendingBillAmounts(bills: seq<Bill>): (ys: seq<real>)
    ensures |ys| == |bills|
    ensures forall i :: 0 <= i < |bills| ==>
      ys[i] == if bills[i].status == Pending then bills[i].amount else 0.0
  {
    seq(|bills|, i requires 0 <= i < |bills| =>
      if bills[i].status == Pending then bills[i].amount else 0.0)
  }

  /** The amount still owed on the Pending bills, the amount allocated to
      them, and what is left of the balance. */
  function DashboardStats(bills: seq<Bill>, today: int, balance: real): Stats
  {
    var totalAllocated := AllocatedTotal(BillsWithAllocation(bills, today, balance));
    Stats(Sum(PendingBillAmounts(bills)), totalAllocated, balance - totalAllocated)
  }

  /** With a Pending bill the whole balance is allocated and nothing remains;
      with none, nothing is allocated and the whole balance remains. */
  lemma DashboardBalanced(bills: seq<Bill>, today: int, balance: real)
    ensures AnyPending(bills) ==>
      DashboardStats(bills, today, balance).totalAllocated == balance &&
      DashboardStats(bills, today, balance).remaining == 0.0
    ensures !AnyPending(bills) ==>
      DashboardStats(bills, today, balance).totalAllocated == 0.0 &&
      DashboardStats(bills, today, balance).remaining == balance
  {
    var ms := CalculateBillMetrics(bills, today);
    if !AnyPending(bills) {
      NothingPendingNothingAllocated(ms, balance);
    }
  }

  /** The amount owed on the Pending bills is never negative when no bill has
      a negative amount. */
  lemma TotalBillsNonNegative(bills: seq<Bill>, today: int, balance: real)
    requires forall i :: 0 <= i < |bills| ==> bills[i].amount >= 0.0
    ensures DashboardStats(bills, today, balance).totalBills >= 0.0
  {
    SumNonNegative(PendingBillAmounts(bills));
  }
}
