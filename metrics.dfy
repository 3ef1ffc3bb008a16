/** Days until each bill is due, counted from today and clamped at zero. */
module Metrics {
  import opened Bills

  /** The whole number of days from `today` until `dueDate`, 0 for a bill that
      is due today or overdue: the least count of days after which the due
      date has been reached. */
  function DaysUntilDue(dueDate: int, today: int): (d: nat)
    ensures today + d >= dueDate
    ensures d == 0 || today + d - 1 < dueDate
  {
    if dueDate <= today then 0 else dueDate - today
  }

  /** A bill together with its days until due (`{ ...bill, daysUntilDue }`). */
  datatype BillMetric = BillMetric(bill: Bill, daysUntilDue: nat)

  /** Every bill, in order, with its days until due. */
  function CalculateBillMetrics(bills: seq<Bill>, today: int): (r: seq<BillMetric>)
    ensures |r| == |bills|
    ensures forall i :: 0 <= i < |bills| ==>
      r[i].bill == bills[i] && r[i].daysUntilDue == DaysUntilDue(bills[i].dueDate, today)
    ensures BillsOf(r) == bills
    ensures forall i :: 0 <= i < |bills| ==>
      today + r[i].daysUntilDue >= bills[i].dueDate &&
      (r[i].daysUntilDue == 0 || today + r[i].daysUntilDue - 1 < bills[i].dueDate)
  {
    var r := seq(|bills|, i requires 0 <= i < |bills| => BillMetric(bills[i], DaysUntilDue(bills[i].dueDate, today)));
    assert BillsOf(r) == bills;
    r
  }

  /** The bills a list of metrics was computed from. */
  function BillsOf(ms: seq<BillMetric>): (bs: seq<Bill>)
    ensures |bs| == |ms| && forall i :: 0 <= i < |ms| ==> bs[i] == ms[i].bill
  {
    seq(|ms|, i requires 0 <= i < |ms| => ms[i].bill)
  }
}
