/** The component's state (the bill list and the available balance) and the
    handlers that replace it. */
module Budget {
  import opened Bills
  import opened Allocation
  import opened Dashboard
  import opened Ordering
  import opened Sums

  class BiWeeklyBudget {
    /** The bill list, in the order the handlers leave it. */
    var bills: seq<Bill>
    /** The balance to be spread over the Pending bills. */
    var availableBalance: real

    /** The state as loaded when the component starts. */
    constructor(saved: seq<Bill>, balance: real)
      ensures bills == saved && availableBalance == balance
    {
      bills := saved;
      availableBalance := balance;
    }

    /** "Add Bill": refused when 20 or more bills are held; otherwise one new
        Pending bill of amount 0, due today, is appended with the fresh id.
        The result says whether the bill was added (the refusal is where the
        component raises its alert). */
    method AddBill(today: int, freshId: int) returns (added: bool)
      modifies this
      ensures added <==> |old(bills)| < MaxBills
      ensures added ==> bills == old(bills) + [NewBill(freshId, today)]
      ensures !added ==> bills == old(bills)
      ensures |old(bills)| <= MaxBills ==> |bills| <= MaxBills
      ensures availableBalance == old(availableBalance)
    {
      if |bills| >= MaxBills {
        return false;
      }
      bills := bills + [NewBill(freshId, today)];
      added := true;
    }

    /** Removes every bill with the given id; the others keep their order. */
    method DeleteBill(id: int)
      modifies this
      ensures bills == WithoutId(old(bills), id)
      ensures forall b :: b in bills <==> b in old(bills) && b.id != id
      ensures availableBalance == old(availableBalance)
    {
      bills := WithoutId(bills, id);
    }

    /** Sets one field of every bill with the given id. */
    method UpdateBill(id: int, e: Edit)
      modifies this
      ensures bills == WithEdit(old(bills), id, e)
      ensures |bills| == |old(bills)|
      ensures forall i :: 0 <= i < |bills| && old(bills)[i].id == id ==>
        AgreeExcept(old(bills)[i], bills[i], FieldOf(e)) && Shows(bills[i], e)
      ensures forall i :: 0 <= i < |bills| && old(bills)[i].id != id ==> bills[i] == old(bills)[i]
      ensures availableBalance == old(availableBalance)
    {
      bills := WithEdit(bills, id, e);
    }

    /** The balance input. */
    method SetAvailableBalance(balance: real)
      modifies this
      ensures availableBalance == balance && bills == old(bills)
    {
      availableBalance := balance;
    }

    /** The dashboard figures for the current state: with a Pending bill the
        whole balance is allocated, with none nothing is. */
    function DashboardFigures(today: int): (r: Stats)
      reads this
      ensures r == DashboardStats(bills, today, availableBalance)
      ensures r.totalBills == Sum(PendingBillAmounts(bills))
      ensures AnyPending(bills) ==> r.totalAllocated == availableBalance && r.remaining == 0.0
      ensures !AnyPending(bills) ==> r.totalAllocated == 0.0 && r.remaining == availableBalance
    {
      DashboardBalanced(bills, today, availableBalance);
      DashboardStats(bills, today, availableBalance)
    }

    /** The "Upcoming Bills" panel for the current state: the Pending bills
        of the sorted list, as many as there are up to five, in due-date
        order, none of them due later than a Pending bill left out. */
    function UpcomingBills(today: int): (r: seq<AllocatedBill>)
      reads this
      ensures r == Upcoming(SortByDue(BillsWithAllocation(bills, today, availableBalance)))
      ensures var p := PendingOnly(BillsWithAllocation(bills, today, availableBalance));
        |r| == (if |p| <= UpcomingCount then |p| else UpcomingCount)
      ensures forall x :: x in r ==> x.bill in bills && x.bill.status == Pending
      ensures multiset(r) <= multiset(PendingOnly(BillsWithAllocation(bills, today, availableBalance)))
      ensures SortedByDue(r)
      ensures forall x, y ::
        x in PendingOnly(BillsWithAllocation(bills, today, availableBalance)) && y in r && x !in r ==>
        y.bill.dueDate <= x.bill.dueDate
    {
      var all := BillsWithAllocation(bills, today, availableBalance);
      UpcomingContents(all);
      UpcomingEarliest(all);
      assert forall x :: x in all ==> x.bill in bills by {
        forall x | x in all ensures x.bill in bills {
          var i :| 0 <= i < |all| && all[i] == x;
          assert bills[i] == x.bill;
        }
      }
      Upcoming(SortByDue(all))
    }
  }
}
