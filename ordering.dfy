/** The order in which the bills are listed (by due date, a stable sort) and
    the "Upcoming Bills" panel (the first five Pending bills in that order). */
module Ordering {
  import opened Bills
  import opened Allocation

  predicate SortedByDue(s: seq<AllocatedBill>)
  {
    forall i, j :: 0 <= i < j < |s| ==> s[i].bill.dueDate <= s[j].bill.dueDate
  }

  /** `x` placed in front of the first bill due on or after it. */
  function InsertByDue(x: AllocatedBill, s: seq<AllocatedBill>): seq<AllocatedBill>
  {
    if s == [] || x.bill.dueDate <= s[0].bill.dueDate then [x] + s
    else [s[0]] + InsertByDue(x, s[1..])
  }

  /** Inserting adds `x` and loses nothing. */
  lemma {:induction false} InsertPermutes(x: AllocatedBill, s: seq<AllocatedBill>)
    ensures multiset(InsertByDue(x, s)) == multiset(s) + multiset{x}
  {
    if s != [] && x.bill.dueDate > s[0].bill.dueDate {
      InsertPermutes(x, s[1..]);
      assert s == [s[0]] + s[1..];
    }
  }

  /** The bills ordered by due date; bills due on the same day keep their
      relative order, as the stable `Array.prototype.sort` keeps them. */
  function SortByDue(s: seq<AllocatedBill>): seq<AllocatedBill>
  {
    if s == [] then []
    else InsertByDue(s[0], SortByDue(s[1..]))
  }

  /** Sorting is a permutation: every bill comes out as often as it went in. */
  lemma {:induction false} SortPermutes(s: seq<AllocatedBill>)
    ensures multiset(SortByDue(s)) == multiset(s)
  {
    if s != [] {
      SortPermutes(s[1..]);
      InsertPermutes(s[0], SortByDue(s[1..]));
      assert s == [s[0]] + s[1..];
    }
  }

  /** Inserting into a sorted list keeps it sorted. */
  lemma {:induction false} InsertSorted(x: AllocatedBill, s: seq<AllocatedBill>)
    requires SortedByDue(s)
    ensures SortedByDue(InsertByDue(x, s))
  {
    if s != [] && x.bill.dueDate > s[0].bill.dueDate {
      var rest := InsertByDue(x, s[1..]);
      InsertSorted(x, s[1..]);
      InsertPermutes(x, s[1..]);
      forall k | 0 <= k < |rest| ensures s[0].bill.dueDate <= rest[k].bill.dueDate {
        assert rest[k] in multiset(rest);
        if rest[k] != x {
          assert rest[k] in multiset(s[1..]);
          var m :| 0 <= m < |s[1..]| && s[1..][m] == rest[k];
          assert s[m + 1] == rest[k];
        }
      }
    }
  }

  /** The bill list comes out sorted by due date. */
  lemma {:induction false} SortSorted(s: seq<AllocatedBill>)
    ensures SortedByDue(SortByDue(s))
  {
    if s != [] {
      SortSorted(s[1..]);
      InsertSorted(s[0], SortByDue(s[1..]));
    }
  }

  // ---------------------------------------------------------------------
  // Stability

  /** The bills due on `day`, in list order. */
  function DueOn(s: seq<AllocatedBill>, day: int): seq<AllocatedBill>
  {
    if s == [] then []
    else (if s[0].bill.dueDate == day then [s[0]] else []) + DueOn(s[1..], day)
  }

  lemma {:induction false} DueOnCons(x: AllocatedBill, s: seq<AllocatedBill>, day: int)
    ensures DueOn([x] + s, day) == (if x.bill.dueDate == day then [x] else []) + DueOn(s, day)
  {
    assert ([x] + s)[0] == x;
    assert ([x] + s)[1..] == s;
  }

  /** Inserting `x` puts it in front of every bill due the same day. */
  lemma {:induction false} InsertStable(x: AllocatedBill, s: seq<AllocatedBill>, day: int)
    ensures DueOn(InsertByDue(x, s), day) == DueOn([x] + s, day)
  {
    if s != [] && x.bill.dueDate > s[0].bill.dueDate {
      var head := if s[0].bill.dueDate == day then [s[0]] else [];
      var mid := if x.bill.dueDate == day then [x] else [];
      var tail := DueOn(s[1..], day);
      InsertStable(x, s[1..], day);
      DueOnCons(s[0], InsertByDue(x, s[1..]), day);
      DueOnCons(x, s[1..], day);
      // head + (mid + tail), and one of head and mid is empty
      assert DueOn(InsertByDue(x, s), day) == head + (mid + tail);
      DueOnCons(x, s, day);
      assert s == [s[0]] + s[1..];
      DueOnCons(s[0], s[1..], day);
      assert DueOn([x] + s, day) == mid + (head + tail);
      assert head == [] || mid == [];
    }
  }

  /** The sort is stable: the bills due on any one day appear in the order
      they had before sorting. */
  lemma {:induction false} SortStable(s: seq<AllocatedBill>, day: int)
    ensures DueOn(SortByDue(s), day) == DueOn(s, day)
  {
    if s != [] {
      SortStable(s[1..], day);
      InsertStable(s[0], SortByDue(s[1..]), day);
      DueOnCons(s[0], SortByDue(s[1..]), day);
      assert s == [s[0]] + s[1..];
      DueOnCons(s[0], s[1..], day);
    }
  }

  // ---------------------------------------------------------------------
  // The "Upcoming Bills" panel

  /** How many bills the panel shows at most. */
  const UpcomingCount := 5

  /** The Pending bills, in list order. */
  function PendingOnly(s: seq<AllocatedBill>): (r: seq<AllocatedBill>)
    ensures forall x :: x in r ==> x in s && x.bill.status == Pending
  {
    if s == [] then []
    else (if s[0].bill.status == Pending then [s[0]] else []) + PendingOnly(s[1..])
  }

  /** Filtering keeps every Pending bill as often as it occurs and drops the rest. */
  lemma {:induction false} PendingOnlyCount(s: seq<AllocatedBill>, x: AllocatedBill)
    ensures multiset(PendingOnly(s))[x] == if x.bill.status == Pending then multiset(s)[x] else 0
  {
    if s != [] {
      PendingOnlyCount(s[1..], x);
      assert s == [s[0]] + s[1..];
    }
  }

  /** Filtering a permutation gives a permutation of the filtered list. */
  lemma PendingOnlyPermutation(s: seq<AllocatedBill>, t: seq<AllocatedBill>)
    requires multiset(s) == multiset(t)
    ensures multiset(PendingOnly(s)) == multiset(PendingOnly(t))
  {
    forall x ensures multiset(PendingOnly(s))[x] == multiset(PendingOnly(t))[x] {
      PendingOnlyCount(s, x);
      PendingOnlyCount(t, x);
    }
  }

  /** Filtering keeps order: the Pending bills of a concatenation are those
      of its front followed by those of its back. */
  lemma {:induction false} PendingOnlyAppend(s: seq<AllocatedBill>, t: seq<AllocatedBill>)
    ensures PendingOnly(s + t) == PendingOnly(s) + PendingOnly(t)
  {
    if s == [] {
      assert s + t == t;
    } else {
      assert (s + t)[0] == s[0];
      assert (s + t)[1..] == s[1..] + t;
      PendingOnlyAppend(s[1..], t);
    }
  }

  /** Filtering a sorted list keeps it sorted. */
  lemma {:induction false} PendingOnlySorted(s: seq<AllocatedBill>)
    requires SortedByDue(s)
    ensures SortedByDue(PendingOnly(s))
  {
    if s != [] {
      var rest := PendingOnly(s[1..]);
      PendingOnlySorted(s[1..]);
      forall k | 0 <= k < |rest| ensures s[0].bill.dueDate <= rest[k].bill.dueDate {
        assert rest[k] in rest;
        var m :| 0 <= m < |s[1..]| && s[1..][m] == rest[k];
        assert s[m + 1] == rest[k];
      }
    }
  }

  /** The panel: the first five Pending bills of an already sorted list. */
  function Upcoming(sorted: seq<AllocatedBill>): seq<AllocatedBill>
  {
    var p := PendingOnly(sorted);
    if |p| <= UpcomingCount then p else p[..UpcomingCount]
  }

  /** In a sorted list, a bill in the first `n` is due no later than a bill
      after them. */
  lemma PrefixEarliest(q: seq<AllocatedBill>, n: nat, x: AllocatedBill, y: AllocatedBill)
    requires SortedByDue(q) && n <= |q|
    requires x in q && x !in q[..n] && y in q[..n]
    ensures y.bill.dueDate <= x.bill.dueDate
  {
    var k :| 0 <= k < |q| && q[k] == x;
    var j :| 0 <= j < n && q[..n][j] == y;
    assert forall i :: 0 <= i < n ==> q[..n][i] == q[i];
    assert q[j] == y && n <= k;
  }

  /** The Pending bills of the sorted list are the Pending bills of the list,
      sorted. */
  lemma SortedPending(s: seq<AllocatedBill>)
    ensures multiset(PendingOnly(SortByDue(s))) == multiset(PendingOnly(s))
    ensures |PendingOnly(SortByDue(s))| == |PendingOnly(s)|
    ensures SortedByDue(PendingOnly(SortByDue(s)))
  {
    SortSorted(s);
    SortPermutes(s);
    PendingOnlySorted(SortByDue(s));
    PendingOnlyPermutation(SortByDue(s), s);
    assert |multiset(PendingOnly(SortByDue(s)))| == |multiset(PendingOnly(s))|;
  }

  /** The panel shows as many bills as there are Pending bills, up to five,
      all of them Pending bills of the list, none more often than it occurs. */
  lemma UpcomingContents(s: seq<AllocatedBill>)
    ensures |Upcoming(SortByDue(s))| ==
      (if |PendingOnly(s)| <= UpcomingCount then |PendingOnly(s)| else UpcomingCount)
    ensures forall x :: x in Upcoming(SortByDue(s)) ==> x in s && x.bill.status == Pending
    ensures multiset(Upcoming(SortByDue(s))) <= multiset(PendingOnly(s))
  {
    var sorted := SortByDue(s);
    var q := PendingOnly(sorted);
    SortedPending(s);
    SortPermutes(s);
    if |q| > UpcomingCount {
      assert q == q[..UpcomingCount] + q[UpcomingCount..];
    }
    forall x | x in Upcoming(sorted) ensures x in s && x.bill.status == Pending {
      assert x in q;
      assert x in multiset(sorted);
    }
  }

  /** The panel lists its bills in due-date order, and every Pending bill it
      leaves out is due no earlier than every bill it shows. */
  lemma UpcomingEarliest(s: seq<AllocatedBill>)
    ensures SortedByDue(Upcoming(SortByDue(s)))
    ensures forall x, y :: x in PendingOnly(s) && y in Upcoming(SortByDue(s)) && x !in Upcoming(SortByDue(s)) ==>
      y.bill.dueDate <= x.bill.dueDate
  {
    var q := PendingOnly(SortByDue(s));
    var r := Upcoming(SortByDue(s));
    SortedPending(s);
    var n := if |q| <= UpcomingCount then |q| else UpcomingCount;
    assert r == q[..n];
    forall x, y | x in PendingOnly(s) && y in r && x !in r
      ensures y.bill.dueDate <= x.bill.dueDate
    {
      assert x in multiset(q);
      PrefixEarliest(q, n, x, y);
    }
  }
}
