/** Bills as the budget component stores them, and the pure list edits its
    handlers apply (filter by id, map one field over the matching ids). */
module Bills {

  /** A bill's status. The component compares the stored status string with
      'Pending'; every other string is treated like Paid. */
  datatype Status = Pending | Paid

  /** The status a stored status string stands for. */
  function StatusOf(text: string): Status
  {
    if text == "Pending" then Pending else Paid
  }

  /** One bill. Dates are whole day numbers; money is an exact real. */
  datatype Bill = Bill(
    id: int,
    dueDate: int,
    name: string,
    category: string,
    amount: real,
    status: Status)

  /** The most bills the component lets the user hold. */
  const MaxBills := 20

  /** The bill the "Add Bill" button appends. */
  function NewBill(id: int, today: int): Bill
  {
    Bill(id, today, "New Bill", "Other", 0.0, Pending)
  }

  /** Some bill is Pending. */
  predicate AnyPending(bills: seq<Bill>)
  {
    exists i :: 0 <= i < |bills| && bills[i].status == Pending
  }

  // ---------------------------------------------------------------------
  // Deleting by id

  /** The bills whose id differs from `id`, in their original order. */
  function WithoutId(s: seq<Bill>, id: int): (r: seq<Bill>)
    ensures |r| <= |s|
    ensures forall b :: b in r ==> b in s && b.id != id
    ensures forall b :: b in s && b.id != id ==> b in r
  {
    if s == [] then []
    else (if s[0].id == id then [] else [s[0]]) + WithoutId(s[1..], id)
  }

  /** Deleting distributes over concatenation: the survivors of a list are the
      survivors of its front followed by those of its back, so the relative
      order of the kept bills never changes. */
  lemma {:induction false} WithoutIdAppend(s: seq<Bill>, t: seq<Bill>, id: int)
    ensures WithoutId(s + t, id) == WithoutId(s, id) + WithoutId(t, id)
  {
    if s == [] {
      assert s + t == t;
    } else {
      assert (s + t)[0] == s[0];
      assert (s + t)[1..] == s[1..] + t;
      WithoutIdAppend(s[1..], t, id);
    }
  }

  /** Deleting an id that no bill carries leaves the list as it is. */
  lemma {:induction false} WithoutAbsentId(s: seq<Bill>, id: int)
    requires forall b :: b in s ==> b.id != id
    ensures WithoutId(s, id) == s
  {
    if s != [] {
      assert s[0] in s;
      forall b | b in s[1..] ensures b.id != id {
        assert b in s;
      }
      WithoutAbsentId(s[1..], id);
    }
  }

  // ---------------------------------------------------------------------
  // Editing one field

  /** The fields the bill table lets the user edit. */
  datatype Field = DueDateField | NameField | CategoryField | AmountField | StatusField

  /** One edit: the field and its new value. A status arrives as the string
      the select box produced. */
  datatype Edit =
    | SetDueDate(day: int)
    | SetName(text: string)
    | SetCategory(text: string)
    | SetAmount(value: real)
    | SetStatus(statusText: string)

  function FieldOf(e: Edit): Field
  {
    match e
    case SetDueDate(_) => DueDateField
    case SetName(_) => NameField
    case SetCategory(_) => CategoryField
    case SetAmount(_) => AmountField
    case SetStatus(_) => StatusField
  }

  /** `a` and `b` agree on the id and on every field other than `f`. */
  predicate AgreeExcept(a: Bill, b: Bill, f: Field)
  {
    a.id == b.id &&
    (f != DueDateField ==> a.dueDate == b.dueDate) &&
    (f != NameField ==> a.name == b.name) &&
    (f != CategoryField ==> a.category == b.category) &&
    (f != AmountField ==> a.amount == b.amount) &&
    (f != StatusField ==> a.status == b.status)
  }

  /** The field `e` targets holds the value `e` carries. */
  predicate Shows(b: Bill, e: Edit)
  {
    match e
    case SetDueDate(d) => b.dueDate == d
    case SetName(t) => b.name == t
    case SetCategory(t) => b.category == t
    case SetAmount(v) => b.amount == v
    case SetStatus(l) => b.status == StatusOf(l)
  }

  /** The bill with one field replaced (`{ ...b, [field]: value }`). */
  function ApplyEdit(b: Bill, e: Edit): (r: Bill)
    ensures AgreeExcept(b, r, FieldOf(e))
    ensures Shows(r, e)
  {
    match e
    case SetDueDate(d) => b.(dueDate := d)
    case SetName(t) => b.(name := t)
    case SetCategory(t) => b.(category := t)
    case SetAmount(v) => b.(amount := v)
    case SetStatus(l) => b.(status := StatusOf(l))
  }

  /** The edit applied to every bill whose id is `id`, the rest untouched. */
  function WithEdit(s: seq<Bill>, id: int, e: Edit): (r: seq<Bill>)
    ensures |r| == |s|
    ensures forall i :: 0 <= i < |s| ==> AgreeExcept(s[i], r[i], FieldOf(e))
    ensures forall i :: 0 <= i < |s| && s[i].id == id ==> Shows(r[i], e)
    ensures forall i :: 0 <= i < |s| && s[i].id != id ==> r[i] == s[i]
  {
    if s == [] then []
    else [if s[0].id == id then ApplyEdit(s[0], e) else s[0]] + WithEdit(s[1..], id, e)
  }
}
