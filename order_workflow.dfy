/** The diet-order lifecycle pending -> approved -> in-cafeteria -> completed, and the
    gate that decides which action buttons an order's row offers. */
module OrderWorkflow {
  import opened Collections
  import Text

  datatype Status = Pending | Approved | InCafeteria | Completed

  /** The string stored in an order's `status` field. */
  function StatusName(s: Status): string
  {
    match s
    case Pending => "pending"
    case Approved => "approved"
    case InCafeteria => "in-cafeteria"
    case Completed => "completed"
  }

  /** Position in the linear lifecycle. */
  function Rank(s: Status): (r: nat)
    ensures r <= 3
  {
    match s
    case Pending => 0
    case Approved => 1
    case InCafeteria => 2
    case Completed => 3
  }

  /** The buttons of an order's row. */
  datatype Action = Customize | Approve | SendToCafeteria | Complete | Edit | Delete

  /** The buttons offered for an order in status `s`, in the order they are rendered. */
  function ActionsFor(s: Status): (r: seq<Action>)
    ensures |r| >= 2 && r[|r| - 2] == Edit && r[|r| - 1] == Delete
    ensures Customize in r <==> s == Pending
    ensures Approve in r <==> s == Pending
    ensures SendToCafeteria in r <==> s == Approved
    ensures Complete in r <==> s == InCafeteria
  {
    (if s == Pending then [Customize, Approve] else [])
    + (if s == Approved then [SendToCafeteria] else [])
    + (if s == InCafeteria then [Complete] else [])
    + [Edit, Delete]
  }

  /** The status the handlers behind a button write, whatever the order's current status
      (Customize writes it when its dialog is submitted); Edit and Delete write none. */
  function StatusWritten(a: Action): (r: Option<Status>)
  {
    match a
    case Customize => Some(Approved)
    case Approve => Some(Approved)
    case SendToCafeteria => Some(InCafeteria)
    case Complete => Some(Completed)
    case Edit => None
    case Delete => None
  }

  /** Every status-writing button the gate offers moves the order exactly one step forward. */
  lemma GatedStepAdvances(s: Status, a: Action)
    requires a in ActionsFor(s)
    ensures StatusWritten(a).Some? ==> Rank(StatusWritten(a).value) == Rank(s) + 1
    ensures StatusWritten(a).None? <==> a == Edit || a == Delete
  {
  }

  /** From `completed` only Edit and Delete are offered: the status can no longer change. */
  lemma CompletedIsFinal(a: Action)
    requires a in ActionsFor(Completed)
    ensures StatusWritten(a).None?
  {
  }

  /** Every status before `completed` offers a way forward. */
  lemma NonFinalCanAdvance(s: Status)
    requires s != Completed
    ensures exists a :: a in ActionsFor(s) && StatusWritten(a).Some?
  {
    var a := match s case Pending => Approve case Approved => SendToCafeteria case _ => Complete;
    assert a in ActionsFor(s);
  }

  /** The status filter: 'All' passes every order; otherwise the option and the stored
      status are compared after lower-casing both. */
  predicate StatusFilterPasses(filter: string, s: Status): (r: bool)
    ensures filter == "All" ==> r
    ensures filter != "All" ==> (r <==> Text.Lower(filter) == StatusName(s))
  {
    LowerStatusName(s);
    filter == "All" || Text.Lower(StatusName(s)) == Text.Lower(filter)
  }

  /** The stored status names are already lower case. */
  lemma LowerStatusName(s: Status)
    ensures Text.Lower(StatusName(s)) == StatusName(s)
  {
  }

  /** The labels of the status filter's options other than 'All'. */
  function FilterOption(s: Status): string
  {
    match s
    case Pending => "Pending"
    case Approved => "Approved"
    case InCafeteria => "In-Cafeteria"
    case Completed => "Completed"
  }

  /** Each filter option selects exactly the orders in its status, although the option is
      capitalised and the stored status is not ('In-Cafeteria' selects 'in-cafeteria'). */
  lemma FilterOptionSelects(option: Status, s: Status)
    ensures StatusFilterPasses(FilterOption(option), s) <==> s == option
  {
    var l := Text.Lower(FilterOption(option));
    assert l == StatusName(option);
    if s != option {
      var n := Text.Lower(StatusName(s));
      assert n == StatusName(s);
    }
  }
}
