/** The diet-order page: the persisted `dietOrders` array, its filter, the doctor's
    create/edit form, the dietitian's customize dialog and the workflow handlers. */
module Orders {
  import opened Collections
  import opened Text
  import opened JsNumbers
  import opened OrderWorkflow

  datatype Order = Order(
    id: int,
    opCardNo: string,
    patientName: string,
    doctorName: string,
    sex: string,
    age: string,
    mobile: string,
    address: string,
    dietPlan: string,
    status: Status,
    requestDate: string,
    rate: Number,
    notes: string,
    customizations: string,
    createdDate: string)

  /** The form scratchpad shared by the order dialog and the customize dialog. */
  datatype OrderForm = OrderForm(
    patientName: string,
    opCardNo: string,
    doctorName: string,
    sex: string,
    age: string,
    mobile: string,
    address: string,
    dietPlan: string,
    notes: string,
    customizations: string)

  /** The filter inputs: search box, status select, and the two date inputs. */
  datatype OrderQuery = OrderQuery(search: string, status: string, from: string, to: string)

  /** The scratchpad after `resetForm`. */
  const BlankForm := OrderForm("", "", "", "Male", "", "", "", "", "", "")

  /** The rate every doctor-initiated order is created with. */
  const DoctorOrderRate := 300

  // ---------------------------------------------------------------- filter

  /** The search box looks at patient name, OP/card number, doctor and diet plan. */
  predicate MatchesSearch(o: Order, term: string)
  {
    MatchesTerm(o.patientName, term) || MatchesTerm(o.opCardNo, term)
    || MatchesTerm(o.doctorName, term) || MatchesTerm(o.dietPlan, term)
  }

  predicate IsVisible(o: Order, q: OrderQuery)
  {
    MatchesSearch(o, q.search) && StatusFilterPasses(q.status, o.status)
    && InDateRange(o.createdDate, q.from, q.to)
  }

  function VisibleUnder(q: OrderQuery): Order -> bool
  {
    (o: Order) => IsVisible(o, q)
  }

  /** `filteredOrders`: the orders the table shows, in stored order. */
  function FilterOrders(orders: seq<Order>, q: OrderQuery): (r: seq<Order>)
    ensures IsSubsequence(r, orders)
    ensures forall o :: o in r <==> o in orders && IsVisible(o, q)
    ensures forall o :: o in orders ==>
      multiset(r)[o] == if IsVisible(o, q) then multiset(orders)[o] else 0
  {
    FilterIsSubsequence(orders, VisibleUnder(q));
    FilterMembershipAll(orders, VisibleUnder(q));
    FilterMultiplicity(orders, VisibleUnder(q));
    Filter(orders, VisibleUnder(q))
  }

  /** With an empty search term and the 'All' status, exactly the orders created inside the
      date range are shown. */
  lemma UnfilteredShowsRange(orders: seq<Order>, from: string, to: string, o: Order)
    ensures o in FilterOrders(orders, OrderQuery("", "All", from, to))
        <==> o in orders && InDateRange(o.createdDate, from, to)
  {
    EmptyIncluded(o.patientName);
  }

  /** A date range whose start is after its end shows nothing. */
  lemma {:induction false} ReversedRangeShowsNothing(orders: seq<Order>, q: OrderQuery)
    requires ParseIsoDate(q.from).Some? && ParseIsoDate(q.to).Some?
    requires !DayLe(ParseIsoDate(q.from).value, ParseIsoDate(q.to).value)
    ensures FilterOrders(orders, q) == []
  {
    forall i | 0 <= i < |orders| ensures !IsVisible(orders[i], q) {
      EmptyRange(orders[i].createdDate, q.from, q.to);
    }
    FilterDropsAll(orders, VisibleUnder(q));
  }

  // ------------------------------------------------------ per-record rewrites

  function HasId(id: int): Order -> bool
  {
    (o: Order) => o.id == id
  }

  function LacksId(id: int): Order -> bool
  {
    (o: Order) => o.id != id
  }

  /** `{ ...order, ...formData, id: editingOrder.id }`: every form field overwrites the
      order's; id, status, request date, rate and created date stay. */
  function WithForm(f: OrderForm): Order -> Order
  {
    (o: Order) =>
      o.(patientName := f.patientName, opCardNo := f.opCardNo, doctorName := f.doctorName,
         sex := f.sex, age := f.age, mobile := f.mobile, address := f.address,
         dietPlan := f.dietPlan, notes := f.notes, customizations := f.customizations)
  }

  function WithStatus(s: Status): Order -> Order
  {
    (o: Order) => o.(status := s)
  }

  /** `{ ...order, customizations: formData.customizations, status: 'approved' }` */
  function WithCustomizations(text: string): Order -> Order
  {
    (o: Order) => o.(customizations := text, status := Approved)
  }

  /** `handleEdit`: the scratchpad filled from an order (`customizations || ''` is the
      customizations string itself). */
  function FormOf(o: Order): (f: OrderForm)
    ensures WithForm(f)(o) == o
  {
    OrderForm(o.patientName, o.opCardNo, o.doctorName, o.sex, o.age, o.mobile, o.address,
              o.dietPlan, o.notes, o.customizations)
  }

  /** The order `handleSubmit` creates when no order is being edited. */
  function NewOrder(id: int, f: OrderForm, requestDate: string, today: string): (o: Order)
    ensures o.id == id && o.status == Pending && o.rate == Num(DoctorOrderRate, 0)
    ensures o.customizations == "" && o.requestDate == requestDate && o.createdDate == today
    ensures FormOf(o) == f.(customizations := "")
  {
    Order(id, f.opCardNo, f.patientName, f.doctorName, f.sex, f.age, f.mobile, f.address,
          f.dietPlan, Pending, requestDate, Num(DoctorOrderRate, 0), f.notes, "", today)
  }

  /** The update branch of `handleSubmit`. */
  function UpdateOrder(orders: seq<Order>, id: int, f: OrderForm): (r: seq<Order>)
    ensures |r| == |orders|
    ensures forall i :: 0 <= i < |r| ==>
      r[i].id == orders[i].id && r[i].status == orders[i].status && r[i].rate == orders[i].rate
      && r[i].requestDate == orders[i].requestDate && r[i].createdDate == orders[i].createdDate
    ensures forall i :: 0 <= i < |r| && orders[i].id == id ==> FormOf(r[i]) == f
    ensures forall i :: 0 <= i < |r| && orders[i].id != id ==> r[i] == orders[i]
  {
    ReplaceWhere(orders, HasId(id), WithForm(f))
  }

  /** `handleApprove`, `handleSendToCafeteria`, `handleComplete`: the status of the
      orders with this id, and nothing else, is set. */
  function SetStatus(orders: seq<Order>, id: int, s: Status): (r: seq<Order>)
    ensures |r| == |orders|
    ensures forall i :: 0 <= i < |r| ==>
      r[i].status == (if orders[i].id == id then s else orders[i].status)
    ensures forall i :: 0 <= i < |r| ==> r[i].(status := orders[i].status) == orders[i]
  {
    ReplaceWhere(orders, HasId(id), WithStatus(s))
  }

  /** The order-updating part of `handleCustomizeSubmit`. */
  function CustomizeOrder(orders: seq<Order>, id: int, text: string): (r: seq<Order>)
    ensures |r| == |orders|
    ensures forall i :: 0 <= i < |r| && orders[i].id == id ==>
      r[i].customizations == text && r[i].status == Approved
      && r[i].(customizations := orders[i].customizations, status := orders[i].status) == orders[i]
    ensures forall i :: 0 <= i < |r| && orders[i].id != id ==> r[i] == orders[i]
  {
    ReplaceWhere(orders, HasId(id), WithCustomizations(text))
  }

  /** `handleDelete`: the orders with another id, in their stored order. */
  function DeleteOrder(orders: seq<Order>, id: int): (r: seq<Order>)
    ensures IsSubsequence(r, orders)
    ensures forall o :: o in r <==> o in orders && o.id != id
    ensures forall o :: o in orders ==>
      multiset(r)[o] == if o.id != id then multiset(orders)[o] else 0
  {
    FilterIsSubsequence(orders, LacksId(id));
    FilterMembershipAll(orders, LacksId(id));
    FilterMultiplicity(orders, LacksId(id));
    Filter(orders, LacksId(id))
  }

  // ------------------------------------------------------------------ lemmas

  /** The key of the collection, for the generic uniqueness notions. */
  function OrderId(o: Order): int
  {
    o.id
  }

  /** An update of an id that no order has changes nothing. */
  lemma UpdateAbsentIsNoOp(orders: seq<Order>, id: int, f: OrderForm)
    requires id !in KeySet(orders, OrderId)
    ensures UpdateOrder(orders, id, f) == orders
  {
    var r := UpdateOrder(orders, id, f);
    forall i | 0 <= i < |orders| ensures r[i] == orders[i] {
      assert OrderId(orders[i]) in KeySet(orders, OrderId);
    }
  }

  /** Opening an order in the editor and submitting the form unchanged leaves the
      collection as it was. */
  lemma EditThenSubmitIsNoOp(orders: seq<Order>, o: Order)
    requires forall p :: p in orders && p.id == o.id ==> p == o
    ensures UpdateOrder(orders, o.id, FormOf(o)) == orders
  {
    var r := UpdateOrder(orders, o.id, FormOf(o));
    forall i | 0 <= i < |orders| ensures r[i] == orders[i] {
      assert orders[i] in orders;
    }
  }

  /** Status transitions, customizing, editing and deleting keep unique ids unique. */
  lemma RewritesKeepIdsUnique(orders: seq<Order>, id: int, f: OrderForm, s: Status, text: string)
    requires UniqueKeys(orders, OrderId)
    ensures UniqueKeys(UpdateOrder(orders, id, f), OrderId)
    ensures UniqueKeys(SetStatus(orders, id, s), OrderId)
    ensures UniqueKeys(CustomizeOrder(orders, id, text), OrderId)
    ensures UniqueKeys(DeleteOrder(orders, id), OrderId)
  {
    ReplaceKeepsUniqueKeys(orders, HasId(id), WithForm(f), OrderId);
    ReplaceKeepsUniqueKeys(orders, HasId(id), WithStatus(s), OrderId);
    ReplaceKeepsUniqueKeys(orders, HasId(id), WithCustomizations(text), OrderId);
    FilterKeepsUniqueKeys(orders, LacksId(id), OrderId);
  }

  /** After a delete no filter can show an order with the deleted id. */
  lemma DeletedNeverShown(orders: seq<Order>, id: int, q: OrderQuery, o: Order)
    requires o in FilterOrders(DeleteOrder(orders, id), q)
    ensures o.id != id
  {
  }

  /** What pressing a row's button for order `id` does to the stored orders: Customize
      stores `text` (the customize dialog's text, submitted with it) and approves, the
      three workflow buttons set their status, Delete removes the order, and Edit only opens
      the form. */
  function Press(orders: seq<Order>, id: int, a: Action, text: string): (r: seq<Order>)
    ensures a != Delete ==> |r| == |orders|
    ensures StatusWritten(a).Some? ==>
      forall i :: 0 <= i < |r| && orders[i].id == id ==> r[i].status == StatusWritten(a).value
    ensures a != Delete ==> forall i :: 0 <= i < |r| && orders[i].id != id ==> r[i] == orders[i]
    ensures a == Edit ==> r == orders
  {
    match a
    case Customize => CustomizeOrder(orders, id, text)
    case Approve => SetStatus(orders, id, Approved)
    case SendToCafeteria => SetStatus(orders, id, InCafeteria)
    case Complete => SetStatus(orders, id, Completed)
    case Edit => orders
    case Delete => DeleteOrder(orders, id)
  }

  /** A status-writing button the gate offers moves the order it belongs to exactly one
      step forward, and when the ids are unique no other order changes. */
  lemma GatedTransitionOnOrder(orders: seq<Order>, k: int, a: Action, text: string)
    requires 0 <= k < |orders| && UniqueKeys(orders, OrderId)
    requires a in ActionsFor(orders[k].status) && StatusWritten(a).Some?
    ensures var r := Press(orders, orders[k].id, a, text);
      |r| == |orders| && Rank(r[k].status) == Rank(orders[k].status) + 1
      && forall i :: 0 <= i < |r| && i != k ==> r[i] == orders[i]
  {
    GatedStepAdvances(orders[k].status, a);
    var r := Press(orders, orders[k].id, a, text);
    forall i | 0 <= i < |r| && i != k ensures r[i] == orders[i] {
      if i < k {
        assert orders[i].id != orders[k].id;
      } else {
        assert orders[k].id != orders[i].id;
      }
    }
  }

  /** The gate is what keeps the lifecycle linear: `handleApprove` does not look at the
      status, so approving a completed order (which the gate never offers) would move it
      back. */
  lemma UngatedApproveRegresses(orders: seq<Order>, k: int)
    requires 0 <= k < |orders| && orders[k].status == Completed
    ensures Approve !in ActionsFor(orders[k].status)
    ensures Rank(Press(orders, orders[k].id, Approve, "")[k].status) < Rank(orders[k].status)
  {
  }

  /** The two orders the page starts with when nothing is stored yet. */
  function SeedOrders(): (r: seq<Order>)
    ensures |r| == 2 && UniqueKeys(r, OrderId)
    ensures r[0].status == Pending && r[1].status == Approved
  {
    [ Order(1, "100888889999448", "Sajan", "Dr. Smith", "Male", "38 years", "1324847987", "Kochi",
            "Diabetic Diet Plan", Pending, "09/06/2025", Num(350, 0),
            "Patient is diabetic, requires low sugar diet", "", "2025-06-09"),
      Order(2, "25-26-25060017", "Shajeer", "Dr. Johnson", "Male", "30 years", "1544877898", "Ernakulam",
            "Regular Diet Plan", Approved, "09/06/2025", Num(250, 0),
            "Standard recovery diet", "", "2025-06-09") ]
  }

  /** The seed records' creation date is a valid day. */
  lemma SeedDayParses()
    ensures ParseIsoDate("2025-06-09") == Some(Day(2025, 6, 9))
  {
    var s := "2025-06-09";
    assert s[5..7] == "06";
    assert "06"[..1] == "0";
    assert DigitsValue("06") == 6;
    assert s[8..] == "09";
    assert "09"[..1] == "0";
    assert DigitsValue("09") == 9;
    assert s[..4] == "2025";
    assert "2025"[..3] == "202" && "202"[..2] == "20" && "20"[..1] == "2";
    assert DigitsValue("2025") == 2025;
  }

  /** Approving Sajan's pending seed order makes the 'Approved' filter show both seed orders. */
  lemma ApproveSeedScenario()
    ensures var approved := SetStatus(SeedOrders(), 1, Approved);
      FilterOrders(approved, OrderQuery("", "Approved", "2025-06-09", "2025-06-09")) == approved
      && |approved| == 2 && approved[0].status == Approved
  {
    var approved := SetStatus(SeedOrders(), 1, Approved);
    var q := OrderQuery("", "Approved", "2025-06-09", "2025-06-09");
    assert InDateRange("2025-06-09", q.from, q.to) by { SeedDayParses(); }
    forall i | 0 <= i < |approved| ensures IsVisible(approved[i], q) {
      assert approved[i].createdDate == "2025-06-09";
      EmptyIncluded(approved[i].patientName);
      FilterOptionSelects(Approved, approved[i].status);
    }
    FilterKeepsAll(approved, VisibleUnder(q));
  }

  // ------------------------------------------------------------------- page

  /** The state of the order page: the persisted collection, the scratchpad, which order the
      main dialog edits and which the customize dialog customizes, and the two dialogs. */
  class OrdersPage {
    var orders: seq<Order>
    var form: OrderForm
    var editing: Option<int>
    var customizing: Option<int>
    var showModal: bool
    var showCustomizeModal: bool

    /** `useLocalStorage('dietOrders', seed)`: the stored array, or the seed when none is stored. */
    constructor (stored: Option<seq<Order>>)
      ensures orders == (if stored.Some? then stored.value else SeedOrders())
      ensures form == BlankForm && editing == None && customizing == None
      ensures !showModal && !showCustomizeModal
    {
      orders := if stored.Some? then stored.value else SeedOrders();
      form := BlankForm;
      editing, customizing := None, None;
      showModal, showCustomizeModal := false, false;
    }

    /** `handleSubmit`: update the order being edited, or append a new pending order; then
        `resetForm`. `freshId` stands for `Date.now()`, `requestDate` and `today` for the
        two renderings of `new Date()`. */
    method Submit(freshId: int, requestDate: string, today: string)
      modifies this
      ensures old(editing).Some? ==> orders == UpdateOrder(old(orders), old(editing).value, old(form))
      ensures old(editing).None? ==> orders == old(orders) + [NewOrder(freshId, old(form), requestDate, today)]
      ensures (old(editing).None? && UniqueKeys(old(orders), OrderId)
               && freshId !in KeySet(old(orders), OrderId)) ==> UniqueKeys(orders, OrderId)
      ensures form == BlankForm && editing == None && !showModal
      ensures customizing == old(customizing) && showCustomizeModal == old(showCustomizeModal)
    {
      if editing.Some? {
        orders := UpdateOrder(orders, editing.value, form);
      } else {
        if UniqueKeys(orders, OrderId) && freshId !in KeySet(orders, OrderId) {
          AppendFreshKey(orders, NewOrder(freshId, form, requestDate, today), OrderId);
        }
        orders := orders + [NewOrder(freshId, form, requestDate, today)];
      }
      ResetForm();
    }

    /** `resetForm`: blank scratchpad, main dialog closed, nothing being edited. */
    method ResetForm()
      modifies this
      ensures form == BlankForm && editing == None && !showModal
      ensures orders == old(orders) && customizing == old(customizing)
      ensures showCustomizeModal == old(showCustomizeModal)
    {
      form := BlankForm;
      showModal := false;
      editing := None;
    }

    /** `handleEdit`: copy the order into the scratchpad and open the main dialog on it. */
    method Edit(o: Order)
      modifies this
      ensures form == FormOf(o) && editing == Some(o.id) && showModal
      ensures orders == old(orders) && customizing == old(customizing)
      ensures showCustomizeModal == old(showCustomizeModal)
    {
      form := FormOf(o);
      editing := Some(o.id);
      showModal := true;
    }

    /** `handleDelete` */
    method Delete(id: int)
      modifies this`orders
      ensures orders == DeleteOrder(old(orders), id)
    {
      orders := DeleteOrder(orders, id);
    }

    /** `handleCustomize`: remember the order, load its customizations, open the dialog. */
    method Customize(o: Order)
      modifies this
      ensures customizing == Some(o.id) && showCustomizeModal
      ensures form == old(form).(customizations := o.customizations)
      ensures orders == old(orders) && editing == old(editing) && showModal == old(showModal)
    {
      customizing := Some(o.id);
      form := form.(customizations := o.customizations);
      showCustomizeModal := true;
    }

    /** `handleCustomizeSubmit`: with an order being customized, store the text and approve
        it, close the dialog and clear the text; otherwise nothing happens. */
    method CustomizeSubmit()
      modifies this
      ensures old(customizing).Some? ==>
        orders == CustomizeOrder(old(orders), old(customizing).value, old(form).customizations)
        && customizing == None && !showCustomizeModal
        && form == old(form).(customizations := "")
      ensures old(customizing).None? ==>
        orders == old(orders) && customizing == None && form == old(form)
        && showCustomizeModal == old(showCustomizeModal)
      ensures editing == old(editing) && showModal == old(showModal)
    {
      if customizing.Some? {
        orders := CustomizeOrder(orders, customizing.value, form.customizations);
        showCustomizeModal := false;
        customizing := None;
        form := form.(customizations := "");
      }
    }

    /** `handleApprove` */
    method Approve(id: int)
      modifies this`orders
      ensures orders == SetStatus(old(orders), id, Approved)
    {
      orders := SetStatus(orders, id, Approved);
    }

    /** `handleSendToCafeteria` */
    method SendToCafeteria(id: int)
      modifies this`orders
      ensures orders == SetStatus(old(orders), id, InCafeteria)
    {
      orders := SetStatus(orders, id, InCafeteria);
    }

    /** `handleComplete` (the bill notification is not modelled). */
    method Complete(id: int)
      modifies this`orders
      ensures orders == SetStatus(old(orders), id, Completed)
    {
      orders := SetStatus(orders, id, Completed);
    }
  }
}
