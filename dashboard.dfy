/** The dashboard: the stat cards computed from the stored diet orders and the recent-orders
    table with its fallback rows. */
module Dashboard {
  import opened Collections
  import opened JsNumbers
  import opened OrderWorkflow
  import opened Orders

  function IsApprovedOrder(): Order -> bool
  {
    (o: Order) => o.status == Approved
  }

  function NotApprovedOrder(): Order -> bool
  {
    (o: Order) => o.status != Approved
  }

  /** `approvedOrders`: `orders.filter(o => o.status === 'approved').length`. */
  function ApprovedCount(orders: seq<Order>): (n: nat)
    ensures n <= |orders|
  {
    |Filter(orders, IsApprovedOrder())|
  }

  /** The approved orders and the others together are all the orders. */
  lemma ApprovedAndOthers(orders: seq<Order>)
    ensures ApprovedCount(orders) + |Filter(orders, NotApprovedOrder())| == |orders|
  {
    FilterPartition(orders, IsApprovedOrder(), NotApprovedOrder());
  }

  /** A status change of one order (ids unique) moves the approved count by at most one:
      down when it leaves 'approved', up when it enters it. */
  lemma ApprovedCountAfterTransition(orders: seq<Order>, k: int, s: Status)
    requires 0 <= k < |orders| && UniqueKeys(orders, OrderId)
    ensures ApprovedCount(SetStatus(orders, orders[k].id, s))
         == ApprovedCount(orders) - (if orders[k].status == Approved then 1 else 0)
            + (if s == Approved then 1 else 0)
  {
    forall i | 0 <= i < |orders| && i != k ensures !HasId(orders[k].id)(orders[i]) {
      if i < k {
        assert OrderId(orders[i]) != OrderId(orders[k]);
      } else {
        assert OrderId(orders[k]) != OrderId(orders[i]);
      }
    }
    ReplaceOnlyAt(orders, HasId(orders[k].id), WithStatus(s), k);
    FilterCountAfterUpdate(orders, k, orders[k].(status := s), IsApprovedOrder());
  }

  /** `totalRevenue`: `orders.reduce((sum, o) => sum + (o.rate || 0), 0)`, a left fold; no
      orders give 0, and one order gives its rate, or 0 when it has none. */
  function TotalRevenue(orders: seq<Order>): (r: real)
    ensures orders == [] ==> r == 0.0
    ensures |orders| == 1 ==> r == Value(OrZero(orders[0].rate))
  {
    if orders == [] then 0.0
    else TotalRevenue(orders[..|orders| - 1]) + Value(OrZero(orders[|orders| - 1].rate))
  }

  /** Revenue adds up over any split of the collection. */
  lemma {:induction false} RevenueAppend(a: seq<Order>, b: seq<Order>)
    ensures TotalRevenue(a + b) == TotalRevenue(a) + TotalRevenue(b)
    decreases |b|
  {
    if b == [] {
      assert a + b == a;
    } else {
      var b' := b[..|b| - 1];
      assert (a + b)[..|a + b| - 1] == a + b';
      RevenueAppend(a, b');
    }
  }

  /** A new doctor-initiated order adds its 300 to the revenue. */
  lemma CreateAddsDefaultRate(orders: seq<Order>, id: int, f: OrderForm, requestDate: string, today: string)
    ensures TotalRevenue(orders + [NewOrder(id, f, requestDate, today)])
         == TotalRevenue(orders) + DoctorOrderRate as real
  {
  }

  /** Revenue depends only on the rates, so it counts orders of every status, and workflow
      transitions, customizing and editing (which all keep the rate) leave it unchanged. */
  lemma {:induction false} RevenueKeptBySameRates(a: seq<Order>, b: seq<Order>)
    requires |a| == |b|
    requires forall i :: 0 <= i < |a| ==> a[i].rate == b[i].rate
    ensures TotalRevenue(a) == TotalRevenue(b)
    decreases |a|
  {
    if a != [] {
      RevenueKeptBySameRates(a[..|a| - 1], b[..|b| - 1]);
    }
  }

  /** Status transitions do not change the revenue. */
  lemma TransitionsKeepRevenue(orders: seq<Order>, id: int, s: Status, text: string, f: OrderForm)
    ensures TotalRevenue(SetStatus(orders, id, s)) == TotalRevenue(orders)
    ensures TotalRevenue(CustomizeOrder(orders, id, text)) == TotalRevenue(orders)
    ensures TotalRevenue(UpdateOrder(orders, id, f)) == TotalRevenue(orders)
  {
    RevenueKeptBySameRates(SetStatus(orders, id, s), orders);
    RevenueKeptBySameRates(CustomizeOrder(orders, id, text), orders);
    RevenueKeptBySameRates(UpdateOrder(orders, id, f), orders);
  }

  /** With no negative rate stored the revenue is not negative. */
  lemma {:induction false} RevenueNonNegative(orders: seq<Order>)
    requires forall i :: 0 <= i < |orders| ==> OrZero(orders[i].rate).mantissa >= 0
    ensures TotalRevenue(orders) >= 0.0
    decreases |orders|
  {
    if orders != [] {
      RevenueNonNegative(orders[..|orders| - 1]);
    }
  }

  /** The four stat cards ('Diet Plans' is a fixed 89). */
  datatype Stats = Stats(totalOrders: nat, approvedOrders: nat, dietPlans: nat, revenue: real)

  function DashboardStats(orders: seq<Order>): (s: Stats)
    ensures s.totalOrders == |orders| && s.approvedOrders <= s.totalOrders
    ensures s.approvedOrders == ApprovedCount(orders)
    ensures s.revenue == TotalRevenue(orders) && s.dietPlans == 89
  {
    Stats(|orders|, ApprovedCount(orders), 89, TotalRevenue(orders))
  }

  /** One row of the recent-orders table. */
  datatype RecentRow = RecentRow(patient: string, dietPlan: string, status: Status, amount: Number)

  function RowOf(o: Order): RecentRow
  {
    RecentRow(o.patientName, o.dietPlan, o.status, o.rate)
  }

  /** The two fixed rows shown when no order is stored. */
  const PlaceholderRows := [RecentRow("Sajan", "Diabetic Diet", Pending, Num(350, 0)),
                            RecentRow("Shajeer", "Regular Diet", Approved, Num(250, 0))]

  function Min(a: int, b: int): int
  {
    if a <= b then a else b
  }

  function RowsOf(orders: seq<Order>): (rows: seq<RecentRow>)
    ensures |rows| == |orders|
    ensures forall i :: 0 <= i < |orders| ==> rows[i] == RowOf(orders[i])
  {
    if orders == [] then [] else [RowOf(orders[0])] + RowsOf(orders[1..])
  }

  /** The recent-orders table: the rows of `orders.slice(0, 5)`, followed by the placeholder
      rows when `orders.length === 0`. */
  function RecentRows(orders: seq<Order>): (rows: seq<RecentRow>)
    ensures orders == [] ==> rows == PlaceholderRows
    ensures orders != [] ==> |rows| == Min(5, |orders|)
    ensures orders != [] ==> forall i :: 0 <= i < |rows| ==> rows[i] == RowOf(orders[i])
  {
    RowsOf(orders[..Min(5, |orders|)]) + (if orders == [] then PlaceholderRows else [])
  }
}
