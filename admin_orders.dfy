/** The order-management page of src/pages/AdminOrders.tsx: a local list of
    orders (seeded, never fetched), filtered by status and by a search over
    the customer's name and e-mail, with pending orders always hidden. */
module AdminOrders {
  import opened Js
  import opened Http
  import opened Lists

  datatype Status = Pending | Confirmed | Shipped | Delivered | Cancelled

  /** The string the source compares and displays. */
  function StatusName(s: Status): (r: string)
    ensures r in ["pending", "confirmed", "shipped", "delivered", "cancelled"]
  {
    match s
    case Pending => "pending"
    case Confirmed => "confirmed"
    case Shipped => "shipped"
    case Delivered => "delivered"
    case Cancelled => "cancelled"
  }

  /** Different statuses have different names. */
  lemma StatusNameInjective(a: Status, b: Status)
    ensures StatusName(a) == StatusName(b) <==> a == b
  {
  }

  /** `amount` is a whole number of currency units in every seeded order. */
  datatype Order = Order(id: int, customerName: string, customerEmail: string, items: string, amount: int, status: Status, date: string)

  const SeedOrders: seq<Order> := [
    Order(1, "Sarah Johnson", "sarah@example.com", "Premium Yoga Mat, Cork Blocks", 234, Confirmed, "2024-01-15"),
    Order(2, "Mike Chen", "mike@example.com", "Meditation Cushion", 75, Shipped, "2024-01-14"),
    Order(3, "Emma Davis", "emma@example.com", "Yoga Pants, Water Bottle", 130, Delivered, "2024-01-13"),
    Order(4, "Alex Wilson", "alex@example.com", "Essential Oil Diffuser", 125, Pending, "2024-01-16")
  ]

  const AllStatuses: string := "all"

  /** The three tests an order must pass to be shown. */
  predicate Shown(statusFilter: string, term: string, o: Order)
  {
    (statusFilter == AllStatuses || StatusName(o.status) == statusFilter)
    && (Includes(Lower(o.customerName), Lower(term)) || Includes(Lower(o.customerEmail), Lower(term)))
    && o.status != Pending
  }

  /** `filteredOrders`: the orders, in order, that match the status filter
      and the search, never a pending one. */
  function FilteredOrders(orders: seq<Order>, statusFilter: string, term: string): (r: seq<Order>)
    ensures IsSubsequence(r, orders)
    ensures forall i :: 0 <= i < |r| ==> r[i].status != Pending && r[i] in orders
    ensures statusFilter != AllStatuses ==> forall i :: 0 <= i < |r| ==> StatusName(r[i].status) == statusFilter
    ensures forall i :: 0 <= i < |r| ==>
      Includes(Lower(r[i].customerName), Lower(term)) || Includes(Lower(r[i].customerEmail), Lower(term))
    ensures forall i :: 0 <= i < |orders| && Shown(statusFilter, term, orders[i]) ==> orders[i] in r
  {
    Filter((o: Order) => Shown(statusFilter, term, o), orders)
  }

  /** A status filter of "pending" would show nothing at all. The page's
      select never offers that value, so this is the filter's own behaviour. */
  lemma PendingFilterShowsNothing(orders: seq<Order>, term: string)
    ensures FilteredOrders(orders, "pending", term) == []
  {
  }

  /** With no search text and no status chosen, exactly the orders that are
      not pending are shown. */
  lemma UnfilteredShowsAllButPending(orders: seq<Order>)
    ensures FilteredOrders(orders, AllStatuses, "") == Filter((o: Order) => o.status != Pending, orders)
  {
    var p := (o: Order) => Shown(AllStatuses, "", o);
    var q := (o: Order) => o.status != Pending;
    FilterSamePredicate(p, q, orders) by {
      forall o: Order ensures p(o) == q(o) {
        IncludesEmpty(Lower(o.customerName));
      }
    }
  }

  /** `getStatusColor`: the badge variant for a status string (unknown
      strings take the "outline" default, as delivered orders do). */
  function StatusColor(status: string): (r: string)
    ensures r in ["default", "secondary", "outline", "destructive"]
    ensures r == "default" <==> status == "confirmed"
    ensures r == "secondary" <==> status == "shipped"
    ensures r == "destructive" <==> status == "cancelled"
    ensures r == "outline" <==> status !in ["confirmed", "shipped", "cancelled"]
  {
    if status == "confirmed" then "default"
    else if status == "shipped" then "secondary"
    else if status == "delivered" then "outline"
    else if status == "cancelled" then "destructive"
    else "outline"
  }

  /** The `orders.map(...)` of `updateOrderStatus`: every order with the given
      id takes the new status; nothing else changes. */
  function WithStatus(orders: seq<Order>, id: int, s: Status): (r: seq<Order>)
    ensures |r| == |orders|
    ensures forall i :: 0 <= i < |orders| && orders[i].id == id ==> r[i] == orders[i].(status := s)
    ensures forall i :: 0 <= i < |orders| && orders[i].id != id ==> r[i] == orders[i]
  {
    seq(|orders|, i requires 0 <= i < |orders| => if orders[i].id == id then orders[i].(status := s) else orders[i])
  }

  /** Setting the same status twice is setting it once. */
  lemma WithStatusIdempotent(orders: seq<Order>, id: int, s: Status)
    ensures WithStatus(WithStatus(orders, id, s), id, s) == WithStatus(orders, id, s)
  {
  }

  /** An id no order has leaves the list as it was. */
  lemma WithStatusUnknownId(orders: seq<Order>, id: int, s: Status)
    requires forall i :: 0 <= i < |orders| ==> orders[i].id != id
    ensures WithStatus(orders, id, s) == orders
  {
  }

  /** Moving an order to pending hides it from every view. */
  lemma MarkedPendingIsHidden(orders: seq<Order>, id: int, statusFilter: string, term: string)
    ensures forall i :: 0 <= i < |FilteredOrders(WithStatus(orders, id, Pending), statusFilter, term)| ==>
      FilteredOrders(WithStatus(orders, id, Pending), statusFilter, term)[i].id != id
  {
    var r := FilteredOrders(WithStatus(orders, id, Pending), statusFilter, term);
    forall i | 0 <= i < |r| ensures r[i].id != id {
      var w := WithStatus(orders, id, Pending);
      assert r[i] in w;
      var j :| 0 <= j < |w| && w[j] == r[i];
      assert w[j].status != Pending;
    }
  }

  const StatusUpdated: Toast := InfoToast("Success", "Order status updated successfully")

  class OrdersPage {
    var orders: seq<Order>
    var statusFilter: string
    var searchTerm: string

    constructor ()
      ensures orders == SeedOrders && statusFilter == AllStatuses && searchTerm == ""
    {
      orders, statusFilter, searchTerm := SeedOrders, AllStatuses, "";
    }

    /** The list as rendered. */
    function Visible(): seq<Order>
      reads this
    {
      FilteredOrders(orders, statusFilter, searchTerm)
    }

    method SetStatusFilter(f: string)
      modifies this`statusFilter
      ensures statusFilter == f
    {
      statusFilter := f;
    }

    method SetSearchTerm(t: string)
      modifies this`searchTerm
      ensures searchTerm == t
    {
      searchTerm := t;
    }

    /** `updateOrderStatus`: changes the matching orders' status and always
        reports success. */
    method UpdateOrderStatus(id: int, s: Status) returns (note: Toast)
      modifies this`orders
      ensures orders == WithStatus(old(orders), id, s)
      ensures s == Pending ==> forall i :: 0 <= i < |Visible()| ==> Visible()[i].id != id
      ensures note == StatusUpdated
    {
      orders := WithStatus(orders, id, s);
      MarkedPendingIsHidden(old(orders), id, statusFilter, searchTerm);
      note := StatusUpdated;
    }
  }
}
