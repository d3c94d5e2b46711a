/**
 * The administrator's order page: the order list with its search, the
 * status badge, refunds of problem orders, and the counters and revenue at
 * the top of the page. Order status here is free text.
 */
module AdminOrders {
  import opened Common

  datatype AdminOrderItem = AdminOrderItem(name: string, quantity: int, price: real)

  datatype AdminOrder = AdminOrder(
    id: int,
    userId: int,
    userName: string,
    total: real,
    status: string,
    createdAt: string,
    items: seq<AdminOrderItem>)

  const DELIVERED := "Entregue"
  const IN_TRANSIT := "Em Trânsito"
  const PREPARING := "Preparando"
  const CANCELLED := "Cancelado"
  const REFUNDED := "Reembolsado"
  const DELIVERY_PROBLEM := "Problema na Entrega"

  /** An order with a delivery problem or cancelled: the only ones offered a refund, which then marks it refunded. */
  predicate CanRefund(o: AdminOrder)
    ensures CanRefund(o) ==> RefundOrder([o], o.id) != [o]
    ensures CanRefund(o) ==> o.status != REFUNDED && RefundOrder([o], o.id)[0].status == REFUNDED
  {
    o.status == DELIVERY_PROBLEM || o.status == CANCELLED
  }

  ghost predicate UniqueOrderIds(orders: seq<AdminOrder>)
  {
    forall i, j :: 0 <= i < j < |orders| ==> orders[i].id != orders[j].id
  }

  // ---------------------------------------------------------------------
  // badge and search
  // ---------------------------------------------------------------------

  /** The status badge: its text, and its colour (`None` for the plain outlined badge). */
  datatype Badge = Badge(text: string, color: Option<string>)

  /** `getStatusBadge`: every status shows its own text; the six known ones get a colour each. */
  function StatusBadge(status: string): (b: Badge)
    ensures b.text == status
    ensures b.color.None? <==>
              status !in {DELIVERED, IN_TRANSIT, PREPARING, CANCELLED, REFUNDED, DELIVERY_PROBLEM}
  {
    if status == DELIVERED then Badge(status, Some("bg-green-500"))
    else if status == IN_TRANSIT then Badge(status, Some("bg-blue-500"))
    else if status == PREPARING then Badge(status, Some("bg-yellow-500"))
    else if status == CANCELLED then Badge(status, Some("bg-red-500"))
    else if status == REFUNDED then Badge(status, Some("bg-purple-500"))
    else if status == DELIVERY_PROBLEM then Badge(status, Some("bg-orange-500"))
    else Badge(status, None)
  }

  /**
   * The search: the order number written in decimal holds the term as typed,
   * or the customer name or the status holds it ignoring case.
   */
  predicate OrderMatches(o: AdminOrder, term: string)
  {
    Contains(IntToString(o.id), term) || MatchesTerm(o.userName, term) || MatchesTerm(o.status, term)
  }

  function FilteredOrders(orders: seq<AdminOrder>, term: string): (r: seq<AdminOrder>)
    ensures forall i :: 0 <= i < |r| ==> r[i] in orders && OrderMatches(r[i], term)
    ensures forall i :: 0 <= i < |orders| && OrderMatches(orders[i], term) ==> orders[i] in r
  {
    Filter(orders, (o: AdminOrder) => OrderMatches(o, term))
  }

  /** Typing an order's number finds that order. */
  lemma SearchByNumberFindsOrder(orders: seq<AdminOrder>, k: int)
    requires 0 <= k < |orders|
    ensures orders[k] in FilteredOrders(orders, IntToString(orders[k].id))
  {
    assert Contains(IntToString(orders[k].id), IntToString(orders[k].id));
  }

  lemma EmptySearchShowsAll(orders: seq<AdminOrder>)
    ensures FilteredOrders(orders, "") == orders
  {
    forall o | o in orders ensures OrderMatches(o, "") {
      ContainsEmpty(IntToString(o.id));
    }
    FilterKeepsAll(orders, (o: AdminOrder) => OrderMatches(o, ""));
  }

  // ---------------------------------------------------------------------
  // refunds
  // ---------------------------------------------------------------------

  /** `refundOrder`: every order with the id is marked refunded; nothing else about it changes. */
  function RefundOrder(orders: seq<AdminOrder>, id: int): (r: seq<AdminOrder>)
    ensures |r| == |orders|
    ensures forall i :: 0 <= i < |orders| ==>
              r[i].(status := orders[i].status) == orders[i] &&
              r[i].status == if orders[i].id == id then REFUNDED else orders[i].status
  {
    MapWhere(orders, (o: AdminOrder) => o.id == id, (o: AdminOrder) => o.(status := REFUNDED))
  }

  /** A refunded order is no longer offered a refund, so a second refund changes nothing. */
  lemma RefundIdempotent(orders: seq<AdminOrder>, id: int)
    ensures forall i :: 0 <= i < |orders| && orders[i].id == id ==> !CanRefund(RefundOrder(orders, id)[i])
    ensures RefundOrder(RefundOrder(orders, id), id) == RefundOrder(orders, id)
  {
  }

  // ---------------------------------------------------------------------
  // counters
  // ---------------------------------------------------------------------

  predicate IsDelivered(o: AdminOrder)
  {
    o.status == DELIVERED
  }

  predicate IsInTransit(o: AdminOrder)
  {
    o.status == IN_TRANSIT
  }

  function OrderTotal(o: AdminOrder): real
  {
    o.total
  }

  /** The orders of the "orders with problems" panel. */
  function ProblemOrders(orders: seq<AdminOrder>): (r: seq<AdminOrder>)
    ensures forall i :: 0 <= i < |r| ==> r[i] in orders && CanRefund(r[i])
    ensures forall i :: 0 <= i < |orders| && CanRefund(orders[i]) ==> orders[i] in r
  {
    Filter(orders, CanRefund)
  }

  datatype OrderStats = OrderStats(total: nat, delivered: nat, inTransit: nat, problems: nat, totalRevenue: real)

  /** The counters: all orders, delivered, in transit, with problems, and the revenue of the delivered ones. */
  function Stats(orders: seq<AdminOrder>): (s: OrderStats)
    ensures s.total == |orders|
    ensures s.delivered + s.inTransit + s.problems <= s.total
    ensures s.problems == |ProblemOrders(orders)|
  {
    CountPartition3(orders, IsDelivered, IsInTransit, (o: AdminOrder) => !IsDelivered(o) && !IsInTransit(o));
    CountMonotone(orders, CanRefund, (o: AdminOrder) => !IsDelivered(o) && !IsInTransit(o));
    OrderStats(|orders|, Count(orders, IsDelivered), Count(orders, IsInTransit), Count(orders, CanRefund),
               Sum(Filter(orders, IsDelivered), OrderTotal))
  }

  /** Order totals are never negative, so neither is the revenue. */
  lemma RevenueNonNegative(orders: seq<AdminOrder>)
    requires forall i :: 0 <= i < |orders| ==> orders[i].total >= 0.0
    ensures Stats(orders).totalRevenue >= 0.0
  {
    var d := Filter(orders, IsDelivered);
    assert forall x :: x in d ==> OrderTotal(x) >= 0.0;
    SumNonNegative(d, OrderTotal);
  }

  /**
   * With unique ids, refunding a problem order takes one off the problem
   * count and leaves the other counters and the revenue as they were.
   */
  lemma RefundStats(orders: seq<AdminOrder>, k: int)
    requires UniqueOrderIds(orders) && 0 <= k < |orders| && CanRefund(orders[k])
    ensures var before := Stats(orders);
            var after := Stats(RefundOrder(orders, orders[k].id));
            after.total == before.total &&
            after.problems == before.problems - 1 &&
            after.delivered == before.delivered &&
            after.inTransit == before.inTransit &&
            after.totalRevenue == before.totalRevenue
  {
    var id := orders[k].id;
    var matches := (o: AdminOrder) => o.id == id;
    var f := (o: AdminOrder) => o.(status := REFUNDED);
    assert OnlyMatchAt(orders, matches, k);
    MapWhereCountOne(orders, matches, f, CanRefund, k);
    MapWhereCountOne(orders, matches, f, IsDelivered, k);
    MapWhereCountOne(orders, matches, f, IsInTransit, k);
    MapWhereFilteredSumOne(orders, matches, f, IsDelivered, OrderTotal, k);
  }

  // ---------------------------------------------------------------------
  // the page state
  // ---------------------------------------------------------------------

  class OrdersPage {
    var orders: seq<AdminOrder>

    /** `loadOrders`: the page starts with no orders. */
    constructor ()
      ensures orders == []
    {
      orders := [];
    }

    method Refund(id: int)
      modifies this
      ensures orders == RefundOrder(old(orders), id)
      ensures old(UniqueOrderIds(orders)) ==> UniqueOrderIds(orders)
    {
      orders := RefundOrder(orders, id);
    }
  }
}
