/** The admin order table: the status shown for each order, which actions
    it offers, and how the displayed list changes after the mark-delivered
    and delete actions. */
module AdminOrderList {
  import opened Seqs
  import opened OrderModel
  import Admin

  datatype StatusChip = NotPaid | NotDelivered | Completed

  function Label(chip: StatusChip): string {
    match chip
    case NotPaid => "Not Paid"
    case NotDelivered => "Not Delivered"
    case Completed => "Completed"
  }

  /** getStatusChip: unpaid orders are "Not Paid" whatever their delivery
      flag; paid ones are "Not Delivered" until delivered, then
      "Completed". */
  function GetStatusChip(o: Order): (r: StatusChip)
    ensures r == NotPaid <==> !o.isPaid
    ensures r == NotDelivered <==> o.isPaid && !o.isDelivered
    ensures r == Completed <==> o.isPaid && o.isDelivered
  {
    if !o.isPaid then NotPaid
    else if !o.isDelivered then NotDelivered
    else Completed
  }

  /** The mark-delivered button is shown for paid, undelivered orders. */
  predicate CanMarkDelivered(o: Order) {
    o.isPaid && !o.isDelivered
  }

  /** The delete button is shown for unpaid orders. */
  predicate CanDelete(o: Order) {
    !o.isPaid
  }

  /** Each action is offered for exactly one status, and no order offers
      both. */
  lemma ActionsFollowStatus(o: Order)
    ensures CanMarkDelivered(o) <==> GetStatusChip(o) == NotDelivered
    ensures CanDelete(o) <==> GetStatusChip(o) == NotPaid
    ensures !(CanMarkDelivered(o) && CanDelete(o))
  {
  }

  /** The list after a successful mark-delivered: the order(s) with that id
      flagged delivered, every other order as it was. */
  function MarkedDelivered(orders: seq<Order>, id: OrderId): (r: seq<Order>)
    ensures |r| == |orders|
    ensures forall i :: 0 <= i < |orders| && orders[i].id == id ==> r[i] == orders[i].(isDelivered := true)
    ensures forall i :: 0 <= i < |orders| && orders[i].id != id ==> r[i] == orders[i]
  {
    seq(|orders|, i requires 0 <= i < |orders| =>
      if orders[i].id == id then orders[i].(isDelivered := true) else orders[i])
  }

  /** The list after a successful delete: the orders with that id removed,
      the others in their order. */
  function WithoutOrder(orders: seq<Order>, id: OrderId): (r: seq<Order>)
    ensures |r| <= |orders|
    ensures forall i :: 0 <= i < |r| ==> r[i] in orders && r[i].id != id
    ensures forall i :: 0 <= i < |orders| && orders[i].id != id ==> orders[i] in r
  {
    Filter(orders, (o: Order) => o.id != id)
  }

  /** Marking delivered is idempotent, turns an offered order's chip to
      "Completed", and marking an id that is not listed changes nothing. */
  lemma MarkedDeliveredLaws(orders: seq<Order>, id: OrderId)
    ensures MarkedDelivered(MarkedDelivered(orders, id), id) == MarkedDelivered(orders, id)
    ensures forall i :: 0 <= i < |orders| && orders[i].id == id && CanMarkDelivered(orders[i]) ==>
              GetStatusChip(MarkedDelivered(orders, id)[i]) == Completed
    ensures (forall i :: 0 <= i < |orders| ==> orders[i].id != id) ==> MarkedDelivered(orders, id) == orders
  {
  }

  /** Delivery does not change the dashboard revenue. */
  lemma {:induction false} MarkedDeliveredKeepsRevenue(orders: seq<Order>, id: OrderId)
    ensures Admin.TotalRevenue(MarkedDelivered(orders, id)) == Admin.TotalRevenue(orders)
    decreases |orders|
  {
    if orders != [] {
      var n := |orders| - 1;
      var marked := MarkedDelivered(orders, id);
      assert orders == orders[..n] + [orders[n]];
      assert marked == MarkedDelivered(orders[..n], id) + [marked[n]];
      MarkedDeliveredKeepsRevenue(orders[..n], id);
      Admin.TotalRevenueAppend(orders[..n], [orders[n]]);
      Admin.TotalRevenueAppend(MarkedDelivered(orders[..n], id), [marked[n]]);
      Admin.TotalRevenueSingle(orders[n]);
      Admin.TotalRevenueSingle(marked[n]);
    }
  }

  /** After a delete no order with that id is listed, every other order
      stays, deleting an id that is not listed changes nothing, and deleting
      twice is deleting once. */
  lemma WithoutOrderLaws(orders: seq<Order>, id: OrderId)
    ensures forall i :: 0 <= i < |WithoutOrder(orders, id)| ==> WithoutOrder(orders, id)[i].id != id
    ensures forall i :: 0 <= i < |orders| && orders[i].id != id ==> orders[i] in WithoutOrder(orders, id)
    ensures (forall i :: 0 <= i < |orders| ==> orders[i].id != id) ==> WithoutOrder(orders, id) == orders
    ensures WithoutOrder(WithoutOrder(orders, id), id) == WithoutOrder(orders, id)
  {
    var keep := (o: Order) => o.id != id;
    if forall i :: 0 <= i < |orders| ==> orders[i].id != id {
      FilterAllKept(orders, keep);
    }
    FilterIdempotent(orders, keep);
  }

  /** Deleting orders that are all unpaid, as the delete button allows,
      does not change the dashboard revenue. */
  lemma {:induction false} DeletingUnpaidKeepsRevenue(orders: seq<Order>, id: OrderId)
    requires forall i :: 0 <= i < |orders| && orders[i].id == id ==> CanDelete(orders[i])
    ensures Admin.TotalRevenue(WithoutOrder(orders, id)) == Admin.TotalRevenue(orders)
    decreases |orders|
  {
    if orders != [] {
      var keep := (o: Order) => o.id != id;
      var rest := orders[1..];
      assert orders == [orders[0]] + rest;
      FilterAppend([orders[0]], rest, keep);
      assert [orders[0]][1..] == [];
      DeletingUnpaidKeepsRevenue(rest, id);
      Admin.TotalRevenueAppend([orders[0]], rest);
      Admin.TotalRevenueSingle(orders[0]);
      if orders[0].id != id {
        Admin.TotalRevenueAppend([orders[0]], WithoutOrder(rest, id));
      }
    }
  }

  /** The component's order list. */
  class OrderListView {
    var orders: seq<Order>

    constructor (orders: seq<Order>)
      ensures this.orders == orders
    {
      this.orders := orders;
    }

    /** handleMarkDelivered; `serviceOk` is whether the delivery request
        succeeded. */
    method HandleMarkDelivered(orderId: OrderId, serviceOk: bool)
      modifies this
      ensures serviceOk ==> orders == MarkedDelivered(old(orders), orderId)
      ensures !serviceOk ==> orders == old(orders)
    {
      if serviceOk {
        orders := MarkedDelivered(orders, orderId);
      }
    }

    /** handleDeleteOrder; nothing happens unless the admin confirms, and
        the list changes only when the delete request succeeded. */
    method HandleDeleteOrder(orderId: OrderId, confirmed: bool, serviceOk: bool)
      modifies this
      ensures confirmed && serviceOk ==> orders == WithoutOrder(old(orders), orderId)
      ensures !(confirmed && serviceOk) ==> orders == old(orders)
    {
      if confirmed {
        if serviceOk {
          orders := WithoutOrder(orders, orderId);
        }
      }
    }
  }
}
