/** The quantity of one shipment line that goes back to its source. */
module ReturnQty {
  import opened Entities

  /** How much more of the item was shipped than ordered (zero when it was
      not over-shipped). */
  function Overshipment(item: OrderItem): (r: real)
    ensures r >= 0.0
  {
    if item.qtyShipped > item.qtyOrdered then item.qtyShipped - item.qtyOrdered else 0.0
  }

  /** The negative correction applied to an over-shipped item, so that the
      excess, already returned to stock elsewhere, is not returned twice. */
  function QtyModification(item: OrderItem): (r: real)
    ensures r <= 0.0
    ensures r == 0.0 <==> item.qtyShipped <= item.qtyOrdered
    ensures r == -Overshipment(item)
  {
    if item.qtyShipped > item.qtyOrdered then item.qtyOrdered - item.qtyShipped else 0.0
  }

  /** The quantity returned to stock for a line whose order item is `item`. */
  function BackQty(line: ShipmentLine, item: OrderItem): (r: real)
    ensures item.qtyShipped <= item.qtyOrdered ==> r == line.qty
    ensures item.qtyShipped > item.qtyOrdered ==> r < line.qty
    ensures r == line.qty - Overshipment(item)
  {
    line.qty + QtyModification(item)
  }
}
