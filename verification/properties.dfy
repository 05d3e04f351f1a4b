/** Properties of the cancel-shipment processor that relate several lines,
    several calls, or concrete shipments. */
module CancelShipmentProperties {
  import opened Entities
  import opened ReturnQty
  import opened CancelShipment

  function TotalCompensation(items: seq<ItemToSell>): real {
    if |items| == 0 then 0.0 else items[0].qty + TotalCompensation(items[1..])
  }

  function TotalQuantity(items: seq<SourceItem>): real {
    if |items| == 0 then 0.0 else items[0].quantity + TotalQuantity(items[1..])
  }

  function TotalLineQty(lines: seq<ShipmentLine>): real {
    if |lines| == 0 then 0.0 else lines[0].qty + TotalLineQty(lines[1..])
  }

  /** The stock the shipment's source holds, before the cancellation, for
      the SKU of each line (counted once per line). */
  function TotalCurrent(p: Platform, code: SourceCode, lines: seq<ShipmentLine>): real
    requires forall i | 0 <= i < |lines| :: (code, lines[i].sku) in p.sourceQuantities
  {
    if |lines| == 0 then 0.0 else p.sourceQuantities[(code, lines[0].sku)] + TotalCurrent(p, code, lines[1..])
  }

  /** Over the whole batch, the stock added to the source items is exactly
      what the compensations withdraw from the reservations. */
  lemma {:induction false} CompensationBalancesStock(p: Platform, code: SourceCode, lines: seq<ShipmentLine>)
    requires ReturnLines(p, code, lines).Ok?
    ensures
      var b := ReturnLines(p, code, lines).value;
      TotalQuantity(b.sourceItems) + TotalCompensation(b.compensations) == TotalCurrent(p, code, lines)
    decreases |lines|
  {
    if |lines| > 0 {
      CompensationBalancesStock(p, code, lines[1..]);
      var b := ReturnLines(p, code, lines).value;
      var rest := ReturnLines(p, code, lines[1..]).value;
      assert b.sourceItems[1..] == rest.sourceItems;
      assert b.compensations[1..] == rest.compensations;
    }
  }

  /** The compensations never withdraw more than the cancelled lines
      shipped, and withdraw exactly that when no order item was over-shipped. */
  lemma {:induction false} CompensationBoundedByShipment(p: Platform, code: SourceCode, lines: seq<ShipmentLine>)
    requires ReturnLines(p, code, lines).Ok?
    ensures -TotalCompensation(ReturnLines(p, code, lines).value.compensations) <= TotalLineQty(lines)
    ensures (forall i | 0 <= i < |lines| ::
               p.orderItems[lines[i].orderItemId].qtyShipped <= p.orderItems[lines[i].orderItemId].qtyOrdered)
            ==> -TotalCompensation(ReturnLines(p, code, lines).value.compensations) == TotalLineQty(lines)
    decreases |lines|
  {
    if |lines| > 0 {
      CompensationBoundedByShipment(p, code, lines[1..]);
      var b := ReturnLines(p, code, lines).value;
      var rest := ReturnLines(p, code, lines[1..]).value;
      assert b.compensations[1..] == rest.compensations;
      assert forall i | 0 <= i < |lines[1..]| :: lines[1..][i] == lines[i + 1];
    }
  }

  /** A line's compensation withdraws (is at most zero) exactly when its
      order item's over-shipment does not exceed the line's quantity;
      otherwise the compensation is positive and the source item loses stock. */
  lemma CompensationSign(p: Platform, code: SourceCode, lines: seq<ShipmentLine>, i: int)
    requires ReturnLines(p, code, lines).Ok? && 0 <= i < |lines|
    ensures
      var b := ReturnLines(p, code, lines).value;
      var over := Overshipment(p.orderItems[lines[i].orderItemId]);
      && (b.compensations[i].qty <= 0.0 <==> over <= lines[i].qty)
      && (b.sourceItems[i].quantity >= p.sourceQuantities[(code, lines[i].sku)] <==> over <= lines[i].qty)
  {
  }

  /** Two runs of lines together fail exactly when one of them fails. */
  lemma ReturnLinesAppendFails(p: Platform, code: SourceCode, xs: seq<ShipmentLine>, ys: seq<ShipmentLine>)
    ensures ReturnLines(p, code, xs + ys).Err? <==> ReturnLines(p, code, xs).Err? || ReturnLines(p, code, ys).Err?
  {
    assert forall i | 0 <= i < |xs| :: (xs + ys)[i] == xs[i];
    assert forall i | 0 <= i < |ys| :: (xs + ys)[|xs| + i] == ys[i];
  }

  /** After a successful save, with the order found and its sales channel
      resolved, the lines' compensations are placed against a
      "shipment_cancelled" event for the order; a localized failure of that
      call is logged at error and swallowed, any other escapes. */
  lemma PlacementAfterSave(p: Platform, s: Shipment)
    requires |s.items| > 0 && s.sourceCode.Some?
    requires ReturnLines(p, s.sourceCode.value, s.items).Ok?
    requires p.saveSourceItems(ReturnLines(p, s.sourceCode.value, s.items).value.sourceItems).None?
    requires s.orderId in p.orders && p.channelFor(p.orders[s.orderId]).Ok?
    ensures
      var order := p.orders[s.orderId];
      var call := Placement(ReturnLines(p, s.sourceCode.value, s.items).value.compensations,
                            p.channelFor(order).value, CancelEvent(order));
      var o := Execute(p, s);
      && o.placed == Some(call)
      && (p.placeReservations(call).None? ==> o.logged.None? && o.raised.None?)
      && (p.placeReservations(call).Some? && p.placeReservations(call).value.IsLocalized() ==>
            o.logged == Some(Error) && o.raised.None?)
      && (p.placeReservations(call) == Some(NonLocalized) ==> o.logged.None? && o.raised == Some(NonLocalized))
  {
  }

  /** After a successful save, a missing order or an unresolvable sales
      channel is logged at error and swallowed when localized; no
      reservation is placed. */
  lemma PlacementLookupFailure(p: Platform, s: Shipment)
    requires |s.items| > 0 && s.sourceCode.Some?
    requires ReturnLines(p, s.sourceCode.value, s.items).Ok?
    requires p.saveSourceItems(ReturnLines(p, s.sourceCode.value, s.items).value.sourceItems).None?
    requires s.orderId !in p.orders || p.channelFor(p.orders[s.orderId]).Err?
    ensures Execute(p, s).placed.None?
    ensures s.orderId !in p.orders ==> Execute(p, s).logged == Some(Error) && Execute(p, s).raised.None?
    ensures s.orderId in p.orders && p.channelFor(p.orders[s.orderId]).failure.IsLocalized() ==>
      Execute(p, s).logged == Some(Error) && Execute(p, s).raised.None?
  {
  }

  /** When the one save the run makes fails, no reservation is placed; the
      run completes normally, logging error or notice, exactly for the
      failures the processor catches, and otherwise the failure escapes. */
  lemma SaveFailureBlocksPlacement(p: Platform, s: Shipment)
    requires |s.items| > 0 && s.sourceCode.Some?
    requires ReturnLines(p, s.sourceCode.value, s.items).Ok?
    requires p.saveSourceItems(ReturnLines(p, s.sourceCode.value, s.items).value.sourceItems).Some?
    ensures
      var f := p.saveSourceItems(ReturnLines(p, s.sourceCode.value, s.items).value.sourceItems).value;
      var o := Execute(p, s);
      && o.placed.None?
      && (f == CouldNotSave ==> o.logged == Some(Error) && o.raised.None?)
      && (f in {InputError, ValidationError} ==> o.logged == Some(Notice) && o.raised.None?)
      && (f !in {CouldNotSave, InputError, ValidationError} ==> o.logged.None? && o.raised == Some(f))
  {
  }

  /** A platform where every service succeeds, with one order, one source
      item ("default", "A") holding `current`, and order item 1. */
  function ScenarioPlatform(item: OrderItem, current: real): Platform {
    Platform(
      map[1 := item],
      map[("default", "A") := current],
      map[7 := Order("7", "000000007")],
      (o: Order) => Ok(SalesChannel("website", "base")),
      (items: seq<SourceItem>) => None,
      (c: Placement) => None)
  }

  const ScenarioShipment: Shipment := Shipment(7, Some("default"), [ShipmentLine("A", 5.0, 1)])

  /** Five units of an order item shipped within its ordered quantity go
      back in full: source quantity 3 becomes 8, compensation -5. */
  lemma ScenarioWithinOrdered()
    ensures
      var o := Execute(ScenarioPlatform(OrderItem(10.0, 5.0), 3.0), ScenarioShipment);
      && o.saved == Some([SourceItem("default", "A", 8.0)])
      && o.placed.Some? && o.placed.value.items == [ItemToSell("A", -5.0)]
      && o.placed.value.event == SalesEvent("shipment_cancelled", "order", "7", "000000007")
      && o.logged.None? && o.raised.None?
  {
    var b := ReturnLines(ScenarioPlatform(OrderItem(10.0, 5.0), 3.0), "default", ScenarioShipment.items).value;
    assert b.sourceItems == [b.sourceItems[0]] && b.compensations == [b.compensations[0]];
  }

  /** The same line when the order item was over-shipped by 3: only 2 go
      back, compensation -2. */
  lemma ScenarioOvershipped()
    ensures
      var o := Execute(ScenarioPlatform(OrderItem(5.0, 8.0), 3.0), ScenarioShipment);
      && o.saved == Some([SourceItem("default", "A", 5.0)])
      && o.placed.Some? && o.placed.value.items == [ItemToSell("A", -2.0)]
      && o.logged.None? && o.raised.None?
  {
    var b := ReturnLines(ScenarioPlatform(OrderItem(5.0, 8.0), 3.0), "default", ScenarioShipment.items).value;
    assert b.sourceItems == [b.sourceItems[0]] && b.compensations == [b.compensations[0]];
  }

  /** An over-shipment larger than the cancelled line makes the
      compensation positive and lowers the source quantity. */
  lemma ScenarioOvershipmentExceedsLine()
    ensures
      var o := Execute(ScenarioPlatform(OrderItem(1.0, 8.0), 3.0), ScenarioShipment);
      && o.saved == Some([SourceItem("default", "A", 1.0)])
      && o.placed.Some? && o.placed.value.items == [ItemToSell("A", 2.0)]
  {
    var b := ReturnLines(ScenarioPlatform(OrderItem(1.0, 8.0), 3.0), "default", ScenarioShipment.items).value;
    assert b.sourceItems == [b.sourceItems[0]] && b.compensations == [b.compensations[0]];
  }
}
