/** Returning stock when a shipment is cancelled: for every line the
    returned quantity is added to the source item's quantity and a negative
    reservation compensates the earlier sale; the source items are saved as
    one batch and, only if that succeeds, the compensations are placed. */
module CancelShipment {
  import opened Entities
  import opened ReturnQty

  /** The source items and the reservation compensations built from the
      lines of one shipment, in line order. */
  datatype Batch = Batch(sourceItems: seq<SourceItem>, compensations: seq<ItemToSell>)

  /** What one run left behind: the batch handed to the source-items save,
      the call made to the reservation service, the severity of the one log
      entry, and the exception that escaped, each if there was one. */
  datatype Outcome = Outcome(
    saved: Option<seq<SourceItem>>,
    placed: Option<Placement>,
    logged: Option<Severity>,
    raised: Option<Failure>)

  /** A run that touched nothing and completed normally. */
  const Quiet: Outcome := Outcome(None, None, None, None)

  /** Both lookups a line needs succeed. */
  predicate Resolvable(p: Platform, code: SourceCode, line: ShipmentLine) {
    line.orderItemId in p.orderItems && (code, line.sku) in p.sourceQuantities
  }

  /** The quantity a resolvable line returns to stock. */
  function LineBackQty(p: Platform, code: SourceCode, line: ShipmentLine): real
    requires Resolvable(p, code, line)
  {
    BackQty(line, p.orderItems[line.orderItemId])
  }

  /** The source item and the compensation for one line: the order item is
      looked up first, then the source item for the shipment's source and
      the line's SKU; either missing lookup throws. */
  function ReturnLine(p: Platform, code: SourceCode, line: ShipmentLine): (r: Result<(SourceItem, ItemToSell)>)
    ensures r.Ok? <==> Resolvable(p, code, line)
    ensures r.Err? ==> r.failure == NoSuchEntity
    ensures r.Ok? ==>
      var current := p.sourceQuantities[(code, line.sku)];
      var back := LineBackQty(p, code, line);
      && r.value.0 == SourceItem(code, line.sku, current + back)
      && r.value.1 == ItemToSell(line.sku, -back)
  {
    if line.orderItemId !in p.orderItems then Err(NoSuchEntity)
    else
      var back := BackQty(line, p.orderItems[line.orderItemId]);
      if (code, line.sku) !in p.sourceQuantities then Err(NoSuchEntity)
      else
        var current := p.sourceQuantities[(code, line.sku)];
        Ok((SourceItem(code, line.sku, current + back), ItemToSell(line.sku, -back)))
  }

  /** The batch for a sequence of lines all taken from source `code`: one
      source item and one compensation per line, in line order, each
      compensation the negation of the stock its source item gains; or the
      failure of the first lookup that does not succeed. */
  function ReturnLines(p: Platform, code: SourceCode, lines: seq<ShipmentLine>): (r: Result<Batch>)
    ensures r.Ok? <==> forall i | 0 <= i < |lines| :: Resolvable(p, code, lines[i])
    ensures r.Err? ==> r.failure == NoSuchEntity
    ensures r.Ok? ==> |r.value.sourceItems| == |lines| == |r.value.compensations|
    ensures r.Ok? ==> forall i | 0 <= i < |lines| ::
      ReturnLine(p, code, lines[i]) == Ok((r.value.sourceItems[i], r.value.compensations[i]))
  {
    if |lines| == 0 then Ok(Batch([], []))
    else
      match ReturnLine(p, code, lines[0])
      case Err(f) => Err(f)
      case Ok(first) =>
        match ReturnLines(p, code, lines[1..])
        case Err(f) => Err(f)
        case Ok(rest) => Ok(Batch([first.0] + rest.sourceItems, [first.1] + rest.compensations))
  }

  /** Entry `i` of a batch is the source item of line `i`, from the
      shipment's source, with current quantity plus returned quantity, and a
      compensation for the same SKU equal to the current quantity minus the
      new one. */
  lemma ReturnLinesEntries(p: Platform, code: SourceCode, lines: seq<ShipmentLine>, i: int)
    requires ReturnLines(p, code, lines).Ok? && 0 <= i < |lines|
    ensures
      var b := ReturnLines(p, code, lines).value;
      var current := p.sourceQuantities[(code, lines[i].sku)];
      && b.sourceItems[i].sourceCode == code
      && b.sourceItems[i].sku == lines[i].sku == b.compensations[i].sku
      && b.sourceItems[i].quantity == current + LineBackQty(p, code, lines[i])
      && b.compensations[i].qty == current - b.sourceItems[i].quantity
  {
  }

  /** The batch the shipment's lines produce: every line is skipped when the
      shipment has no source code. */
  function Collected(p: Platform, s: Shipment): Result<Batch> {
    match s.sourceCode
    case None => Ok(Batch([], []))
    case Some(code) => ReturnLines(p, code, s.items)
  }

  /** The loop over the shipment lines as the processor runs it: the source
      code is tested on every line, each lookup may throw, and the two lists
      grow one entry per processed line. It builds exactly `Collected`. */
  method CollectReturns(p: Platform, s: Shipment) returns (r: Result<Batch>)
    ensures r == Collected(p, s)
  {
    var sourceItems: seq<SourceItem> := [];
    var itemToSell: seq<ItemToSell> := [];
    for i := 0 to |s.items|
      invariant s.sourceCode.None? ==> sourceItems == [] && itemToSell == []
      invariant s.sourceCode.Some? ==>
        ReturnLines(p, s.sourceCode.value, s.items[..i]) == Ok(Batch(sourceItems, itemToSell))
    {
      var line := s.items[i];
      if s.sourceCode.None? {
        continue;
      }
      var code := s.sourceCode.value;
      if line.orderItemId !in p.orderItems {
        ReturnLinesFailsAt(p, code, s.items, i);
        return Err(NoSuchEntity);
      }
      var back := BackQty(line, p.orderItems[line.orderItemId]);
      if (code, line.sku) !in p.sourceQuantities {
        ReturnLinesFailsAt(p, code, s.items, i);
        return Err(NoSuchEntity);
      }
      var current := p.sourceQuantities[(code, line.sku)];
      sourceItems := sourceItems + [SourceItem(code, line.sku, current + back)];
      itemToSell := itemToSell + [ItemToSell(line.sku, -back)];
      ReturnLinesSnoc(p, code, s.items[..i], line);
      assert s.items[..i + 1] == s.items[..i] + [line];
    }
    if s.sourceCode.Some? {
      assert s.items[..|s.items|] == s.items;
    }
    r := Ok(Batch(sourceItems, itemToSell));
  }

  /** A line whose lookups fail makes the whole sequence fail. */
  lemma ReturnLinesFailsAt(p: Platform, code: SourceCode, lines: seq<ShipmentLine>, i: int)
    requires 0 <= i < |lines| && !Resolvable(p, code, lines[i])
    ensures ReturnLines(p, code, lines) == Err(NoSuchEntity)
  {
  }

  /** Processing one more line appends its entries to the batch so far. */
  lemma {:induction false} ReturnLinesSnoc(p: Platform, code: SourceCode, lines: seq<ShipmentLine>, line: ShipmentLine)
    requires ReturnLines(p, code, lines).Ok?
    requires Resolvable(p, code, line)
    ensures
      var b := ReturnLines(p, code, lines).value;
      var one := ReturnLine(p, code, line).value;
      ReturnLines(p, code, lines + [line]) == Ok(Batch(b.sourceItems + [one.0], b.compensations + [one.1]))
    decreases |lines|
  {
    if |lines| == 0 {
      var one := ReturnLine(p, code, line).value;
      assert lines + [line] == [line];
      assert ReturnLines(p, code, [line][1..]) == Ok(Batch([], []));
      assert [one.0] + [] == [] + [one.0];
      assert [one.1] + [] == [] + [one.1];
    } else {
      assert (lines + [line])[0] == lines[0];
      assert (lines + [line])[1..] == lines[1..] + [line];
      ReturnLinesSnoc(p, code, lines[1..], line);
      var first := ReturnLine(p, code, lines[0]).value;
      var rest := ReturnLines(p, code, lines[1..]).value;
      var one := ReturnLine(p, code, line).value;
      assert [first.0] + (rest.sourceItems + [one.0]) == ([first.0] + rest.sourceItems) + [one.0];
      assert [first.1] + (rest.compensations + [one.1]) == ([first.1] + rest.compensations) + [one.1];
    }
  }

  /** The sales event the compensation is placed for. */
  function CancelEvent(order: Order): (e: SalesEvent)
    ensures e.eventType == "shipment_cancelled" && e.objectType == "order"
    ensures e.objectId == order.entityId && e.objectIncrementId == order.incrementId
  {
    SalesEvent(ShipmentCancelled, ObjectTypeOrder, order.entityId, order.incrementId)
  }

  /** The result of the placement helper: the call it made to the
      reservation service, if it got that far, and what it threw. */
  datatype Attempt = Attempt(call: Option<Placement>, raised: Option<Failure>)

  /** Placing the compensations: look up the order (may throw), resolve its
      sales channel (may throw), then hand the compensations, the channel
      and a "shipment_cancelled" event for the order to the reservation
      service (may throw). */
  function PlaceReservation(p: Platform, s: Shipment, compensations: seq<ItemToSell>): (a: Attempt)
    ensures s.orderId !in p.orders ==> a == Attempt(None, Some(NoSuchEntity))
    ensures a.call.Some? ==>
      && s.orderId in p.orders
      && p.channelFor(p.orders[s.orderId]).Ok?
      && a.call.value.items == compensations
      && a.call.value.channel == p.channelFor(p.orders[s.orderId]).value
      && a.call.value.event.eventType == "shipment_cancelled"
      && a.call.value.event.objectType == "order"
      && a.call.value.event.objectId == p.orders[s.orderId].entityId
      && a.call.value.event.objectIncrementId == p.orders[s.orderId].incrementId
      && a.raised == p.placeReservations(a.call.value)
    ensures a.call.None? ==> a.raised.Some?
    ensures s.orderId in p.orders && p.channelFor(p.orders[s.orderId]).Ok? ==> a.call.Some?
    ensures s.orderId in p.orders && p.channelFor(p.orders[s.orderId]).Err? ==>
      a == Attempt(None, Some(p.channelFor(p.orders[s.orderId]).failure))
  {
    if s.orderId !in p.orders then Attempt(None, Some(NoSuchEntity))
    else
      var order := p.orders[s.orderId];
      match p.channelFor(order)
      case Err(f) => Attempt(None, Some(f))
      case Ok(channel) =>
        var call := Placement(compensations, channel, CancelEvent(order));
        Attempt(Some(call), p.placeReservations(call))
  }

  /** The save failures the processor catches, and the severity it logs
      each at. */
  function SaveFailureSeverity(f: Failure): Option<Severity> {
    match f
    case CouldNotSave => Some(Error)
    case InputError => Some(Notice)
    case ValidationError => Some(Notice)
    case _ => None
  }

  /** Saving the batch and then placing the compensations. Placement runs
      only after a successful save; every localized failure of placement is
      logged at error and swallowed; a save failure is logged (error for a
      failed write, notice for bad input or validation) and swallowed, or
      escapes when it is of another kind. */
  function Commit(p: Platform, s: Shipment, b: Batch): (o: Outcome)
    ensures o.saved == Some(b.sourceItems)
    ensures o.placed.Some? ==> p.saveSourceItems(b.sourceItems).None? && o.placed.value.items == b.compensations
    ensures p.saveSourceItems(b.sourceItems).Some? ==> o.placed.None?
    ensures o.logged == Some(Notice) <==>
      p.saveSourceItems(b.sourceItems) in {Some(InputError), Some(ValidationError)}
    ensures o.logged == Some(Error) <==>
      || p.saveSourceItems(b.sourceItems) == Some(CouldNotSave)
      || (p.saveSourceItems(b.sourceItems).None? && PlaceReservation(p, s, b.compensations).raised.Some?
          && PlaceReservation(p, s, b.compensations).raised.value.IsLocalized())
    ensures p.saveSourceItems(b.sourceItems).Some? ==>
      (o.raised.Some? <==> p.saveSourceItems(b.sourceItems).value !in {CouldNotSave, InputError, ValidationError})
    ensures o.raised.Some? ==> o.logged.None?
    ensures p.saveSourceItems(b.sourceItems).Some? && o.raised.Some? ==> o.raised == p.saveSourceItems(b.sourceItems)
    ensures p.saveSourceItems(b.sourceItems).None? && o.raised.Some? ==> o.raised == PlaceReservation(p, s, b.compensations).raised
    ensures o.raised.Some? && p.saveSourceItems(b.sourceItems).None? ==> o.raised == Some(NonLocalized)
    ensures p.saveSourceItems(b.sourceItems).None? ==> o.placed == PlaceReservation(p, s, b.compensations).call
    ensures p.saveSourceItems(b.sourceItems).None? && PlaceReservation(p, s, b.compensations).raised == Some(NonLocalized) ==>
      o.raised == Some(NonLocalized)
  {
    match p.saveSourceItems(b.sourceItems)
    case Some(f) =>
      (match SaveFailureSeverity(f)
       case Some(level) => Outcome(Some(b.sourceItems), None, Some(level), None)
       case None => Outcome(Some(b.sourceItems), None, None, Some(f)))
    case None =>
      var a := PlaceReservation(p, s, b.compensations);
      if a.raised.Some? && a.raised.value.IsLocalized() then
        Outcome(Some(b.sourceItems), a.call, Some(Error), None)
      else
        Outcome(Some(b.sourceItems), a.call, None, a.raised)
  }

  /** Handling a shipment cancellation. */
  function Execute(p: Platform, s: Shipment): (o: Outcome)
    // an empty shipment, or one without a source, touches nothing
    ensures |s.items| == 0 || s.sourceCode.None? ==> o == Quiet
    // a failed lookup escapes before anything is saved
    ensures |s.items| > 0 && s.sourceCode.Some? && ReturnLines(p, s.sourceCode.value, s.items).Err? ==>
      o == Outcome(None, None, None, Some(NoSuchEntity))
    // the saved batch is the lines' batch
    ensures o.saved.Some? ==>
      && s.sourceCode.Some? && |s.items| > 0
      && ReturnLines(p, s.sourceCode.value, s.items).Ok?
      && o.saved.value == ReturnLines(p, s.sourceCode.value, s.items).value.sourceItems
    // no reservation is placed unless the save succeeded, and it carries the compensations
    ensures o.placed.Some? ==>
      && o.saved.Some? && p.saveSourceItems(o.saved.value).None?
      && o.placed.value.items == ReturnLines(p, s.sourceCode.value, s.items).value.compensations
    // nothing is both logged and thrown; a placement failure escapes only when not localized
    ensures o.raised.Some? ==> o.logged.None?
    ensures o.raised.Some? && o.saved.Some? && p.saveSourceItems(o.saved.value).None? ==>
      o.raised == Some(NonLocalized)
    // a sourced shipment whose lookups all succeed is saved, then committed by the two-stage policy
    ensures |s.items| > 0 && s.sourceCode.Some? && ReturnLines(p, s.sourceCode.value, s.items).Ok? ==>
      && o.saved == Some(ReturnLines(p, s.sourceCode.value, s.items).value.sourceItems)
      && o == Commit(p, s, ReturnLines(p, s.sourceCode.value, s.items).value)
    // placement happens exactly after a successful save, with the order found and its channel resolved
    ensures o.placed.Some? <==>
      && o.saved.Some? && p.saveSourceItems(o.saved.value).None?
      && s.orderId in p.orders && p.channelFor(p.orders[s.orderId]).Ok?
    // the severity logged
    ensures o.logged == Some(Notice) <==>
      o.saved.Some? && p.saveSourceItems(o.saved.value) in {Some(InputError), Some(ValidationError)}
    ensures o.logged == Some(Error) <==>
      && o.saved.Some?
      && (|| p.saveSourceItems(o.saved.value) == Some(CouldNotSave)
          || (p.saveSourceItems(o.saved.value).None?
              && PlaceReservation(p, s, ReturnLines(p, s.sourceCode.value, s.items).value.compensations).raised.Some?
              && PlaceReservation(p, s, ReturnLines(p, s.sourceCode.value, s.items).value.compensations).raised.value.IsLocalized()))
  {
    if |s.items| == 0 then Quiet
    else
      match Collected(p, s)
      case Err(f) => Outcome(None, None, None, Some(f))
      case Ok(b) => if |b.sourceItems| == 0 then Quiet else Commit(p, s, b)
  }
}
