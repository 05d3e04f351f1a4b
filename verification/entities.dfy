/** The records the cancel-shipment processor reads and builds, the failures
    its collaborators can raise, and the collaborators themselves, abstracted
    as plain data (repositories become maps, services become total functions
    from their arguments to an outcome). */
module Entities {

  datatype Option<+T> = None | Some(value: T)

  /** A value or the failure that stopped its computation. */
  datatype Result<+T> = Ok(value: T) | Err(failure: Failure)

  /** The exceptions the collaborators can throw. Every kind except
      `NonLocalized` is a subclass of the framework's localized exception. */
  datatype Failure =
    | NoSuchEntity     // a repository lookup found nothing
    | CouldNotSave     // a persistence backend rejected a write
    | InputError       // malformed input to a service
    | ValidationError  // domain validation rejected a request
    | OtherLocalized   // any other localized exception
    | NonLocalized     // an exception or error outside the localized hierarchy
  {
    predicate IsLocalized() {
      !NonLocalized?
    }
  }

  datatype Severity = Error | Notice

  type Sku = string
  type SourceCode = string

  /** One line of the shipment being cancelled. */
  datatype ShipmentLine = ShipmentLine(sku: Sku, qty: real, orderItemId: int)

  /** The shipment: its order, the (shipment-level) source it was shipped
      from, if any, and its lines in order. */
  datatype Shipment = Shipment(orderId: int, sourceCode: Option<SourceCode>, items: seq<ShipmentLine>)

  /** The quantities of an order item that matter for a return. */
  datatype OrderItem = OrderItem(qtyOrdered: real, qtyShipped: real)

  /** A source item with the absolute quantity it is to be saved with. */
  datatype SourceItem = SourceItem(sourceCode: SourceCode, sku: Sku, quantity: real)

  /** A reservation entry; for a cancellation it compensates the sale. */
  datatype ItemToSell = ItemToSell(sku: Sku, qty: real)

  datatype Order = Order(entityId: string, incrementId: string)

  datatype SalesChannel = SalesChannel(channelType: string, code: string)

  /** The sales event a reservation is placed for; `objectIncrementId` is
      the extension attribute carrying the order's increment id. */
  datatype SalesEvent = SalesEvent(eventType: string, objectType: string, objectId: string, objectIncrementId: string)

  const ShipmentCancelled: string := "shipment_cancelled"
  const ObjectTypeOrder: string := "order"

  /** The arguments of one call to the reservation-placement service. */
  datatype Placement = Placement(items: seq<ItemToSell>, channel: SalesChannel, event: SalesEvent)

  /** The collaborators. A missing key in a repository map is a lookup that
      throws `NoSuchEntity`; a service returns `Some(f)` when it throws `f`. */
  datatype Platform = Platform(
    orderItems: map<int, OrderItem>,
    sourceQuantities: map<(SourceCode, Sku), real>,
    orders: map<int, Order>,
    channelFor: Order -> Result<SalesChannel>,
    saveSourceItems: seq<SourceItem> -> Option<Failure>,
    placeReservations: Placement -> Option<Failure>)
}
