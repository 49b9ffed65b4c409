/** The order record of the Order model: line items, customer information, the
    status values, and the schema's required-field and enumeration rules. */
module OrderSchema {
  import opened Common

  /** A line of an order: a snapshot of the product, the quantity and the unit price. */
  datatype LineItem = LineItem(productId: ProductId, quantity: int, price: int)

  /** Contact and delivery details; an absent field is the empty string. */
  datatype CustomerInfo = CustomerInfo(
    name: string,
    email: string,
    phone: string,
    address: string,
    city: string,
    state: string,
    deliveryOption: string,
    pickupLocation: string,
    estimatedDelivery: string)

  /** Every status value the order controller writes or the schema lists. */
  datatype Status = Pending | Processing | Accepted | Rejected | Completed | Cancelled

  /** The delivery values a rider may set; an order that never had one holds None. */
  datatype DeliveryStatus = EnRoute | Delivered

  datatype Order = Order(
    user: UserId,
    items: seq<LineItem>,
    customerInfo: CustomerInfo,
    deliveryFee: int,
    prescriptionUrl: string,
    totalAmount: int,
    status: Status,
    paymentReference: string,
    rider: Option<UserId>,
    riderName: Option<string>,
    deliveryStatus: Option<DeliveryStatus>)

  const DeliveryOptions: set<string> := {"express", "timeframe"}
  const PickupLocations: set<string> := {"Zik", "Indy", "Awo", "Idia", "Mellanby"}

  /** The status enumeration of the schema; it has no accepted and no rejected. */
  const SchemaStatuses: set<Status> := {Pending, Processing, Completed, Cancelled}

  /** The schema's default status. */
  const DefaultStatus: Status := Pending

  /** The text the controller stores and passes to the notification services. */
  function StatusName(s: Status): string
  {
    match s
    case Pending => "pending"
    case Processing => "processing"
    case Accepted => "accepted"
    case Rejected => "rejected"
    case Completed => "completed"
    case Cancelled => "cancelled"
  }

  function DeliveryStatusName(d: DeliveryStatus): string
  {
    match d
    case EnRoute => "en_route"
    case Delivered => "delivered"
  }

  predicate LineItemValid(line: LineItem)
  {
    line.productId != "" && line.quantity >= 1
  }

  predicate CustomerInfoValid(c: CustomerInfo)
  {
    && c.name != "" && c.email != "" && c.phone != ""
    && c.address != "" && c.city != "" && c.state != ""
    && c.deliveryOption in DeliveryOptions
    && c.pickupLocation in PickupLocations
    && c.estimatedDelivery != ""
  }

  /** What the schema demands of a saved order (deliveryFee and totalAmount are
      numbers here, so their presence is given by the type). */
  predicate SchemaValid(o: Order)
  {
    && o.user != ""
    && (forall i :: 0 <= i < |o.items| ==> LineItemValid(o.items[i]))
    && CustomerInfoValid(o.customerInfo)
    && o.status in SchemaStatuses
  }

  /** The statuses written by the admin decision lie outside the schema's enumeration. */
  lemma DecisionStatusesOutsideEnum()
    ensures Accepted !in SchemaStatuses && Rejected !in SchemaStatuses
    ensures DefaultStatus in SchemaStatuses && Processing in SchemaStatuses
  {
  }
}
