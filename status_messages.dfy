/** The order-status message table that both the email and the WhatsApp
    notification services use: five fixed texts keyed by status, and a generic text
    for any other status. */
module StatusMessages {
  import opened Common

  /** The statuses with a fixed text. */
  const MessageKeys: set<string> := {"processing", "accepted", "rejected", "en_route", "delivered"}

  function ProcessingText(customerName: string, orderId: string): string
  {
    "Hi " + customerName + "! Your order #" + orderId + " is being processed. We'll notify you once it's ready."
  }

  function AcceptedText(customerName: string, orderId: string): string
  {
    "Great news " + customerName + "! Your order #" + orderId + " has been accepted and is being prepared."
  }

  function RejectedText(customerName: string, orderId: string, additionalInfo: string): string
  {
    "Sorry " + customerName + ", your order #" + orderId + " has been rejected. " + additionalInfo
  }

  function EnRouteText(orderId: string): string
  {
    "Your order #" + orderId + " is on the way! Our rider will deliver it shortly."
  }

  function DeliveredText(orderId: string): string
  {
    "Your order #" + orderId + " has been delivered successfully. Thank you for choosing us!"
  }

  /** The table, filled in for one customer, order and extra note. */
  function StatusTable(customerName: string, orderId: string, additionalInfo: string): map<string, string>
  {
    map[
      "processing" := ProcessingText(customerName, orderId),
      "accepted" := AcceptedText(customerName, orderId),
      "rejected" := RejectedText(customerName, orderId, additionalInfo),
      "en_route" := EnRouteText(orderId),
      "delivered" := DeliveredText(orderId)
    ]
  }

  function GenericMessage(orderId: string, status: string): string
  {
    "Order #" + orderId + " status updated to: " + status
  }

  /** `statusMessages[status] || generic`: the table entry unless it is missing or
      empty. No entry is empty, so the generic text is used exactly for the
      statuses outside the table. */
  function StatusMessage(customerName: string, orderId: string, status: string, additionalInfo: string): (m: string)
    ensures status in MessageKeys ==> m == StatusTable(customerName, orderId, additionalInfo)[status]
    ensures status !in MessageKeys ==> m == GenericMessage(orderId, status)
  {
    var table := StatusTable(customerName, orderId, additionalInfo);
    if status in table && table[status] != "" then table[status] else GenericMessage(orderId, status)
  }

  /** Text ending in '#', then the id, then anything, names the order as "#<id>". */
  lemma HashThenId(a: string, orderId: string, b: string)
    requires a != [] && a[|a| - 1] == '#'
    ensures Contains(a + orderId + b, "#" + orderId)
  {
    var s := a + orderId + b;
    assert s[|a| - 1..|a| + |orderId|] == "#" + orderId;
    assert OccursAt(s, "#" + orderId, |a| - 1);
  }

  /** Each fixed text names the order as "#<id>". */
  lemma FixedTextsNameOrder(customerName: string, orderId: string, additionalInfo: string)
    ensures Contains(ProcessingText(customerName, orderId), "#" + orderId)
    ensures Contains(AcceptedText(customerName, orderId), "#" + orderId)
    ensures Contains(RejectedText(customerName, orderId, additionalInfo), "#" + orderId)
    ensures Contains(EnRouteText(orderId), "#" + orderId)
    ensures Contains(DeliveredText(orderId), "#" + orderId)
  {
    HashThenId("Hi " + customerName + "! Your order #", orderId, " is being processed. We'll notify you once it's ready.");
    HashThenId("Great news " + customerName + "! Your order #", orderId, " has been accepted and is being prepared.");
    assert RejectedText(customerName, orderId, additionalInfo)
        == "Sorry " + customerName + ", your order #" + orderId + (" has been rejected. " + additionalInfo);
    HashThenId("Sorry " + customerName + ", your order #", orderId, " has been rejected. " + additionalInfo);
    HashThenId("Your order #", orderId, " is on the way! Our rider will deliver it shortly.");
    HashThenId("Your order #", orderId, " has been delivered successfully. Thank you for choosing us!");
  }

  /** Every message, fixed or generic, names the order as "#<id>". */
  lemma StatusMessageNamesOrder(customerName: string, orderId: string, status: string, additionalInfo: string)
    ensures Contains(StatusMessage(customerName, orderId, status, additionalInfo), "#" + orderId)
  {
    var w := "#" + orderId;
    var table := StatusTable(customerName, orderId, additionalInfo);
    FixedTextsNameOrder(customerName, orderId, additionalInfo);
    if status in MessageKeys {
      assert Contains(table[status], w);
    } else {
      assert GenericMessage(orderId, status) == "Order #" + orderId + (" status updated to: " + status);
      HashThenId("Order #", orderId, " status updated to: " + status);
    }
  }
}
