/** The tables of the initial migration, as values, with the constraints it declares. */
module Schema {
  import opened MachineInt
  import opened Wrappers
  import opened Ordered

  datatype InvoiceState = Draft | Open | Paid | Void | Uncollectible

  datatype Invoice = Invoice(business: int, total: int64, state: InvoiceState)

  datatype Item = Item(invoice: int, description: string, quantity: int32, unitAmountCents: int64)

  datatype PaymentStatus = Processing | Succeeded | Failed | Unknown

  /** The JSON value of a payment answer; an empty string is an omitted field. */
  datatype Body = Body(
    attempt: int, invoice: int, status: PaymentStatus, invoiceState: InvoiceState,
    pspRef: string, failureCode: string, failureReason: string)

  datatype Response = Response(code: nat, body: Body)

  /** The row CHECK makes status PROCESSING and a null response the same thing. */
  datatype Key = Key(business: int, key: string, hash: string, response: Option<Response>)

  datatype Attempt = Attempt(
    invoice: int, key: int, status: PaymentStatus, request: int,
    pspRef: string, failureCode: string, failureReason: string)

  datatype Endpoint = Endpoint(business: int, active: bool)

  datatype Event =
    | InvoiceCreated(total: int64)
    | InvoicePaid(attempt: int, pspRef: string)
    | InvoicePaymentFailed(attempt: int, failureCode: string)

  datatype Delivery = Delivery(endpoint: int, invoice: int, event: Event)

  datatype Tables = Tables(
    invoices: map<int, Invoice>,
    items: map<int, Item>,
    keys: map<int, Key>,
    attempts: map<int, Attempt>,
    endpoints: map<int, Endpoint>,
    deliveries: map<int, Delivery>)

  const EMPTY := Tables(map[], map[], map[], map[], map[], map[])

  predicate Unresolved(status: PaymentStatus) {
    status == Processing || status == Unknown
  }

  /** uq_idempotency_keys_business_key would reject another row for this pair. */
  predicate KeyTaken(t: Tables, business: int, key: string) {
    exists k :: k in t.keys && t.keys[k].business == business && t.keys[k].key == key
  }

  /** One of the three unique indexes on payment_attempts would reject this row. */
  predicate AttemptClashes(t: Tables, a: Attempt) {
    exists i :: i in t.attempts && AttemptsClash(t.attempts[i], a)
  }

  predicate AttemptsClash(a: Attempt, b: Attempt) {
    || a.key == b.key
    || a.request == b.request
    || (a.invoice == b.invoice && Unresolved(a.status) && Unresolved(b.status))
  }

  /** The unique keys, unique indexes and foreign keys hold. */
  predicate ConstraintsHold(t: Tables) {
    && (forall j, k :: j in t.keys && k in t.keys && j != k
          ==> t.keys[j].business != t.keys[k].business || t.keys[j].key != t.keys[k].key)
    && (forall i, j :: i in t.attempts && j in t.attempts && i != j ==> !AttemptsClash(t.attempts[i], t.attempts[j]))
    && (forall i :: i in t.attempts ==> t.attempts[i].key in t.keys && t.attempts[i].invoice in t.invoices)
    && (forall i :: i in t.items ==> t.items[i].invoice in t.invoices)
    && (forall d :: d in t.deliveries ==>
          t.deliveries[d].endpoint in t.endpoints && t.deliveries[d].invoice in t.invoices)
  }

  function ActiveEndpointIds(endpoints: map<int, Endpoint>, business: int): set<int> {
    set e | e in endpoints && endpoints[e].business == business && endpoints[e].active
  }

  /** ListActiveWebhookEndpointsByBusinessID. */
  function ActiveEndpoints(t: Tables, business: int): seq<int> {
    InOrder(ActiveEndpointIds(t.endpoints, business))
  }
}
