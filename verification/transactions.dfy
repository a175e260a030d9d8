/** What each database transaction of the payment and invoice handlers does to the tables,
    as one atomic function: either its whole effect, or nothing.

    Two parameters stand for what the tables do not determine. `ids` are the values the id
    generator hands out: they may be anything, and a clash with a primary key fails the
    insert. `failAt` is the number of the first statement, counting from zero and counting
    the commit, that the server refuses for any other reason. */
module Transactions {
  import opened MachineInt
  import opened Wrappers
  import opened Schema
  import opened InvoiceTotal
  import opened Text

  datatype PayRequest = PayRequest(business: int, invoice: int, key: string, token: string)

  datatype ClaimIds = ClaimIds(key: int, attempt: int, request: int)

  /** A won claim: the rows it inserted and the invoice row it locked. */
  datatype Claim = Claim(key: int, attempt: int, request: int, invoiceId: int, invoice: Invoice)

  datatype ClaimError = HashConflict | InProgress | NotPayable | NotFound | Internal

  datatype LookupResult = Miss | Replay(response: Response) | Refused(error: ClaimError)

  /** A nil error from the PSP client implies one of the first two. */
  datatype PspReply = PspSucceeded(pspRef: string) | PspFailed(failureCode: string) | PspError

  // ----- the unlocked idempotency lookup

  ghost function FindKey(t: Tables, business: int, key: string): (k: Option<int>)
    ensures k == None <==> !KeyTaken(t, business, key)
    ensures k.Some? ==> k.value in t.keys && t.keys[k.value].business == business && t.keys[k.value].key == key
  {
    if KeyTaken(t, business, key) then
      var k :| k in t.keys && t.keys[k].business == business && t.keys[k].key == key;
      Some(k)
    else None
  }

  function JudgeKey(row: Key, hash: string): LookupResult {
    if row.hash != hash then Refused(HashConflict)
    else if row.response.Some? then Replay(row.response.value)
    else Refused(InProgress)
  }

  ghost function LookupTx(t: Tables, req: PayRequest, hash: string, fails: bool): LookupResult {
    if fails then Refused(Internal)
    else
      match FindKey(t, req.business, req.key)
      case None => Miss
      case Some(k) => JudgeKey(t.keys[k], hash)
  }

  // ----- lock the invoice and insert the key and the attempt

  function NewKey(req: PayRequest, hash: string): Key {
    Key(req.business, req.key, hash, None)
  }

  function NewAttempt(req: PayRequest, ids: ClaimIds): Attempt {
    Attempt(req.invoice, ids.key, Processing, ids.request, "", "", "")
  }

  predicate OwnsInvoice(t: Tables, business: int, invoice: int) {
    invoice in t.invoices && t.invoices[invoice].business == business
  }

  function Claimed(t: Tables, req: PayRequest, hash: string, ids: ClaimIds): Tables {
    t.(keys := t.keys[ids.key := NewKey(req, hash)],
       attempts := t.attempts[ids.attempt := NewAttempt(req, ids)])
  }

  function ClaimTx(t: Tables, req: PayRequest, hash: string, ids: ClaimIds, failAt: nat): (Tables, Result<Claim,
                   ClaimError>) {
    if failAt == 0 then (t, Err(Internal))
    else if !OwnsInvoice(t, req.business, req.invoice) then (t, Err(NotFound))
    else if t.invoices[req.invoice].state != Open then (t, Err(NotPayable))
    else if failAt == 1 || ids.key in t.keys || KeyTaken(t, req.business, req.key) then (t, Err(Internal))
    else if failAt == 2 then (t, Err(Internal))
    else if ids.attempt in t.attempts || AttemptClashes(t, NewAttempt(req, ids)) then (t, Err(InProgress))
    else if failAt == 3 then (t, Err(Internal))
    else
      (Claimed(t, req, hash, ids),
       Ok(Claim(ids.key, ids.attempt, ids.request, req.invoice, t.invoices[req.invoice])))
  }

  // ----- the outbox

  /** The table after the first n inserts of QueueDeliveries. */
  function Queued(d: map<int, Delivery>, endpoints: seq<int>, invoice: int, event: Event, ids: nat -> int,
                  n: nat): map<int, Delivery>
    requires n <= |endpoints|
  {
    if n == 0 then d
    else Queued(d, endpoints, invoice, event, ids, n - 1)[ids(n - 1) := Delivery(endpoints[n - 1], invoice, event)]
  }

  /** The first n inserts meet no primary key and no foreign key violation. */
  predicate Queueable(t: Tables, invoice: int, ids: nat -> int, n: nat) {
    && (n > 0 ==> invoice in t.invoices)
    && (forall i :: 0 <= i < n ==> ids(i) !in t.deliveries)
    && (forall i, j :: 0 <= i < j < n ==> ids(i) != ids(j))
  }

  function QueueAll(t: Tables, business: int, invoice: int, event: Event, ids: nat -> int): Tables {
    var endpoints := ActiveEndpoints(t, business);
    t.(deliveries := Queued(t.deliveries, endpoints, invoice, event, ids, |endpoints|))
  }

  // ----- finalize

  function StatusOf(reply: PspReply): PaymentStatus {
    match reply
    case PspSucceeded(_) => Succeeded
    case PspFailed(_) => Failed
    case PspError => Unknown
  }

  function CodeOf(status: PaymentStatus): nat {
    match status
    case Succeeded => 200
    case Failed => 402
    case Unknown => 202
    case Processing => 409
  }

  function AnswerTo(c: Claim, reply: PspReply): Response {
    var body := Body(c.attempt, c.invoiceId, StatusOf(reply), c.invoice.state, "", "", "");
    Response(CodeOf(StatusOf(reply)),
      match reply
      case PspSucceeded(pspRef) => body.(invoiceState := Paid, pspRef := pspRef)
      case PspFailed(code) => body.(failureCode := code)
      case PspError => body.(failureReason := "ambiguous_transport_error"))
  }

  function Settle(a: Attempt, reply: PspReply): Attempt {
    match reply
    case PspSucceeded(pspRef) => a.(status := Succeeded, pspRef := pspRef)
    case PspFailed(code) => a.(status := Failed, failureCode := code, failureReason := "payment_declined")
    case PspError => a.(status := Unknown, failureReason := "ambiguous_transport_error")
  }

  function EventFor(c: Claim, reply: PspReply): Event
    requires !reply.PspError?
  {
    match reply
    case PspSucceeded(pspRef) => InvoicePaid(c.attempt, pspRef)
    case PspFailed(code) => InvoicePaymentFailed(c.attempt, code)
  }

  /** Every guard, key and constraint the transaction meets on its way. */
  predicate Finalizable(t: Tables, c: Claim, reply: PspReply, business: int, ids: nat -> int) {
    && c.attempt in t.attempts && t.attempts[c.attempt].status == Processing
    && c.key in t.keys && t.keys[c.key].response == None
    && (reply.PspSucceeded? ==> OwnsInvoice(t, business, c.invoiceId) && t.invoices[c.invoiceId].state == Open)
    && (!reply.PspError? ==> Queueable(t, c.invoiceId, ids, |ActiveEndpoints(t, business)|))
  }

  function FinalizeStatements(t: Tables, reply: PspReply, business: int): nat {
    match reply
    case PspSucceeded(_) => 5 + |ActiveEndpoints(t, business)|
    case PspFailed(_) => 4 + |ActiveEndpoints(t, business)|
    case PspError => 3
  }

  function MarkSettled(t: Tables, c: Claim, reply: PspReply): Tables
    requires c.attempt in t.attempts && (reply.PspSucceeded? ==> c.invoiceId in t.invoices)
  {
    t.(attempts := t.attempts[c.attempt := Settle(t.attempts[c.attempt], reply)],
       invoices := if reply.PspSucceeded?
                   then t.invoices[c.invoiceId := t.invoices[c.invoiceId].(state := Paid)]
                   else t.invoices)
  }

  function Finalized(t: Tables, c: Claim, reply: PspReply, business: int, ids: nat -> int): Tables
    requires Finalizable(t, c, reply, business, ids)
  {
    var marked := MarkSettled(t, c, reply);
    var queued := if reply.PspError? then marked else QueueAll(marked, business, c.invoiceId, EventFor(c, reply), ids);
    queued.(keys := t.keys[c.key := t.keys[c.key].(response := Some(AnswerTo(c, reply)))])
  }

  function FinalizeTx(t: Tables, c: Claim, reply: PspReply, business: int, ids: nat -> int, failAt: nat): (Tables,
                      Option<Response>) {
    if Finalizable(t, c, reply, business, ids) && failAt >= FinalizeStatements(t, reply, business)
    then (Finalized(t, c, reply, business, ids), Some(AnswerTo(c, reply)))
    else (t, None)
  }

  // ----- void: a read and an unguarded write, in no common transaction

  datatype VoidCheck = VoidNotFound | VoidRefused | AlreadyVoid | MayVoid

  function VoidReadTx(t: Tables, business: int, invoice: int): VoidCheck {
    if !OwnsInvoice(t, business, invoice) then VoidNotFound
    else
      match t.invoices[invoice].state
      case Paid => VoidRefused
      case Uncollectible => VoidRefused
      case Void => AlreadyVoid
      case Draft => MayVoid
      case Open => MayVoid
  }

  function VoidWriteTx(t: Tables, business: int, invoice: int): Tables {
    if OwnsInvoice(t, business, invoice)
    then t.(invoices := t.invoices[invoice := t.invoices[invoice].(state := Void)])
    else t
  }

  // ----- invoice creation

  function StoredItem(invoice: int, itm: ItemInput): Item {
    Item(invoice, TrimSpace(itm.description), itm.quantity, itm.unitAmountCents)
  }

  function WithItems(items: map<int, Item>, invoice: int, inputs: seq<ItemInput>, ids: seq<int>, n: nat): map<int, Item>
    requires n <= |inputs| && n <= |ids|
  {
    if n == 0 then items
    else WithItems(items, invoice, inputs, ids, n - 1)[ids[n - 1] := StoredItem(invoice, inputs[n - 1])]
  }

  datatype NewInvoice = NewInvoice(
    id: int, business: int, state: InvoiceState, inputs: seq<ItemInput>, itemIds: seq<int>)

  /** The primary keys the inserts need, and the row CHECKs. */
  predicate Insertable(t: Tables, v: NewInvoice, rowIds: nat -> int) {
    && v.id !in t.invoices
    && |v.itemIds| == |v.inputs|
    && (forall i :: 0 <= i < |v.itemIds| ==> v.itemIds[i] !in t.items)
    && (forall i, j :: 0 <= i < j < |v.itemIds| ==> v.itemIds[i] != v.itemIds[j])
    && (forall i :: 0 <= i < |v.inputs| ==> v.inputs[i].quantity > 0 && v.inputs[i].unitAmountCents >= 0)
    && (forall i :: 0 <= i < |ActiveEndpoints(t, v.business)| ==> rowIds(i) !in t.deliveries)
    && (forall i, j :: 0 <= i < j < |ActiveEndpoints(t, v.business)| ==> rowIds(i) != rowIds(j))
  }

  /** The validated request as stored: invoice row, item rows, and INVOICE.CREATED rows. */
  function Created(t: Tables, v: NewInvoice, total: int64, rowIds: nat -> int): Tables
    requires |v.itemIds| == |v.inputs|
  {
    QueueAll(
      t.(invoices := t.invoices[v.id := Invoice(v.business, total, v.state)],
         items := WithItems(t.items, v.id, v.inputs, v.itemIds, |v.inputs|)),
      v.business, v.id, InvoiceCreated(total), rowIds)
  }

  function CreateStatements(t: Tables, v: NewInvoice): nat {
    3 + |v.inputs| + |ActiveEndpoints(t, v.business)|
  }

  function CreateTx(t: Tables, v: NewInvoice, total: int64, rowIds: nat -> int, failAt: nat): (Tables, bool) {
    if total >= 0 && Insertable(t, v, rowIds) && failAt >= CreateStatements(t, v)
    then (Created(t, v, total, rowIds), true)
    else (t, false)
  }
}
