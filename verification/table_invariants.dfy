/** What every committed state of the tables satisfies, transaction by transaction. */
module TableInvariants {
  import opened MachineInt
  import opened Wrappers
  import opened Ordered
  import opened Schema
  import opened Transactions

  ghost predicate HasAttempt(t: Tables, k: int) {
    exists a :: a in t.attempts && t.attempts[a].key == k
  }

  ghost predicate HasSuccess(t: Tables, invoice: int) {
    exists a :: a in t.attempts && SucceededFor(t.attempts[a], invoice)
  }

  predicate SucceededFor(a: Attempt, invoice: int) {
    a.invoice == invoice && a.status == Succeeded
  }

  /** PROCESSING with PROCESSING; 200, 402, 202 with SUCCEEDED, FAILED, UNKNOWN, and a body that
      tells what the attempt's row tells. */
  predicate Agree(response: Option<Response>, id: int, a: Attempt) {
    match response
    case None => a.status == Processing && a.pspRef == a.failureCode == a.failureReason == ""
    case Some(r) => a.status != Processing && r.code == CodeOf(a.status) && Reports(r.body, id, a)
  }

  /** A declined payment's reason is in the row only. The invoice state is PAID for a success,
      and for any other outcome the one seen at the claim. */
  predicate Reports(body: Body, id: int, a: Attempt) {
    && body.attempt == id && body.invoice == a.invoice && body.status == a.status
    && body.pspRef == a.pspRef && body.failureCode == a.failureCode
    && body.failureReason == (if a.status == Failed then "" else a.failureReason)
    && body.invoiceState == (if a.status == Succeeded then Paid else Open)
  }

  /** Keys and attempts of one business pair off, in agreeing states. */
  ghost predicate Paired(t: Tables) {
    && (forall k :: k in t.keys ==> HasAttempt(t, k))
    && (forall a :: a in t.attempts ==> PairOk(t, a))
  }

  predicate PairOk(t: Tables, a: int)
    requires a in t.attempts
  {
    var row := t.attempts[a];
    && row.key in t.keys && row.invoice in t.invoices
    && t.keys[row.key].business == t.invoices[row.invoice].business
    && Agree(t.keys[row.key].response, a, row)
  }

  /** A success is alone among failures, and its invoice has left OPEN; PAID has a success. */
  ghost predicate Settled(t: Tables) {
    && (forall a, b :: a in t.attempts && b in t.attempts && a != b ==> SuccessIsAlone(t.attempts[a], t.attempts[b]))
    && (forall a :: a in t.attempts && t.attempts[a].status == Succeeded ==> LeftOpen(t, t.attempts[a].invoice))
    && (forall i :: i in t.invoices && t.invoices[i].state == Paid ==> HasSuccess(t, i))
  }

  predicate SuccessIsAlone(a: Attempt, b: Attempt) {
    a.status == Succeeded && a.invoice == b.invoice ==> b.status == Failed
  }

  predicate LeftOpen(t: Tables, invoice: int) {
    invoice in t.invoices && (t.invoices[invoice].state == Paid || t.invoices[invoice].state == Void)
  }

  /** The outbox row was written by the commit of the outcome it announces. */
  predicate Announces(t: Tables, d: Delivery) {
    match d.event
    case InvoiceCreated(total) => d.invoice in t.invoices && t.invoices[d.invoice].total == total
    case InvoicePaid(a, pspRef) =>
      a in t.attempts && SucceededFor(t.attempts[a], d.invoice) && t.attempts[a].pspRef == pspRef
    case InvoicePaymentFailed(a, code) =>
      && a in t.attempts && t.attempts[a].invoice == d.invoice
      && t.attempts[a].status == Failed && t.attempts[a].failureCode == code
  }

  predicate SameNotice(d: Delivery, e: Delivery) {
    d.endpoint == e.endpoint && d.invoice == e.invoice && d.event == e.event
  }

  ghost predicate OutboxOk(t: Tables) {
    && (forall d :: d in t.deliveries ==> RowOk(t, t.deliveries[d]))
    && (forall d, e :: d in t.deliveries && e in t.deliveries && d != e
          ==> !SameNotice(t.deliveries[d], t.deliveries[e]))
  }

  predicate RowOk(t: Tables, d: Delivery) {
    && d.invoice in t.invoices && d.endpoint in t.endpoints
    && t.endpoints[d.endpoint].business == t.invoices[d.invoice].business
    && Announces(t, d)
  }

  ghost predicate TablesOk(t: Tables) {
    ConstraintsHold(t) && Paired(t) && Settled(t) && OutboxOk(t)
  }

  lemma EmptyOk()
    ensures TablesOk(EMPTY)
  {
  }

  // ----- claim

  ghost predicate ClaimEnabled(t: Tables, req: PayRequest, ids: ClaimIds) {
    && OwnsInvoice(t, req.business, req.invoice) && t.invoices[req.invoice].state == Open
    && ids.key !in t.keys && !KeyTaken(t, req.business, req.key)
    && ids.attempt !in t.attempts && !AttemptClashes(t, NewAttempt(req, ids))
  }

  lemma ClaimKeepsConstraints(t: Tables, req: PayRequest, hash: string, ids: ClaimIds)
    requires TablesOk(t) && ClaimEnabled(t, req, ids)
    ensures ConstraintsHold(Claimed(t, req, hash, ids))
  {
  }

  lemma ClaimKeepsPairs(t: Tables, req: PayRequest, hash: string, ids: ClaimIds)
    requires TablesOk(t) && ClaimEnabled(t, req, ids)
    ensures Paired(Claimed(t, req, hash, ids))
  {
    var t' := Claimed(t, req, hash, ids);
    forall k | k in t'.keys ensures HasAttempt(t', k) {
      if k == ids.key {
        assert t'.attempts[ids.attempt].key == k;
      } else {
        assert HasAttempt(t, k);
        var a :| a in t.attempts && t.attempts[a].key == k;
        assert t'.attempts[a].key == k;
      }
    }
  }

  lemma ClaimKeepsRest(t: Tables, req: PayRequest, hash: string, ids: ClaimIds)
    requires TablesOk(t) && ClaimEnabled(t, req, ids)
    ensures Settled(Claimed(t, req, hash, ids)) && OutboxOk(Claimed(t, req, hash, ids))
  {
    var t' := Claimed(t, req, hash, ids);
    forall i | i in t'.invoices && t'.invoices[i].state == Paid ensures HasSuccess(t', i) {
      assert HasSuccess(t, i);
      var a :| a in t.attempts && SucceededFor(t.attempts[a], i);
      assert SucceededFor(t'.attempts[a], i);
    }
  }

  lemma ClaimKeepsTables(t: Tables, req: PayRequest, hash: string, ids: ClaimIds)
    requires TablesOk(t) && ClaimEnabled(t, req, ids)
    ensures TablesOk(Claimed(t, req, hash, ids))
  {
    ClaimKeepsConstraints(t, req, hash, ids);
    ClaimKeepsPairs(t, req, hash, ids);
    ClaimKeepsRest(t, req, hash, ids);
  }

  // ----- the outbox

  /** Queueing keeps every old row and adds exactly one row per listed endpoint. */
  lemma {:induction false} QueuedContents(d: map<int, Delivery>, endpoints: seq<int>, invoice: int, event: Event,
                        ids: nat -> int, n: nat)
    requires n <= |endpoints|
    requires forall i :: 0 <= i < n ==> ids(i) !in d
    requires forall i, j :: 0 <= i < j < n ==> ids(i) != ids(j)
    ensures var q := Queued(d, endpoints, invoice, event, ids, n);
            && (forall x :: x in d ==> x in q && q[x] == d[x])
            && (forall i :: 0 <= i < n ==> ids(i) in q && q[ids(i)] == Delivery(endpoints[i], invoice, event))
            && (forall x :: x in q && x !in d ==> exists i :: 0 <= i < n && x == ids(i))
  {
    if n > 0 {
      QueuedContents(d, endpoints, invoice, event, ids, n - 1);
    }
  }

  /** No outbox row for this event exists yet, and the listed endpoints may get one. */
  ghost predicate MayAnnounce(t: Tables, endpoints: seq<int>, invoice: int, event: Event) {
    && Increasing(endpoints)
    && (forall d :: d in t.deliveries ==> t.deliveries[d].invoice != invoice || t.deliveries[d].event != event)
    && (forall i :: 0 <= i < |endpoints| ==> RowOk(t, Delivery(endpoints[i], invoice, event)))
  }

  lemma QueueKeepsOutbox(t: Tables, endpoints: seq<int>, invoice: int, event: Event, ids: nat -> int)
    requires OutboxOk(t) && Queueable(t, invoice, ids, |endpoints|) && MayAnnounce(t, endpoints, invoice, event)
    ensures OutboxOk(t.(deliveries := Queued(t.deliveries, endpoints, invoice, event, ids, |endpoints|)))
  {
    var q := Queued(t.deliveries, endpoints, invoice, event, ids, |endpoints|);
    var t' := t.(deliveries := q);
    QueuedContents(t.deliveries, endpoints, invoice, event, ids, |endpoints|);
    forall d | d in q ensures RowOk(t', q[d]) {
      if d in t.deliveries {
        assert RowOk(t, t.deliveries[d]);
      } else {
        var i :| 0 <= i < |endpoints| && d == ids(i);
        assert RowOk(t, Delivery(endpoints[i], invoice, event));
      }
    }
    forall d, e | d in q && e in q && d != e ensures !SameNotice(q[d], q[e]) {
      QueuedDiffer(t, endpoints, invoice, event, ids, d, e);
    }
  }

  lemma QueuedDiffer(t: Tables, endpoints: seq<int>, invoice: int, event: Event, ids: nat -> int, d: int, e: int)
    requires OutboxOk(t) && Queueable(t, invoice, ids, |endpoints|) && MayAnnounce(t, endpoints, invoice, event)
    requires var q := Queued(t.deliveries, endpoints, invoice, event, ids, |endpoints|); d in q && e in q && d != e
    ensures var q := Queued(t.deliveries, endpoints, invoice, event, ids, |endpoints|); !SameNotice(q[d], q[e])
  {
    QueuedContents(t.deliveries, endpoints, invoice, event, ids, |endpoints|);
    if d !in t.deliveries && e !in t.deliveries {
      var i :| 0 <= i < |endpoints| && d == ids(i);
      var j :| 0 <= j < |endpoints| && e == ids(j);
      assert endpoints[i] != endpoints[j];
    }
  }

  // ----- finalize

  /** The claim still owns the rows it inserted. */
  ghost predicate HoldsRows(t: Tables, c: Claim, business: int) {
    && c.attempt in t.attempts && t.attempts[c.attempt].status == Processing
    && t.attempts[c.attempt].key == c.key && t.attempts[c.attempt].invoice == c.invoiceId
    && t.attempts[c.attempt].request == c.request
    && OwnsInvoice(t, business, c.invoiceId)
    && c.invoice.business == business && c.invoice.total == t.invoices[c.invoiceId].total
    && c.invoice.state == Open
  }

  lemma FinalizeKeepsConstraints(t: Tables, c: Claim, reply: PspReply, business: int, ids: nat -> int)
    requires TablesOk(t) && Finalizable(t, c, reply, business, ids) && HoldsRows(t, c, business)
    ensures ConstraintsHold(Finalized(t, c, reply, business, ids))
  {
    FinalizeKeepsOutbox(t, c, reply, business, ids);
  }

  lemma FinalizeKeepsPairs(t: Tables, c: Claim, reply: PspReply, business: int, ids: nat -> int)
    requires TablesOk(t) && Finalizable(t, c, reply, business, ids) && HoldsRows(t, c, business)
    ensures Paired(Finalized(t, c, reply, business, ids))
  {
    var t' := Finalized(t, c, reply, business, ids);
    forall k | k in t'.keys ensures HasAttempt(t', k) {
      assert HasAttempt(t, k);
      var a :| a in t.attempts && t.attempts[a].key == k;
      assert t'.attempts[a].key == k;
    }
    forall a | a in t'.attempts ensures PairOk(t', a) {
      assert PairOk(t, a);
    }
  }

  lemma SettledAttemptsStayApart(t: Tables, c: Claim, reply: PspReply, business: int, ids: nat -> int)
    requires TablesOk(t) && Finalizable(t, c, reply, business, ids) && HoldsRows(t, c, business)
    ensures var rows := Finalized(t, c, reply, business, ids).attempts;
            forall a, b :: a in rows && b in rows && a != b ==> SuccessIsAlone(rows[a], rows[b])
  {
    var rows := Finalized(t, c, reply, business, ids).attempts;
    forall a, b | a in rows && b in rows && a != b ensures SuccessIsAlone(rows[a], rows[b]) {
      assert SuccessIsAlone(t.attempts[a], t.attempts[b]) && SuccessIsAlone(t.attempts[b], t.attempts[a]);
      assert !AttemptsClash(t.attempts[a], t.attempts[b]);
    }
  }

  lemma FinalizeKeepsSettled(t: Tables, c: Claim, reply: PspReply, business: int, ids: nat -> int)
    requires TablesOk(t) && Finalizable(t, c, reply, business, ids) && HoldsRows(t, c, business)
    ensures Settled(Finalized(t, c, reply, business, ids))
  {
    var t' := Finalized(t, c, reply, business, ids);
    SettledAttemptsStayApart(t, c, reply, business, ids);
    forall i | i in t'.invoices && t'.invoices[i].state == Paid ensures HasSuccess(t', i) {
      if t.invoices[i].state == Paid {
        assert HasSuccess(t, i);
        var a :| a in t.attempts && SucceededFor(t.attempts[a], i);
        assert SucceededFor(t'.attempts[a], i);
      } else {
        assert SucceededFor(t'.attempts[c.attempt], i);
      }
    }
  }

  lemma MarkKeepsOutbox(t: Tables, c: Claim, reply: PspReply, business: int)
    requires TablesOk(t) && HoldsRows(t, c, business)
    ensures OutboxOk(MarkSettled(t, c, reply))
  {
    var m := MarkSettled(t, c, reply);
    forall d | d in m.deliveries ensures RowOk(m, m.deliveries[d]) {
      assert RowOk(t, t.deliveries[d]);
    }
  }

  lemma FinalizeKeepsOutbox(t: Tables, c: Claim, reply: PspReply, business: int, ids: nat -> int)
    requires TablesOk(t) && Finalizable(t, c, reply, business, ids) && HoldsRows(t, c, business)
    ensures OutboxOk(Finalized(t, c, reply, business, ids))
  {
    var m := MarkSettled(t, c, reply);
    MarkKeepsOutbox(t, c, reply, business);
    var q := m;
    if !reply.PspError? {
      var endpoints, event := ActiveEndpoints(t, business), EventFor(c, reply);
      forall d | d in t.deliveries ensures t.deliveries[d].event != event {
        assert RowOk(t, t.deliveries[d]);
      }
      forall i | 0 <= i < |endpoints| ensures RowOk(m, Delivery(endpoints[i], c.invoiceId, event)) {
        assert endpoints[i] in ActiveEndpointIds(t.endpoints, business);
      }
      QueueKeepsOutbox(m, endpoints, c.invoiceId, event, ids);
      q := QueueAll(m, business, c.invoiceId, event, ids);
    }
    var t' := Finalized(t, c, reply, business, ids);
    forall d | d in t'.deliveries ensures RowOk(t', t'.deliveries[d]) {
      assert RowOk(q, q.deliveries[d]);
    }
  }

  lemma FinalizeKeepsTables(t: Tables, c: Claim, reply: PspReply, business: int, ids: nat -> int)
    requires TablesOk(t) && Finalizable(t, c, reply, business, ids) && HoldsRows(t, c, business)
    ensures TablesOk(Finalized(t, c, reply, business, ids))
  {
    FinalizeKeepsConstraints(t, c, reply, business, ids);
    FinalizeKeepsPairs(t, c, reply, business, ids);
    FinalizeKeepsSettled(t, c, reply, business, ids);
    FinalizeKeepsOutbox(t, c, reply, business, ids);
  }

  // ----- void, endpoints

  lemma VoidKeepsPairs(t: Tables, business: int, invoice: int)
    requires TablesOk(t)
    ensures Paired(VoidWriteTx(t, business, invoice))
  {
    var t' := VoidWriteTx(t, business, invoice);
    forall k | k in t'.keys ensures HasAttempt(t', k) {
      assert HasAttempt(t, k);
    }
    forall a | a in t'.attempts ensures PairOk(t', a) {
      assert PairOk(t, a);
    }
  }

  lemma VoidKeepsSettled(t: Tables, business: int, invoice: int)
    requires TablesOk(t)
    ensures Settled(VoidWriteTx(t, business, invoice))
  {
    var t' := VoidWriteTx(t, business, invoice);
    forall i | i in t'.invoices && t'.invoices[i].state == Paid ensures HasSuccess(t', i) {
      assert HasSuccess(t, i);
    }
  }

  lemma VoidKeepsOutbox(t: Tables, business: int, invoice: int)
    requires TablesOk(t)
    ensures OutboxOk(VoidWriteTx(t, business, invoice))
  {
    var t' := VoidWriteTx(t, business, invoice);
    forall d | d in t'.deliveries ensures RowOk(t', t'.deliveries[d]) {
      assert RowOk(t, t.deliveries[d]);
    }
  }

  lemma VoidKeepsTables(t: Tables, business: int, invoice: int)
    requires TablesOk(t)
    ensures TablesOk(VoidWriteTx(t, business, invoice))
  {
    VoidKeepsPairs(t, business, invoice);
    VoidKeepsSettled(t, business, invoice);
    VoidKeepsOutbox(t, business, invoice);
  }

  lemma EndpointsKeepTables(t: Tables, id: int, row: Endpoint)
    requires TablesOk(t) && (id in t.endpoints ==> t.endpoints[id].business == row.business)
    ensures TablesOk(t.(endpoints := t.endpoints[id := row]))
  {
    var t' := t.(endpoints := t.endpoints[id := row]);
    OnlyPaymentsMatter(t, t');
    forall d | d in t'.deliveries ensures RowOk(t', t'.deliveries[d]) {
      assert RowOk(t, t.deliveries[d]);
    }
  }

  // ----- invoice creation

  function WithInvoice(t: Tables, v: NewInvoice, total: int64): Tables
    requires |v.itemIds| == |v.inputs|
  {
    t.(invoices := t.invoices[v.id := Invoice(v.business, total, v.state)],
       items := WithItems(t.items, v.id, v.inputs, v.itemIds, |v.inputs|))
  }

  lemma CreateKeepsOutbox(t: Tables, v: NewInvoice, total: int64, rowIds: nat -> int)
    requires TablesOk(t) && Insertable(t, v, rowIds)
    ensures OutboxOk(Created(t, v, total, rowIds))
  {
    var m := WithInvoice(t, v, total);
    forall d | d in m.deliveries ensures RowOk(m, m.deliveries[d]) {
      assert RowOk(t, t.deliveries[d]);
    }
    var endpoints := ActiveEndpoints(t, v.business);
    forall i | 0 <= i < |endpoints| ensures RowOk(m, Delivery(endpoints[i], v.id, InvoiceCreated(total))) {
      assert endpoints[i] in ActiveEndpointIds(t.endpoints, v.business);
    }
    QueueKeepsOutbox(m, endpoints, v.id, InvoiceCreated(total), rowIds);
  }

  lemma InvoiceKeepsPayments(t: Tables, v: NewInvoice, total: int64)
    requires TablesOk(t) && v.id !in t.invoices && |v.itemIds| == |v.inputs| && v.state != Paid
    ensures Paired(WithInvoice(t, v, total)) && Settled(WithInvoice(t, v, total))
  {
    var t' := WithInvoice(t, v, total);
    forall k | k in t'.keys ensures HasAttempt(t', k) {
      assert HasAttempt(t, k);
    }
    forall a | a in t'.attempts ensures PairOk(t', a) {
      assert PairOk(t, a);
    }
    forall i | i in t'.invoices && t'.invoices[i].state == Paid ensures HasSuccess(t', i) {
      assert HasSuccess(t, i);
    }
  }

  lemma CreateKeepsTables(t: Tables, v: NewInvoice, total: int64, rowIds: nat -> int)
    requires TablesOk(t) && Insertable(t, v, rowIds) && v.state != Paid
    ensures TablesOk(Created(t, v, total, rowIds))
  {
    var m := WithInvoice(t, v, total);
    var t' := Created(t, v, total, rowIds);
    InvoiceKeepsPayments(t, v, total);
    assert PaymentsOk(t') by {
      OnlyPaymentsMatter(m, t');
    }
    CreateKeepsOutbox(t, v, total, rowIds);
    StoredItems(t.items, v, |v.inputs|);
    assert ConstraintsHold(t') by {
      forall d | d in t'.deliveries
        ensures t'.deliveries[d].endpoint in t'.endpoints && t'.deliveries[d].invoice in t'.invoices
      {
        assert RowOk(t', t'.deliveries[d]);
      }
    }
  }

  ghost predicate PaymentsOk(t: Tables) {
    Paired(t) && Settled(t)
  }

  lemma OnlyPaymentsMatter(t: Tables, u: Tables)
    requires PaymentsOk(t) && u.keys == t.keys && u.attempts == t.attempts && u.invoices == t.invoices
    ensures PaymentsOk(u)
  {
    forall k | k in u.keys ensures HasAttempt(u, k) {
      assert HasAttempt(t, k);
    }
    forall a | a in u.attempts ensures PairOk(u, a) {
      assert PairOk(t, a);
    }
    forall i | i in u.invoices && u.invoices[i].state == Paid ensures HasSuccess(u, i) {
      assert HasSuccess(t, i);
    }
  }

  /** Every stored item is an old one or one of this invoice's. */
  lemma {:induction false} StoredItems(items: map<int, Item>, v: NewInvoice, n: nat)
    requires n <= |v.inputs| == |v.itemIds|
    ensures forall x :: x in WithItems(items, v.id, v.inputs, v.itemIds, n) ==>
      (x in items && WithItems(items, v.id, v.inputs, v.itemIds, n)[x] == items[x])
      || WithItems(items, v.id, v.inputs, v.itemIds, n)[x].invoice == v.id
  {
    if n > 0 {
      StoredItems(items, v, n - 1);
    }
  }
}
