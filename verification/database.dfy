/** Transactions statement by statement, and the handlers' code over them. A statement that
    fails breaks its transaction: every later statement fails too, and commit rolls back. */
module Database {
  import opened Wrappers
  import opened Schema
  import opened Transactions

  datatype StatementResult = Row | NoRow | Fault(uniqueViolation: bool)

  class Store {
    var invoices: map<int, Invoice>
    var items: map<int, Item>
    var keys: map<int, Key>
    var attempts: map<int, Attempt>
    var endpoints: map<int, Endpoint>
    var deliveries: map<int, Delivery>

    function View(): Tables
      reads this
    {
      Tables(invoices, items, keys, attempts, endpoints, deliveries)
    }

    constructor ()
      ensures View() == EMPTY
    {
      invoices, items, keys := map[], map[], map[];
      attempts, endpoints, deliveries := map[], map[], map[];
    }

    method Install(t: Tables)
      modifies this
      ensures View() == t
    {
      invoices, items, keys := t.invoices, t.items, t.keys;
      attempts, endpoints, deliveries := t.attempts, t.endpoints, t.deliveries;
    }

    /** GetIdempotencyKey: one row at most, thanks to the unique key. */
    method GetIdempotencyKey(business: int, key: string) returns (row: Option<Key>)
      requires ConstraintsHold(View())
      ensures FindKey(View(), business, key).None? ==> row == None
      ensures FindKey(View(), business, key).Some? ==> row == Some(keys[FindKey(View(), business, key).value])
    {
      if KeyTaken(View(), business, key) {
        var k :| k in keys && keys[k].business == business && keys[k].key == key;
        row := Some(keys[k]);
      } else {
        row := None;
      }
    }

    /** GetInvoiceByID: the business's own invoice, or no row. */
    method GetInvoiceByID(business: int, invoice: int) returns (row: Option<Invoice>)
      ensures row == if OwnsInvoice(View(), business, invoice) then Some(View().invoices[invoice]) else None
    {
      if !OwnsInvoice(View(), business, invoice) {
        return None;
      }
      return Some(invoices[invoice]);
    }

    /** UpdateInvoiceState to VOID: filters on id and business, not on state. */
    method UpdateInvoiceStateToVoid(business: int, invoice: int) returns (updated: bool)
      modifies this`invoices
      ensures View() == VoidWriteTx(old(View()), business, invoice)
      ensures updated == OwnsInvoice(old(View()), business, invoice)
    {
      updated := OwnsInvoice(View(), business, invoice);
      if updated {
        invoices := invoices[invoice := invoices[invoice].(state := Void)];
      }
    }
  }

  class Transaction {
    var work: Tables
    var broken: bool
    var executed: nat
    const failAt: nat

    constructor Begin(t: Tables, failAt: nat)
      ensures work == t && !broken && executed == 0 && this.failAt == failAt
    {
      work, broken, executed, this.failAt := t, false, 0, failAt;
    }

    /** The next statement will be carried out. */
    predicate Runs()
      reads this
    {
      !broken && executed != failAt
    }

    /** GetInvoiceForPayment, with FOR UPDATE. */
    method GetInvoiceForPayment(business: int, invoice: int) returns (r: StatementResult, row: Option<Invoice>)
      modifies this`broken, this`executed
      ensures executed == old(executed) + 1 && broken == !old(Runs())
      ensures r == if broken then Fault(false) else if OwnsInvoice(work, business, invoice) then Row else NoRow
      ensures r == Row ==> row == Some(work.invoices[invoice])
    {
      broken, executed := !Runs(), executed + 1;
      if broken {
        return Fault(false), None;
      }
      if !OwnsInvoice(work, business, invoice) {
        return NoRow, None;
      }
      return Row, Some(work.invoices[invoice]);
    }

    method CreateIdempotencyKey(id: int, row: Key) returns (r: StatementResult)
      modifies this
      ensures executed == old(executed) + 1
      ensures broken == (!old(Runs()) || id in old(work).keys || KeyTaken(old(work), row.business, row.key))
      ensures work == if broken then old(work) else old(work).(keys := old(work).keys[id := row])
      ensures r == if broken then Fault(old(Runs())) else Row
    {
      var runs := Runs();
      broken := !runs || id in work.keys || KeyTaken(work, row.business, row.key);
      executed := executed + 1;
      if broken {
        return Fault(runs);
      }
      work := work.(keys := work.keys[id := row]);
      return Row;
    }

    method CreatePaymentAttempt(id: int, row: Attempt) returns (r: StatementResult)
      modifies this
      ensures executed == old(executed) + 1
      ensures var unique := id !in old(work).attempts && !AttemptClashes(old(work), row);
              && broken == (!old(Runs()) || !unique || row.invoice !in old(work).invoices || row.key !in old(work).keys)
              && r == if broken then Fault(old(Runs()) && !unique) else Row
      ensures work == if broken then old(work) else old(work).(attempts := old(work).attempts[id := row])
    {
      var runs := Runs();
      var unique := id !in work.attempts && !AttemptClashes(work, row);
      broken := !runs || !unique || row.invoice !in work.invoices || row.key !in work.keys;
      executed := executed + 1;
      if broken {
        return Fault(runs && !unique);
      }
      work := work.(attempts := work.attempts[id := row]);
      return Row;
    }

    /** The three guarded attempt updates: WHERE id = ... AND status = 'PROCESSING'. */
    method MarkPaymentAttempt(id: int, reply: PspReply) returns (r: StatementResult)
      modifies this
      ensures executed == old(executed) + 1 && broken == !old(Runs())
      ensures var hit := id in old(work).attempts && old(work).attempts[id].status == Processing;
              && r == (if broken then Fault(false) else if hit then Row else NoRow)
              && work == (if broken || !hit then old(work)
                          else old(work).(attempts := old(work).attempts[id := Settle(old(work).attempts[id], reply)]))
    {
      broken, executed := !Runs(), executed + 1;
      if broken {
        return Fault(false);
      }
      if id !in work.attempts || work.attempts[id].status != Processing {
        return NoRow;
      }
      var row := work.attempts[id];
      match reply {
        case PspError =>
          row := row.(status := Unknown, failureReason := "ambiguous_transport_error");
        case PspFailed(code) =>
          row := row.(status := Failed, failureCode := code, failureReason := "payment_declined");
        case PspSucceeded(pspRef) =>
          row := row.(status := Succeeded, pspRef := pspRef);
      }
      work := work.(attempts := work.attempts[id := row]);
      return Row;
    }

    /** MarkInvoicePaid: WHERE id = ... AND business_id = ... AND state = 'OPEN'. */
    method MarkInvoicePaid(business: int, invoice: int) returns (r: StatementResult)
      modifies this
      ensures executed == old(executed) + 1 && broken == !old(Runs())
      ensures var hit := OwnsInvoice(old(work), business, invoice) && old(work).invoices[invoice].state == Open;
              && r == (if broken then Fault(false) else if hit then Row else NoRow)
              && work == (if broken || !hit then old(work)
                          else old(work).(invoices :=
                            old(work).invoices[invoice := old(work).invoices[invoice].(state := Paid)]))
    {
      broken, executed := !Runs(), executed + 1;
      if broken {
        return Fault(false);
      }
      if !OwnsInvoice(work, business, invoice) || work.invoices[invoice].state != Open {
        return NoRow;
      }
      work := work.(invoices := work.invoices[invoice := work.invoices[invoice].(state := Paid)]);
      return Row;
    }

    /** CompleteIdempotencyKey: WHERE id = ... AND status = 'PROCESSING'. */
    method CompleteIdempotencyKey(id: int, response: Response) returns (r: StatementResult)
      modifies this
      ensures executed == old(executed) + 1 && broken == !old(Runs())
      ensures var hit := id in old(work).keys && old(work).keys[id].response == None;
              && r == (if broken then Fault(false) else if hit then Row else NoRow)
              && work == (if broken || !hit then old(work)
                          else old(work).(keys :=
                            old(work).keys[id := old(work).keys[id].(response := Some(response))]))
    {
      broken, executed := !Runs(), executed + 1;
      if broken {
        return Fault(false);
      }
      if id !in work.keys || work.keys[id].response != None {
        return NoRow;
      }
      work := work.(keys := work.keys[id := work.keys[id].(response := Some(response))]);
      return Row;
    }

    method ListActiveWebhookEndpoints(business: int) returns (r: StatementResult, ids: seq<int>)
      modifies this`broken, this`executed
      ensures executed == old(executed) + 1 && broken == !old(Runs())
      ensures r == if broken then Fault(false) else Row
      ensures r == Row ==> ids == ActiveEndpoints(work, business)
    {
      broken, executed := !Runs(), executed + 1;
      if broken {
        return Fault(false), [];
      }
      return Row, ActiveEndpoints(work, business);
    }

    /** CreateWebhookDelivery. */
    method CreateWebhookDelivery(id: int, row: Delivery) returns (r: StatementResult)
      modifies this
      ensures executed == old(executed) + 1
      ensures broken == (!old(Runs()) || id in old(work).deliveries
                         || row.endpoint !in old(work).endpoints || row.invoice !in old(work).invoices)
      ensures work == if broken then old(work) else old(work).(deliveries := old(work).deliveries[id := row])
      ensures r == if broken then Fault(old(Runs()) && id in old(work).deliveries) else Row
    {
      var duplicate := Runs() && id in work.deliveries;
      broken := !Runs() || id in work.deliveries || row.endpoint !in work.endpoints || row.invoice !in work.invoices;
      executed := executed + 1;
      if broken {
        return Fault(duplicate);
      }
      work := work.(deliveries := work.deliveries[id := row]);
      return Row;
    }

    /** CreateInvoice. */
    method CreateInvoice(id: int, row: Invoice) returns (r: StatementResult)
      modifies this
      ensures executed == old(executed) + 1
      ensures broken == (!old(Runs()) || id in old(work).invoices || row.total < 0)
      ensures work == if broken then old(work) else old(work).(invoices := old(work).invoices[id := row])
      ensures r == if broken then Fault(old(Runs()) && row.total >= 0) else Row
    {
      var duplicate := Runs() && row.total >= 0;
      broken := !Runs() || id in work.invoices || row.total < 0;
      executed := executed + 1;
      if broken {
        return Fault(duplicate);
      }
      work := work.(invoices := work.invoices[id := row]);
      return Row;
    }

    /** CreateInvoiceItem, with its row CHECKs. */
    method CreateInvoiceItem(id: int, row: Item) returns (r: StatementResult)
      modifies this
      ensures executed == old(executed) + 1
      ensures var allowed := row.quantity > 0 && row.unitAmountCents >= 0;
              && broken == (!old(Runs()) || !allowed || id in old(work).items || row.invoice !in old(work).invoices)
              && r == if broken then Fault(old(Runs()) && allowed && id in old(work).items) else Row
      ensures work == if broken then old(work) else old(work).(items := old(work).items[id := row])
    {
      var allowed := row.quantity > 0 && row.unitAmountCents >= 0;
      var duplicate := Runs() && allowed && id in work.items;
      broken := !Runs() || !allowed || id in work.items || row.invoice !in work.invoices;
      executed := executed + 1;
      if broken {
        return Fault(duplicate);
      }
      work := work.(items := work.items[id := row]);
      return Row;
    }

    /** Commit installs the working copy unless the transaction is broken. */
    method Commit(store: Store) returns (ok: bool)
      modifies this`broken, this`executed, store
      ensures ok == old(Runs())
      ensures store.View() == if ok then work else old(store.View())
    {
      ok := Runs();
      broken, executed := !ok, executed + 1;
      if ok {
        store.Install(work);
      }
    }
  }

  /** The transaction gets through its next n statements as far as faults go. */
  predicate Survives(failAt: nat, executed: nat, n: nat) {
    failAt < executed || failAt >= executed + n
  }

  /** QueueDeliveries: on any failure the transaction is left broken, whatever the caller
      does with the error. */
  method QueueDeliveries(tx: Transaction, ids: nat -> int, business: int, invoice: int, event: Event)
    returns (ok: bool)
    modifies tx
    ensures var n := |ActiveEndpoints(old(tx.work), business)|;
            var good := !old(tx.broken) && Survives(tx.failAt, old(tx.executed), n + 1)
                        && Queueable(old(tx.work), invoice, ids, n);
            && ok == good == !tx.broken
            && (good ==> tx.executed == old(tx.executed) + n + 1)
            && (good ==> tx.work == QueueAll(old(tx.work), business, invoice, event, ids))
  {
    ghost var before := tx.work;
    var r, endpoints := tx.ListActiveWebhookEndpoints(business);
    if r.Fault? {
      return false;
    }
    for i := 0 to |endpoints|
      invariant !tx.broken && tx.executed == old(tx.executed) + 1 + i
      invariant Survives(tx.failAt, old(tx.executed), i + 1)
      invariant Queueable(before, invoice, ids, i)
      invariant tx.work == before.(deliveries := Queued(before.deliveries, endpoints, invoice, event, ids, i))
    {
      QueuedKeys(before.deliveries, endpoints, invoice, event, ids, i);
      assert endpoints[i] in ActiveEndpointIds(before.endpoints, business);
      var inserted := tx.CreateWebhookDelivery(ids(i), Delivery(endpoints[i], invoice, event));
      if inserted.Fault? {
        assert !Queueable(before, invoice, ids, i + 1) || !Survives(tx.failAt, old(tx.executed), i + 2);
        return false;
      }
    }
    return true;
  }

  lemma {:induction false} QueuedKeys(d: map<int, Delivery>, endpoints: seq<int>, invoice: int, event: Event,
                        ids: nat -> int, n: nat)
    requires n <= |endpoints|
    ensures forall x :: x in Queued(d, endpoints, invoice, event, ids, n)
              <==> x in d || exists i :: 0 <= i < n && ids(i) == x
  {
    if n > 0 {
      QueuedKeys(d, endpoints, invoice, event, ids, n - 1);
    }
  }
}
