/** The handlers' database code: each runs its statements one by one and is proved to have
    exactly the effect of its atomic description. */
module Handlers {
  import opened MachineInt
  import opened Wrappers
  import opened Schema
  import opened Transactions
  import opened Database
  import opened InvoiceTotal

  /** The first part of claim: an unlocked read, then a decision. */
  method LookupKey(store: Store, req: PayRequest, hash: string, fails: bool) returns (r: LookupResult)
    requires ConstraintsHold(store.View())
    ensures r == LookupTx(store.View(), req, hash, fails)
  {
    if fails {
      return Refused(Internal);
    }
    var existing := store.GetIdempotencyKey(req.business, req.key);
    if existing.Some? {
      if existing.value.hash != hash {
        return Refused(HashConflict);
      }
      if existing.value.response.Some? {
        return Replay(existing.value.response.value);
      }
      return Refused(InProgress);
    }
    return Miss;
  }

  /** The second part of claim: lock the invoice, insert the key and the attempt, commit. */
  method LockAndClaim(store: Store, req: PayRequest, hash: string, ids: ClaimIds, failAt: nat)
    returns (r: Result<Claim, ClaimError>)
    modifies store
    ensures (store.View(), r) == ClaimTx(old(store.View()), req, hash, ids, failAt)
  {
    var tx := new Transaction.Begin(store.View(), failAt);
    var locked, inv := tx.GetInvoiceForPayment(req.business, req.invoice);
    if locked.Fault? {
      return Err(Internal);
    }
    if locked.NoRow? {
      return Err(NotFound);
    }
    if inv.value.state != Open {
      return Err(NotPayable);
    }
    var idem := tx.CreateIdempotencyKey(ids.key, Key(req.business, req.key, hash, None));
    if !idem.Row? {
      return Err(Internal);
    }
    var attempt := tx.CreatePaymentAttempt(ids.attempt,
      Attempt(req.invoice, ids.key, Processing, ids.request, "", "", ""));
    if !attempt.Row? {
      if attempt == Fault(true) {
        return Err(InProgress);
      }
      return Err(Internal);
    }
    var committed := tx.Commit(store);
    if !committed {
      return Err(Internal);
    }
    return Ok(Claim(ids.key, ids.attempt, ids.request, req.invoice, inv.value));
  }

  /** finalize. The results of QueueDeliveries are dropped, as in payment.go: a failed
      insert still cannot leave a committed outcome without its outbox rows. */
  method Finalize(store: Store, c: Claim, reply: PspReply, business: int, ids: nat -> int, failAt: nat)
    returns (r: Option<Response>)
    modifies store
    ensures (store.View(), r) == FinalizeTx(old(store.View()), c, reply, business, ids, failAt)
  {
    var tx := new Transaction.Begin(store.View(), failAt);
    var code := 200;
    var body := Body(c.attempt, c.invoiceId, Processing, c.invoice.state, "", "", "");
    var marked := tx.MarkPaymentAttempt(c.attempt, reply);
    if !marked.Row? {
      return None;
    }
    match reply {
      case PspError =>
        code := 202;
        body := body.(status := Unknown, failureReason := "ambiguous_transport_error");
      case PspFailed(failure) =>
        code := 402;
        body := body.(status := Failed, failureCode := failure);
        var _ := QueueDeliveries(tx, ids, business, c.invoiceId, InvoicePaymentFailed(c.attempt, failure));
      case PspSucceeded(pspRef) =>
        var paid := tx.MarkInvoicePaid(business, c.invoiceId);
        if !paid.Row? {
          return None;
        }
        body := body.(status := Succeeded, invoiceState := Paid, pspRef := pspRef);
        var _ := QueueDeliveries(tx, ids, business, c.invoiceId, InvoicePaid(c.attempt, pspRef));
    }
    var completed := tx.CompleteIdempotencyKey(c.key, Response(code, body));
    if !completed.Row? {
      return None;
    }
    var committed := tx.Commit(store);
    if !committed {
      return None;
    }
    return Some(Response(code, body));
  }

  /** The item loop of the creation transaction. */
  method InsertItems(tx: Transaction, v: NewInvoice) returns (ok: bool)
    requires |v.itemIds| == |v.inputs| && !tx.broken && v.id in tx.work.invoices
    modifies tx
    ensures var n := |v.inputs|;
            var good := Survives(tx.failAt, old(tx.executed), n) && ItemsInsertable(old(tx.work), v, n);
            && ok == good == !tx.broken
            && (good ==> tx.executed == old(tx.executed) + n)
            && (good ==> tx.work == old(tx.work).(items := WithItems(old(tx.work).items, v.id, v.inputs, v.itemIds, n)))
  {
    ghost var before := tx.work;
    for i := 0 to |v.inputs|
      invariant !tx.broken && tx.executed == old(tx.executed) + i && Survives(tx.failAt, old(tx.executed), i)
      invariant tx.work == before.(items := WithItems(before.items, v.id, v.inputs, v.itemIds, i))
      invariant ItemsInsertable(before, v, i)
    {
      NextItem(before, v, i);
      var inserted := tx.CreateInvoiceItem(v.itemIds[i], StoredItem(v.id, v.inputs[i]));
      if !inserted.Row? {
        return false;
      }
    }
    return true;
  }

  /** The creation transaction: the invoice, its items in request order, and the outbox. */
  method StoreInvoice(store: Store, v: NewInvoice, total: int64, rowIds: nat -> int, failAt: nat) returns (ok: bool)
    requires |v.itemIds| == |v.inputs|
    modifies store
    ensures (store.View(), ok) == CreateTx(old(store.View()), v, total, rowIds, failAt)
  {
    var tx := new Transaction.Begin(store.View(), failAt);
    var created := tx.CreateInvoice(v.id, Invoice(v.business, total, v.state));
    if !created.Row? {
      return false;
    }
    var inserted := InsertItems(tx, v);
    if !inserted {
      return false;
    }
    var _ := QueueDeliveries(tx, rowIds, v.business, v.id, InvoiceCreated(total));
    ok := tx.Commit(store);
  }

  /** The first n item inserts meet no primary key or CHECK violation. */
  predicate ItemsInsertable(t: Tables, v: NewInvoice, n: nat)
    requires n <= |v.inputs| == |v.itemIds|
  {
    && (forall i :: 0 <= i < n ==> v.itemIds[i] !in t.items)
    && (forall i, j :: 0 <= i < j < n ==> v.itemIds[i] != v.itemIds[j])
    && (forall i :: 0 <= i < n ==> v.inputs[i].quantity > 0 && v.inputs[i].unitAmountCents >= 0)
  }

  lemma NextItem(t: Tables, v: NewInvoice, n: nat)
    requires n < |v.inputs| == |v.itemIds|
    ensures ItemsInsertable(t, v, n + 1) <==>
            && ItemsInsertable(t, v, n)
            && v.itemIds[n] !in WithItems(t.items, v.id, v.inputs, v.itemIds, n)
            && v.inputs[n].quantity > 0 && v.inputs[n].unitAmountCents >= 0
    ensures ItemsInsertable(t, v, |v.inputs|) ==> ItemsInsertable(t, v, n + 1)
  {
    WithItemsKeys(t.items, v.id, v.inputs, v.itemIds, n);
    NewIdIsFresh(v.itemIds, n);
  }

  lemma NewIdIsFresh(ids: seq<int>, n: nat)
    requires n < |ids|
    ensures ids[n] in ids[..n] <==> exists i :: 0 <= i < n && ids[i] == ids[n]
  {
    assert forall i :: 0 <= i < n ==> ids[..n][i] == ids[i];
  }

  lemma {:induction false} WithItemsKeys(items: map<int, Item>, invoice: int, inputs: seq<ItemInput>, ids: seq<int>,
                        n: nat)
    requires n <= |inputs| && n <= |ids|
    ensures forall x :: x in WithItems(items, invoice, inputs, ids, n) <==> x in items || x in ids[..n]
  {
    if n > 0 {
      WithItemsKeys(items, invoice, inputs, ids, n - 1);
      assert ids[..n] == ids[..n - 1] + [ids[n - 1]];
    }
  }
}
