/** Idempotent replay, and attempts that nothing will ever resolve. */
module Replay {
  import opened Wrappers
  import opened Schema
  import opened Transactions
  import opened TableInvariants
  import opened Protocol
  import opened SystemInvariants
  import opened Fingerprint
  import InvoiceTotal

  /** A completed key row is never touched again. */
  lemma CompletedStep(digest: string -> string, s: Sys, e: Step, k: int)
    requires k in s.t.keys && s.t.keys[k].response.Some?
    ensures var t' := Next(digest, s, e).t; k in t'.keys && t'.keys[k] == s.t.keys[k]
  {
    match e {
      case FinalizeCommit(p, rowIds, failAt) =>
        if At(s, p).Called? {
          FinalizeEffect(digest, s, p, rowIds, failAt);
          CompletedInFinalize(s.t, At(s, p).c, At(s, p).reply, At(s, p).req.business, rowIds, failAt, k);
        }
      case CreateInvoice(v, rowIds, failAt) =>
        if Creatable(v) {
          CreateEffect(digest, s, v, rowIds, failAt);
        }
      case _ =>
    }
  }

  lemma CompletedInFinalize(t: Tables, c: Claim, reply: PspReply, business: int, ids: nat -> int, failAt: nat, k: int)
    requires k in t.keys && t.keys[k].response.Some?
    ensures var t' := FinalizeTx(t, c, reply, business, ids, failAt).0; k in t'.keys && t'.keys[k] == t.keys[k]
  {
  }

  lemma {:induction false} StoredResponseIsFinal(digest: string -> string, s: Sys, es: seq<Step>, k: int)
    requires k in s.t.keys && s.t.keys[k].response.Some?
    ensures var t' := Run(digest, s, es).t; k in t'.keys && t'.keys[k] == s.t.keys[k]
  {
    if es != [] {
      var front := es[..|es| - 1];
      StoredResponseIsFinal(digest, s, front, k);
      CompletedStep(digest, Run(digest, s, front), es[|es| - 1], k);
    }
  }

  /** A committed finalize stores exactly the response it answers, under the request's key
      and fingerprint. */
  lemma FreshAnswerIsStored(digest: string -> string, s: Sys, p: nat, rowIds: nat -> int, failAt: nat)
    requires Inv(digest, s) && At(s, p).Called?
    requires At(Next(digest, s, FinalizeCommit(p, rowIds, failAt)), p).answer.Fresh?
    ensures var s' := Next(digest, s, FinalizeCommit(p, rowIds, failAt));
            var Called(req, c, _, _) := At(s, p);
            c.key in s'.t.keys && s'.t.keys[c.key] ==
              Key(req.business, req.key, RequestHash(digest, req.invoice, req.token), Some(At(s', p).answer.response))
  {
    assert ProcOk(digest, s.t, s.calls, s.procs[p]);
  }

  /** The answer reports what finalize recorded, except that its invoice state is the one seen
      at the claim: it is the current one exactly if no void came in between. */
  lemma FreshAnswerReportsTheRecord(digest: string -> string, s: Sys, p: nat, rowIds: nat -> int, failAt: nat)
    requires Inv(digest, s) && At(s, p).Called?
    requires At(Next(digest, s, FinalizeCommit(p, rowIds, failAt)), p).answer.Fresh?
    ensures var s' := Next(digest, s, FinalizeCommit(p, rowIds, failAt));
            var c, response := At(s, p).c, At(s', p).answer.response;
            && c.attempt in s'.t.attempts && s'.t.attempts[c.attempt].status != Processing
            && response.code == CodeOf(s'.t.attempts[c.attempt].status)
            && Reports(response.body, c.attempt, s'.t.attempts[c.attempt])
            && c.invoiceId in s.t.invoices && c.invoiceId in s'.t.invoices
            && ((response.body.invoiceState == s'.t.invoices[c.invoiceId].state) <==>
                (s.t.invoices[c.invoiceId].state == Open))
  {
    var Called(req, c, reply, _) := At(s, p);
    FinalizeStep(digest, s, p, rowIds, failAt);
    assert ProcOk(digest, s.t, s.calls, s.procs[p]) && PairOk(s.t, c.attempt);
    FinalizedReports(s.t, c, reply, req.business, rowIds);
    FinalizedState(s.t, c, reply, req.business, rowIds);
  }

  lemma FinalizedReports(t: Tables, c: Claim, reply: PspReply, business: int, ids: nat -> int)
    requires Finalizable(t, c, reply, business, ids) && HoldsRows(t, c, business) && PairOk(t, c.attempt)
    ensures var a := Finalized(t, c, reply, business, ids).attempts[c.attempt];
            a.status == StatusOf(reply) && Reports(AnswerTo(c, reply).body, c.attempt, a)
  {
  }

  lemma FinalizedState(t: Tables, c: Claim, reply: PspReply, business: int, ids: nat -> int)
    requires Finalizable(t, c, reply, business, ids) && HoldsRows(t, c, business)
    ensures var t' := Finalized(t, c, reply, business, ids);
            c.invoiceId in t'.invoices &&
            ((AnswerTo(c, reply).body.invoiceState == t'.invoices[c.invoiceId].state) <==>
              (t.invoices[c.invoiceId].state == Open))
  {
  }

  /** What a key read answers once the row is complete. */
  lemma ReadOfCompleted(digest: string -> string, s: Sys, p: nat, k: int, invoice: int, token: string)
    requires Inv(digest, s) && At(s, p).Arrived? && k in s.t.keys
    requires var row := s.t.keys[k];
             && row.response.Some? && row.hash == RequestHash(digest, invoice, token)
             && row.business == At(s, p).req.business && row.key == At(s, p).req.key
    requires Separates(digest, invoice, token, At(s, p).req.invoice, At(s, p).req.token)
    ensures var s' := Next(digest, s, ReadKey(p, false));
            var same := At(s, p).req.invoice == invoice && At(s, p).req.token == token;
            && s'.t == s.t && s'.calls == s.calls
            && At(s', p) == Answered(if same then Replayed(s.t.keys[k].response.value) else Rejected(HashConflict))
  {
    var req := At(s, p).req;
    FingerprintIdentifies(digest, invoice, token, req.invoice, req.token);
    var found := FindKey(s.t, req.business, req.key);
    assert KeyTaken(s.t, req.business, req.key);
    assert found.value == k;
  }

  /** Replay: after a payment was answered, every later request of the business with the same
      key gets that same answer if it names the same invoice and token, and the conflict
      otherwise; either way nothing changes and the PSP is not called. */
  lemma AnswersAreReplayed(digest: string -> string, s: Sys, p: nat, rowIds: nat -> int, failAt: nat, es: seq<Step>,
                        q: nat)
    requires Inv(digest, s) && At(s, p).Called?
    requires At(Next(digest, s, FinalizeCommit(p, rowIds, failAt)), p).answer.Fresh?
    requires var later := Run(digest, Next(digest, s, FinalizeCommit(p, rowIds, failAt)), es);
             && At(later, q).Arrived?
             && At(later, q).req.business == At(s, p).req.business && At(later, q).req.key == At(s, p).req.key
             && Separates(digest, At(s, p).req.invoice, At(s, p).req.token,
                          At(later, q).req.invoice, At(later, q).req.token)
    ensures var done := Next(digest, s, FinalizeCommit(p, rowIds, failAt));
            var later := Run(digest, done, es);
            var read := Next(digest, later, ReadKey(q, false));
            && read.t == later.t && read.calls == later.calls
            && At(read, q) == Answered(
                 if At(later, q).req == At(s, p).req then Replayed(At(done, p).answer.response)
                 else Rejected(HashConflict))
  {
    var done := Next(digest, s, FinalizeCommit(p, rowIds, failAt));
    var req, k := At(s, p).req, At(s, p).c.key;
    FreshAnswerIsStored(digest, s, p, rowIds, failAt);
    StepKeepsInv(digest, s, FinalizeCommit(p, rowIds, failAt));
    StoredResponseIsFinal(digest, done, es, k);
    RunKeepsInv(digest, done, es);
    ReadOfCompleted(digest, Run(digest, done, es), q, k, req.invoice, req.token);
  }

  // ----- attempts nobody will resolve

  /** The attempt is unresolved and no request in flight works on it. */
  ghost predicate Orphaned(s: Sys, a: int) {
    && a in s.t.attempts && Unresolved(s.t.attempts[a].status)
    && forall p :: p in s.procs ==> Holding(s.procs[p]) != Some(a)
  }

  lemma OrphanStep(digest: string -> string, s: Sys, e: Step, a: int)
    requires Orphaned(s, a)
    ensures var s' := Next(digest, s, e); Orphaned(s', a) && s'.t.attempts[a] == s.t.attempts[a]
  {
    if e.CreateInvoice? && Creatable(e.v) {
      InvoiceTotal.FitsInInt64(e.v.inputs);
    }
  }

  lemma {:induction false} OrphanStays(digest: string -> string, s: Sys, es: seq<Step>, a: int)
    requires Orphaned(s, a)
    ensures var s' := Run(digest, s, es); Orphaned(s', a) && s'.t.attempts[a] == s.t.attempts[a]
  {
    if es != [] {
      OrphanStays(digest, s, es[..|es| - 1], a);
      OrphanStep(digest, Run(digest, s, es[..|es| - 1]), es[|es| - 1], a);
    }
  }

  /** `more` extends `calls` with calls for other invoices only. */
  predicate GrowsWithout(calls: seq<Call>, more: seq<Call>, invoice: int) {
    && calls <= more
    && forall n :: |calls| <= n < |more| ==> more[n].invoice != invoice
  }

  lemma OrphanGetsNoCall(digest: string -> string, s: Sys, e: Step, a: int)
    requires Inv(digest, s) && Orphaned(s, a)
    ensures GrowsWithout(s.calls, Next(digest, s, e).calls, s.t.attempts[a].invoice)
  {
    if e.Charge? && At(s, e.p).Won? {
      HolderWorksElsewhere(digest, s, e.p, a);
    }
  }

  lemma HolderWorksElsewhere(digest: string -> string, s: Sys, p: nat, a: int)
    requires Inv(digest, s) && Orphaned(s, a) && At(s, p).Won?
    ensures At(s, p).c.invoiceId != s.t.attempts[a].invoice
  {
    assert ProcOk(digest, s.t, s.calls, s.procs[p]) && Holding(s.procs[p]) != Some(a);
    assert !AttemptsClash(s.t.attempts[a], s.t.attempts[At(s, p).c.attempt]);
  }

  /** Whether a crash or an ambiguous PSP answer left it, such an attempt stays as it is for
      good, and its invoice is never charged again. */
  lemma {:induction false} OrphanBlocksForever(digest: string -> string, s: Sys, es: seq<Step>, a: int)
    requires Inv(digest, s) && Orphaned(s, a)
    ensures var s' := Run(digest, s, es);
            && Orphaned(s', a) && s'.t.attempts[a] == s.t.attempts[a]
            && GrowsWithout(s.calls, s'.calls, s.t.attempts[a].invoice)
  {
    OrphanStays(digest, s, es, a);
    if es != [] {
      var front := es[..|es| - 1];
      OrphanBlocksForever(digest, s, front, a);
      RunKeepsInv(digest, s, front);
      OrphanGetsNoCall(digest, Run(digest, s, front), es[|es| - 1], a);
    }
  }

  /** A crash while holding an attempt orphans it. */
  lemma CrashOrphans(digest: string -> string, s: Sys, p: nat)
    requires Inv(digest, s) && p in s.procs && Holding(s.procs[p]).Some?
    ensures Orphaned(Next(digest, s, Crash(p)), Holding(s.procs[p]).value)
  {
    assert ProcOk(digest, s.t, s.calls, s.procs[p]);
    forall q | q in s.procs && q != p ensures Holding(s.procs[q]) != Holding(s.procs[p]) {
      assert Apart(s.procs[p], s.procs[q]);
    }
  }

  /** A void that lands between the charge and finalize rolls finalize back: the card was
      charged, nothing is recorded, and the attempt left PROCESSING blocks the invoice. */
  lemma VoidStrandsTheCharge(digest: string -> string, s: Sys, p: nat, rowIds: nat -> int, failAt: nat)
    requires Inv(digest, s) && At(s, p).Called? && At(s, p).reply.PspSucceeded?
    requires s.t.invoices[At(s, p).c.invoiceId].state != Open
    ensures var s' := Next(digest, s, FinalizeCommit(p, rowIds, failAt));
            && s'.t == s.t && At(s', p) == Answered(FinalizeFailed)
            && Orphaned(s', At(s, p).c.attempt)
            && s'.t.attempts[At(s, p).c.attempt].status == Processing
            && s'.calls[At(s, p).call].charged && s'.calls[At(s, p).call].attempt == At(s, p).c.attempt
  {
    assert ProcOk(digest, s.t, s.calls, s.procs[p]);
    forall q | q in s.procs && q != p ensures Holding(s.procs[q]) != Holding(s.procs[p]) {
      assert Apart(s.procs[p], s.procs[q]);
    }
  }

  /** After a confirmed charge, finalize records the success exactly when the invoice is still open,
      its outbox rows can be inserted and no statement fails. Without faults and id clashes, that
      is exactly when no void came in between. */
  lemma ChargeIsRecordedExactlyWhen(digest: string -> string, s: Sys, p: nat, rowIds: nat -> int, failAt: nat)
    requires Inv(digest, s) && At(s, p).Called? && At(s, p).reply.PspSucceeded?
    ensures var s' := Next(digest, s, FinalizeCommit(p, rowIds, failAt));
            var Called(req, c, reply, _) := At(s, p);
            && c.attempt in s'.t.attempts && c.invoiceId in s.t.invoices
            && (s'.t.attempts[c.attempt].status == Succeeded <==>
                  && s.t.invoices[c.invoiceId].state == Open
                  && Queueable(s.t, c.invoiceId, rowIds, |ActiveEndpoints(s.t, req.business)|)
                  && failAt >= FinalizeStatements(s.t, reply, req.business))
  {
    assert ProcOk(digest, s.t, s.calls, s.procs[p]) && PairOk(s.t, At(s, p).c.attempt);
    FinalizeStep(digest, s, p, rowIds, failAt);
  }

  /** What every later key read for an orphan that is still PROCESSING answers: the request that
      left it behind is never answered, whoever asks again. */
  lemma OrphanIsNeverAnswered(digest: string -> string, s: Sys, es: seq<Step>, a: int, q: nat, fails: bool)
    requires Inv(digest, s) && Orphaned(s, a) && s.t.attempts[a].status == Processing
    requires var row := s.t.keys[s.t.attempts[a].key];
             var later := Run(digest, s, es);
             At(later, q).Arrived? && At(later, q).req.business == row.business && At(later, q).req.key == row.key
    ensures var later := Run(digest, s, es);
            var read := Next(digest, later, ReadKey(q, fails));
            var row, req := s.t.keys[s.t.attempts[a].key], At(later, q).req;
            && read.t == later.t && read.calls == later.calls
            && At(read, q) == Answered(Rejected(
                 if fails then Internal
                 else if row.hash != RequestHash(digest, req.invoice, req.token) then HashConflict
                 else InProgress))
  {
    var later := Run(digest, s, es);
    OrphanStays(digest, s, es, a);
    RunKeepsInv(digest, s, es);
    KeyRowStays(digest, s, es, s.t.attempts[a].key);
    ProcessingKeyRead(digest, later, a, q, fails);
  }

  /** A key row keeps its business, key and fingerprint. */
  predicate SameKeyRow(x: Key, y: Key) {
    x.business == y.business && x.key == y.key && x.hash == y.hash
  }

  lemma KeyRowStep(digest: string -> string, s: Sys, e: Step, k: int)
    requires k in s.t.keys
    ensures var t' := Next(digest, s, e).t; k in t'.keys && SameKeyRow(s.t.keys[k], t'.keys[k])
  {
    match e {
      case FinalizeCommit(p, rowIds, failAt) =>
        if At(s, p).Called? {
          FinalizeEffect(digest, s, p, rowIds, failAt);
        }
      case CreateInvoice(v, rowIds, failAt) =>
        if Creatable(v) {
          CreateEffect(digest, s, v, rowIds, failAt);
        }
      case _ =>
    }
  }

  lemma {:induction false} KeyRowStays(digest: string -> string, s: Sys, es: seq<Step>, k: int)
    requires k in s.t.keys
    ensures var t' := Run(digest, s, es).t; k in t'.keys && SameKeyRow(s.t.keys[k], t'.keys[k])
  {
    if es != [] {
      KeyRowStays(digest, s, es[..|es| - 1], k);
      KeyRowStep(digest, Run(digest, s, es[..|es| - 1]), es[|es| - 1], k);
    }
  }

  lemma ProcessingKeyRead(digest: string -> string, s: Sys, a: int, q: nat, fails: bool)
    requires Inv(digest, s) && a in s.t.attempts && s.t.attempts[a].status == Processing && At(s, q).Arrived?
    requires var k := s.t.attempts[a].key;
             k in s.t.keys && At(s, q).req.business == s.t.keys[k].business && At(s, q).req.key == s.t.keys[k].key
    ensures var row, req := s.t.keys[s.t.attempts[a].key], At(s, q).req;
            Next(digest, s, ReadKey(q, fails)) == s.(procs := s.procs[q := Answered(Rejected(
              if fails then Internal
              else if row.hash != RequestHash(digest, req.invoice, req.token) then HashConflict
              else InProgress))])
  {
    var req, k := At(s, q).req, s.t.attempts[a].key;
    assert PairOk(s.t, a);
    assert KeyTaken(s.t, req.business, req.key);
    assert FindKey(s.t, req.business, req.key).value == k;
    ReadKeyEffect(digest, s, q, req, fails);
  }
}
