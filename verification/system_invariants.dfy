/** The inductive invariant of the step machine: tables, PSP ledger and request locals. */
module SystemInvariants {
  import opened MachineInt
  import opened Wrappers
  import opened Schema
  import opened Transactions
  import opened TableInvariants
  import opened Protocol
  import Fingerprint
  import InvoiceTotal

  /** A PSP call names an attempt, its invoice, its key, and the invoice's stored total; an
      attempt that was charged is never recorded as failed. */
  predicate CallOk(t: Tables, call: Call) {
    && call.attempt in t.attempts
    && var a := t.attempts[call.attempt];
    && a.invoice == call.invoice && a.key in t.keys && call.invoice in t.invoices
    && t.keys[a.key].business == call.business && t.keys[a.key].key == call.key
    && t.invoices[call.invoice].total == call.amount
    && (call.charged ==> a.status != Failed)
  }

  /** An attempt leaves PROCESSING only after its call, and succeeds only when charged. */
  predicate Accounted(calls: seq<Call>, id: int, a: Attempt) {
    a.status != Processing ==>
      exists n :: 0 <= n < |calls| && calls[n].attempt == id && (a.status == Succeeded ==> calls[n].charged)
  }

  predicate CallsDistinct(calls: seq<Call>) {
    forall i, j :: 0 <= i < j < |calls| ==> calls[i].attempt != calls[j].attempt
  }

  ghost predicate CallsOk(t: Tables, calls: seq<Call>) {
    && (forall n :: 0 <= n < |calls| ==> CallOk(t, calls[n]))
    && CallsDistinct(calls)
    && (forall a :: a in t.attempts ==> Accounted(calls, a, t.attempts[a]))
  }

  /** The key row a claim inserted, still waiting for its response. */
  predicate HoldsKey(digest: string -> string, t: Tables, req: PayRequest, c: Claim) {
    && req.invoice == c.invoiceId
    && c.key in t.keys
    && t.keys[c.key] == Key(req.business, req.key, Fingerprint.RequestHash(digest, req.invoice, req.token), None)
  }

  predicate NotCalled(calls: seq<Call>, attempt: int) {
    forall n :: 0 <= n < |calls| ==> calls[n].attempt != attempt
  }

  ghost predicate ProcOk(digest: string -> string, t: Tables, calls: seq<Call>, proc: Proc) {
    match proc
    case Won(req, c) => HoldsRows(t, c, req.business) && HoldsKey(digest, t, req, c) && NotCalled(calls, c.attempt)
    case Called(req, c, reply, n) =>
      && HoldsRows(t, c, req.business) && HoldsKey(digest, t, req, c)
      && n < |calls| && calls[n].attempt == c.attempt
      && (reply.PspSucceeded? ==> calls[n].charged) && (reply.PspFailed? ==> !calls[n].charged)
    case _ => true
  }

  /** The attempt a request is working on, if any. */
  function Holding(proc: Proc): Option<int> {
    match proc
    case Won(_, c) => Some(c.attempt)
    case Called(_, c, _, _) => Some(c.attempt)
    case _ => None
  }

  predicate Apart(x: Proc, y: Proc) {
    Holding(x).Some? ==> Holding(x) != Holding(y)
  }

  ghost predicate ProcsOk(digest: string -> string, s: Sys) {
    && (forall p :: p in s.procs ==> ProcOk(digest, s.t, s.calls, s.procs[p]))
    && (forall p, q :: p in s.procs && q in s.procs && p != q ==> Apart(s.procs[p], s.procs[q]))
  }

  ghost predicate Inv(digest: string -> string, s: Sys) {
    TablesOk(s.t) && CallsOk(s.t, s.calls) && ProcsOk(digest, s)
  }

  /** A request that holds no attempt may stand anywhere. */
  lemma IdleProcKeepsInv(digest: string -> string, s: Sys, p: nat, proc: Proc)
    requires Inv(digest, s) && Holding(proc) == None
    ensures Inv(digest, s.(procs := s.procs[p := proc]))
  {
  }

  lemma ClaimKeepsInv(digest: string -> string, s: Sys, p: nat, req: PayRequest, ids: ClaimIds, failAt: nat)
    requires Inv(digest, s) && At(s, p) == Missed(req)
    ensures Inv(digest, Next(digest, s, ClaimCommit(p, ids, failAt)))
  {
    var r := ClaimTx(s.t, req, Fingerprint.RequestHash(digest, req.invoice, req.token), ids, failAt).1;
    ClaimStep(digest, s, p, req, ids, failAt);
    if r.Ok? {
      ClaimWon(digest, s, p, req, ids);
    } else {
      IdleProcKeepsInv(digest, s, p, AfterClaim(req, r));
    }
  }

  lemma ClaimStep(digest: string -> string, s: Sys, p: nat, req: PayRequest, ids: ClaimIds, failAt: nat)
    requires At(s, p) == Missed(req)
    ensures var r := ClaimTx(s.t, req, Fingerprint.RequestHash(digest, req.invoice, req.token), ids, failAt).1;
            && (r.Ok? ==> ClaimEnabled(s.t, req, ids))
            && Next(digest, s, ClaimCommit(p, ids, failAt)) ==
                 if r.Ok? then SysAfterClaim(digest, s, p, req, ids) else s.(procs := s.procs[p := AfterClaim(req, r)])
  {
  }

  ghost function SysAfterClaim(digest: string -> string, s: Sys, p: nat, req: PayRequest, ids: ClaimIds): Sys
    requires ClaimEnabled(s.t, req, ids)
  {
    Sys(
      Claimed(s.t, req, Fingerprint.RequestHash(digest, req.invoice, req.token), ids),
      s.procs[p := Won(req, Claim(ids.key, ids.attempt, ids.request, req.invoice, s.t.invoices[req.invoice]))],
      s.calls)
  }

  lemma ClaimWon(digest: string -> string, s: Sys, p: nat, req: PayRequest, ids: ClaimIds)
    requires Inv(digest, s) && At(s, p) == Missed(req) && ClaimEnabled(s.t, req, ids)
    ensures Inv(digest, SysAfterClaim(digest, s, p, req, ids))
  {
    var hash := Fingerprint.RequestHash(digest, req.invoice, req.token);
    ClaimKeepsTables(s.t, req, hash, ids);
    ClaimKeepsCalls(s.t, s.calls, req, hash, ids);
    ClaimKeepsProcs(digest, s, p, req, ids);
  }

  lemma ClaimKeepsCalls(t: Tables, calls: seq<Call>, req: PayRequest, hash: string, ids: ClaimIds)
    requires TablesOk(t) && CallsOk(t, calls) && ClaimEnabled(t, req, ids)
    ensures CallsOk(Claimed(t, req, hash, ids), calls)
  {
    var t' := Claimed(t, req, hash, ids);
    forall n | 0 <= n < |calls| ensures CallOk(t', calls[n]) {
      assert CallOk(t, calls[n]);
    }
    forall a | a in t'.attempts ensures Accounted(calls, a, t'.attempts[a]) {
      if a != ids.attempt {
        assert Accounted(calls, a, t.attempts[a]);
      }
    }
  }

  lemma ClaimKeepsProcs(digest: string -> string, s: Sys, p: nat, req: PayRequest, ids: ClaimIds)
    requires Inv(digest, s) && At(s, p) == Missed(req) && ClaimEnabled(s.t, req, ids)
    ensures ProcsOk(digest, SysAfterClaim(digest, s, p, req, ids))
  {
    var hash := Fingerprint.RequestHash(digest, req.invoice, req.token);
    var t' := Claimed(s.t, req, hash, ids);
    forall n | 0 <= n < |s.calls| ensures s.calls[n].attempt != ids.attempt {
      assert CallOk(s.t, s.calls[n]);
    }
    forall q | q in s.procs && q != p ensures ProcOk(digest, t', s.calls, s.procs[q]) {
      assert ProcOk(digest, s.t, s.calls, s.procs[q]);
      ClaimKeepsHeld(digest, s.t, s.calls, req, hash, ids, s.procs[q]);
    }
  }

  lemma ClaimKeepsHeld(digest: string -> string, t: Tables, calls: seq<Call>, req: PayRequest, hash: string,
                       ids: ClaimIds, proc: Proc)
    requires ClaimEnabled(t, req, ids) && ProcOk(digest, t, calls, proc)
    ensures ProcOk(digest, Claimed(t, req, hash, ids), calls, proc)
  {
  }

  lemma ChargeKeepsInv(digest: string -> string, s: Sys, p: nat, req: PayRequest, c: Claim, reply: PspReply,
                       chargedOnError: bool)
    requires Inv(digest, s) && At(s, p) == Won(req, c)
    ensures Inv(digest, Next(digest, s, Charge(p, reply, chargedOnError)))
  {
    var call := CallFor(req, c, ReallyCharged(reply, chargedOnError));
    assert ProcOk(digest, s.t, s.calls, s.procs[p]);
    CallKeepsLedger(s.t, s.calls, call);
    ChargeKeepsProcs(digest, s, p, req, c, reply, call);
  }

  lemma CallKeepsLedger(t: Tables, calls: seq<Call>, call: Call)
    requires CallsOk(t, calls) && CallOk(t, call) && NotCalled(calls, call.attempt)
    ensures CallsOk(t, calls + [call])
  {
    forall a | a in t.attempts ensures Accounted(calls + [call], a, t.attempts[a]) {
      AccountedGrows(calls, calls + [call], a, t.attempts[a]);
    }
  }

  lemma ChargeKeepsProcs(digest: string -> string, s: Sys, p: nat, req: PayRequest, c: Claim, reply: PspReply,
                        call: Call)
    requires Inv(digest, s) && At(s, p) == Won(req, c) && call.attempt == c.attempt
    requires (reply.PspSucceeded? ==> call.charged) && (reply.PspFailed? ==> !call.charged)
    ensures ProcsOk(digest, Sys(s.t, s.procs[p := Called(req, c, reply, |s.calls|)], s.calls + [call]))
  {
    assert ProcOk(digest, s.t, s.calls, s.procs[p]);
    forall q | q in s.procs && q != p ensures ProcOk(digest, s.t, s.calls + [call], s.procs[q]) {
      assert ProcOk(digest, s.t, s.calls, s.procs[q]) && Apart(s.procs[p], s.procs[q]);
    }
  }

  lemma AccountedGrows(calls: seq<Call>, more: seq<Call>, id: int, a: Attempt)
    requires calls <= more && Accounted(calls, id, a)
    ensures Accounted(more, id, a)
  {
    if a.status != Processing {
      var n :| 0 <= n < |calls| && calls[n].attempt == id && (a.status == Succeeded ==> calls[n].charged);
      assert more[n] == calls[n];
    }
  }

  lemma FinalizeKeepsInv(digest: string -> string, s: Sys, p: nat, rowIds: nat -> int, failAt: nat)
    requires Inv(digest, s) && At(s, p).Called?
    ensures Inv(digest, Next(digest, s, FinalizeCommit(p, rowIds, failAt)))
  {
    FinalizeStep(digest, s, p, rowIds, failAt);
    if FinalizeCommits(s, p, rowIds, failAt) {
      FinalizeWon(digest, s, p, rowIds);
    } else {
      IdleProcKeepsInv(digest, s, p, AfterFinalize(None));
    }
  }

  ghost predicate FinalizeCommits(s: Sys, p: nat, rowIds: nat -> int, failAt: nat) {
    FinalizeEnabled(s, p, rowIds) && failAt >= FinalizeStatements(s.t, At(s, p).reply, At(s, p).req.business)
  }

  lemma FinalizeStep(digest: string -> string, s: Sys, p: nat, rowIds: nat -> int, failAt: nat)
    requires At(s, p).Called?
    ensures Next(digest, s, FinalizeCommit(p, rowIds, failAt)) ==
              if FinalizeCommits(s, p, rowIds, failAt) then SysAfterFinalize(s, p, rowIds)
              else s.(procs := s.procs[p := AfterFinalize(None)])
  {
  }

  lemma FinalizeWon(digest: string -> string, s: Sys, p: nat, rowIds: nat -> int)
    requires Inv(digest, s) && FinalizeEnabled(s, p, rowIds)
    ensures Inv(digest, SysAfterFinalize(s, p, rowIds))
  {
    var Called(req, c, reply, _) := At(s, p);
    assert ProcOk(digest, s.t, s.calls, s.procs[p]);
    FinalizeKeepsTables(s.t, c, reply, req.business, rowIds);
    FinalizeKeepsCalls(digest, s, p, rowIds);
    FinalizeKeepsProcs(digest, s, p, rowIds);
  }

  ghost predicate FinalizeEnabled(s: Sys, p: nat, rowIds: nat -> int) {
    At(s, p).Called? && Finalizable(s.t, At(s, p).c, At(s, p).reply, At(s, p).req.business, rowIds)
  }

  ghost function TablesAfter(s: Sys, p: nat, rowIds: nat -> int): Tables
    requires FinalizeEnabled(s, p, rowIds)
  {
    Finalized(s.t, At(s, p).c, At(s, p).reply, At(s, p).req.business, rowIds)
  }

  ghost function SysAfterFinalize(s: Sys, p: nat, rowIds: nat -> int): Sys
    requires FinalizeEnabled(s, p, rowIds)
  {
    Sys(TablesAfter(s, p, rowIds), s.procs[p := Answered(Fresh(AnswerTo(At(s, p).c, At(s, p).reply)))], s.calls)
  }

  lemma FinalizeKeepsCalls(digest: string -> string, s: Sys, p: nat, rowIds: nat -> int)
    requires Inv(digest, s) && FinalizeEnabled(s, p, rowIds)
    ensures CallsOk(TablesAfter(s, p, rowIds), s.calls)
  {
    var Called(req, c, reply, n) := At(s, p);
    var t' := TablesAfter(s, p, rowIds);
    assert ProcOk(digest, s.t, s.calls, s.procs[p]);
    forall m | 0 <= m < |s.calls| ensures CallOk(t', s.calls[m]) {
      assert CallOk(s.t, s.calls[m]);
      assert m != n ==> s.calls[m].attempt != s.calls[n].attempt;
    }
    forall a | a in t'.attempts ensures Accounted(s.calls, a, t'.attempts[a]) {
      assert Accounted(s.calls, a, s.t.attempts[a]);
      assert a == c.attempt ==> s.calls[n].attempt == a;
    }
  }

  lemma FinalizeKeepsProcs(digest: string -> string, s: Sys, p: nat, rowIds: nat -> int)
    requires Inv(digest, s) && FinalizeEnabled(s, p, rowIds)
    ensures ProcsOk(digest, SysAfterFinalize(s, p, rowIds))
  {
    forall q | q in s.procs && q != p ensures ProcOk(digest, TablesAfter(s, p, rowIds), s.calls, s.procs[q]) {
      OthersKeepRows(digest, s, p, q, rowIds);
    }
  }

  lemma OthersKeepRows(digest: string -> string, s: Sys, p: nat, q: nat, rowIds: nat -> int)
    requires Inv(digest, s) && FinalizeEnabled(s, p, rowIds) && q in s.procs && p != q
    ensures ProcOk(digest, TablesAfter(s, p, rowIds), s.calls, s.procs[q])
  {
    assert ProcOk(digest, s.t, s.calls, s.procs[p]) && ProcOk(digest, s.t, s.calls, s.procs[q]);
    assert Apart(s.procs[p], s.procs[q]);
    var Called(req, c, reply, _) := At(s, p);
    if Holding(s.procs[q]).Some? {
      assert !AttemptsClash(s.t.attempts[c.attempt], s.t.attempts[s.procs[q].c.attempt]);
      FinalizeKeepsHeld(digest, s.t, c, reply, req.business, rowIds, s.procs[q].req, s.procs[q].c);
    }
  }

  lemma FinalizeKeepsHeld(digest: string -> string, t: Tables, c: Claim, reply: PspReply, business: int,
                        ids: nat -> int, req: PayRequest, other: Claim)
    requires Finalizable(t, c, reply, business, ids)
    requires HoldsRows(t, other, req.business) && HoldsKey(digest, t, req, other)
    requires other.attempt != c.attempt && other.key != c.key
    ensures var t' := Finalized(t, c, reply, business, ids);
            HoldsRows(t', other, req.business) && HoldsKey(digest, t', req, other)
  {
  }

  /** Steps that leave attempts and keys alone, and only ever change an invoice's state. */
  ghost predicate PaymentsUntouched(t: Tables, u: Tables) {
    && u.attempts == t.attempts && u.keys == t.keys
    && (forall i :: i in t.invoices ==>
          && i in u.invoices
          && u.invoices[i].business == t.invoices[i].business
          && u.invoices[i].total == t.invoices[i].total)
  }

  lemma UntouchedKeepsInv(digest: string -> string, s: Sys, t: Tables)
    requires Inv(digest, s) && TablesOk(t) && PaymentsUntouched(s.t, t)
    ensures Inv(digest, s.(t := t))
  {
    forall n | 0 <= n < |s.calls| ensures CallOk(t, s.calls[n]) {
      assert CallOk(s.t, s.calls[n]);
    }
    forall p | p in s.procs ensures ProcOk(digest, t, s.calls, s.procs[p]) {
      assert ProcOk(digest, s.t, s.calls, s.procs[p]);
    }
  }

  lemma CreatedUntouched(t: Tables, v: NewInvoice, total: int64, rowIds: nat -> int)
    requires Insertable(t, v, rowIds)
    ensures PaymentsUntouched(t, Created(t, v, total, rowIds))
  {
  }

  lemma CreateKeepsInv(digest: string -> string, s: Sys, v: NewInvoice, rowIds: nat -> int, failAt: nat)
    requires Inv(digest, s)
    ensures Inv(digest, Next(digest, s, CreateInvoice(v, rowIds, failAt)))
  {
    if Creatable(v) {
      CreateEffect(digest, s, v, rowIds, failAt);
      var total := InvoiceTotal.Sum(v.inputs);
      if CreateTx(s.t, v, total, rowIds, failAt).1 {
        CreateCommitted(digest, s, v, total, rowIds);
      }
    }
  }

  lemma CreateCommitted(digest: string -> string, s: Sys, v: NewInvoice, total: int64, rowIds: nat -> int)
    requires Inv(digest, s) && Insertable(s.t, v, rowIds) && v.state != Paid
    ensures Inv(digest, s.(t := Created(s.t, v, total, rowIds)))
  {
    var t := Created(s.t, v, total, rowIds);
    CreateKeepsTables(s.t, v, total, rowIds);
    CreatedUntouched(s.t, v, total, rowIds);
    UntouchedKeepsInv(digest, s, t);
  }

  lemma OverwriteKeepsInv(digest: string -> string, s: Sys, business: int, invoice: int)
    requires Inv(digest, s)
    ensures Inv(digest, s.(t := VoidWriteTx(s.t, business, invoice)))
  {
    VoidKeepsTables(s.t, business, invoice);
    UntouchedKeepsInv(digest, s, VoidWriteTx(s.t, business, invoice));
  }

  lemma VoidWriteKeepsInv(digest: string -> string, s: Sys, p: nat, fails: bool)
    requires Inv(digest, s)
    ensures Inv(digest, Next(digest, s, VoidWrite(p, fails)))
  {
    match At(s, p) {
      case Voiding(business, invoice) =>
        var written := if fails then s else s.(t := VoidWriteTx(s.t, business, invoice));
        if !fails {
          OverwriteKeepsInv(digest, s, business, invoice);
        }
        IdleProcKeepsInv(digest, written, p, AfterVoidWrite(s.t, business, invoice, fails));
      case _ =>
    }
  }

  lemma ReadKeyKeepsInv(digest: string -> string, s: Sys, p: nat, fails: bool)
    requires Inv(digest, s)
    ensures Inv(digest, Next(digest, s, ReadKey(p, fails)))
  {
    if At(s, p).Arrived? {
      var req := At(s, p).req;
      var hash := Fingerprint.RequestHash(digest, req.invoice, req.token);
      ReadKeyEffect(digest, s, p, req, fails);
      IdleProcKeepsInv(digest, s, p, AfterLookup(req, LookupTx(s.t, req, hash, fails)));
    }
  }

  lemma EndpointKeepsInv(digest: string -> string, s: Sys, id: int, row: Endpoint)
    requires Inv(digest, s) && (id in s.t.endpoints ==> s.t.endpoints[id].business == row.business)
    ensures Inv(digest, s.(t := s.t.(endpoints := s.t.endpoints[id := row])))
  {
    EndpointsKeepTables(s.t, id, row);
    UntouchedKeepsInv(digest, s, s.t.(endpoints := s.t.endpoints[id := row]));
  }

  /** The steps of a payment. */
  lemma PaymentStepKeepsInv(digest: string -> string, s: Sys, e: Step)
    requires Inv(digest, s) && (e.Arrive? || e.ReadKey? || e.ClaimCommit? || e.Charge? || e.FinalizeCommit?)
    ensures Inv(digest, Next(digest, s, e))
  {
    match e {
      case Arrive(p, business, invoice, header, token) =>
        IdleProcKeepsInv(digest, s, p, Admit(business, invoice, header, token));
      case ReadKey(p, fails) =>
        ReadKeyKeepsInv(digest, s, p, fails);
      case ClaimCommit(p, ids, failAt) =>
        if At(s, p).Missed? {
          ClaimKeepsInv(digest, s, p, At(s, p).req, ids, failAt);
        }
      case Charge(p, reply, chargedOnError) =>
        if At(s, p).Won? {
          ChargeKeepsInv(digest, s, p, At(s, p).req, At(s, p).c, reply, chargedOnError);
        }
      case FinalizeCommit(p, rowIds, failAt) =>
        if At(s, p).Called? {
          FinalizeKeepsInv(digest, s, p, rowIds, failAt);
        }
    }
  }

  /** Every step keeps the invariant. */
  lemma StepKeepsInv(digest: string -> string, s: Sys, e: Step)
    requires Inv(digest, s)
    ensures Inv(digest, Next(digest, s, e))
  {
    match e {
      case VoidRead(p, business, invoice, fails) =>
        IdleProcKeepsInv(digest, s, p, AfterVoidRead(business, invoice, fails, VoidReadTx(s.t, business, invoice)));
      case VoidWrite(p, fails) =>
        VoidWriteKeepsInv(digest, s, p, fails);
      case Crash(p) =>
        IdleProcKeepsInv(digest, s, p, Crashed);
      case CreateInvoice(v, rowIds, failAt) =>
        CreateKeepsInv(digest, s, v, rowIds, failAt);
      case AddEndpoint(id, business) =>
        if id !in s.t.endpoints {
          EndpointKeepsInv(digest, s, id, Endpoint(business, true));
        }
      case SetActive(id, active) =>
        if id in s.t.endpoints {
          EndpointKeepsInv(digest, s, id, s.t.endpoints[id].(active := active));
        }
      case _ =>
        PaymentStepKeepsInv(digest, s, e);
    }
  }

  /** So every reachable state satisfies it, whatever the interleaving, faults and crashes. */
  lemma {:induction false} RunKeepsInv(digest: string -> string, s: Sys, es: seq<Step>)
    requires Inv(digest, s)
    ensures Inv(digest, Run(digest, s, es))
  {
    if es != [] {
      RunKeepsInv(digest, s, es[..|es| - 1]);
      StepKeepsInv(digest, Run(digest, s, es[..|es| - 1]), es[|es| - 1]);
    }
  }

  lemma {:induction false} ReachableInv(digest: string -> string, es: seq<Step>)
    ensures Inv(digest, Run(digest, INIT, es))
  {
    EmptyOk();
    RunKeepsInv(digest, INIT, es);
  }
}
