/** How an invoice's state may evolve, with void split into its read and its write. */
module InvoiceStates {
  import opened Schema
  import opened Transactions
  import opened Protocol

  predicate InState(s: Sys, invoice: int, state: InvoiceState) {
    invoice in s.t.invoices && s.t.invoices[invoice].state == state
  }

  /** This step is a pending void's unguarded write to the invoice. */
  predicate Overwrites(s: Sys, e: Step, invoice: int) {
    && e.VoidWrite? && !e.fails
    && At(s, e.p).Voiding? && At(s, e.p).invoice == invoice
    && OwnsInvoice(s.t, At(s, e.p).business, invoice)
  }

  /** The allowed changes of one step. */
  lemma StateStep(digest: string -> string, s: Sys, e: Step, invoice: int)
    requires invoice in s.t.invoices
    ensures Evolves(s.t, Next(digest, s, e).t, invoice, Overwrites(s, e, invoice))
  {
    match e {
      case FinalizeCommit(p, rowIds, failAt) =>
        if At(s, p).Called? {
          FinalizeEffect(digest, s, p, rowIds, failAt);
          FinalizeEvolves(s.t, At(s, p).c, At(s, p).reply, At(s, p).req.business, rowIds, failAt, invoice);
        }
      case CreateInvoice(v, rowIds, failAt) =>
        if Creatable(v) {
          CreateEffect(digest, s, v, rowIds, failAt);
        }
      case VoidWrite(p, fails) =>
        VoidEvolves(digest, s, p, fails, invoice);
      case _ =>
    }
  }

  /** Total and business stay; the state stays, or goes from OPEN to PAID, or is overwritten. */
  predicate Evolves(t: Tables, u: Tables, invoice: int, overwritten: bool)
    requires invoice in t.invoices
  {
    && invoice in u.invoices
    && u.invoices[invoice].total == t.invoices[invoice].total
    && u.invoices[invoice].business == t.invoices[invoice].business
    && var before, after := t.invoices[invoice].state, u.invoices[invoice].state;
    if overwritten then after == Void else after == before || (after == Paid && before == Open)
  }

  lemma FinalizeEvolves(t: Tables, c: Claim, reply: PspReply, business: int, ids: nat -> int, failAt: nat, invoice: int)
    requires invoice in t.invoices
    ensures Evolves(t, FinalizeTx(t, c, reply, business, ids, failAt).0, invoice, false)
  {
  }

  lemma VoidEvolves(digest: string -> string, s: Sys, p: nat, fails: bool, invoice: int)
    requires invoice in s.t.invoices
    ensures Evolves(s.t, Next(digest, s, VoidWrite(p, fails)).t, invoice, Overwrites(s, VoidWrite(p, fails), invoice))
  {
    if At(s, p).Voiding? && !fails {
      VoidWriteEffect(digest, s, p, At(s, p).business, At(s, p).invoice);
    }
  }

  /** Once an invoice is not OPEN it never becomes OPEN. */
  lemma {:induction false} NeverReopens(digest: string -> string, s: Sys, es: seq<Step>, invoice: int)
    requires invoice in s.t.invoices && !InState(s, invoice, Open)
    ensures invoice in Run(digest, s, es).t.invoices && !InState(Run(digest, s, es), invoice, Open)
  {
    if es != [] {
      NeverReopens(digest, s, es[..|es| - 1], invoice);
      StateStep(digest, Run(digest, s, es[..|es| - 1]), es[|es| - 1], invoice);
    }
  }

  /** VOID is terminal. */
  lemma {:induction false} VoidIsTerminal(digest: string -> string, s: Sys, es: seq<Step>, invoice: int)
    requires InState(s, invoice, Void)
    ensures InState(Run(digest, s, es), invoice, Void)
  {
    if es != [] {
      VoidIsTerminal(digest, s, es[..|es| - 1], invoice);
      StateStep(digest, Run(digest, s, es[..|es| - 1]), es[|es| - 1], invoice);
    }
  }

  ghost predicate EverOverwritten(digest: string -> string, s: Sys, es: seq<Step>, invoice: int) {
    exists n :: 0 <= n < |es| && Overwrites(Run(digest, s, es[..n]), es[n], invoice)
  }

  lemma OverwrittenEarlierOrLast(digest: string -> string, s: Sys, front: seq<Step>, e: Step, invoice: int)
    ensures EverOverwritten(digest, s, front + [e], invoice) <==>
            EverOverwritten(digest, s, front, invoice) || Overwrites(Run(digest, s, front), e, invoice)
  {
    var es := front + [e];
    assert es[..|front|] == front && es[|front|] == e;
    forall n | 0 <= n < |front| ensures es[..n] == front[..n] && es[n] == front[n] {
    }
    if EverOverwritten(digest, s, front, invoice) {
      var n :| 0 <= n < |front| && Overwrites(Run(digest, s, front[..n]), front[n], invoice);
      assert Overwrites(Run(digest, s, es[..n]), es[n], invoice);
    }
    if EverOverwritten(digest, s, es, invoice) {
      var n :| 0 <= n < |es| && Overwrites(Run(digest, s, es[..n]), es[n], invoice);
      assert n == |front| || Overwrites(Run(digest, s, front[..n]), front[n], invoice);
    }
  }

  /** A paid invoice stays paid exactly as long as no pending void writes to it. */
  lemma {:induction false} PaidUntilOverwritten(digest: string -> string, s: Sys, es: seq<Step>, invoice: int)
    requires InState(s, invoice, Paid)
    ensures InState(Run(digest, s, es), invoice, if EverOverwritten(digest, s, es, invoice) then Void else Paid)
  {
    if es != [] {
      var front, e := es[..|es| - 1], es[|es| - 1];
      assert es == front + [e];
      PaidUntilOverwritten(digest, s, front, invoice);
      StateStep(digest, Run(digest, s, front), e, invoice);
      OverwrittenEarlierOrLast(digest, s, front, e, invoice);
    }
  }

  /** No request is about to write VOID over the invoice. */
  predicate NoVoidPendingOn(s: Sys, business: int, invoice: int) {
    forall p :: p in s.procs ==> s.procs[p] != Voiding(business, invoice)
  }

  lemma PaidStep(digest: string -> string, s: Sys, e: Step, business: int, invoice: int)
    requires InState(s, invoice, Paid) && s.t.invoices[invoice].business == business
    requires NoVoidPendingOn(s, business, invoice)
    ensures var s' := Next(digest, s, e);
            && InState(s', invoice, Paid) && s'.t.invoices[invoice].business == business
            && NoVoidPendingOn(s', business, invoice)
  {
    StateStep(digest, s, e, invoice);
  }

  lemma {:induction false} PaidStays(digest: string -> string, s: Sys, es: seq<Step>, business: int, invoice: int)
    requires InState(s, invoice, Paid) && s.t.invoices[invoice].business == business
    requires NoVoidPendingOn(s, business, invoice)
    ensures var s' := Run(digest, s, es);
            && InState(s', invoice, Paid) && s'.t.invoices[invoice].business == business
            && NoVoidPendingOn(s', business, invoice)
  {
    if es != [] {
      PaidStays(digest, s, es[..|es| - 1], business, invoice);
      PaidStep(digest, Run(digest, s, es[..|es| - 1]), es[|es| - 1], business, invoice);
    }
  }

  lemma PendingVoidWins(digest: string -> string, s: Sys, p: nat, invoice: int)
    requires InState(s, invoice, Paid) && At(s, p) == Voiding(s.t.invoices[invoice].business, invoice)
    ensures !InState(Run(digest, s, [VoidWrite(p, false)]), invoice, Paid)
  {
    RunSnoc(digest, s, [], VoidWrite(p, false));
    assert [] + [VoidWrite(p, false)] == [VoidWrite(p, false)];
    VoidWriteEffect(digest, s, p, s.t.invoices[invoice].business, invoice);
  }

  /** A paid invoice stays paid whatever happens exactly when no void is pending on it now. */
  lemma PaidForeverExactlyWhen(digest: string -> string, s: Sys, invoice: int)
    requires InState(s, invoice, Paid)
    ensures (forall es :: InState(Run(digest, s, es), invoice, Paid))
       <==> NoVoidPendingOn(s, s.t.invoices[invoice].business, invoice)
  {
    var business := s.t.invoices[invoice].business;
    if NoVoidPendingOn(s, business, invoice) {
      forall es ensures InState(Run(digest, s, es), invoice, Paid) {
        PaidStays(digest, s, es, business, invoice);
      }
    } else {
      var p :| p in s.procs && s.procs[p] == Voiding(business, invoice);
      PendingVoidWins(digest, s, p, invoice);
    }
  }

  // ----- voids whose read and write nothing separates

  datatype Macro =
    | Single(e: Step)
    | AtomicVoid(p: nat, business: int, invoice: int, readFails: bool, writeFails: bool)

  function Expand(ms: seq<Macro>): seq<Step> {
    if ms == [] then []
    else
      Expand(ms[..|ms| - 1]) +
      match ms[|ms| - 1]
      case Single(e) => if e.VoidRead? || e.VoidWrite? then [] else [e]
      case AtomicVoid(p, business, invoice, readFails, writeFails) =>
        [VoidRead(p, business, invoice, readFails), VoidWrite(p, writeFails)]
  }

  predicate NoVoidPending(s: Sys) {
    forall p :: p in s.procs ==> !s.procs[p].Voiding?
  }

  lemma OtherStepsStartNoVoid(digest: string -> string, s: Sys, e: Step)
    requires NoVoidPending(s) && !e.VoidRead?
    ensures NoVoidPending(Next(digest, s, e))
  {
  }

  lemma AtomicVoidLeavesPaid(digest: string -> string, s: Sys, p: nat, business: int, invoice: int, readFails: bool,
                        writeFails: bool, paid: int)
    requires NoVoidPending(s)
    ensures var read := Next(digest, s, VoidRead(p, business, invoice, readFails));
            var s' := Next(digest, read, VoidWrite(p, writeFails));
            NoVoidPending(s') && (InState(s, paid, Paid) ==> InState(s', paid, Paid))
  {
  }

  predicate Owned(t: Tables, business: int, invoice: int) {
    invoice in t.invoices && t.invoices[invoice].business == business
  }

  /** What a void answers, told from the row it reads: not found unless it is the business's own,
      refused when paid or uncollectible, and nothing left to do when void already. */
  lemma VoidAnswersTellTheRow(t: Tables, business: int, invoice: int)
    ensures var check := VoidReadTx(t, business, invoice);
            && (check == VoidNotFound <==> !Owned(t, business, invoice))
            && (check == VoidRefused <==>
                  Owned(t, business, invoice) && t.invoices[invoice].state in {Paid, Uncollectible})
            && (check == AlreadyVoid <==> Owned(t, business, invoice) && t.invoices[invoice].state == Void)
            && (check == MayVoid <==>
                  Owned(t, business, invoice) && t.invoices[invoice].state in {Draft, Open})
  {
  }

  /** An undisturbed void turns exactly the business's own DRAFT and OPEN invoices VOID, changes
      nothing else, and answers what the row called for. */
  lemma AtomicVoidOutcome(digest: string -> string, s: Sys, p: nat, business: int, invoice: int)
    requires p !in s.procs
    ensures var read := Next(digest, s, VoidRead(p, business, invoice, false));
            var s' := Next(digest, read, VoidWrite(p, false));
            && At(s', p).Answered? && At(s', p).answer.VoidAnswer? && s'.calls == s.calls
            && var check := At(s', p).answer.check;
            if !Owned(s.t, business, invoice) then check == VoidNotFound && s'.t == s.t
            else
              match s.t.invoices[invoice].state
              case Paid => check == VoidRefused && s'.t == s.t
              case Uncollectible => check == VoidRefused && s'.t == s.t
              case Void => check == AlreadyVoid && s'.t == s.t
              case _ =>
                && check == MayVoid
                && s'.t == s.t.(invoices := s.t.invoices[invoice := s.t.invoices[invoice].(state := Void)])
  {
  }

  lemma {:induction false} AtomicRuns(digest: string -> string, s: Sys, ms: seq<Macro>, invoice: int)
    requires NoVoidPending(s)
    ensures NoVoidPending(Run(digest, s, Expand(ms)))
    ensures InState(s, invoice, Paid) ==> InState(Run(digest, s, Expand(ms)), invoice, Paid)
  {
    if ms != [] {
      var front := Expand(ms[..|ms| - 1]);
      AtomicRuns(digest, s, ms[..|ms| - 1], invoice);
      var r := Run(digest, s, front);
      match ms[|ms| - 1] {
        case Single(e) =>
          if e.VoidRead? || e.VoidWrite? {
            assert front + [] == front;
          } else {
            assert Expand(ms)[..|Expand(ms)| - 1] == front;
            OtherStepsStartNoVoid(digest, r, e);
            if InState(r, invoice, Paid) {
              StateStep(digest, r, e, invoice);
            }
          }
        case AtomicVoid(p, business, i, readFails, writeFails) =>
          RunPair(digest, s, front, VoidRead(p, business, i, readFails), VoidWrite(p, writeFails));
          AtomicVoidLeavesPaid(digest, r, p, business, i, readFails, writeFails, invoice);
      }
    }
  }

  /** PAID is terminal when every void reads and writes in one step. */
  lemma {:induction false} PaidIsTerminalUnderAtomicVoids(digest: string -> string, ms: seq<Macro>, more: seq<Macro>,
                        invoice: int)
    requires InState(Run(digest, INIT, Expand(ms)), invoice, Paid)
    ensures InState(Run(digest, Run(digest, INIT, Expand(ms)), Expand(more)), invoice, Paid)
  {
    AtomicRuns(digest, INIT, ms, invoice);
    AtomicRuns(digest, Run(digest, INIT, Expand(ms)), more, invoice);
  }
}
