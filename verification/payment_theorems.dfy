/** What holds in every reachable state, over every interleaving with faults and crashes. */
module PaymentTheorems {
  import opened Wrappers
  import opened Schema
  import opened Transactions
  import opened TableInvariants
  import opened Protocol
  import opened SystemInvariants

  /** The PSP really charges each invoice at most once. */
  lemma ChargedAtMostOnce(digest: string -> string, es: seq<Step>, i: nat, j: nat)
    requires var s := Run(digest, INIT, es);
             i < j < |s.calls| && s.calls[i].charged && s.calls[j].charged
    ensures var s := Run(digest, INIT, es);
            s.calls[i].invoice != s.calls[j].invoice
  {
    var s := Run(digest, INIT, es);
    ReachableInv(digest, es);
    assert CallOk(s.t, s.calls[i]) && CallOk(s.t, s.calls[j]);
    var a, b := s.t.attempts[s.calls[i].attempt], s.t.attempts[s.calls[j].attempt];
    assert SuccessIsAlone(a, b) && SuccessIsAlone(b, a) && !AttemptsClash(a, b);
  }

  /** Each idempotency key of a business leads to at most one PSP call, however many requests
      missed it in their unlocked read. */
  lemma OneCallPerKey(digest: string -> string, es: seq<Step>, i: nat, j: nat)
    requires i < j < |Run(digest, INIT, es).calls|
    ensures var s := Run(digest, INIT, es);
            s.calls[i].business != s.calls[j].business || s.calls[i].key != s.calls[j].key
  {
    var s := Run(digest, INIT, es);
    ReachableInv(digest, es);
    assert CallOk(s.t, s.calls[i]) && CallOk(s.t, s.calls[j]);
    var a, b := s.t.attempts[s.calls[i].attempt], s.t.attempts[s.calls[j].attempt];
    assert !AttemptsClash(a, b);
    assert a.key in s.t.keys && b.key in s.t.keys && a.key != b.key;
  }

  /** Each key row has exactly one attempt, of the same business, and the two statuses
      determine each other. */
  lemma KeyAndAttemptPairOff(digest: string -> string, es: seq<Step>, k: int) returns (a: int)
    requires k in Run(digest, INIT, es).t.keys
    ensures var t := Run(digest, INIT, es).t;
            && a in t.attempts && t.attempts[a].key == k
            && (forall b :: b in t.attempts && t.attempts[b].key == k ==> b == a)
    ensures var t := Run(digest, INIT, es).t;
            && t.attempts[a].invoice in t.invoices
            && t.invoices[t.attempts[a].invoice].business == t.keys[k].business
    ensures var t := Run(digest, INIT, es).t;
            var response := t.keys[k].response;
            && (response == None <==> t.attempts[a].status == Processing)
            && (response.Some? && response.value.code == 200 <==> t.attempts[a].status == Succeeded)
            && (response.Some? && response.value.code == 402 <==> t.attempts[a].status == Failed)
            && (response.Some? && response.value.code == 202 <==> t.attempts[a].status == Unknown)
  {
    var t := Run(digest, INIT, es).t;
    ReachableInv(digest, es);
    assert HasAttempt(t, k);
    a :| a in t.attempts && t.attempts[a].key == k;
    assert PairOk(t, a);
    forall b | b in t.attempts && t.attempts[b].key == k ensures b == a {
      assert b != a ==> !AttemptsClash(t.attempts[a], t.attempts[b]);
    }
  }

  /** ... and each attempt has its key row, so neither table is ever left behind. */
  lemma {:induction false} AttemptHasKey(digest: string -> string, es: seq<Step>, a: int)
    requires a in Run(digest, INIT, es).t.attempts
    ensures var t := Run(digest, INIT, es).t;
            && t.attempts[a].key in t.keys
            && (t.keys[t.attempts[a].key].response == None <==> t.attempts[a].status == Processing)
  {
    ReachableInv(digest, es);
    assert PairOk(Run(digest, INIT, es).t, a);
  }

  /** Whatever a stored response tells, the attempt's row tells too. */
  lemma {:induction false} StoredAnswersReport(digest: string -> string, es: seq<Step>, k: int) returns (a: int)
    requires var t := Run(digest, INIT, es).t; k in t.keys && t.keys[k].response.Some?
    ensures var t := Run(digest, INIT, es).t;
            && a in t.attempts && t.attempts[a].key == k && t.attempts[a].status != Processing
            && Reports(t.keys[k].response.value.body, a, t.attempts[a])
  {
    var t := Run(digest, INIT, es).t;
    ReachableInv(digest, es);
    assert HasAttempt(t, k);
    a :| a in t.attempts && t.attempts[a].key == k;
    assert PairOk(t, a);
  }

  /** A stored answer, and so every replay of it, shows the invoice's current state exactly as long
      as a paid invoice is not voided, or an invoice not paid by this attempt is still open. */
  lemma {:induction false} StoredAnswerIsCurrentExactlyWhen(digest: string -> string, es: seq<Step>, k: int)
    requires var t := Run(digest, INIT, es).t; k in t.keys && t.keys[k].response.Some?
    ensures var t := Run(digest, INIT, es).t;
            var response := t.keys[k].response.value;
            && response.body.invoice in t.invoices
            && var state := t.invoices[response.body.invoice].state;
            response.body.invoiceState == state <==> if response.code == 200 then state != Void else state == Open
  {
    var a := StoredAnswersReport(digest, es, k);
    ReachableInv(digest, es);
    assert PairOk(Run(digest, INIT, es).t, a);
  }

  /** No two key rows share business and key, and no two attempts share a key row or the request
      id the PSP sees. */
  lemma {:induction false} RowsAreUnique(digest: string -> string, es: seq<Step>, a: int, b: int)
    requires a != b
    ensures var t := Run(digest, INIT, es).t;
            && (a in t.keys && b in t.keys ==>
                  t.keys[a].business != t.keys[b].business || t.keys[a].key != t.keys[b].key)
            && (a in t.attempts && b in t.attempts ==>
                  t.attempts[a].key != t.attempts[b].key && t.attempts[a].request != t.attempts[b].request)
  {
    var t := Run(digest, INIT, es).t;
    ReachableInv(digest, es);
    if a in t.attempts && b in t.attempts {
      assert !AttemptsClash(t.attempts[a], t.attempts[b]);
    }
  }

  /** Two attempts on one invoice are never both unresolved nor both successful. */
  lemma {:induction false} AttemptsOfOneInvoice(digest: string -> string, es: seq<Step>, a: int, b: int)
    requires var t := Run(digest, INIT, es).t;
             a in t.attempts && b in t.attempts && a != b && t.attempts[a].invoice == t.attempts[b].invoice
    ensures var t := Run(digest, INIT, es).t;
            && !(Unresolved(t.attempts[a].status) && Unresolved(t.attempts[b].status))
            && (t.attempts[a].status == Succeeded ==> t.attempts[b].status == Failed)
  {
    var t := Run(digest, INIT, es).t;
    ReachableInv(digest, es);
    assert SuccessIsAlone(t.attempts[a], t.attempts[b]) && !AttemptsClash(t.attempts[a], t.attempts[b]);
  }

  /** PAID means exactly one successful attempt, and a real charge of the stored total. */
  lemma {:induction false} PaidMeansCharged(digest: string -> string, es: seq<Step>, invoice: int) returns (a: int,
                        n: nat)
    requires var t := Run(digest, INIT, es).t; invoice in t.invoices && t.invoices[invoice].state == Paid
    ensures var s := Run(digest, INIT, es);
            && a in s.t.attempts && SucceededFor(s.t.attempts[a], invoice)
            && (forall b :: b in s.t.attempts && SucceededFor(s.t.attempts[b], invoice) ==> b == a)
    ensures var s := Run(digest, INIT, es);
            && n < |s.calls| && s.calls[n].attempt == a && s.calls[n].charged
            && s.calls[n].invoice == invoice && s.calls[n].amount == s.t.invoices[invoice].total
  {
    var s := Run(digest, INIT, es);
    ReachableInv(digest, es);
    assert HasSuccess(s.t, invoice);
    a :| a in s.t.attempts && SucceededFor(s.t.attempts[a], invoice);
    forall b | b in s.t.attempts && SucceededFor(s.t.attempts[b], invoice) ensures b == a {
      assert b != a ==> SuccessIsAlone(s.t.attempts[a], s.t.attempts[b]);
    }
    assert Accounted(s.calls, a, s.t.attempts[a]);
    n :| 0 <= n < |s.calls| && s.calls[n].attempt == a && s.calls[n].charged;
    assert CallOk(s.t, s.calls[n]);
  }

  lemma SucceededMeansNotOpen(digest: string -> string, es: seq<Step>, a: int)
    requires var t := Run(digest, INIT, es).t; a in t.attempts && t.attempts[a].status == Succeeded
    ensures LeftOpen(Run(digest, INIT, es).t, Run(digest, INIT, es).t.attempts[a].invoice)
  {
    ReachableInv(digest, es);
  }

  /** Money taken is never answered as declined: the attempt of a charged call has succeeded or is
      still unresolved, and its key's response, if any, is not the 402. */
  lemma {:induction false} ChargedIsNeverDeclined(digest: string -> string, es: seq<Step>, n: nat)
    requires n < |Run(digest, INIT, es).calls| && Run(digest, INIT, es).calls[n].charged
    ensures var s := Run(digest, INIT, es);
            var a := s.calls[n].attempt;
            && a in s.t.attempts && s.t.attempts[a].key in s.t.keys
            && (s.t.attempts[a].status == Succeeded || Unresolved(s.t.attempts[a].status))
            && var response := s.t.keys[s.t.attempts[a].key].response;
            response.Some? ==> response.value.code != 402 && response.value.body.status != Failed
  {
    var s := Run(digest, INIT, es);
    ReachableInv(digest, es);
    assert CallOk(s.t, s.calls[n]) && PairOk(s.t, s.calls[n].attempt);
  }

  /** Every PSP call asks for its invoice's stored total. */
  lemma CallsAskForTheTotal(digest: string -> string, es: seq<Step>, n: nat)
    requires n < |Run(digest, INIT, es).calls|
    ensures var s := Run(digest, INIT, es);
            && s.calls[n].invoice in s.t.invoices
            && s.calls[n].amount == s.t.invoices[s.calls[n].invoice].total
            && s.calls[n].business == s.t.invoices[s.calls[n].invoice].business
  {
    var s := Run(digest, INIT, es);
    ReachableInv(digest, es);
    assert CallOk(s.t, s.calls[n]);
    assert PairOk(s.t, s.calls[n].attempt);
  }

  /** A claim wins exactly when the invoice is open, both rows can be inserted and no
      statement fails; a losing claim leaves tables and ledger as they were. */
  lemma ClaimWinsExactlyWhen(digest: string -> string, s: Sys, p: nat, ids: ClaimIds, failAt: nat)
    requires At(s, p).Missed?
    ensures var s' := Next(digest, s, ClaimCommit(p, ids, failAt));
            && (At(s', p).Won? <==> ClaimEnabled(s.t, At(s, p).req, ids) && failAt >= 4)
            && (!At(s', p).Won? ==> s'.t == s.t && At(s', p).Answered?)
            && s'.calls == s.calls
  {
  }

  /** Which answer a request gets that loses the race for an open invoice: the index on the
      attempts answers "in progress", but the key row's own constraints, checked first, answer
      with an internal error. So a duplicate of the very same request gets the latter. */
  lemma LosersAnswer(digest: string -> string, s: Sys, p: nat, ids: ClaimIds, failAt: nat)
    requires At(s, p).Missed? && failAt >= 4
    requires var req := At(s, p).req;
             && OwnsInvoice(s.t, req.business, req.invoice) && s.t.invoices[req.invoice].state == Open
             && !ClaimEnabled(s.t, req, ids)
    ensures var req := At(s, p).req;
            var answer := At(Next(digest, s, ClaimCommit(p, ids, failAt)), p);
            var keyRefused := ids.key in s.t.keys || KeyTaken(s.t, req.business, req.key);
            && (answer == Answered(Rejected(Internal)) <==> keyRefused)
            && (answer == Answered(Rejected(InProgress)) <==> !keyRefused)
  {
    ClaimEffect(digest, s, p, At(s, p).req, ids, failAt);
  }

  /** A request that missed its key before another one took it is never told that a payment is in
      progress and never gets the stored answer: it is refused by its first obstacle, whatever
      the ids and faults, and changes nothing. */
  lemma SameKeyLoserAnswer(digest: string -> string, s: Sys, p: nat, ids: ClaimIds, failAt: nat)
    requires At(s, p).Missed? && KeyTaken(s.t, At(s, p).req.business, At(s, p).req.key)
    ensures var s' := Next(digest, s, ClaimCommit(p, ids, failAt));
            var req := At(s, p).req;
            && s'.t == s.t && s'.calls == s.calls
            && At(s', p) == Answered(Rejected(
                 if failAt == 0 then Internal
                 else if !OwnsInvoice(s.t, req.business, req.invoice) then NotFound
                 else if s.t.invoices[req.invoice].state != Open then NotPayable
                 else Internal))
  {
    ClaimEffect(digest, s, p, At(s, p).req, ids, failAt);
  }

  /** Claims on one invoice are serialised: while an attempt is unresolved none can win. */
  lemma UnresolvedBlocksClaims(digest: string -> string, s: Sys, p: nat, ids: ClaimIds, failAt: nat, a: int)
    requires At(s, p).Missed? && a in s.t.attempts
    requires Unresolved(s.t.attempts[a].status) && s.t.attempts[a].invoice == At(s, p).req.invoice
    ensures !At(Next(digest, s, ClaimCommit(p, ids, failAt)), p).Won?
  {
    assert AttemptsClash(s.t.attempts[a], NewAttempt(At(s, p).req, ids));
  }
}
