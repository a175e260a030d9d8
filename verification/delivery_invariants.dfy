/** What the delivery queue keeps, with and without the lease discipline. */
module DeliveryInvariants {
  import opened DeliveryQueue

  /** Claims and histories refer to rows. Needs no discipline. */
  predicate WellFormed(q: Queue) {
    && q.history.Keys == q.rows.Keys
    && (forall c :: c in q.live ==> c < q.next && q.live[c].row in q.rows && q.live[c].count >= 1)
  }

  lemma WellFormedStep(cfg: Config, q: Queue, e: Step)
    requires WellFormed(q)
    ensures WellFormed(Next(cfg, q, e))
  {
  }

  lemma {:induction false} WellFormedRun(cfg: Config, es: seq<Step>)
    ensures WellFormed(Run(cfg, EMPTY, es))
  {
    if es != [] {
      WellFormedRun(cfg, es[..|es| - 1]);
      WellFormedStep(cfg, Run(cfg, EMPTY, es[..|es| - 1]), es[|es| - 1]);
    }
  }

  /** The clamps never fire: a worker that retries always finds its interval in the table. */
  lemma {:induction false} IntervalIndexInRange(cfg: Config, es: seq<Step>, c: nat)
    requires c in Run(cfg, EMPTY, es).live && Run(cfg, EMPTY, es).live[c].count < MAX_ATTEMPTS
    ensures var count := Run(cfg, EMPTY, es).live[c].count;
            0 <= count - 1 < |RETRY_INTERVALS| && Delay(count) == RETRY_INTERVALS[count - 1]
  {
    WellFormedRun(cfg, es);
  }

  // ----- one live claim per row

  predicate Held(q: Queue, id: int) {
    exists c :: c in q.live && q.live[c].row == id
  }

  predicate ClaimFits(q: Queue, c: nat)
    requires c in q.live
  {
    var k := q.live[c];
    && k.row in q.rows
    && q.rows[k.row].status == Processing && q.rows[k.row].due == k.until && q.rows[k.row].count == k.count
  }

  /** A live claim knows its row as it is, and is the row's only one. */
  predicate Exclusive(q: Queue) {
    && (forall c :: c in q.live ==> ClaimFits(q, c))
    && (forall c, d :: c in q.live && d in q.live && c != d ==> q.live[c].row != q.live[d].row)
  }

  /** Every claim failed, was abandoned, is live, or delivered the row. */
  predicate ClaimsAddUp(row: Row, h: History, held: bool) {
    |h.claims| == |h.failures| + h.abandoned + (if held then 1 else 0) + (if row.status == Delivered then 1 else 0)
  }

  /** The claim count against six tries plus abandonments, by where the row stands. */
  predicate CountOk(row: Row, h: History, held: bool) {
    && |h.claims| == row.count && ClaimsAddUp(row, h, held)
    && match row.status
       case Pending => row.count < MAX_ATTEMPTS
       case Processing => row.count >= 1 && row.count + (if held then 0 else 1) <= MAX_ATTEMPTS + h.abandoned
       case _ => row.count <= MAX_ATTEMPTS + h.abandoned
  }

  predicate CountsOk(q: Queue) {
    forall id :: id in q.rows ==> id in q.history && CountOk(q.rows[id], q.history[id], Held(q, id))
  }

  predicate Inv(q: Queue) {
    WellFormed(q) && Exclusive(q) && CountsOk(q)
  }

  /** Under the discipline a due row that gets claimed is in nobody's hands. */
  lemma CarefulClaimsAreFree(cfg: Config, q: Queue, ids: seq<int>, id: int)
    requires Inv(q) && Careful(q, ClaimBatch(ids)) && IsBatch(q.rows, q.now, cfg.batch, ids) && id in ids
    ensures id in q.rows && !Held(q, id)
  {
    var i :| 0 <= i < |ids| && ids[i] == id;
    assert id in DueIds(q.rows, q.now);
    assert forall c :: c in q.live ==> ClaimFits(q, c);
  }

  lemma TokenOf(q: Queue, cfg: Config, ids: seq<int>, id: int) returns (c: nat)
    requires forall i :: 0 <= i < |ids| ==> ids[i] in q.rows
    requires id in ids
    ensures c in Claimed(q, cfg, ids).live && Claimed(q, cfg, ids).live[c].row == id && c >= q.next
  {
    var i :| 0 <= i < |ids| && ids[i] == id;
    c := q.next + i;
  }

  lemma ClaimKeepsExclusive(cfg: Config, q: Queue, ids: seq<int>)
    requires Inv(q) && Careful(q, ClaimBatch(ids)) && IsBatch(q.rows, q.now, cfg.batch, ids)
    ensures Exclusive(Claimed(q, cfg, ids))
  {
    var q' := Claimed(q, cfg, ids);
    forall c | c in q'.live ensures ClaimFits(q', c) {
      if c in q.live {
        assert ClaimFits(q, c) && c < q.next;
        assert Held(q, q.live[c].row);
        if q.live[c].row in ids {
          CarefulClaimsAreFree(cfg, q, ids, q.live[c].row);
        }
      }
    }
    forall c, d | c in q'.live && d in q'.live && c != d ensures q'.live[c].row != q'.live[d].row {
      NewTokensDiffer(cfg, q, ids, c, d);
    }
  }

  lemma NewTokensDiffer(cfg: Config, q: Queue, ids: seq<int>, c: nat, d: nat)
    requires Inv(q) && Careful(q, ClaimBatch(ids)) && IsBatch(q.rows, q.now, cfg.batch, ids)
    requires var q' := Claimed(q, cfg, ids); c in q'.live && d in q'.live && c != d
    ensures var q' := Claimed(q, cfg, ids); q'.live[c].row != q'.live[d].row
  {
    var q' := Claimed(q, cfg, ids);
    if c in q.live && d !in q.live {
      assert Held(q, q.live[c].row) && ids[d - q.next] in ids;
      CarefulClaimsAreFree(cfg, q, ids, ids[d - q.next]);
    } else if c !in q.live && d in q.live {
      assert Held(q, q.live[d].row) && ids[c - q.next] in ids;
      CarefulClaimsAreFree(cfg, q, ids, ids[c - q.next]);
    }
  }

  lemma ClaimKeepsCounts(cfg: Config, q: Queue, ids: seq<int>)
    requires Inv(q) && Careful(q, ClaimBatch(ids)) && IsBatch(q.rows, q.now, cfg.batch, ids)
    ensures CountsOk(Claimed(q, cfg, ids))
  {
    var q' := Claimed(q, cfg, ids);
    forall id | id in q'.rows ensures id in q'.history && CountOk(q'.rows[id], q'.history[id], Held(q', id)) {
      assert CountOk(q.rows[id], q.history[id], Held(q, id)) && id in q.history.Keys;
      if id in ids {
        CarefulClaimsAreFree(cfg, q, ids, id);
        var c := TokenOf(q, cfg, ids, id);
        var i :| 0 <= i < |ids| && ids[i] == id;
        assert id in DueIds(q.rows, q.now);
      } else if Held(q, id) {
        var c :| c in q.live && q.live[c].row == id;
        assert c in q'.live && q'.live[c].row == id;
      }
    }
  }

  /** Releasing one claim frees its row and no other. */
  lemma ReleaseFrees(q: Queue, r: Queue, c: nat, id: int)
    requires Exclusive(q) && c in q.live && r.live == q.live - {c}
    ensures Held(r, id) <==> Held(q, id) && id != q.live[c].row
  {
    if Held(q, id) && id != q.live[c].row {
      var d :| d in q.live && q.live[d].row == id;
      assert d in r.live && r.live[d].row == id;
    }
  }

  lemma MarkKeepsInv(cfg: Config, q: Queue, e: Step, c: nat)
    requires Inv(q) && c in q.live
    requires e == MarkDelivered(c) || (e.MarkFailed? && e.claim == c) || e == Abandon(c)
    ensures Inv(Next(cfg, q, e))
  {
    var q' := Next(cfg, q, e);
    var id := q.live[c].row;
    assert id in q.rows.Keys;
    assert ClaimFits(q, c) && Held(q, id);
    forall d | d in q'.live ensures ClaimFits(q', d) {
      assert ClaimFits(q, d);
    }
    forall x | x in q'.rows ensures x in q'.history && CountOk(q'.rows[x], q'.history[x], Held(q', x)) {
      assert x in q.history.Keys && CountOk(q.rows[x], q.history[x], Held(q, x));
      ReleaseFrees(q, q', c, x);
    }
  }

  lemma SameHolders(q: Queue, r: Queue, id: int)
    requires r.live == q.live
    ensures Held(r, id) == Held(q, id)
  {
  }

  lemma EnqueueKeepsInv(cfg: Config, q: Queue, id: int)
    requires Inv(q)
    ensures Inv(Next(cfg, q, Enqueue(id)))
  {
    var q' := Next(cfg, q, Enqueue(id));
    forall c | c in q'.live ensures ClaimFits(q', c) {
      assert ClaimFits(q, c);
    }
    forall x | x in q'.rows ensures x in q'.history && CountOk(q'.rows[x], q'.history[x], Held(q', x)) {
      SameHolders(q, q', x);
      if x in q.rows {
        assert CountOk(q.rows[x], q.history[x], Held(q, x));
      }
    }
  }

  lemma StepKeepsInv(cfg: Config, q: Queue, e: Step)
    requires Inv(q) && Careful(q, e)
    ensures Inv(Next(cfg, q, e))
  {
    WellFormedStep(cfg, q, e);
    match e {
      case Tick(to) =>
        TickKeepsInv(cfg, q, to);
      case Enqueue(id) =>
        EnqueueKeepsInv(cfg, q, id);
      case ClaimBatch(ids) =>
        if IsBatch(q.rows, q.now, cfg.batch, ids) {
          ClaimKeepsExclusive(cfg, q, ids);
          ClaimKeepsCounts(cfg, q, ids);
        }
      case MarkDelivered(c) =>
        if c in q.live { MarkKeepsInv(cfg, q, e, c); }
      case MarkFailed(c, _) =>
        if c in q.live { MarkKeepsInv(cfg, q, e, c); }
      case Abandon(c) =>
        if c in q.live { MarkKeepsInv(cfg, q, e, c); }
    }
  }

  lemma TickKeepsInv(cfg: Config, q: Queue, to: int)
    requires Inv(q)
    ensures Inv(Next(cfg, q, Tick(to)))
  {
    var q' := Next(cfg, q, Tick(to));
    forall c | c in q'.live ensures ClaimFits(q', c) {
      assert ClaimFits(q, c);
    }
    forall x | x in q'.rows ensures CountOk(q'.rows[x], q'.history[x], Held(q', x)) {
      SameHolders(q, q', x);
    }
  }

  /** Every disciplined run, with any number of workers and abandonments, keeps one live claim
      per row and at most six claims plus one per abandonment. */
  lemma {:induction false} DisciplinedRunKeepsInv(cfg: Config, q: Queue, es: seq<Step>)
    requires Inv(q) && Disciplined(cfg, q, es)
    ensures Inv(Run(cfg, q, es))
  {
    if es != [] {
      DisciplinedFront(cfg, q, es);
      DisciplinedRunKeepsInv(cfg, q, es[..|es| - 1]);
      StepKeepsInv(cfg, Run(cfg, q, es[..|es| - 1]), es[|es| - 1]);
    }
  }

  lemma {:induction false} ClaimsPerDeliveryBounded(cfg: Config, es: seq<Step>, id: int)
    requires Disciplined(cfg, EMPTY, es) && id in Run(cfg, EMPTY, es).rows
    ensures var q := Run(cfg, EMPTY, es);
            && id in q.history
            && q.rows[id].count == |q.history[id].claims| <= MAX_ATTEMPTS + q.history[id].abandoned
  {
    DisciplinedRunKeepsInv(cfg, EMPTY, es);
    var q := Run(cfg, EMPTY, es);
    assert CountOk(q.rows[id], q.history[id], Held(q, id));
  }

  /** The attempt count is the failures, plus the abandoned claims, plus the live or successful
      claim if there is one. */
  lemma {:induction false} ClaimsAccountedFor(cfg: Config, es: seq<Step>, id: int)
    requires Disciplined(cfg, EMPTY, es) && id in Run(cfg, EMPTY, es).rows
    ensures var q := Run(cfg, EMPTY, es);
            && id in q.history
            && q.rows[id].count == |q.history[id].failures| + q.history[id].abandoned
                 + (if Held(q, id) then 1 else 0) + (if q.rows[id].status == Delivered then 1 else 0)
  {
    DisciplinedRunKeepsInv(cfg, EMPTY, es);
    var q := Run(cfg, EMPTY, es);
    assert CountOk(q.rows[id], q.history[id], Held(q, id));
  }

  /** For any queue whatever: the attempt count passes six exactly when a claim takes a row that
      was claimed six times. */
  lemma PassesSixByClaim(cfg: Config, q: Queue, e: Step, id: int)
    requires id in q.rows && q.rows[id].count <= MAX_ATTEMPTS
    ensures var r := Next(cfg, q, e);
            id in r.rows &&
            (r.rows[id].count > MAX_ATTEMPTS <==> ClaimsRow(cfg, q, e, id) && q.rows[id].count == MAX_ATTEMPTS)
  {
  }

  /** Under the lease discipline such a row is PROCESSING in nobody's hands, so its sixth claim
      was abandoned. */
  lemma PassesSixExactlyWhen(cfg: Config, q: Queue, e: Step, id: int)
    requires Inv(q) && Careful(q, e) && id in q.rows && q.rows[id].count <= MAX_ATTEMPTS
    ensures var r := Next(cfg, q, e);
            id in r.rows &&
            (r.rows[id].count > MAX_ATTEMPTS <==>
               ClaimsRow(cfg, q, e, id) && q.rows[id].count == MAX_ATTEMPTS
               && q.rows[id].status == Processing && !Held(q, id))
    ensures Next(cfg, q, e).rows[id].count > MAX_ATTEMPTS ==> id in q.history && q.history[id].abandoned >= 1
  {
    assert CountOk(q.rows[id], q.history[id], Held(q, id));
    if ClaimsRow(cfg, q, e, id) {
      CarefulClaimsAreFree(cfg, q, e.ids, id);
      assert id in DueIds(q.rows, q.now);
    }
  }

  lemma {:induction false} OneLiveClaimPerDelivery(cfg: Config, es: seq<Step>, c: nat, d: nat)
    requires Disciplined(cfg, EMPTY, es)
    requires c in Run(cfg, EMPTY, es).live && d in Run(cfg, EMPTY, es).live && c != d
    ensures Run(cfg, EMPTY, es).live[c].row != Run(cfg, EMPTY, es).live[d].row
  {
    DisciplinedRunKeepsInv(cfg, EMPTY, es);
  }

  /** Nothing but a claim changes a row nobody holds, and nothing but a claim makes it held. */
  lemma UnheldChangesByClaim(cfg: Config, q: Queue, e: Step, x: int)
    requires x in q.rows && !Held(q, x) && !ClaimsRow(cfg, q, e, x)
    ensures var r := Next(cfg, q, e); x in r.rows && r.rows[x] == q.rows[x] && !Held(r, x)
  {
    var r := Next(cfg, q, e);
    forall c | c in r.live ensures r.live[c].row != x {
      assert c in q.live ==> q.live[c].row != x;
      if FullClaim(cfg, q, e) && c !in q.live {
        assert e.ids[c - q.next] in e.ids;
      }
    }
  }

  // ----- terminal statuses

  /** A late failure report by a holder that saw fewer than six attempts. */
  predicate LateRetry(q: Queue, e: Step, id: int) {
    e.MarkFailed? && Holds(q, e.claim) && q.live[e.claim].row == id && q.live[e.claim].count < MAX_ATTEMPTS
  }

  /** Without any discipline, a row leaves the pair of terminal statuses exactly on a late retry
      mark. */
  lemma TerminalUnlessLateRetry(cfg: Config, q: Queue, e: Step, id: int)
    requires id in q.rows && Terminal(q.rows[id])
    ensures var q' := Next(cfg, q, e);
            id in q'.rows && (Terminal(q'.rows[id]) <==> !LateRetry(q, e, id))
  {
    if e.ClaimBatch? && IsBatch(q.rows, q.now, cfg.batch, e.ids) {
      NeverInBatch(q, cfg.batch, e.ids, id);
    }
  }

  lemma NeverInBatch(q: Queue, limit: nat, ids: seq<int>, id: int)
    requires id in q.rows && Terminal(q.rows[id]) && IsBatch(q.rows, q.now, limit, ids)
    ensures id !in ids
  {
    assert id !in DueIds(q.rows, q.now);
  }

  /** A mark by a holder of this terminal row that gives it another status. */
  predicate Overturns(q: Queue, e: Step, id: int)
    requires id in q.rows
  {
    && (e.MarkDelivered? || e.MarkFailed?)
    && Holds(q, e.claim) && q.live[e.claim].row == id
    && (if e.MarkDelivered? then q.rows[id].status == Exhausted
        else q.rows[id].status == Delivered || q.live[e.claim].count < MAX_ATTEMPTS)
  }

  /** Without any discipline, the status of a DELIVERED or EXHAUSTED row changes exactly on such
      a mark; DELIVERED may turn EXHAUSTED, and the reverse. */
  lemma TerminalStatusChangesExactlyWhen(cfg: Config, q: Queue, e: Step, id: int)
    requires id in q.rows && Terminal(q.rows[id])
    ensures var r := Next(cfg, q, e);
            id in r.rows && (r.rows[id].status != q.rows[id].status <==> Overturns(q, e, id))
  {
    if FullClaim(cfg, q, e) {
      NeverInBatch(q, cfg.batch, e.ids, id);
    }
  }

  predicate HasStatus(q: Queue, id: int, status: Status) {
    id in q.rows && q.rows[id].status == status
  }

  lemma {:induction false} UnheldTerminalStays(cfg: Config, q: Queue, es: seq<Step>, id: int)
    requires id in q.rows && Terminal(q.rows[id]) && !Held(q, id)
    ensures var r := Run(cfg, q, es); id in r.rows && r.rows[id] == q.rows[id] && !Held(r, id)
  {
    if es != [] {
      var front, e := es[..|es| - 1], es[|es| - 1];
      UnheldTerminalStays(cfg, q, front, id);
      var r := Run(cfg, q, front);
      if FullClaim(cfg, r, e) {
        NeverInBatch(r, cfg.batch, e.ids, id);
      }
      UnheldChangesByClaim(cfg, r, e, id);
    }
  }

  lemma HolderOverturns(cfg: Config, q: Queue, c: nat)
    requires WellFormed(q) && c in q.live && Terminal(q.rows[q.live[c].row])
    ensures var id := q.live[c].row;
            var e := if q.rows[id].status == Delivered then MarkFailed(c, "") else MarkDelivered(c);
            !HasStatus(Run(cfg, q, [e]), id, q.rows[id].status)
  {
    var id := q.live[c].row;
    var e := if q.rows[id].status == Delivered then MarkFailed(c, "") else MarkDelivered(c);
    assert id in q.history.Keys;
    RunSnoc(cfg, q, [], e);
    assert [] + [e] == [e];
    TerminalStatusChangesExactlyWhen(cfg, q, e, id);
  }

  /** A DELIVERED row stays DELIVERED, and an EXHAUSTED one EXHAUSTED, whatever happens later,
      exactly when nobody holds the row now. */
  lemma TerminalForeverExactlyWhen(cfg: Config, q: Queue, id: int)
    requires WellFormed(q) && id in q.rows && Terminal(q.rows[id])
    ensures (forall es :: HasStatus(Run(cfg, q, es), id, q.rows[id].status)) <==> !Held(q, id)
  {
    if Held(q, id) {
      var c :| c in q.live && q.live[c].row == id;
      HolderOverturns(cfg, q, c);
    } else {
      forall es ensures HasStatus(Run(cfg, q, es), id, q.rows[id].status) {
        UnheldTerminalStays(cfg, q, es, id);
      }
    }
  }

  /** Under the discipline DELIVERED and EXHAUSTED rows never change again. */
  lemma TerminalStep(cfg: Config, q: Queue, e: Step, id: int)
    requires Inv(q) && id in q.rows && Terminal(q.rows[id])
    ensures var q' := Next(cfg, q, e); id in q'.rows && q'.rows[id] == q.rows[id]
  {
    if e.ClaimBatch? && IsBatch(q.rows, q.now, cfg.batch, e.ids) {
      NeverInBatch(q, cfg.batch, e.ids, id);
    }
    if (e.MarkDelivered? || e.MarkFailed?) && e.claim in q.live {
      assert ClaimFits(q, e.claim);
    }
  }

  lemma {:induction false} TerminalIsFinal(cfg: Config, q: Queue, es: seq<Step>, id: int)
    requires Inv(q) && Disciplined(cfg, q, es) && id in q.rows && Terminal(q.rows[id])
    ensures var r := Run(cfg, q, es); id in r.rows && r.rows[id] == q.rows[id]
  {
    if es != [] {
      DisciplinedFront(cfg, q, es);
      TerminalIsFinal(cfg, q, es[..|es| - 1], id);
      DisciplinedRunKeepsInv(cfg, q, es[..|es| - 1]);
      TerminalStep(cfg, Run(cfg, q, es[..|es| - 1]), es[|es| - 1], id);
    }
  }
}
