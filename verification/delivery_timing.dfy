/** The retry schedule and the absence of starvation. */
module DeliveryTiming {
  import opened DeliveryQueue
  import opened DeliveryInvariants

  /** Claim n + 1 waits out the n-th interval after failure n; nothing happens in the future. */
  predicate Spaced(h: History, now: int) {
    && (forall i :: 0 <= i < |h.claims| ==> h.claims[i] <= now)
    && (forall i :: 0 <= i < |h.failures| ==> i < |h.claims| && h.claims[i] <= h.failures[i])
    && (forall i :: 0 <= i < |h.claims| - 1 ==> WaitsOut(h, i))
  }

  predicate WaitsOut(h: History, i: nat)
    requires i + 1 < |h.claims|
  {
    i < |h.failures| && h.claims[i + 1] >= h.failures[i] + Delay(i + 1)
  }

  /** How many claims failed so far, and when the next is due, by status. */
  predicate OnSchedule(row: Row, h: History, held: bool) {
    match row.status
    case Pending =>
      && |h.failures| == row.count
      && (row.count > 0 ==> row.due == h.failures[row.count - 1] + Delay(row.count))
    case Processing => held && |h.failures| == row.count - 1
    case Delivered => |h.failures| == row.count - 1
    case Exhausted => |h.failures| == row.count == MAX_ATTEMPTS
  }

  predicate TimelyRow(q: Queue, id: int)
    requires id in q.rows && id in q.history
  {
    q.history[id].abandoned == 0 ==> Spaced(q.history[id], q.now) && OnSchedule(q.rows[id], q.history[id], Held(q, id))
  }

  predicate Timely(q: Queue) {
    forall id :: id in q.rows ==> id in q.history && TimelyRow(q, id)
  }

  /** Claiming a due row nobody holds keeps its history on schedule. */
  lemma ClaimOnSchedule(row: Row, h: History, now: int, until: int)
    requires Active(row) && row.due <= now && |h.claims| == row.count
    requires Spaced(h, now) && OnSchedule(row, h, false)
    ensures Spaced(h.(claims := h.claims + [now]), now)
    ensures OnSchedule(ClaimedRow(row, until), h.(claims := h.claims + [now]), true)
  {
    var h' := h.(claims := h.claims + [now]);
    forall i | 0 <= i < |h'.claims| - 1 ensures WaitsOut(h', i) {
      assert i < |h.claims| - 1 ==> WaitsOut(h, i);
    }
  }

  lemma FailureOnSchedule(row: Row, h: History, now: int, error: string)
    requires row.status == Processing && 1 <= row.count <= MAX_ATTEMPTS && |h.claims| == row.count
    requires Spaced(h, now) && OnSchedule(row, h, true)
    ensures Spaced(h.(failures := h.failures + [now]), now)
    ensures OnSchedule(FailedRow(row, row.count, now, error), h.(failures := h.failures + [now]), false)
  {
    var h' := h.(failures := h.failures + [now]);
    forall i | 0 <= i < |h'.claims| - 1 ensures WaitsOut(h', i) {
      assert WaitsOut(h, i);
    }
  }

  lemma TakenIsTimely(cfg: Config, q: Queue, ids: seq<int>, id: int)
    requires Inv(q) && Timely(q) && Careful(q, ClaimBatch(ids)) && IsBatch(q.rows, q.now, cfg.batch, ids)
    requires id in ids
    ensures var q' := Claimed(q, cfg, ids); id in q'.rows && id in q'.history && TimelyRow(q', id)
  {
    CarefulClaimsAreFree(cfg, q, ids, id);
    assert id in q.history.Keys && TimelyRow(q, id) && CountOk(q.rows[id], q.history[id], false);
    var c := TokenOf(q, cfg, ids, id);
    var q' := Claimed(q, cfg, ids);
    assert Held(q', id);
    var i :| 0 <= i < |ids| && ids[i] == id;
    assert id in DueIds(q.rows, q.now);
    assert q'.rows[id] == ClaimedRow(q.rows[id], q.now + cfg.lease);
    assert q'.history[id] == q.history[id].(claims := q.history[id].claims + [q.now]);
    if q.history[id].abandoned == 0 {
      ClaimOnSchedule(q.rows[id], q.history[id], q.now, q.now + cfg.lease);
    }
  }

  lemma ClaimIsTimely(cfg: Config, q: Queue, ids: seq<int>, id: int)
    requires Inv(q) && Timely(q) && Careful(q, ClaimBatch(ids)) && IsBatch(q.rows, q.now, cfg.batch, ids)
    requires id in q.rows
    ensures var q' := Claimed(q, cfg, ids); id in q'.rows && id in q'.history && TimelyRow(q', id)
  {
    var q' := Claimed(q, cfg, ids);
    assert id in q.history.Keys && TimelyRow(q, id);
    if id in ids {
      TakenIsTimely(cfg, q, ids, id);
    } else if Held(q, id) {
      var c :| c in q.live && q.live[c].row == id;
      assert c in q'.live && q'.live[c].row == id;
    }
  }

  lemma MarkIsTimely(cfg: Config, q: Queue, e: Step, c: nat, id: int)
    requires Inv(q) && Timely(q) && c in q.live && id in q.rows
    requires e == MarkDelivered(c) || (e.MarkFailed? && e.claim == c) || e == Abandon(c)
    ensures var q' := Next(cfg, q, e); id in q'.rows && id in q'.history && TimelyRow(q', id)
  {
    var q' := Next(cfg, q, e);
    assert q.live[c].row in q.rows.Keys && id in q.history.Keys;
    assert ClaimFits(q, c) && Held(q, q.live[c].row);
    ReleaseFrees(q, q', c, id);
    assert TimelyRow(q, id) && CountOk(q.rows[id], q.history[id], Held(q, id));
    if id == q.live[c].row && e.MarkFailed? && q.history[id].abandoned == 0 {
      FailureOnSchedule(q.rows[id], q.history[id], q.now, e.error);
    }
  }

  lemma QuietStepIsTimely(cfg: Config, q: Queue, e: Step)
    requires Inv(q) && Timely(q) && (e.Tick? || e.Enqueue?)
    ensures Timely(Next(cfg, q, e))
  {
    var q' := Next(cfg, q, e);
    forall id | id in q'.rows ensures id in q'.history && TimelyRow(q', id) {
      SameHolders(q, q', id);
      if id in q.rows {
        assert TimelyRow(q, id);
      }
    }
  }

  lemma StepIsTimely(cfg: Config, q: Queue, e: Step)
    requires Inv(q) && Timely(q) && Careful(q, e)
    ensures Timely(Next(cfg, q, e))
  {
    var q' := Next(cfg, q, e);
    match e {
      case Tick(_) => QuietStepIsTimely(cfg, q, e);
      case Enqueue(_) => QuietStepIsTimely(cfg, q, e);
      case ClaimBatch(ids) =>
        if IsBatch(q.rows, q.now, cfg.batch, ids) {
          forall id | id in q'.rows ensures id in q'.history && TimelyRow(q', id) {
            ClaimIsTimely(cfg, q, ids, id);
          }
        }
      case _ =>
        if e.claim in q.live {
          assert q.live[e.claim].row in q.rows.Keys;
          forall id | id in q'.rows ensures id in q'.history && TimelyRow(q', id) {
            MarkIsTimely(cfg, q, e, e.claim, id);
          }
        }
    }
  }

  lemma {:induction false} DisciplinedRunIsTimely(cfg: Config, q: Queue, es: seq<Step>)
    requires Inv(q) && Timely(q) && Disciplined(cfg, q, es)
    ensures Timely(Run(cfg, q, es))
  {
    if es != [] {
      DisciplinedFront(cfg, q, es);
      DisciplinedRunKeepsInv(cfg, q, es[..|es| - 1]);
      DisciplinedRunIsTimely(cfg, q, es[..|es| - 1]);
      StepIsTimely(cfg, Run(cfg, q, es[..|es| - 1]), es[|es| - 1]);
    }
  }

  lemma SpacedAt(h: History, now: int, n: nat)
    requires Spaced(h, now) && 1 <= n < |h.claims| <= MAX_ATTEMPTS
    ensures n <= |h.failures| && h.claims[n] >= h.failures[n - 1] + RETRY_INTERVALS[n - 1]
    ensures h.failures[n - 1] >= h.claims[n - 1]
  {
    assert WaitsOut(h, n - 1);
  }

  lemma RowIsTimely(cfg: Config, es: seq<Step>, id: int)
    requires Disciplined(cfg, EMPTY, es) && id in Run(cfg, EMPTY, es).rows
    ensures var q := Run(cfg, EMPTY, es);
            id in q.history && TimelyRow(q, id) && CountOk(q.rows[id], q.history[id], Held(q, id))
  {
    DisciplinedRunKeepsInv(cfg, EMPTY, es);
    DisciplinedRunIsTimely(cfg, EMPTY, es);
  }

  /** Without abandoned claims, claim n + 1 happens no earlier than failure n plus the n-th
      interval. */
  lemma {:induction false} RetriesWait(cfg: Config, es: seq<Step>, id: int, n: nat)
    requires Disciplined(cfg, EMPTY, es)
    requires id in Run(cfg, EMPTY, es).rows && id in Run(cfg, EMPTY, es).history
    requires var h := Run(cfg, EMPTY, es).history[id]; h.abandoned == 0 && 1 <= n < |h.claims|
    ensures var h := Run(cfg, EMPTY, es).history[id];
            && n <= |h.failures| && n <= |RETRY_INTERVALS|
            && h.claims[n] >= h.failures[n - 1] + RETRY_INTERVALS[n - 1]
            && h.failures[n - 1] >= h.claims[n - 1]
  {
    RowIsTimely(cfg, es, id);
    SpacedAt(Run(cfg, EMPTY, es).history[id], Run(cfg, EMPTY, es).now, n);
  }

  lemma FiveIntervals(h: History, now: int)
    requires Spaced(h, now) && |h.claims| == MAX_ATTEMPTS
    ensures |h.failures| >= 1 && h.claims[5] >= h.failures[0] + 876 * MINUTE
  {
    SpacedAt(h, now, 1);
    SpacedAt(h, now, 2);
    SpacedAt(h, now, 3);
    SpacedAt(h, now, 4);
    SpacedAt(h, now, 5);
  }

  /** So an exhausted delivery's sixth claim is at least 876 minutes after its first failure. */
  lemma {:induction false} ExhaustionTakes876Minutes(cfg: Config, es: seq<Step>, id: int)
    requires Disciplined(cfg, EMPTY, es)
    requires id in Run(cfg, EMPTY, es).rows && id in Run(cfg, EMPTY, es).history
    requires Run(cfg, EMPTY, es).rows[id].status == Exhausted && Run(cfg, EMPTY, es).history[id].abandoned == 0
    ensures var h := Run(cfg, EMPTY, es).history[id];
            && |h.claims| == |h.failures| == 6
            && h.claims[5] >= h.failures[0] + 876 * MINUTE
  {
    RowIsTimely(cfg, es, id);
    FiveIntervals(Run(cfg, EMPTY, es).history[id], Run(cfg, EMPTY, es).now);
  }

  // ----- no starvation

  /** The active rows due no later than row x, x included. */
  function Ahead(rows: map<int, Row>, x: int): set<int>
    requires x in rows
  {
    set id | id in rows && Active(rows[id]) && rows[id].due <= rows[x].due
  }

  predicate Waiting(q: Queue, x: int) {
    x in q.rows && Active(q.rows[x]) && q.rows[x].due < q.now
  }

  /** As long as a waiting row is left alone, the rows ahead of it never grow in number. */
  lemma AheadShrinks(cfg: Config, q: Queue, e: Step, x: int)
    requires Positive(cfg) && Waiting(q, x)
    requires x in Next(cfg, q, e).rows && Next(cfg, q, e).rows[x] == q.rows[x]
    ensures Waiting(Next(cfg, q, e), x)
    ensures Ahead(Next(cfg, q, e).rows, x) <= Ahead(q.rows, x)
  {
    if e.MarkFailed? && Holds(q, e.claim) {
      DelayIsLong(q.live[e.claim].count);
    }
  }

  lemma DelayIsLong(count: nat)
    ensures Delay(count) >= MINUTE
  {
  }

  /** Each claim step that passes the row over takes a whole batch from ahead of it. */
  lemma PassedOverByWholeBatch(cfg: Config, q: Queue, e: Step, x: int)
    requires Positive(cfg) && Waiting(q, x) && FullClaim(cfg, q, e)
    requires Next(cfg, q, e).rows[x] == q.rows[x]
    ensures x in Next(cfg, q, e).rows
    ensures |Ahead(Next(cfg, q, e).rows, x)| + cfg.batch <= |Ahead(q.rows, x)|
  {
    var ids := e.ids;
    var taken := set i | i in ids;
    assert x in DueIds(q.rows, q.now);
    assert x !in ids by {
      assert q.rows[x].count != q.rows[x].count + 1;
    }
    NotAllDue(q, cfg.batch, ids, x);
    DistinctCount(ids);
    forall id | id in taken ensures id in Ahead(q.rows, x) && id !in Ahead(Next(cfg, q, e).rows, x) {
      var i :| 0 <= i < |ids| && ids[i] == id;
      assert id in DueIds(q.rows, q.now);
    }
    AheadShrinks(cfg, q, e, x);
    var later := Ahead(Next(cfg, q, e).rows, x);
    assert later + taken <= Ahead(q.rows, x) && later * taken == {};
    Sizes(later, taken, Ahead(q.rows, x));
  }

  lemma NotAllDue(q: Queue, limit: nat, ids: seq<int>, x: int)
    requires IsBatch(q.rows, q.now, limit, ids) && x in DueIds(q.rows, q.now) && x !in ids
    ensures |ids| == limit
  {
    var taken := set i | i in ids;
    DistinctCount(ids);
    forall id | id in taken ensures id in DueIds(q.rows, q.now) - {x} {
      var i :| 0 <= i < |ids| && ids[i] == id;
    }
    Sizes(taken, {}, DueIds(q.rows, q.now) - {x});
  }

  lemma {:induction false} DistinctCount(ids: seq<int>)
    requires Distinct(ids)
    ensures |set i | i in ids| == |ids|
  {
    if ids != [] {
      var front, last := ids[..|ids| - 1], ids[|ids| - 1];
      DistinctCount(front);
      assert ids == front + [last] && last !in front;
      assert (set i | i in ids) == (set i | i in front) + {last};
    }
  }

  lemma Sizes(a: set<int>, b: set<int>, c: set<int>)
    requires a + b <= c && a * b == {}
    ensures |a| + |b| <= |c|
    decreases |c|
  {
    assert |a + b| == |a| + |b|;
    assert c == (a + b) + (c - (a + b));
    assert |c| == |a + b| + |c - (a + b)|;
  }

  /** The number of claim steps of a run. */
  function ClaimSteps(cfg: Config, q: Queue, es: seq<Step>): nat {
    if es == [] then 0
    else
      var front := es[..|es| - 1];
      ClaimSteps(cfg, q, front) + Counts(cfg, Run(cfg, q, front), es[|es| - 1])
  }

  function Counts(cfg: Config, q: Queue, e: Step): nat {
    if FullClaim(cfg, q, e) then 1 else 0
  }

  /** Row x is the same after every prefix of the run: nobody claimed or marked it. */
  predicate LeftAlone(cfg: Config, q: Queue, es: seq<Step>, x: int)
    requires x in q.rows
  {
    forall n :: 0 <= n <= |es| ==> x in Run(cfg, q, es[..n]).rows && Run(cfg, q, es[..n]).rows[x] == q.rows[x]
  }

  lemma LeftAloneFront(cfg: Config, q: Queue, es: seq<Step>, x: int)
    requires x in q.rows && es != [] && LeftAlone(cfg, q, es, x)
    ensures LeftAlone(cfg, q, es[..|es| - 1], x)
    ensures x in Run(cfg, q, es).rows && Run(cfg, q, es).rows[x] == q.rows[x]
  {
    var front := es[..|es| - 1];
    forall n | 0 <= n <= |front|
      ensures x in Run(cfg, q, front[..n]).rows && Run(cfg, q, front[..n]).rows[x] == q.rows[x]
    {
      assert front[..n] == es[..n];
    }
    assert es[..|es|] == es;
  }

  lemma OneStepEats(cfg: Config, q: Queue, e: Step, x: int)
    requires Positive(cfg) && Waiting(q, x)
    requires x in Next(cfg, q, e).rows && Next(cfg, q, e).rows[x] == q.rows[x]
    ensures Waiting(Next(cfg, q, e), x)
    ensures |Ahead(Next(cfg, q, e).rows, x)| + Counts(cfg, q, e) * cfg.batch <= |Ahead(q.rows, x)|
  {
    AheadShrinks(cfg, q, e, x);
    if FullClaim(cfg, q, e) {
      PassedOverByWholeBatch(cfg, q, e, x);
    } else {
      Sizes(Ahead(Next(cfg, q, e).rows, x), {}, Ahead(q.rows, x));
    }
  }

  lemma MulSum(a: nat, b: nat, c: nat)
    ensures (a + b) * c == a * c + b * c
  {
  }

  lemma {:induction false} ClaimsEatTheQueue(cfg: Config, q: Queue, es: seq<Step>, x: int)
    requires Positive(cfg) && Waiting(q, x) && LeftAlone(cfg, q, es, x)
    ensures Waiting(Run(cfg, q, es), x)
    ensures |Ahead(Run(cfg, q, es).rows, x)| + ClaimSteps(cfg, q, es) * cfg.batch <= |Ahead(q.rows, x)|
  {
    if es != [] {
      var front, e := es[..|es| - 1], es[|es| - 1];
      LeftAloneFront(cfg, q, es, x);
      ClaimsEatTheQueue(cfg, q, front, x);
      LeftAloneAtEnd(cfg, q, front, x);
      OneStepEats(cfg, Run(cfg, q, front), e, x);
      MulSum(ClaimSteps(cfg, q, front), Counts(cfg, Run(cfg, q, front), e), cfg.batch);
    }
  }

  lemma LeftAloneAtEnd(cfg: Config, q: Queue, es: seq<Step>, x: int)
    requires x in q.rows && LeftAlone(cfg, q, es, x)
    ensures x in Run(cfg, q, es).rows && Run(cfg, q, es).rows[x] == q.rows[x]
  {
    assert es[..|es|] == es;
  }

  /** No starvation: with k active rows due no later, fewer than k / batch claim steps can pass
      a waiting row over, whatever all workers do. */
  lemma WaitingIsBounded(cfg: Config, q: Queue, es: seq<Step>, x: int)
    requires Positive(cfg) && Waiting(q, x) && LeftAlone(cfg, q, es, x)
    ensures ClaimSteps(cfg, q, es) * cfg.batch < |Ahead(q.rows, x)|
  {
    ClaimsEatTheQueue(cfg, q, es, x);
    assert x in Ahead(Run(cfg, q, es).rows, x);
  }

  /** Some step of the run is a claim whose batch holds row x. */
  predicate ClaimedDuring(cfg: Config, q: Queue, es: seq<Step>, x: int) {
    exists n :: 0 <= n < |es| && ClaimsRow(cfg, Run(cfg, q, es[..n]), es[n], x)
  }

  lemma ClaimedEarlierOrLast(cfg: Config, q: Queue, es: seq<Step>, x: int)
    requires es != []
    requires var front := es[..|es| - 1];
             ClaimedDuring(cfg, q, front, x) || ClaimsRow(cfg, Run(cfg, q, front), es[|es| - 1], x)
    ensures ClaimedDuring(cfg, q, es, x)
  {
    var front := es[..|es| - 1];
    if ClaimedDuring(cfg, q, front, x) {
      var n :| 0 <= n < |front| && ClaimsRow(cfg, Run(cfg, q, front[..n]), front[n], x);
      assert front[..n] == es[..n] && front[n] == es[n];
    }
  }

  lemma StillLeftAlone(cfg: Config, q: Queue, es: seq<Step>, x: int)
    requires es != [] && x in q.rows && LeftAlone(cfg, q, es[..|es| - 1], x)
    requires x in Run(cfg, q, es).rows && Run(cfg, q, es).rows[x] == q.rows[x]
    ensures LeftAlone(cfg, q, es, x)
  {
    var front := es[..|es| - 1];
    forall n | 0 <= n <= |es| ensures x in Run(cfg, q, es[..n]).rows && Run(cfg, q, es[..n]).rows[x] == q.rows[x] {
      if n == |es| {
        assert es[..n] == es;
      } else {
        assert es[..n] == front[..n];
      }
    }
  }

  lemma {:induction false} ClaimedOrLeftAlone(cfg: Config, q: Queue, es: seq<Step>, x: int)
    requires x in q.rows && !Held(q, x)
    ensures ClaimedDuring(cfg, q, es, x) || (LeftAlone(cfg, q, es, x) && !Held(Run(cfg, q, es), x))
  {
    if es != [] {
      var front, e := es[..|es| - 1], es[|es| - 1];
      var r := Run(cfg, q, front);
      ClaimedOrLeftAlone(cfg, q, front, x);
      if ClaimedDuring(cfg, q, front, x) || ClaimsRow(cfg, r, e, x) {
        ClaimedEarlierOrLast(cfg, q, es, x);
      } else {
        LeftAloneAtEnd(cfg, q, front, x);
        UnheldChangesByClaim(cfg, r, e, x);
        StillLeftAlone(cfg, q, es, x);
      }
    }
  }

  /** A waiting row nobody holds, with k active rows due no later, is claimed within the next
      ceil(k / batch) claim steps, whether or not any worker keeps its leases. */
  lemma WaitingRowIsClaimed(cfg: Config, q: Queue, es: seq<Step>, x: int)
    requires Positive(cfg) && Waiting(q, x) && !Held(q, x)
    requires ClaimSteps(cfg, q, es) * cfg.batch >= |Ahead(q.rows, x)|
    ensures ClaimedDuring(cfg, q, es, x)
  {
    ClaimedOrLeftAlone(cfg, q, es, x);
    if LeftAlone(cfg, q, es, x) {
      WaitingIsBounded(cfg, q, es, x);
    }
  }

  /** Once a row's due time has passed, only an expired lease can hold it. */
  lemma WaitingHolderIsExpired(q: Queue, x: int)
    requires Inv(q) && Waiting(q, x)
    ensures Held(q, x) <==> exists c :: c in q.live && q.live[c].row == x && q.live[c].until < q.now
  {
    assert forall c :: c in q.live ==> ClaimFits(q, c);
  }
}
