/** The webhook outbox as a leased work queue: any number of workers, one clock. */
module DeliveryQueue {
  import opened Wrappers

  const MINUTE := 60_000_000   // microseconds
  const MAX_ATTEMPTS := 6
  const RETRY_INTERVALS: seq<int> := [1 * MINUTE, 5 * MINUTE, 30 * MINUTE, 120 * MINUTE, 720 * MINUTE]

  datatype Status = Pending | Processing | Delivered | Exhausted

  datatype Row = Row(status: Status, count: nat, due: int, lastError: Option<string>, deliveredAt: Option<int>)

  /** A row in a worker's hands: the count it saw and the end of its lease. */
  datatype Claim = Claim(row: int, count: nat, until: int)

  /** When the row was claimed, when those claims failed, and how many were abandoned. */
  datatype History = History(claims: seq<int>, failures: seq<int>, abandoned: nat)

  datatype Queue = Queue(now: int, rows: map<int, Row>, live: map<nat, Claim>, history: map<int, History>, next: nat)

  datatype Config = Config(lease: int, batch: nat)

  datatype Step =
    | Tick(to: int)
    | Enqueue(id: int)
    | ClaimBatch(ids: seq<int>)
    | MarkDelivered(claim: nat)
    | MarkFailed(claim: nat, error: string)
    | Abandon(claim: nat)

  const EMPTY := Queue(0, map[], map[], map[], 0)

  /** NewWorker replaces non-positive settings by defaults. */
  predicate Positive(cfg: Config) {
    cfg.lease > 0 && cfg.batch > 0
  }

  predicate Active(row: Row) {
    row.status == Pending || row.status == Processing
  }

  predicate Terminal(row: Row) {
    row.status == Delivered || row.status == Exhausted
  }

  function DueIds(rows: map<int, Row>, now: int): set<int> {
    set id | id in rows && Active(rows[id]) && rows[id].due <= now
  }

  predicate Distinct(ids: seq<int>) {
    forall i, j :: 0 <= i < j < |ids| ==> ids[i] != ids[j]
  }

  /** ORDER BY next_attempt_at LIMIT batch over the due rows; ties fall any way. */
  predicate IsBatch(rows: map<int, Row>, now: int, limit: nat, ids: seq<int>) {
    var due := DueIds(rows, now);
    && Distinct(ids)
    && (forall i :: 0 <= i < |ids| ==> ids[i] in due)
    && |ids| == (if |due| < limit then |due| else limit)
    && (forall i, d :: 0 <= i < |ids| && d in due && d !in ids ==> rows[ids[i]].due <= rows[d].due)
  }

  function ClaimedRow(row: Row, until: int): Row {
    row.(status := Processing, count := row.count + 1, due := until)
  }

  function ClaimRows(rows: map<int, Row>, ids: seq<int>, until: int): map<int, Row> {
    map id | id in rows :: if id in ids then ClaimedRow(rows[id], until) else rows[id]
  }

  function ClaimTokens(q: Queue, ids: seq<int>, until: int): (tokens: map<nat, Claim>)
    requires forall i :: 0 <= i < |ids| ==> ids[i] in q.rows
    ensures forall c :: c in tokens <==> q.next <= c < q.next + |ids|
    ensures forall c :: c in tokens ==> tokens[c] == TokenFor(q, ids, until, c - q.next)
  {
    map c: nat {:trigger TokenFor(q, ids, until, c - q.next)} | q.next <= c < q.next + |ids| ::
      TokenFor(q, ids, until, c - q.next)
  }

  function TokenFor(q: Queue, ids: seq<int>, until: int, i: nat): Claim
    requires i < |ids| && ids[i] in q.rows
  {
    Claim(ids[i], q.rows[ids[i]].count + 1, until)
  }

  function NoteClaims(history: map<int, History>, ids: seq<int>, now: int): map<int, History> {
    map id | id in history ::
      if id in ids then history[id].(claims := history[id].claims + [now]) else history[id]
  }

  function Claimed(q: Queue, cfg: Config, ids: seq<int>): Queue
    requires forall i :: 0 <= i < |ids| ==> ids[i] in q.rows
  {
    q.(rows := ClaimRows(q.rows, ids, q.now + cfg.lease),
       live := q.live + ClaimTokens(q, ids, q.now + cfg.lease),
       history := NoteClaims(q.history, ids, q.now),
       next := q.next + |ids|)
  }

  /** handleFailure's interval: index AttemptCount - 1, clamped into the table. */
  function Delay(count: nat): int {
    var index := count - 1;
    var low := if index < 0 then 0 else index;
    RETRY_INTERVALS[if low >= |RETRY_INTERVALS| then |RETRY_INTERVALS| - 1 else low]
  }

  /** The Mark updates filter on the row's id alone, not on its status or count. */
  function DeliveredRow(row: Row, now: int): Row {
    row.(status := Delivered, deliveredAt := Some(now), lastError := None)
  }

  function FailedRow(row: Row, count: nat, now: int, error: string): Row {
    if count >= MAX_ATTEMPTS then row.(status := Exhausted, lastError := Some(error))
    else row.(status := Pending, due := now + Delay(count), lastError := Some(error))
  }

  predicate Holds(q: Queue, c: nat) {
    c in q.live && q.live[c].row in q.rows && q.live[c].row in q.history
  }

  function Release(q: Queue, c: nat): Queue {
    q.(live := q.live - {c})
  }

  function Next(cfg: Config, q: Queue, e: Step): Queue {
    match e
    case Tick(to) => if to >= q.now then q.(now := to) else q
    case Enqueue(id) =>
      if id in q.rows then q
      else q.(rows := q.rows[id := Row(Pending, 0, q.now, None, None)], history := q.history[id := History([], [], 0)])
    case ClaimBatch(ids) =>
      if IsBatch(q.rows, q.now, cfg.batch, ids) then Claimed(q, cfg, ids) else q
    case MarkDelivered(c) =>
      if Holds(q, c) then
        var id := q.live[c].row;
        Release(q, c).(rows := q.rows[id := DeliveredRow(q.rows[id], q.now)])
      else q
    case MarkFailed(c, error) =>
      if Holds(q, c) then
        var id := q.live[c].row;
        var h := q.history[id];
        Release(q, c).(rows := q.rows[id := FailedRow(q.rows[id], q.live[c].count, q.now, error)],
                       history := q.history[id := h.(failures := h.failures + [q.now])])
      else q
    case Abandon(c) =>
      if Holds(q, c) then
        var id := q.live[c].row;
        Release(q, c).(history := q.history[id := q.history[id].(abandoned := q.history[id].abandoned + 1)])
      else q
  }

  lemma BatchIsClaimed(q: Queue, cfg: Config, ids: seq<int>)
    requires IsBatch(q.rows, q.now, cfg.batch, ids)
    ensures forall j :: 0 <= j < |ids| ==> ids[j] in q.rows
    ensures Next(cfg, q, ClaimBatch(ids)) == Claimed(q, cfg, ids)
  {
  }

  function Run(cfg: Config, q: Queue, es: seq<Step>): Queue {
    if es == [] then q else Next(cfg, Run(cfg, q, es[..|es| - 1]), es[|es| - 1])
  }

  predicate FullClaim(cfg: Config, q: Queue, e: Step) {
    e.ClaimBatch? && IsBatch(q.rows, q.now, cfg.batch, e.ids)
  }

  /** The step claims a batch that holds row x. */
  predicate ClaimsRow(cfg: Config, q: Queue, e: Step, x: int) {
    FullClaim(cfg, q, e) && x in e.ids
  }

  lemma RunSnoc(cfg: Config, q: Queue, es: seq<Step>, e: Step)
    ensures Run(cfg, q, es + [e]) == Next(cfg, Run(cfg, q, es), e)
  {
    assert (es + [e])[..|es|] == es;
  }

  // ----- the lease discipline

  /** Every live claim is still within its lease. */
  predicate LeasesKept(q: Queue) {
    forall c :: c in q.live ==> q.now < q.live[c].until
  }

  /** Either all leases are kept, or claims are only made with empty hands, as one sequential
      worker does. */
  predicate Careful(q: Queue, e: Step) {
    LeasesKept(q) || (e.ClaimBatch? ==> q.live == map[])
  }

  predicate Disciplined(cfg: Config, q: Queue, es: seq<Step>) {
    forall n :: 0 <= n < |es| ==> Careful(Run(cfg, q, es[..n]), es[n])
  }

  lemma DisciplinedFront(cfg: Config, q: Queue, es: seq<Step>)
    requires es != [] && Disciplined(cfg, q, es)
    ensures Disciplined(cfg, q, es[..|es| - 1])
    ensures Careful(Run(cfg, q, es[..|es| - 1]), es[|es| - 1])
  {
    var front := es[..|es| - 1];
    forall n | 0 <= n < |front| ensures Careful(Run(cfg, q, front[..n]), front[n]) {
      assert front[..n] == es[..n];
    }
  }
}
