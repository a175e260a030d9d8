/** The Snowflake id generator under an arbitrary clock. */
module Snowflake {
  import opened MachineInt
  import opened Ordered

  const DEFAULT_EPOCH: int64 := 1767225600000
  const NODES := 0x400
  const SEQUENCES := 0x1000
  const TICKS := 0x200_0000_0000   // 2^41 milliseconds

  /** The time and sequence number a generator last used. */
  datatype Stamp = Stamp(time: int64, sequence: nat)

  /** The shifts and ors of the id, in wrapping 64-bit arithmetic. */
  function Pack(epoch: int64, node: nat, s: Stamp): int64 {
    var ticks := Wrap(Wrap(s.time - epoch) * Pow2(22));
    Wrap(BitOr(BitOr(ToUnsigned(ticks), node * Pow2(12)), s.sequence))
  }

  predicate InRange(epoch: int64, node: nat, s: Stamp) {
    epoch <= s.time < epoch + TICKS && node < NODES && s.sequence < SEQUENCES
  }

  /** Lexicographic order on (time, sequence). */
  predicate Precedes(a: Stamp, b: Stamp) {
    a.time < b.time || (a.time == b.time && a.sequence < b.sequence)
  }

  lemma Shifts()
    ensures Pow2(12) == SEQUENCES && Pow2(10) == NODES && Pow2(22) == NODES * SEQUENCES
  {
    assert Pow2(5) == 32;
    assert Pow2(10) == 1024;
    assert Pow2(15) == 32768;
    assert Pow2(20) == 1048576;
  }

  /** Three fields side by side. */
  function Layout(ticks: nat, node: nat, sequence: nat): nat {
    (ticks * NODES + node) * SEQUENCES + sequence
  }

  lemma FieldsSideBySide(t: nat, node: nat, sequence: nat)
    requires node < NODES && sequence < SEQUENCES
    ensures BitOr(BitOr(t * Pow2(22), node * Pow2(12)), sequence) == Layout(t, node, sequence)
  {
    Shifts();
    BitOrDisjoint(t, node * Pow2(12), 22);
    BitOrDisjoint(t * NODES + node, sequence, 12);
  }

  /** As long as shifting the milliseconds loses no bit, the id is the three fields, as an int64. */
  lemma PackIsLayout(epoch: int64, node: nat, s: Stamp, t: nat)
    requires t == s.time - epoch < 2 * TICKS && node < NODES && s.sequence < SEQUENCES
    requires ToUnsigned(Wrap(t * Pow2(22))) == t * Pow2(22)
    ensures Pack(epoch, node, s) == Wrap(Layout(t, node, s.sequence))
  {
    FieldsSideBySide(t, node, s.sequence);
    assert Wrap(s.time - epoch) == t;
  }

  /** Within 41 bits of the epoch the three fields occupy disjoint bits. */
  lemma PackIsPositional(epoch: int64, node: nat, s: Stamp)
    requires InRange(epoch, node, s)
    ensures Pack(epoch, node, s) == Layout(s.time - epoch, node, s.sequence) >= 0
  {
    Shifts();
    var t: nat := s.time - epoch;
    assert t * Pow2(22) < TWO_63;
    PackIsLayout(epoch, node, s, t);
  }

  /** Timestamp, node and sequence can be read back from the id. */
  lemma FieldsRecoverable(epoch: int64, node: nat, s: Stamp)
    requires InRange(epoch, node, s)
    ensures var id := Pack(epoch, node, s);
            && id % SEQUENCES == s.sequence
            && (id / SEQUENCES) % NODES == node
            && id / SEQUENCES / NODES == s.time - epoch
  {
    PackIsPositional(epoch, node, s);
    LayoutFields(s.time - epoch, node, s.sequence);
  }

  lemma LayoutFields(ticks: nat, node: nat, sequence: nat)
    requires node < NODES && sequence < SEQUENCES
    ensures var id := Layout(ticks, node, sequence);
            id % SEQUENCES == sequence && (id / SEQUENCES) % NODES == node && id / SEQUENCES / NODES == ticks
  {
    SequenceField(ticks * NODES + node, sequence);
    NodeField(ticks, node);
  }

  lemma LayoutOrder(ticks: nat, sequence: nat, ticks': nat, sequence': nat, node: nat)
    requires node < NODES && sequence < SEQUENCES && sequence' < SEQUENCES
    ensures ticks < ticks' || (ticks == ticks' && sequence < sequence')
       <==> Layout(ticks, node, sequence) < Layout(ticks', node, sequence')
  {
  }

  lemma SequenceField(high: nat, low: nat)
    requires low < SEQUENCES
    ensures (high * SEQUENCES + low) % SEQUENCES == low && (high * SEQUENCES + low) / SEQUENCES == high
  {
  }

  lemma NodeField(high: nat, low: nat)
    requires low < NODES
    ensures (high * NODES + low) % NODES == low && (high * NODES + low) / NODES == high
  {
  }

  lemma LaterStampLargerId(epoch: int64, node: nat, a: Stamp, b: Stamp)
    requires InRange(epoch, node, a) && InRange(epoch, node, b)
    ensures Precedes(a, b) <==> Pack(epoch, node, a) < Pack(epoch, node, b)
  {
    PackIsPositional(epoch, node, a);
    PackIsPositional(epoch, node, b);
    LayoutOrder(a.time - epoch, a.sequence, b.time - epoch, b.sequence, node);
  }

  /** For the 41 bits of milliseconds after those the sign bit is set and the fields stay. */
  lemma PackPastRange(epoch: int64, node: nat, s: Stamp)
    requires epoch + TICKS <= s.time < epoch + 2 * TICKS && node < NODES && s.sequence < SEQUENCES
    ensures Pack(epoch, node, s) == Layout(s.time - epoch, node, s.sequence) - TWO_64 < 0
  {
    var t: nat := s.time - epoch;
    ShiftPastRange(t);
    SignBit(t * Pow2(22));
    PackIsLayout(epoch, node, s, t);
    LayoutPastRange(t, node, s.sequence);
    SignBit(Layout(t, node, s.sequence));
  }

  lemma ShiftPastRange(t: nat)
    requires TICKS <= t < 2 * TICKS
    ensures TWO_63 <= t * Pow2(22) < TWO_64
  {
    Shifts();
  }

  lemma LayoutPastRange(t: nat, node: nat, sequence: nat)
    requires TICKS <= t < 2 * TICKS && node < NODES && sequence < SEQUENCES
    ensures TWO_63 <= Layout(t, node, sequence) < TWO_64
  {
  }

  /** Once the clock passes the 41st bit, ids turn negative: a later stamp gets a larger id
      exactly when it is not the one that crosses. */
  lemma OrderBreaksExactlyAtOverflow(epoch: int64, node: nat, a: Stamp, b: Stamp)
    requires epoch <= a.time && b.time < epoch + 2 * TICKS && Precedes(a, b)
    requires node < NODES && a.sequence < SEQUENCES && b.sequence < SEQUENCES
    ensures Pack(epoch, node, a) < Pack(epoch, node, b) <==> !(a.time < epoch + TICKS <= b.time)
  {
    LayoutOrder(a.time - epoch, a.sequence, b.time - epoch, b.sequence, node);
    if a.time < epoch + TICKS {
      PackIsPositional(epoch, node, a);
    } else {
      PackPastRange(epoch, node, a);
    }
    if b.time < epoch + TICKS {
      PackIsPositional(epoch, node, b);
    } else {
      PackPastRange(epoch, node, b);
    }
  }

  predicate Advancing(stamps: seq<Stamp>) {
    forall k :: 0 < k < |stamps| ==> Precedes(stamps[k - 1], stamps[k])
  }

  lemma {:induction false} StampsAdvance(stamps: seq<Stamp>, i: nat, j: nat)
    requires i < j < |stamps| && Advancing(stamps)
    ensures Precedes(stamps[i], stamps[j])
  {
    if i < j - 1 {
      StampsAdvance(stamps, i, j - 1);
    }
  }

  /** Every later id of one generator is larger than every earlier one. */
  lemma IdsStrictlyIncrease(epoch: int64, node: nat, stamps: seq<Stamp>, i: nat, j: nat)
    requires i < j < |stamps| && Advancing(stamps)
    requires forall k :: 0 <= k < |stamps| ==> InRange(epoch, node, stamps[k])
    ensures Pack(epoch, node, stamps[i]) < Pack(epoch, node, stamps[j])
  {
    StampsAdvance(stamps, i, j);
    LaterStampLargerId(epoch, node, stamps[i], stamps[j]);
  }

  /** Two generators collide exactly when they share the node id and reach the same stamp. So
      different masked node ids never collide, and equal ones may. */
  lemma CollideExactlyWhen(epoch: int64, m: nat, n: nat, a: Stamp, b: Stamp)
    requires InRange(epoch, m, a) && InRange(epoch, n, b)
    ensures Pack(epoch, m, a) == Pack(epoch, n, b) <==> m == n && a == b
  {
    FieldsRecoverable(epoch, m, a);
    FieldsRecoverable(epoch, n, b);
  }

  /** A forward reading restarts the sequence; a repeated or backward one counts on within the
      last tick; an exhausted tick waits for the first reading past it. */
  predicate Follows(was: Stamp, now: Stamp, clock: nat -> int64, start: nat, next: nat)
    requires next > start
  {
    if clock(start) > was.time then now == Stamp(clock(start), 0) && next == start + 1
    else if was.sequence < SEQUENCES - 1 then now == Stamp(was.time, was.sequence + 1) && next == start + 1
    else now == Stamp(clock(next - 1), 0) && (forall k :: start <= k < next - 1 ==> clock(k) <= was.time)
  }

  /** Rereads the clock until it passes `last`. */
  method SpinPast(last: int64, clock: nat -> int64, start: nat, ghost later: nat) returns (now: int64, next: nat)
    requires start <= later && clock(later) > last
    ensures start < next && now == clock(next - 1) > last
    ensures forall k :: start <= k < next - 1 ==> clock(k) <= last
  {
    now, next := clock(start), start + 1;
    while now <= last
      invariant start < next && now == clock(next - 1) && next - 1 <= later
      invariant forall k :: start <= k < next - 1 ==> clock(k) <= last
      decreases later - next
    {
      now, next := clock(next), next + 1;
    }
  }

  class SnowflakeGenerator {
    const epoch: int64
    const nodeID: nat
    var sequence: nat
    var lastTime: int64

    /** Masking with 0x3FF is reduction modulo 1024, also for negative node ids. */
    constructor (nodeID: int64)
      ensures epoch == DEFAULT_EPOCH == 1767225600000 && this.nodeID == nodeID % NODES
      ensures sequence == 0 && lastTime == 0 && Valid()
    {
      this.epoch := DEFAULT_EPOCH;
      this.nodeID := nodeID % NODES;
      this.sequence := 0;
      this.lastTime := 0;
    }

    predicate Valid()
      reads this
    {
      nodeID < NODES && sequence < SEQUENCES
    }

    function LastStamp(): Stamp
      reads this
    {
      Stamp(lastTime, sequence)
    }

    /** Reading number k of the clock is clock(k); the call consumes start, ..., next - 1.
        When the 4096 sequence numbers of a tick are used up the call spins, and needs some
        later reading to pass lastTime. */
    method Advance(clock: nat -> int64, start: nat, ghost later: nat) returns (next: nat)
      requires Valid()
      requires clock(start) <= lastTime && sequence == SEQUENCES - 1 ==> start < later && clock(later) > lastTime
      modifies this`sequence, this`lastTime
      ensures Valid() && next > start
      ensures Precedes(old(LastStamp()), LastStamp())
      ensures Follows(old(LastStamp()), LastStamp(), clock, start, next)
    {
      var now := clock(start);
      next := start + 1;
      if now < lastTime {
        now := lastTime;
      }
      if now == lastTime {
        sequence := (sequence + 1) % SEQUENCES;
        if sequence == 0 {
          now, next := SpinPast(lastTime, clock, next, later);
        }
      } else {
        sequence := 0;
      }
      lastTime := now;
    }

    method NextID(clock: nat -> int64, start: nat, ghost later: nat) returns (id: int64, next: nat)
      requires Valid()
      requires clock(start) <= lastTime && sequence == SEQUENCES - 1 ==> start < later && clock(later) > lastTime
      modifies this`sequence, this`lastTime
      ensures Valid() && next > start
      ensures Precedes(old(LastStamp()), LastStamp())
      ensures Follows(old(LastStamp()), LastStamp(), clock, start, next)
      ensures id == Pack(epoch, nodeID, LastStamp())
    {
      next := Advance(clock, start, later);
      id := Pack(epoch, nodeID, LastStamp());
    }
  }

  /** All readings lie within 41 bits of the epoch. */
  ghost predicate ClockInRange(epoch: int64, clock: nat -> int64) {
    forall k :: epoch <= clock(k) < epoch + TICKS
  }

  /** Reading k is larger than `last` and than every reading from start on. */
  ghost predicate NewHigh(clock: nat -> int64, start: nat, last: int64, k: nat) {
    start <= k && clock(k) > last && forall j :: start <= j < k ==> clock(j) < clock(k)
  }

  /** The clock still reaches a new high at each of these readings, in this order. */
  ghost predicate NewHighs(clock: nat -> int64, start: nat, last: int64, highs: seq<nat>) {
    && Increasing(highs)
    && forall i :: 0 <= i < |highs| ==> NewHigh(clock, start, last, highs[i])
  }

  /** The new highs left after a call: a call that moves the last time on uses one up. */
  ghost function HighsLeft(was: Stamp, now: Stamp, highs: seq<nat>): seq<nat> {
    if now.time == was.time || highs == [] then highs else highs[1..]
  }

  lemma HighsRemain(clock: nat -> int64, start: nat, was: Stamp, now: Stamp, next: nat, highs: seq<nat>)
    requires NewHighs(clock, start, was.time, highs)
    requires start < next && Follows(was, now, clock, start, next)
    requires now.time != was.time && clock(start) <= was.time ==> highs != []
    ensures NewHighs(clock, next, now.time, HighsLeft(was, now, highs))
  {
    var left := HighsLeft(was, now, highs);
    forall i | 0 <= i < |left| ensures NewHigh(clock, next, now.time, left[i]) {
      assert NewHigh(clock, start, was.time, highs[0]);
      assert now.time != was.time ==> highs[0] < highs[i + 1];
      assert NewHigh(clock, start, was.time, if now.time == was.time then highs[i] else highs[i + 1]);
    }
  }

  /** How many calls are sure to end: the rest of the current tick, and one per new high. */
  ghost predicate Affordable(gen: SnowflakeGenerator, n: nat, highs: seq<nat>)
    reads gen
  {
    n <= |highs| + (SEQUENCES - 1 - gen.sequence)
  }

  /** A run of calls, such as one per item of an invoice: the ids strictly increase, whatever
      the clock does backwards. A burst needs no new high for the sequence numbers its tick has
      left. */
  method IssueIds(gen: SnowflakeGenerator, clock: nat -> int64, start: nat, n: nat, ghost highs: seq<nat>)
    returns (ids: seq<int>, next: nat)
    requires gen.Valid() && gen.lastTime < gen.epoch + TICKS && ClockInRange(gen.epoch, clock)
    requires NewHighs(clock, start, gen.lastTime, highs) && Affordable(gen, n, highs)
    modifies gen`sequence, gen`lastTime
    ensures gen.Valid() && |ids| == n && Increasing(ids)
    ensures n > 0 ==> InRange(gen.epoch, gen.nodeID, gen.LastStamp())
                      && ids[n - 1] == Pack(gen.epoch, gen.nodeID, gen.LastStamp())
  {
    ids, next := [], start;
    ghost var left := highs;
    for i := 0 to n
      invariant gen.Valid() && |ids| == i && Increasing(ids)
      invariant gen.lastTime < gen.epoch + TICKS
      invariant NewHighs(clock, next, gen.lastTime, left) && Affordable(gen, n - i, left)
      invariant i > 0 ==> InRange(gen.epoch, gen.nodeID, gen.LastStamp())
                          && ids[i - 1] == Pack(gen.epoch, gen.nodeID, gen.LastStamp())
    {
      ghost var was, began := gen.LastStamp(), next;
      var id;
      id, next := gen.NextID(clock, next, if left == [] then 0 else left[0]);
      HighsRemain(clock, began, was, gen.LastStamp(), next, left);
      left := HighsLeft(was, gen.LastStamp(), left);
      if i > 0 {
        LaterStampLargerId(gen.epoch, gen.nodeID, was, gen.LastStamp());
      }
      ids := ids + [id];
    }
  }

  /** Two fresh generators: their first ids are equal exactly when the masked node ids are and
      both read the same millisecond. The service makes two generators for node 1. */
  method FirstIds(m: int64, n: int64, clock: nat -> int64, i: nat, j: nat) returns (x: int64, y: int64)
    requires ClockInRange(DEFAULT_EPOCH, clock)
    ensures x == y <==> m % NODES == n % NODES && clock(i) == clock(j)
  {
    var a := new SnowflakeGenerator(m);
    var b := new SnowflakeGenerator(n);
    var used: nat;
    x, used := a.NextID(clock, i, 0);
    y, used := b.NextID(clock, j, 0);
    CollideExactlyWhen(DEFAULT_EPOCH, a.nodeID, b.nodeID, a.LastStamp(), b.LastStamp());
  }
}
