/**
 * The received-damage tracker of `RefSerial`: a bounded deque of damage events, newest at the
 * back, and the running total `receivedDps` that should be the damage of the events still in
 * the one-second window. The operations are stated here on values; the `RefSerial` class
 * applies them to its fields.
 */
module DamageTracking {
  import opened FixedWidth

  datatype DamageEvent = DamageEvent(damageAmount: uint16, timestampMs: uint32)

  /** `DPS_TRACKER_DEQUE_SIZE`, the tracker's capacity (its value is an assumption). */
  const DPS_TRACKER_DEQUE_SIZE: nat := 20

  /** How long an event counts toward `receivedDps`, in milliseconds. */
  const DAMAGE_WINDOW_MS: uint32 := 1000

  /** The tracker's events and the `receivedDps` total kept beside them. */
  datatype DamageWindow = DamageWindow(events: seq<DamageEvent>, receivedDps: real)

  /** The damage of all `events`. */
  function TotalDamage(events: seq<DamageEvent>): (total: real)
    ensures total >= 0.0
    ensures |events| > 0 ==> total >= events[|events| - 1].damageAmount as real
  {
    if |events| == 0 then 0.0
    else TotalDamage(events[..|events| - 1]) + events[|events| - 1].damageAmount as real
  }

  /** The total of a concatenation is the sum of the totals. */
  lemma {:induction false} TotalDamageSplit(a: seq<DamageEvent>, b: seq<DamageEvent>)
    ensures TotalDamage(a + b) == TotalDamage(a) + TotalDamage(b)
    decreases |b|
  {
    if |b| == 0 {
      assert a + b == a;
    } else {
      var b' := b[..|b| - 1];
      assert (a + b)[..|a + b| - 1] == a + b';
      TotalDamageSplit(a, b');
    }
  }

  /** The class invariant the comment on `updateReceivedDamage` implies: the total is the events' damage, and the deque is within capacity. */
  predicate Consistent(w: DamageWindow)
  {
    w.receivedDps == TotalDamage(w.events) && |w.events| <= DPS_TRACKER_DEQUE_SIZE
  }

  /** The event `processReceivedDamage` appends: the damage cast to `uint16_t`. */
  function NewEvent(timestamp: uint32, damageTaken: int32): (e: DamageEvent)
    requires damageTaken > 0
    ensures damageTaken < 0x1_0000 ==> e.damageAmount as int == damageTaken as int
    ensures e.timestampMs == timestamp
  {
    DamageEvent((damageTaken as int % 0x1_0000) as uint16, timestamp)
  }

  /**
   * `processReceivedDamage` as written: positive damage is added to the total and appended as
   * an event; when the deque is full its newest event is dropped first, without taking that
   * event's damage off the total.
   */
  function RecordedAsWritten(w: DamageWindow, timestamp: uint32, damageTaken: int32): (r: DamageWindow)
    ensures damageTaken <= 0 ==> r == w
    ensures damageTaken > 0 ==> |r.events| > 0 && r.events[|r.events| - 1] == NewEvent(timestamp, damageTaken)
    ensures damageTaken > 0 ==> r.receivedDps == w.receivedDps + damageTaken as real
  {
    if damageTaken > 0 then
      var kept := if |w.events| == DPS_TRACKER_DEQUE_SIZE then w.events[..|w.events| - 1] else w.events;
      DamageWindow(kept + [NewEvent(timestamp, damageTaken)], w.receivedDps + damageTaken as real)
    else
      w
  }

  /**
   * `processReceivedDamage` corrected: the event dropped from a full deque has its damage taken
   * off the total, as `updateReceivedDamage` does for the events it drops.
   */
  function Recorded(w: DamageWindow, timestamp: uint32, damageTaken: int32): (r: DamageWindow)
    ensures damageTaken <= 0 ==> r == w
    ensures damageTaken > 0 ==> |r.events| > 0 && r.events[|r.events| - 1] == NewEvent(timestamp, damageTaken)
    ensures damageTaken > 0 && |w.events| != DPS_TRACKER_DEQUE_SIZE ==> r.events == w.events + [NewEvent(timestamp, damageTaken)]
  {
    if damageTaken > 0 then
      if |w.events| == DPS_TRACKER_DEQUE_SIZE then
        var dropped := w.events[|w.events| - 1];
        DamageWindow(w.events[..|w.events| - 1] + [NewEvent(timestamp, damageTaken)],
          w.receivedDps - dropped.damageAmount as real + damageTaken as real)
      else
        DamageWindow(w.events + [NewEvent(timestamp, damageTaken)], w.receivedDps + damageTaken as real)
    else
      w
  }

  /** The corrected recording keeps the total equal to the events' damage and the deque within capacity. */
  lemma RecordedKeepsConsistent(w: DamageWindow, timestamp: uint32, damageTaken: int32)
    requires Consistent(w) && damageTaken < 0x1_0000
    ensures Consistent(Recorded(w, timestamp, damageTaken))
  {
    if damageTaken > 0 {
      var e := NewEvent(timestamp, damageTaken);
      if |w.events| == DPS_TRACKER_DEQUE_SIZE {
        var kept := w.events[..|w.events| - 1];
        assert w.events == kept + [w.events[|w.events| - 1]];
        TotalDamageSplit(kept, [w.events[|w.events| - 1]]);
        TotalDamageSplit(kept, [e]);
      } else {
        TotalDamageSplit(w.events, [e]);
      }
    }
  }

  /** As written, a full deque loses an event whose damage stays in the total. */
  lemma RecordedAsWrittenDrifts(w: DamageWindow, timestamp: uint32, damageTaken: int32)
    requires Consistent(w) && |w.events| == DPS_TRACKER_DEQUE_SIZE
    requires 0 < damageTaken < 0x1_0000
    ensures var r := RecordedAsWritten(w, timestamp, damageTaken);
      r.receivedDps == TotalDamage(r.events) + w.events[|w.events| - 1].damageAmount as real
  {
    var kept := w.events[..|w.events| - 1];
    var e := NewEvent(timestamp, damageTaken);
    assert w.events == kept + [w.events[|w.events| - 1]];
    TotalDamageSplit(kept, [w.events[|w.events| - 1]]);
    TotalDamageSplit(kept, [e]);
  }

  /** `n` events of one damage each at time 0. */
  function Ones(n: nat): (s: seq<DamageEvent>)
    ensures |s| == n
  {
    seq(n, _ => DamageEvent(1, 0))
  }

  lemma {:induction false} TotalOfOnes(n: nat)
    ensures TotalDamage(Ones(n)) == n as real
  {
    if n > 0 {
      assert Ones(n)[..n - 1] == Ones(n - 1);
      TotalOfOnes(n - 1);
    }
  }

  /** A full, consistent tracker of one-damage events, then one more damage: as written the total becomes inconsistent. */
  lemma RecordedAsWrittenCounterexample()
    ensures var w := DamageWindow(Ones(DPS_TRACKER_DEQUE_SIZE), DPS_TRACKER_DEQUE_SIZE as real);
      Consistent(w) && !Consistent(RecordedAsWritten(w, 0, 1))
  {
    var w := DamageWindow(Ones(DPS_TRACKER_DEQUE_SIZE), DPS_TRACKER_DEQUE_SIZE as real);
    TotalOfOnes(DPS_TRACKER_DEQUE_SIZE);
    RecordedAsWrittenDrifts(w, 0, 1);
  }

  /**
   * An event has left the window once the time is past its timestamp plus one second, the
   * sum taken on `uint32_t`.
   */
  predicate Expired(now: uint32, e: DamageEvent)
  {
    now > Add32(e.timestampMs, DAMAGE_WINDOW_MS)
  }

  /**
   * How many events `updateReceivedDamage` drops: expired events are dropped from the front
   * until the front event is still in the window.
   */
  function DroppedCount(now: uint32, events: seq<DamageEvent>): (k: nat)
    ensures k <= |events|
    ensures k == |events| || !Expired(now, events[k])
    ensures forall i :: 0 <= i < k ==> Expired(now, events[i])
    decreases |events|
  {
    if |events| > 0 && Expired(now, events[0]) then 1 + DroppedCount(now, events[1..]) else 0
  }

  /** `updateReceivedDamage` on a window: the dropped events' damage is taken off the total. */
  function Updated(now: uint32, w: DamageWindow): (r: DamageWindow)
    ensures |r.events| <= |w.events| && r.events == w.events[|w.events| - |r.events|..]
    ensures r.events == [] || !Expired(now, r.events[0])
  {
    var k := DroppedCount(now, w.events);
    DamageWindow(w.events[k..], w.receivedDps - TotalDamage(w.events[..k]))
  }

  /** Pruning keeps the total equal to the damage of the events left. */
  lemma UpdatedKeepsConsistent(now: uint32, w: DamageWindow)
    requires Consistent(w)
    ensures Consistent(Updated(now, w))
  {
    var k := DroppedCount(now, w.events);
    assert w.events == w.events[..k] + w.events[k..];
    TotalDamageSplit(w.events[..k], w.events[k..]);
  }

  /** Updating twice at the same time drops nothing more. */
  lemma UpdatedIdempotent(now: uint32, w: DamageWindow)
    ensures Updated(now, Updated(now, w)) == Updated(now, w)
  {
    var r := Updated(now, w);
    assert DroppedCount(now, r.events) == 0;
    assert r.events[..0] == [];
  }
}
