/**
 * `DjiMotorTxHandler`: two stores of motor slots, one per CAN bus, indexed by a motor's
 * normalised identifier. Motors are added to and removed from their bus's store, and the
 * transmit path zeroes the outgoing frames and routes each stored motor to the low or the high
 * frame. The motor pointers are modelled as `Option<DjiMotor>` values, `None` for `nullptr`.
 */
module DjiMotorTx {
  import opened FixedWidth
  import opened Wrappers

  datatype CanBus = CAN_BUS1 | CAN_BUS2

  /** A motor as the handler sees it: its identifier (`0x201` for motor 1) and its bus. */
  datatype DjiMotor = DjiMotor(motorIdentifier: uint32, canBus: CanBus)

  /** Slots per bus (assumed eight, motors `0x201` to `0x208`). */
  const DJI_MOTORS_PER_CAN: nat := 8

  /** `CAN_DJI_MESSAGE_SEND_LENGTH`, the bytes of an outgoing frame. */
  const CAN_DJI_MESSAGE_SEND_LENGTH: nat := 8

  type MotorStore = s: seq<Option<DjiMotor>> | |s| == DJI_MOTORS_PER_CAN witness seq(DJI_MOTORS_PER_CAN, _ => None)

  predicate InBounds(index: int)
  {
    0 <= index < DJI_MOTORS_PER_CAN
  }

  /** `DJI_MOTOR_NORMALIZED_ID` (assumed `id - 0x201`), as an unconverted integer. */
  function NormalizedId(id: uint32): int
  {
    id as int - 0x201
  }

  /** The normalised identifier stored in an `int16_t`, which keeps it modulo 2^16. */
  function NormalizedIndex16(id: uint32): (r: int16)
    ensures -0x8000 <= NormalizedId(id) < 0x8000 ==> r as int == NormalizedId(id)
  {
    ToInt16(NormalizedId(id))
  }

  /** ---- Adding a motor ---- */

  /** A read or a write of a store slot. */
  datatype SlotAccess = ReadSlot(index: int) | WriteSlot(index: int)

  /**
   * The slot accesses of `addMotorToManager(store, motor)` as written: the slot is read to test
   * whether it is occupied before the index is checked against the store's bounds; the slot is
   * written only if both tests pass (otherwise the assertion stops the program). `occupied` is
   * whatever the memory at that index holds.
   */
  function AddAccessesAsWritten(id: uint32, occupied: bool): (r: seq<SlotAccess>)
    ensures |r| >= 1 && r[0] == ReadSlot(NormalizedIndex16(id) as int)
  {
    var index := NormalizedIndex16(id) as int;
    [ReadSlot(index)] + (if !occupied && InBounds(index) then [WriteSlot(index)] else [])
  }

  /** The accesses once the bounds are checked first: the slot is read only when it exists. */
  function AddAccesses(store: MotorStore, id: uint32): seq<SlotAccess>
  {
    var index := NormalizedIndex16(id) as int;
    if !InBounds(index) then []
    else [ReadSlot(index)] + (if store[index].None? then [WriteSlot(index)] else [])
  }

  /** With the bounds checked first, no slot outside the store is read or written. */
  lemma AddAccessesInBounds(store: MotorStore, id: uint32)
    ensures forall a :: a in AddAccesses(store, id) ==> InBounds(a.index)
  {
  }

  /** Motor identifier `0x200` normalises to -1: as written, slot -1 is read before the assertion rejects it. */
  lemma AddAccessesAsWrittenOutOfRange()
    ensures AddAccessesAsWritten(0x200, false)[0] == ReadSlot(-1) && !InBounds(-1)
    ensures AddAccessesAsWritten(0x209, false)[0] == ReadSlot(8) && !InBounds(8)
  {
  }

  /** Within bounds, the as-written order and the corrected one touch the same slots. */
  lemma AddAccessesAgreeInBounds(store: MotorStore, id: uint32)
    requires InBounds(NormalizedIndex16(id) as int)
    ensures AddAccessesAsWritten(id, store[NormalizedIndex16(id) as int].Some?) == AddAccesses(store, id)
  {
  }

  /** The result of adding to a store: whether the assertion passed, and the store after. */
  datatype AddOutcome = AddOutcome(ok: bool, store: MotorStore)

  /**
   * `addMotorToManager(store, motor)` with the bounds checked first: the motor goes into its
   * normalised slot when that slot exists and is empty; otherwise the assertion fails (`!ok`)
   * and the store is left as it was.
   */
  function Added(store: MotorStore, motor: DjiMotor): (r: AddOutcome)
    ensures var index := NormalizedIndex16(motor.motorIdentifier) as int;
      (r.ok <==> InBounds(index) && store[index].None?)
      && (r.ok ==> r.store[index] == Some(motor))
      && (forall j :: 0 <= j < DJI_MOTORS_PER_CAN && j != index ==> r.store[j] == store[j])
      && (!r.ok ==> r.store == store)
  {
    var index := NormalizedIndex16(motor.motorIdentifier) as int;
    if InBounds(index) && store[index].None? then AddOutcome(true, store[index := Some(motor)])
    else AddOutcome(false, store)
  }

  /** ---- Removing a motor ---- */

  /** `DJI_MOTOR_NORMALIZED_ID` stored in a `uint32_t`, which keeps it modulo 2^32. */
  function NormalizedIndex32(id: uint32): (r: uint32)
    ensures id >= 0x201 ==> r as int == NormalizedId(id)
  {
    (NormalizedId(id) % 0x1_0000_0000) as uint32
  }

  /** The result of removing from a store: whether the error was raised, and the store after. */
  datatype RemoveOutcome = RemoveOutcome(error: bool, store: MotorStore)

  /**
   * `removeFromMotorManager(motor, store)`: the motor's slot is cleared if it is occupied;
   * an empty slot raises an error and changes nothing. The index is not checked against the
   * bounds, so the caller must pass a motor whose slot exists.
   */
  function Removed(store: MotorStore, motor: DjiMotor): (r: RemoveOutcome)
    requires InBounds(NormalizedIndex32(motor.motorIdentifier) as int)
    ensures var index := NormalizedIndex32(motor.motorIdentifier) as int;
      (r.error <==> store[index].None?)
      && r.store[index].None?
      && (forall j :: 0 <= j < DJI_MOTORS_PER_CAN && j != index ==> r.store[j] == store[j])
      && (r.error ==> r.store == store)
  {
    var index := NormalizedIndex32(motor.motorIdentifier) as int;
    if store[index].None? then RemoveOutcome(true, store) else RemoveOutcome(false, store[index := None])
  }

  /** Both normalisations agree on a slot that exists. */
  lemma NormalizedIndicesAgree(id: uint32)
    requires InBounds(NormalizedIndex32(id) as int)
    ensures NormalizedIndex16(id) as int == NormalizedIndex32(id) as int
  {
  }

  /**
   * Adding a motor and then removing it gives back the store it was added to, for a motor
   * whose normalised identifier fits in the `int16_t` that adding stores it in.
   */
  lemma AddThenRemove(store: MotorStore, motor: DjiMotor)
    requires Added(store, motor).ok && NormalizedId(motor.motorIdentifier) < 0x8000
    ensures InBounds(NormalizedIndex32(motor.motorIdentifier) as int)
    ensures Removed(Added(store, motor).store, motor) == RemoveOutcome(false, store)
  {
    var id := motor.motorIdentifier;
    var index := NormalizedIndex16(id) as int;
    assert NormalizedId(id) == index;
    var added := Added(store, motor).store;
    assert added[index := None] == store;
  }

  /** Removing from an empty slot raises an error, so removing twice leaves the store as the first removal did. */
  lemma RemoveTwice(store: MotorStore, motor: DjiMotor)
    requires InBounds(NormalizedIndex32(motor.motorIdentifier) as int)
    ensures var once := Removed(store, motor).store;
      Removed(once, motor) == RemoveOutcome(true, once)
  {
  }

  /** ---- Routing motors to frames ---- */

  /**
   * A motor's commands go in the low frame (`0x200`) when `identifier - 0x200`, taken as an
   * unsigned value, is at most 4, and in the high frame (`0x1FF`) otherwise.
   */
  predicate ToLowFrame(m: DjiMotor)
  {
    (m.motorIdentifier as int - 0x200) % 0x1_0000_0000 <= 4
  }

  /** The motors of `slots`, in slot order, that go to the low frame (`low`) or to the high frame (`!low`). */
  function Routed(slots: seq<Option<DjiMotor>>, low: bool): (r: seq<DjiMotor>)
    ensures forall k :: 0 <= k < |r| ==> ToLowFrame(r[k]) == low
  {
    if |slots| == 0 then []
    else
      var last := slots[|slots| - 1];
      Routed(slots[..|slots| - 1], low) + (if last.Some? && ToLowFrame(last.value) == low then [last.value] else [])
  }

  /** The motors present in `slots`, in slot order. */
  function Present(slots: seq<Option<DjiMotor>>): seq<DjiMotor>
  {
    if |slots| == 0 then []
    else
      var last := slots[|slots| - 1];
      Present(slots[..|slots| - 1]) + (if last.Some? then [last.value] else [])
  }

  /** Every stored motor is routed to exactly one of the two frames, and empty slots to neither. */
  lemma {:induction false} RoutingPartitions(slots: seq<Option<DjiMotor>>)
    ensures multiset(Routed(slots, true)) + multiset(Routed(slots, false)) == multiset(Present(slots))
  {
    if |slots| > 0 {
      RoutingPartitions(slots[..|slots| - 1]);
    }
  }

  /** Motors 1 to 4 go to the low frame and motors 5 to 8 to the high frame. */
  lemma RoutingOfMotorIds(m: DjiMotor)
    requires 0x201 <= m.motorIdentifier <= 0x208
    ensures ToLowFrame(m) <==> m.motorIdentifier <= 0x204
  {
  }

  /** ---- The handler ---- */

  class DjiMotorTxHandler {
    const can1MotorStore: array<Option<DjiMotor>>
    const can2MotorStore: array<Option<DjiMotor>>

    /** Each store has one slot per motor identifier, and the two stores are distinct arrays. */
    predicate Valid()
      reads this
    {
      can1MotorStore.Length == DJI_MOTORS_PER_CAN && can2MotorStore.Length == DJI_MOTORS_PER_CAN
      && can1MotorStore != can2MotorStore
    }

    /** The store a motor on `bus` belongs to. */
    function StoreFor(bus: CanBus): array<Option<DjiMotor>>
      reads this
    {
      if bus == CAN_BUS1 then can1MotorStore else can2MotorStore
    }

    /** Both stores start empty. */
    constructor()
      ensures Valid() && fresh(can1MotorStore) && fresh(can2MotorStore)
      ensures forall j :: 0 <= j < DJI_MOTORS_PER_CAN ==> can1MotorStore[j].None? && can2MotorStore[j].None?
    {
      can1MotorStore := new Option<DjiMotor>[DJI_MOTORS_PER_CAN](_ => None);
      can2MotorStore := new Option<DjiMotor>[DJI_MOTORS_PER_CAN](_ => None);
    }

    /**
     * `addMotorToManager(store, motor)`, with the bounds checked before the slot is read;
     * `ok` is false where the assertion would stop the program, and then nothing changes.
     */
    static method AddMotorToStore(store: array<Option<DjiMotor>>, motor: DjiMotor) returns (ok: bool)
      requires store.Length == DJI_MOTORS_PER_CAN
      modifies store
      ensures var r := Added(old(store[..]), motor); ok == r.ok && store[..] == r.store
    {
      var index := NormalizedIndex16(motor.motorIdentifier) as int;
      var motorOutOfBounds := index < 0 || index >= DJI_MOTORS_PER_CAN;
      if motorOutOfBounds {
        return false;
      }
      var motorOverloaded := store[index].Some?;
      if motorOverloaded {
        return false;
      }
      store[index] := Some(motor);
      ok := true;
    }

    /** `addMotorToManager(motor)`: the motor goes into the store of its bus; the other store is untouched. */
    method AddMotorToManager(motor: DjiMotor) returns (ok: bool)
      requires Valid()
      modifies can1MotorStore, can2MotorStore
      ensures var store := StoreFor(motor.canBus);
        var r := Added(old(store[..]), motor); ok == r.ok && store[..] == r.store
      ensures unchanged(StoreFor(if motor.canBus == CAN_BUS1 then CAN_BUS2 else CAN_BUS1))
      ensures ok ==> GetMotorData(motor.canBus, NormalizedIndex16(motor.motorIdentifier) as int) == Some(motor)
    {
      if motor.canBus == CAN_BUS1 {
        ok := AddMotorToStore(can1MotorStore, motor);
      } else {
        ok := AddMotorToStore(can2MotorStore, motor);
      }
    }

    /** `removeFromMotorManager(motor, store)`: `error` is the raised error. */
    static method RemoveFromStore(store: array<Option<DjiMotor>>, motor: DjiMotor) returns (error: bool)
      requires store.Length == DJI_MOTORS_PER_CAN
      requires InBounds(NormalizedIndex32(motor.motorIdentifier) as int)
      modifies store
      ensures var r := Removed(old(store[..]), motor); error == r.error && store[..] == r.store
    {
      var id := NormalizedIndex32(motor.motorIdentifier) as int;
      if store[id].None? {
        return true;
      }
      store[id] := None;
      error := false;
    }

    /** `removeFromMotorManager(motor)`: the motor leaves the store of its bus; the other store is untouched. */
    method RemoveFromMotorManager(motor: DjiMotor) returns (error: bool)
      requires Valid()
      requires InBounds(NormalizedIndex32(motor.motorIdentifier) as int)
      modifies can1MotorStore, can2MotorStore
      ensures var store := StoreFor(motor.canBus);
        var r := Removed(old(store[..]), motor); error == r.error && store[..] == r.store
      ensures unchanged(StoreFor(if motor.canBus == CAN_BUS1 then CAN_BUS2 else CAN_BUS1))
    {
      if motor.canBus == CAN_BUS1 {
        error := RemoveFromStore(can1MotorStore, motor);
      } else {
        error := RemoveFromStore(can2MotorStore, motor);
      }
    }

    /** `zeroTxMessage`: the first `length` bytes of the frame become 0 and the rest are untouched. */
    static method ZeroTxMessage(data: array<uint8>, length: nat)
      requires length <= data.Length
      modifies data
      ensures forall i :: 0 <= i < length ==> data[i] == 0
      ensures data[length..] == old(data[length..])
    {
      for i := 0 to length
        invariant forall k :: 0 <= k < i ==> data[k] == 0
        invariant data[i..] == old(data[i..])
      {
        data[i] := 0;
      }
    }

    /**
     * `serializeMotorStoreSendData`: the stored motors, in slot order, whose data are serialised
     * into the low frame and into the high frame; empty slots are skipped.
     */
    static method SerializeMotorStoreSendData(store: array<Option<DjiMotor>>) returns (low: seq<DjiMotor>, high: seq<DjiMotor>)
      requires store.Length == DJI_MOTORS_PER_CAN
      ensures low == Routed(store[..], true) && high == Routed(store[..], false)
      ensures multiset(low) + multiset(high) == multiset(Present(store[..]))
    {
      low, high := [], [];
      for i := 0 to DJI_MOTORS_PER_CAN
        invariant low == Routed(store[..i], true) && high == Routed(store[..i], false)
      {
        assert store[..i + 1][..i] == store[..i];
        var motor := store[i];
        if motor.Some? {
          if (motor.value.motorIdentifier as int - 0x200) % 0x1_0000_0000 <= 4 {
            low := low + [motor.value];
          } else {
            high := high + [motor.value];
          }
        }
      }
      assert store[..DJI_MOTORS_PER_CAN] == store[..];
      RoutingPartitions(store[..]);
    }

    /**
     * `getCan1MotorData` and `getCan2MotorData`: the slot of the normalised identifier, which
     * the caller passes as `index`; the source does not check it is in bounds.
     */
    function GetMotorData(bus: CanBus, index: int): (m: Option<DjiMotor>)
      requires Valid() && InBounds(index)
      reads this, can1MotorStore, can2MotorStore
      ensures m == StoreFor(bus)[index]
    {
      if bus == CAN_BUS1 then can1MotorStore[index] else can2MotorStore[index]
    }
  }
}
