/**
 * `RefSerial`, the referee-system receiver: the length-checked decoders of the integer
 * messages into `gameData` and `robotData`, the received-damage tracker, the mapping of robot
 * ids onto the robot's own team, and the table of robot-to-robot message handlers.
 *
 * Enum-typed fields keep the raw value of the byte cast into them. The clock and the
 * offline check are parameters. Handlers are identified by a number; calling one is left out.
 */
module RefSerials {
  import opened FixedWidth
  import opened Wrappers
  import opened ByteCodec
  import opened RefSerialData
  import opened DamageTracking

  /** The receive buffer: a fixed-size byte array, larger than any payload decoded here (size assumed). */
  const SERIAL_RX_BUFF_SIZE: nat := 256

  type RxBuffer = s: seq<uint8> | |s| == SERIAL_RX_BUFF_SIZE witness seq(SERIAL_RX_BUFF_SIZE, _ => 0)

  /** `ReceivedSerialMessage`: the header's payload length and the received bytes. */
  datatype ReceivedSerialMessage = ReceivedSerialMessage(dataLength: uint16, data: RxBuffer)

  datatype EventData = EventData(siteData: uint32, timeSinceLastDartHit: uint8, lastDartHit: uint8)

  datatype SupplierAction = SupplierAction(reloadingRobot: RobotId, outletStatus: uint8, suppliedProjectiles: uint8)

  datatype DartInfo = DartInfo(launchCountdown: uint8, lastHit: uint8, hits: uint8, selectedTarget: uint8)

  datatype AirSupportData = AirSupportData(state: uint8, remainingStateTime: uint8)

  datatype DartStationInfo = DartStationInfo(state: uint8, targetChangedTime: uint16, lastLaunchedTime: uint16)

  datatype RadarMarkProgress = RadarMarkProgress(
    hero: uint8, engineer: uint8, standard3: uint8, standard4: uint8, standard5: uint8, sentry: uint8)

  datatype SentryInfo = SentryInfo(
    projectileAllowance: uint16, remoteProjectileExchanges: uint8, remoteHealthExchanges: uint8)

  datatype RadarInfo = RadarInfo(availableDoubleVulnerablilityEffects: uint8, activeDoubleVulnerabilityEffect: bool)

  /** `GameData` without the positions, which are floats. */
  datatype GameData = GameData(
    gameType: uint8, gameStage: uint8, stageTimeRemaining: uint16, unixTime: uint64, gameWinner: uint8,
    eventData: EventData, supplier: SupplierAction, dartInfo: DartInfo, airSupportData: AirSupportData,
    dartStation: DartStationInfo, radarProgress: RadarMarkProgress, sentry: SentryInfo, radar: RadarInfo)

  datatype RobotHp = RobotHp(
    hero1: uint16, engineer2: uint16, standard3: uint16, standard4: uint16, standard5: uint16,
    sentry7: uint16, outpost: uint16, base: uint16)

  datatype RobotHpData = RobotHpData(red: RobotHp, blue: RobotHp)

  /** The chassis fields a decoder writes with integers. */
  datatype ChassisData = ChassisData(powerBuffer: uint16, powerConsumptionLimit: uint16)

  /** The turret fields a decoder writes with integers. */
  datatype TurretData = TurretData(
    bulletType: uint8, launchMechanismID: uint8, firingFreq: uint8, heat17ID1: uint16, heat17ID2: uint16,
    heat42: uint16, heatLimit: uint16, coolingRate: uint16, bulletsRemaining17: uint16,
    bulletsRemaining42: uint16, lastReceivedLaunchingInfoTimestamp: uint32)

  datatype RobotBuffStatus = RobotBuffStatus(
    recoveryBuff: uint8, coolingBuff: uint8, defenseBuff: uint8, vulnerabilityBuff: uint8, attackBuff: uint16)

  datatype RefereeWarningData = RefereeWarningData(
    level: uint8, foulRobotID: RobotId, count: uint8, lastReceivedWarningRobotTime: uint32)

  datatype RobotData = RobotData(
    robotId: RobotId, robotLevel: uint8, previousHp: uint16, currentHp: uint16, maxHp: uint16,
    robotPower: uint8, damagedArmorId: uint8, damageType: uint8, receivedDps: real,
    chassis: ChassisData, turret: TurretData, allRobotHp: RobotHpData, remainingCoins: uint16,
    robotBuffStatus: RobotBuffStatus, robotEnergyRemaining: uint8, rfidStatus: uint32,
    robotDataReceivedTimestamp: uint32, refereeWarningData: RefereeWarningData)

  /** A robot-to-robot message handler, by identity. */
  type HandlerId = nat

  /** Everything a `RefSerial` holds, as one value. */
  datatype RefSerialState = RefSerialState(
    gameData: GameData, robotData: RobotData, receivedDpsTracker: seq<DamageEvent>,
    handlers: map<uint16, HandlerId>)

  /** The message ids a robot-to-robot handler may be registered for. */
  predicate IsRobotToRobotMsgId(msgId: uint16) { 0x0200 <= msgId <= 0x02FF }

  /** What `handleRobotToRobotCommunication` does: whether it accepts the message, and which handler it runs. */
  datatype Dispatch = Dispatch(accepted: bool, handler: Option<HandlerId>)

  /** The state with the damage window written back into the tracker and `receivedDps`. */
  function WithWindow(s: RefSerialState, w: DamageWindow): RefSerialState
  {
    s.(receivedDpsTracker := w.events, robotData := s.robotData.(receivedDps := w.receivedDps))
  }

  /**
   * `decodeToRadarProgress` as written: the length is checked to be 6, but the fields come from
   * bytes 1 to 4 and 6, and `standard5` is not written.
   */
  function RadarProgressAsWritten(prior: RadarMarkProgress, d: RxBuffer): RadarMarkProgress
  {
    prior.(hero := d[1], engineer := d[2], standard3 := d[3], standard4 := d[4], sentry := d[6])
  }

  /** `decodeToRadarProgress` corrected: the six fields are the six payload bytes, in order. */
  function RadarProgressOf(d: RxBuffer): (r: RadarMarkProgress)
    ensures [r.hero, r.engineer, r.standard3, r.standard4, r.standard5, r.sentry] == d[..6]
  {
    RadarMarkProgress(d[0], d[1], d[2], d[3], d[4], d[5])
  }

  /** The corrected decoder reads only the six payload bytes. */
  lemma RadarProgressReadsOnlyPayload(d1: RxBuffer, d2: RxBuffer)
    requires d1[..6] == d2[..6]
    ensures RadarProgressOf(d1) == RadarProgressOf(d2)
  {
    assert d1[5] == d1[..6][5] && d2[5] == d2[..6][5];
  }

  /** As written, two buffers with the same six payload bytes can decode differently. */
  lemma RadarProgressAsWrittenReadsPastPayload(prior: RadarMarkProgress)
    ensures var d1: RxBuffer := seq(SERIAL_RX_BUFF_SIZE, _ => 0);
      var d2: RxBuffer := seq(SERIAL_RX_BUFF_SIZE, i => if i == 6 then 1 else 0);
      d1[..6] == d2[..6] && RadarProgressAsWritten(prior, d1) != RadarProgressAsWritten(prior, d2)
  {
    var d1: RxBuffer := seq(SERIAL_RX_BUFF_SIZE, _ => 0);
    var d2: RxBuffer := seq(SERIAL_RX_BUFF_SIZE, i => if i == 6 then 1 else 0);
    assert d1[..6] == d2[..6];
    assert RadarProgressAsWritten(prior, d2).sentry == 1;
  }

  /**
   * `decodeToSentryInfo` as written: the allowance from bits 0-9, remote projectile exchanges
   * from bits 11-14 and remote health exchanges from bits 14-17, so bit 14 feeds both counts.
   */
  function SentryInfoAsWritten(data: uint32): (r: SentryInfo)
    ensures r.projectileAllowance <= 0x3FF && r.remoteProjectileExchanges <= 15 && r.remoteHealthExchanges <= 15
  {
    SentryInfo(Bits(data as nat, 0, 10) as uint16, Bits(data as nat, 11, 4) as uint8, Bits(data as nat, 14, 4) as uint8)
  }

  /** `decodeToSentryInfo` corrected: the health exchanges from bits 15-18, next to the projectile exchanges. */
  function SentryInfoOf(data: uint32): (r: SentryInfo)
    ensures r.projectileAllowance <= 0x3FF && r.remoteProjectileExchanges <= 15 && r.remoteHealthExchanges <= 15
  {
    SentryInfo(Bits(data as nat, 0, 10) as uint16, Bits(data as nat, 11, 4) as uint8, Bits(data as nat, 15, 4) as uint8)
  }

  /** The word a referee would send for the three sentry counts. */
  function SentryWord(allowance: nat, projectileExchanges: nat, healthExchanges: nat): uint32
    requires allowance <= 0x3FF && projectileExchanges <= 15 && healthExchanges <= 15
  {
    (allowance + 0x800 * projectileExchanges + 0x8000 * healthExchanges) as uint32
  }

  /** The corrected decoder recovers every count packed into the word. */
  lemma SentryInfoRoundTrip(allowance: nat, projectileExchanges: nat, healthExchanges: nat)
    requires allowance <= 0x3FF && projectileExchanges <= 15 && healthExchanges <= 15
    ensures SentryInfoOf(SentryWord(allowance, projectileExchanges, healthExchanges))
      == SentryInfo(allowance as uint16, projectileExchanges as uint8, healthExchanges as uint8)
  {
    var w := SentryWord(allowance, projectileExchanges, healthExchanges) as nat;
    assert Pow2(0) == 1 && Pow2(10) == 0x400 && Pow2(11) == 0x800 && Pow2(4) == 16 && Pow2(15) == 0x8000;
    DivModUnique(w, 0x400, 2 * projectileExchanges + 32 * healthExchanges, allowance);
    DivModUnique(w, 0x800, projectileExchanges + 16 * healthExchanges, allowance);
    DivModUnique(projectileExchanges + 16 * healthExchanges, 16, healthExchanges, projectileExchanges);
    DivModUnique(w, 0x8000, healthExchanges, allowance + 0x800 * projectileExchanges);
    DivModUnique(healthExchanges, 16, 0, healthExchanges);
  }

  /** As written, eight projectile exchanges and no health exchanges decode as one health exchange. */
  lemma SentryInfoAsWrittenCounterexample()
    ensures SentryWord(0, 8, 0) == 0x4000
    ensures SentryInfoAsWritten(SentryWord(0, 8, 0)) == SentryInfo(0, 8, 1)
  {
    assert Pow2(0) == 1 && Pow2(10) == 0x400 && Pow2(11) == 0x800 && Pow2(4) == 16 && Pow2(14) == 0x4000;
  }

  /** The byte of the dart message that packs the last hit, the hit count and the target. */
  function DartByte(lastHit: nat, hits: nat, target: nat): uint8
    requires lastHit <= 3 && hits <= 7 && target <= 3
  {
    (lastHit + 4 * hits + 32 * target) as uint8
  }

  /** `decodeToDartInfo` recovers the three fields packed into byte 1. */
  lemma DartInfoRoundTrip(lastHit: nat, hits: nat, target: nat)
    requires lastHit <= 3 && hits <= 7 && target <= 3
    ensures var b := DartByte(lastHit, hits, target) as nat;
      Bits(b, 0, 2) == lastHit && Bits(b, 2, 3) == hits && Bits(b, 5, 2) == target
  {
    var b := lastHit + 4 * hits + 32 * target;
    assert DartByte(lastHit, hits, target) as nat == b;
    assert Pow2(0) == 1 && Pow2(2) == 4 && Pow2(3) == 8 && Pow2(5) == 32;
    DivModUnique(b, 1, b, 0);
    DivModUnique(b, 4, hits + 8 * target, lastHit);
    DivModUnique(hits + 8 * target, 8, target, hits);
    DivModUnique(b, 32, target, lastHit + 4 * hits);
    DivModUnique(target, 4, 0, target);
  }

  /** `decodeToGameStatus` recovers type, stage, remaining time and Unix time from their encodings. */
  lemma GameStatusRoundTrip(d: RxBuffer, gameType: uint8, gameStage: uint8, stageTimeRemaining: uint16, unixTime: uint64)
    requires gameType < 16 && gameStage < 16
    requires d[0] == Nibbles(gameType, gameStage)
    requires d[1..3] == ToLE16(stageTimeRemaining) && d[3..11] == ToLE64(unixTime)
    ensures LowNibble(d[0]) == gameType && HighNibble(d[0]) == gameStage
    ensures LE16(d, 1) == stageTimeRemaining && LE64(d, 3) == unixTime
  {
    NibblesRoundTrip(d[0], gameType, gameStage);
    LE16Local(d, 1);
    LE16RoundTrip(stageTimeRemaining);
    LE64Local(d, 3);
    LE64RoundTrip(unixTime);
  }

  /** Dropping the front event of what is left takes its damage off the dropped part's total. */
  lemma DropFront(events: seq<DamageEvent>, k: nat)
    requires k < |events|
    ensures TotalDamage(events[..k + 1]) == TotalDamage(events[..k]) + events[k].damageAmount as real
    ensures events[k..][1..] == events[k + 1..]
  {
    assert events[..k + 1] == events[..k] + [events[k]];
    TotalDamageSplit(events[..k], [events[k]]);
  }

  class RefSerial {
    var gameData: GameData
    var robotData: RobotData
    var receivedDpsTracker: seq<DamageEvent>
    var msgIdToRobotToRobotHandlerMap: map<uint16, HandlerId>

    function State(): RefSerialState
      reads this
    {
      RefSerialState(gameData, robotData, receivedDpsTracker, msgIdToRobotToRobotHandlerMap)
    }

    /** The damage tracker and `receivedDps`, as one window. */
    function Window(): DamageWindow
      reads this
    {
      DamageWindow(receivedDpsTracker, robotData.receivedDps)
    }

    /** Every registered handler is for a robot-to-robot message id. */
    predicate HandlersValid()
      reads this
    {
      forall msgId :: msgId in msgIdToRobotToRobotHandlerMap ==> IsRobotToRobotMsgId(msgId)
    }

    method DecodeToGameStatus(message: ReceivedSerialMessage) returns (ok: bool)
      modifies this
      ensures ok <==> message.dataLength == 11
      ensures State() == if !ok then old(State()) else old(State()).(gameData := old(gameData).(
        gameType := LowNibble(message.data[0]), gameStage := HighNibble(message.data[0]),
        stageTimeRemaining := LE16(message.data, 1), unixTime := LE64(message.data, 3)))
      ensures ok ==> gameData.gameType < 16 && gameData.gameStage < 16
    {
      if message.dataLength != 11 {
        return false;
      }
      var d := message.data;
      gameData := gameData.(gameType := LowNibble(d[0]), gameStage := HighNibble(d[0]),
        stageTimeRemaining := LE16(d, 1), unixTime := LE64(d, 3));
      return true;
    }

    method DecodeToGameResult(message: ReceivedSerialMessage) returns (ok: bool)
      modifies this
      ensures ok <==> message.dataLength == 1
      ensures State() == if !ok then old(State()) else old(State()).(gameData := old(gameData).(
        gameWinner := message.data[0]))
    {
      if message.dataLength != 1 {
        return false;
      }
      gameData := gameData.(gameWinner := message.data[0]);
      return true;
    }

    /** The eight 16-bit hit points of one team from the 16 bytes at `at`; `standard5` is not read. */
    static function TeamHp(prior: RobotHp, d: RxBuffer, at: nat): RobotHp
      requires at + 16 <= |d|
    {
      prior.(hero1 := LE16(d, at), engineer2 := LE16(d, at + 2), standard3 := LE16(d, at + 4),
        standard4 := LE16(d, at + 6), sentry7 := LE16(d, at + 10), outpost := LE16(d, at + 12),
        base := LE16(d, at + 14))
    }

    method DecodeToAllRobotHP(message: ReceivedSerialMessage) returns (ok: bool)
      modifies this
      ensures ok <==> message.dataLength == 32
      ensures State() == if !ok then old(State()) else old(State()).(robotData := old(robotData).(
        allRobotHp := RobotHpData(TeamHp(old(robotData).allRobotHp.red, message.data, 0),
          TeamHp(old(robotData).allRobotHp.blue, message.data, 16))))
    {
      if message.dataLength != 32 {
        return false;
      }
      var d := message.data;
      var red := robotData.allRobotHp.red.(hero1 := LE16(d, 0), engineer2 := LE16(d, 2),
        standard3 := LE16(d, 4), standard4 := LE16(d, 6), sentry7 := LE16(d, 10),
        outpost := LE16(d, 12), base := LE16(d, 14));
      var blue := robotData.allRobotHp.blue.(hero1 := LE16(d, 16), engineer2 := LE16(d, 18),
        standard3 := LE16(d, 20), standard4 := LE16(d, 22), sentry7 := LE16(d, 26),
        outpost := LE16(d, 28), base := LE16(d, 30));
      robotData := robotData.(allRobotHp := RobotHpData(red, blue));
      return true;
    }

    method DecodeToSiteEventData(message: ReceivedSerialMessage) returns (ok: bool)
      modifies this
      ensures ok <==> message.dataLength == 4
      ensures State() == if !ok then old(State()) else old(State()).(gameData := old(gameData).(
        eventData := old(gameData).eventData.(siteData := LE32(message.data, 0),
          timeSinceLastDartHit := Bits(LE32(message.data, 0) as nat, 9, 8) as uint8,
          lastDartHit := Bits(LE32(message.data, 0) as nat, 18, 3) as uint8)))
      ensures ok ==> gameData.eventData.lastDartHit <= 7
    {
      if message.dataLength != 4 {
        return false;
      }
      var data := LE32(message.data, 0);
      gameData := gameData.(eventData := gameData.eventData.(siteData := data,
        timeSinceLastDartHit := Bits(data as nat, 9, 8) as uint8,
        lastDartHit := Bits(data as nat, 18, 3) as uint8));
      return true;
    }

    method DecodeToProjectileSupplierAction(message: ReceivedSerialMessage) returns (ok: bool)
      modifies this
      ensures ok <==> message.dataLength == 4
      ensures State() == if !ok then old(State()) else old(State()).(gameData := old(gameData).(
        supplier := SupplierAction(message.data[1] as RobotId, message.data[2], message.data[3])))
    {
      if message.dataLength != 4 {
        return false;
      }
      var d := message.data;
      gameData := gameData.(supplier := SupplierAction(d[1] as RobotId, d[2], d[3]));
      return true;
    }

    /** `decodeToWarningData`, with the clock reading `now`. */
    method DecodeToWarningData(message: ReceivedSerialMessage, now: uint32) returns (ok: bool)
      modifies this
      ensures ok <==> message.dataLength == 3
      ensures State() == if !ok then old(State()) else old(State()).(robotData := old(robotData).(
        refereeWarningData := RefereeWarningData(message.data[0], message.data[1] as RobotId,
          message.data[2], now)))
    {
      if message.dataLength != 3 {
        return false;
      }
      var d := message.data;
      robotData := robotData.(refereeWarningData := RefereeWarningData(d[0], d[1] as RobotId, d[2], now));
      return true;
    }

    method DecodeToDartInfo(message: ReceivedSerialMessage) returns (ok: bool)
      modifies this
      ensures ok <==> message.dataLength == 3
      ensures State() == if !ok then old(State()) else old(State()).(gameData := old(gameData).(
        dartInfo := DartInfo(message.data[0], Bits(message.data[1] as nat, 0, 2) as uint8,
          Bits(message.data[1] as nat, 2, 3) as uint8, Bits(message.data[1] as nat, 5, 2) as uint8)))
      ensures ok ==> gameData.dartInfo.hits <= 7 && gameData.dartInfo.lastHit <= 3 && gameData.dartInfo.selectedTarget <= 3
    {
      if message.dataLength != 3 {
        return false;
      }
      var d := message.data;
      gameData := gameData.(dartInfo := DartInfo(d[0], Bits(d[1] as nat, 0, 2) as uint8,
        Bits(d[1] as nat, 2, 3) as uint8, Bits(d[1] as nat, 5, 2) as uint8));
      return true;
    }

    /**
     * `processReceivedDamage`, corrected: records positive damage taken at `timestamp`; a full
     * tracker drops its newest event and that event's damage.
     */
    method ProcessReceivedDamage(timestamp: uint32, damageTaken: int32)
      modifies this
      ensures State() == WithWindow(old(State()), Recorded(old(Window()), timestamp, damageTaken))
    {
      if damageTaken > 0 {
        var damageEvent := DamageEvent((damageTaken as int % 0x1_0000) as uint16, timestamp);
        if |receivedDpsTracker| == DPS_TRACKER_DEQUE_SIZE {
          var dropped := receivedDpsTracker[|receivedDpsTracker| - 1];
          receivedDpsTracker := receivedDpsTracker[..|receivedDpsTracker| - 1];
          robotData := robotData.(receivedDps := robotData.receivedDps - dropped.damageAmount as real);
        }
        robotData := robotData.(receivedDps := robotData.receivedDps + damageTaken as real);
        receivedDpsTracker := receivedDpsTracker + [damageEvent];
      }
    }

    /** `processReceivedDamage` as written: a full tracker drops its newest event but keeps its damage in the total. */
    method ProcessReceivedDamageAsWritten(timestamp: uint32, damageTaken: int32)
      modifies this
      ensures State() == WithWindow(old(State()), RecordedAsWritten(old(Window()), timestamp, damageTaken))
    {
      if damageTaken > 0 {
        var damageEvent := DamageEvent((damageTaken as int % 0x1_0000) as uint16, timestamp);
        if |receivedDpsTracker| == DPS_TRACKER_DEQUE_SIZE {
          receivedDpsTracker := receivedDpsTracker[..|receivedDpsTracker| - 1];
        }
        robotData := robotData.(receivedDps := robotData.receivedDps + damageTaken as real);
        receivedDpsTracker := receivedDpsTracker + [damageEvent];
      }
    }

    /**
     * `updateReceivedDamage`, with the clock reading `now`: drops expired events from the front,
     * taking their damage off `receivedDps`.
     */
    method UpdateReceivedDamage(now: uint32)
      modifies this
      ensures State() == WithWindow(old(State()), Updated(now, old(Window())))
    {
      ghost var events, dps := receivedDpsTracker, robotData.receivedDps;
      ghost var k := 0;
      while |receivedDpsTracker| > 0 && now > Add32(receivedDpsTracker[0].timestampMs, DAMAGE_WINDOW_MS)
        invariant 0 <= k <= |events| && receivedDpsTracker == events[k..]
        invariant DroppedCount(now, events) == k + DroppedCount(now, receivedDpsTracker)
        invariant robotData.receivedDps == dps - TotalDamage(events[..k])
        invariant robotData == old(robotData).(receivedDps := robotData.receivedDps)
        invariant gameData == old(gameData) && msgIdToRobotToRobotHandlerMap == old(msgIdToRobotToRobotHandlerMap)
        decreases |receivedDpsTracker|
      {
        var front := receivedDpsTracker[0];
        robotData := robotData.(receivedDps := robotData.receivedDps - front.damageAmount as real);
        receivedDpsTracker := receivedDpsTracker[1..];
        DropFront(events, k);
        k := k + 1;
      }
      assert k == DroppedCount(now, events);
      assert Window() == Updated(now, DamageWindow(events, dps));
    }

    /** `decodeToRobotStatus`, with the clock reading `now`; the hit points lost since the last status are recorded as damage. */
    method DecodeToRobotStatus(message: ReceivedSerialMessage, now: uint32) returns (ok: bool)
      modifies this
      ensures ok <==> message.dataLength == 13
      ensures !ok ==> State() == old(State())
      ensures ok ==>
        var d := message.data;
        var status := old(robotData).(robotId := d[0] as RobotId, robotLevel := d[1],
          currentHp := LE16(d, 2), maxHp := LE16(d, 4),
          turret := old(robotData).turret.(coolingRate := LE16(d, 6), heatLimit := LE16(d, 8)),
          chassis := old(robotData).chassis.(powerConsumptionLimit := LE16(d, 10)),
          robotPower := Bits(d[12] as nat, 0, 3) as uint8, robotDataReceivedTimestamp := now);
        var w := Recorded(DamageWindow(old(receivedDpsTracker), status.receivedDps), now,
          (old(robotData).previousHp as int - LE16(d, 2) as int) as int32);
        State() == old(State()).(receivedDpsTracker := w.events,
          robotData := status.(receivedDps := w.receivedDps, previousHp := LE16(d, 2)))
      ensures ok ==> robotData.previousHp == robotData.currentHp && robotData.robotPower <= 7
    {
      if message.dataLength != 13 {
        return false;
      }
      var d := message.data;
      robotData := robotData.(robotId := d[0] as RobotId, robotLevel := d[1],
        currentHp := LE16(d, 2), maxHp := LE16(d, 4),
        turret := robotData.turret.(coolingRate := LE16(d, 6), heatLimit := LE16(d, 8)),
        chassis := robotData.chassis.(powerConsumptionLimit := LE16(d, 10)),
        robotPower := Bits(d[12] as nat, 0, 3) as uint8, robotDataReceivedTimestamp := now);
      ProcessReceivedDamage(robotData.robotDataReceivedTimestamp,
        (robotData.previousHp as int - robotData.currentHp as int) as int32);
      robotData := robotData.(previousHp := robotData.currentHp);
      return true;
    }

    method DecodeToPowerAndHeat(message: ReceivedSerialMessage) returns (ok: bool)
      modifies this
      ensures ok <==> message.dataLength == 16
      ensures State() == if !ok then old(State()) else old(State()).(robotData := old(robotData).(
        chassis := old(robotData).chassis.(powerBuffer := LE16(message.data, 8)),
        turret := old(robotData).turret.(heat17ID1 := LE16(message.data, 10),
          heat17ID2 := LE16(message.data, 12), heat42 := LE16(message.data, 14))))
    {
      if message.dataLength != 16 {
        return false;
      }
      var d := message.data;
      robotData := robotData.(chassis := robotData.chassis.(powerBuffer := LE16(d, 8)),
        turret := robotData.turret.(heat17ID1 := LE16(d, 10), heat17ID2 := LE16(d, 12), heat42 := LE16(d, 14)));
      return true;
    }

    method DecodeToRobotBuffs(message: ReceivedSerialMessage) returns (ok: bool)
      modifies this
      ensures ok <==> message.dataLength == 7
      ensures State() == if !ok then old(State()) else old(State()).(robotData := old(robotData).(
        robotBuffStatus := RobotBuffStatus(message.data[0], message.data[1], message.data[2],
          message.data[3], LE16(message.data, 4)),
        robotEnergyRemaining := message.data[6]))
    {
      if message.dataLength != 7 {
        return false;
      }
      var d := message.data;
      robotData := robotData.(robotBuffStatus := RobotBuffStatus(d[0], d[1], d[2], d[3], LE16(d, 4)),
        robotEnergyRemaining := d[6]);
      return true;
    }

    method DecodeToAerialEnergyStatus(message: ReceivedSerialMessage) returns (ok: bool)
      modifies this
      ensures ok <==> message.dataLength == 2
      ensures State() == if !ok then old(State()) else old(State()).(gameData := old(gameData).(
        airSupportData := AirSupportData(Bits(message.data[0] as nat, 0, 2) as uint8, message.data[1])))
      ensures ok ==> gameData.airSupportData.state <= 3
    {
      if message.dataLength != 2 {
        return false;
      }
      var d := message.data;
      gameData := gameData.(airSupportData := AirSupportData(Bits(d[0] as nat, 0, 2) as uint8, d[1]));
      return true;
    }

    method DecodeToDamageStatus(message: ReceivedSerialMessage) returns (ok: bool)
      modifies this
      ensures ok <==> message.dataLength == 1
      ensures State() == if !ok then old(State()) else old(State()).(robotData := old(robotData).(
        damagedArmorId := LowNibble(message.data[0]), damageType := HighNibble(message.data[0])))
      ensures ok ==> robotData.damagedArmorId < 16 && robotData.damageType < 16
    {
      if message.dataLength != 1 {
        return false;
      }
      var d := message.data;
      robotData := robotData.(damagedArmorId := LowNibble(d[0]), damageType := HighNibble(d[0]));
      return true;
    }

    /** `decodeToProjectileLaunch` without the float bullet speed, with the clock reading `now`. */
    method DecodeToProjectileLaunch(message: ReceivedSerialMessage, now: uint32) returns (ok: bool)
      modifies this
      ensures ok <==> message.dataLength == 7
      ensures State() == if !ok then old(State()) else old(State()).(robotData := old(robotData).(
        turret := old(robotData).turret.(bulletType := message.data[0],
          launchMechanismID := message.data[1], firingFreq := message.data[2],
          lastReceivedLaunchingInfoTimestamp := now)))
    {
      if message.dataLength != 7 {
        return false;
      }
      var d := message.data;
      robotData := robotData.(turret := robotData.turret.(bulletType := d[0], launchMechanismID := d[1],
        firingFreq := d[2], lastReceivedLaunchingInfoTimestamp := now));
      return true;
    }

    method DecodeToBulletsRemain(message: ReceivedSerialMessage) returns (ok: bool)
      modifies this
      ensures ok <==> message.dataLength == 6
      ensures State() == if !ok then old(State()) else old(State()).(robotData := old(robotData).(
        turret := old(robotData).turret.(bulletsRemaining17 := LE16(message.data, 0),
          bulletsRemaining42 := LE16(message.data, 2)),
        remainingCoins := LE16(message.data, 4)))
    {
      if message.dataLength != 6 {
        return false;
      }
      var d := message.data;
      robotData := robotData.(turret := robotData.turret.(bulletsRemaining17 := LE16(d, 0),
        bulletsRemaining42 := LE16(d, 2)), remainingCoins := LE16(d, 4));
      return true;
    }

    method DecodeToRFIDStatus(message: ReceivedSerialMessage) returns (ok: bool)
      modifies this
      ensures ok <==> message.dataLength == 4
      ensures State() == if !ok then old(State()) else old(State()).(robotData := old(robotData).(
        rfidStatus := LE32(message.data, 0)))
    {
      if message.dataLength != 4 {
        return false;
      }
      robotData := robotData.(rfidStatus := LE32(message.data, 0));
      return true;
    }

    method DecodeToDartStation(message: ReceivedSerialMessage) returns (ok: bool)
      modifies this
      ensures ok <==> message.dataLength == 6
      ensures State() == if !ok then old(State()) else old(State()).(gameData := old(gameData).(
        dartStation := DartStationInfo(Bits(message.data[0] as nat, 0, 2) as uint8,
          LE16(message.data, 2), LE16(message.data, 4))))
      ensures ok ==> gameData.dartStation.state <= 3
    {
      if message.dataLength != 6 {
        return false;
      }
      var d := message.data;
      gameData := gameData.(dartStation := DartStationInfo(Bits(d[0] as nat, 0, 2) as uint8, LE16(d, 2), LE16(d, 4)));
      return true;
    }

    /** `decodeToRadarProgress` as written, reading byte 6 of a six-byte payload. */
    method DecodeToRadarProgressAsWritten(message: ReceivedSerialMessage) returns (ok: bool)
      modifies this
      ensures ok <==> message.dataLength == 6
      ensures State() == if !ok then old(State()) else old(State()).(gameData := old(gameData).(
        radarProgress := RadarProgressAsWritten(old(gameData).radarProgress, message.data)))
    {
      if message.dataLength != 6 {
        return false;
      }
      var d := message.data;
      gameData := gameData.(radarProgress := gameData.radarProgress.(hero := d[1], engineer := d[2],
        standard3 := d[3], standard4 := d[4], sentry := d[6]));
      return true;
    }

    /** `decodeToRadarProgress` corrected, reading the six payload bytes. */
    method DecodeToRadarProgress(message: ReceivedSerialMessage) returns (ok: bool)
      modifies this
      ensures ok <==> message.dataLength == 6
      ensures State() == if !ok then old(State()) else old(State()).(gameData := old(gameData).(
        radarProgress := RadarProgressOf(message.data)))
    {
      if message.dataLength != 6 {
        return false;
      }
      var d := message.data;
      gameData := gameData.(radarProgress := RadarMarkProgress(d[0], d[1], d[2], d[3], d[4], d[5]));
      return true;
    }

    /** `decodeToSentryInfo` as written. */
    method DecodeToSentryInfoAsWritten(message: ReceivedSerialMessage) returns (ok: bool)
      modifies this
      ensures ok <==> message.dataLength == 4
      ensures State() == if !ok then old(State()) else old(State()).(gameData := old(gameData).(
        sentry := SentryInfoAsWritten(LE32(message.data, 0))))
    {
      if message.dataLength != 4 {
        return false;
      }
      var data := LE32(message.data, 0);
      gameData := gameData.(sentry := SentryInfo(Bits(data as nat, 0, 10) as uint16,
        Bits(data as nat, 11, 4) as uint8, Bits(data as nat, 14, 4) as uint8));
      return true;
    }

    /** `decodeToSentryInfo` corrected. */
    method DecodeToSentryInfo(message: ReceivedSerialMessage) returns (ok: bool)
      modifies this
      ensures ok <==> message.dataLength == 4
      ensures State() == if !ok then old(State()) else old(State()).(gameData := old(gameData).(
        sentry := SentryInfoOf(LE32(message.data, 0))))
    {
      if message.dataLength != 4 {
        return false;
      }
      var data := LE32(message.data, 0);
      gameData := gameData.(sentry := SentryInfo(Bits(data as nat, 0, 10) as uint16,
        Bits(data as nat, 11, 4) as uint8, Bits(data as nat, 15, 4) as uint8));
      return true;
    }

    method DecodeToRadarInfo(message: ReceivedSerialMessage) returns (ok: bool)
      modifies this
      ensures ok <==> message.dataLength == 1
      ensures State() == if !ok then old(State()) else old(State()).(gameData := old(gameData).(
        radar := RadarInfo(Bits(message.data[0] as nat, 0, 2) as uint8, Bits(message.data[0] as nat, 2, 1) == 1)))
      ensures ok ==> gameData.radar.availableDoubleVulnerablilityEffects <= 3
    {
      if message.dataLength != 1 {
        return false;
      }
      var d := message.data;
      gameData := gameData.(radar := RadarInfo(Bits(d[0] as nat, 0, 2) as uint8, Bits(d[0] as nat, 2, 1) == 1));
      return true;
    }

    /**
     * `handleRobotToRobotCommunication`: a message shorter than the interactive header is
     * refused; otherwise it is accepted, and the handler registered for the header's
     * `dataCmdId` (the first two bytes, little-endian) is the one run.
     */
    function HandleRobotToRobotCommunication(message: ReceivedSerialMessage): (r: Dispatch)
      reads this
      ensures r.accepted <==> message.dataLength as nat >= INTERACTIVE_HEADER_SIZE
      ensures r.handler.Some? <==> r.accepted && LE16(message.data, 0) in msgIdToRobotToRobotHandlerMap
      ensures r.handler.Some? ==> r.handler.value == msgIdToRobotToRobotHandlerMap[LE16(message.data, 0)]
    {
      if (message.dataLength as nat) < INTERACTIVE_HEADER_SIZE then Dispatch(false, None)
      else if |msgIdToRobotToRobotHandlerMap| == 0 then Dispatch(true, None)
      else
        var dataCmdId := LE16(message.data, 0);
        if dataCmdId in msgIdToRobotToRobotHandlerMap then Dispatch(true, Some(msgIdToRobotToRobotHandlerMap[dataCmdId]))
        else Dispatch(true, None)
    }

    /**
     * `attachRobotToRobotMessageHandler`: registers `handler` for `msgId`, or raises an error and
     * changes nothing when the id is taken or outside 0x0200..0x02FF.
     */
    method AttachRobotToRobotMessageHandler(msgId: uint16, handler: HandlerId) returns (error: bool)
      modifies this
      ensures error <==> msgId in old(msgIdToRobotToRobotHandlerMap) || !IsRobotToRobotMsgId(msgId)
      ensures State() == if error then old(State())
        else old(State()).(handlers := old(msgIdToRobotToRobotHandlerMap)[msgId := handler])
      ensures old(HandlersValid()) ==> HandlersValid()
      ensures !error ==> forall message: ReceivedSerialMessage ::
        message.dataLength as nat >= INTERACTIVE_HEADER_SIZE && LE16(message.data, 0) == msgId ==>
          HandleRobotToRobotCommunication(message).handler == Some(handler)
    {
      if msgId in msgIdToRobotToRobotHandlerMap || msgId < 0x0200 || msgId > 0x02FF {
        return true;
      }
      msgIdToRobotToRobotHandlerMap := msgIdToRobotToRobotHandlerMap[msgId := handler];
      return false;
    }

    /**
     * `getRobotIdBasedOnCurrentRobotTeam`: an id of the other team is mapped onto the robot's
     * own team with the same role; `INVALID` on either side leaves the id as it is.
     */
    function GetRobotIdBasedOnCurrentRobotTeam(id: RobotId): (r: RobotId)
      reads this
      ensures id == INVALID || robotData.robotId == INVALID ==> r == id
      ensures IsBlueTeam(id) == IsBlueTeam(robotData.robotId) ==> r == id
      ensures robotData.robotId != INVALID && (IsRed(id) || IsBlue(id)) ==>
        (IsRed(r) || IsBlue(r)) && IsBlueTeam(r) == IsBlueTeam(robotData.robotId) && Role(r) == Role(id)
    {
      if id == INVALID || robotData.robotId == INVALID then id
      else if !IsBlueTeam(robotData.robotId) && IsBlueTeam(id) then Plus(Minus(id, BLUE_HERO), RED_HERO)
      else if IsBlueTeam(robotData.robotId) && !IsBlueTeam(id) then Plus(Minus(id, RED_HERO), BLUE_HERO)
      else id
    }

    /** How long a warning blinds this robot's operator: longer when this robot committed the foul. */
    function BlindTime(): (ms: uint32)
      reads this
      ensures robotData.refereeWarningData.foulRobotID == robotData.robotId ==> ms == 5000
      ensures robotData.refereeWarningData.foulRobotID != robotData.robotId ==> ms == 2000
    {
      if robotData.refereeWarningData.foulRobotID == robotData.robotId then 5_000 else 2_000
    }

    /**
     * `operatorBlinded`, with the clock reading `now` and whether referee data is being received:
     * true while a warning was received and its blind time has not yet elapsed, the elapsed
     * time taken on `uint32_t`.
     */
    function OperatorBlinded(now: uint32, receivingData: bool): (r: bool)
      reads this
      ensures r ==> receivingData && robotData.refereeWarningData.lastReceivedWarningRobotTime != 0
      ensures robotData.refereeWarningData.lastReceivedWarningRobotTime <= now ==>
        (r <==> (receivingData && robotData.refereeWarningData.lastReceivedWarningRobotTime != 0
          && now as int - robotData.refereeWarningData.lastReceivedWarningRobotTime as int <= BlindTime() as int))
    {
      var last := robotData.refereeWarningData.lastReceivedWarningRobotTime;
      receivingData && last != 0 && Sub32(now, last) <= BlindTime()
    }
  }
}
