/**
 * The referee protocol's robot identifiers and the graphic message sizes used to pace
 * transmissions, from `RefSerialData`.
 */
module RefSerialData {
  import opened FixedWidth

  /**
   * `RobotId`, an enum class over `uint16_t`. A cast from a received byte can store any
   * 16-bit value in it, so the model keeps the raw value and names the enumerators.
   */
  type RobotId = uint16

  const INVALID: RobotId := 0

  const RED_HERO: RobotId := 1
  const RED_ENGINEER: RobotId := 2
  const RED_SOLDIER_1: RobotId := 3
  const RED_SOLDIER_2: RobotId := 4
  const RED_SOLDIER_3: RobotId := 5
  const RED_DRONE: RobotId := 6
  const RED_SENTINEL: RobotId := 7
  const RED_DART: RobotId := 8
  const RED_RADAR_STATION: RobotId := 9

  const BLUE_HERO: RobotId := 101
  const BLUE_ENGINEER: RobotId := 102
  const BLUE_SOLDIER_1: RobotId := 103
  const BLUE_SOLDIER_2: RobotId := 104
  const BLUE_SOLDIER_3: RobotId := 105
  const BLUE_DRONE: RobotId := 106
  const BLUE_SENTINEL: RobotId := 107
  const BLUE_DART: RobotId := 108
  const BLUE_RADAR_STATION: RobotId := 109

  const UINT16_MODULUS: int := 0x1_0000

  /** One of the red enumerators `RED_HERO` .. `RED_RADAR_STATION`. */
  predicate IsRed(id: RobotId) { RED_HERO <= id <= RED_RADAR_STATION }

  /** One of the blue enumerators `BLUE_HERO` .. `BLUE_RADAR_STATION`. */
  predicate IsBlue(id: RobotId) { BLUE_HERO <= id <= BLUE_RADAR_STATION }

  /** `isBlueTeam`. */
  predicate IsBlueTeam(id: RobotId) { id >= BLUE_HERO }

  /** The role of a robot, the same number for its red and its blue enumerator. */
  function Role(id: RobotId): (r: int)
    requires IsRed(id) || IsBlue(id)
    ensures 1 <= r <= 9
  {
    if IsBlue(id) then id as int - 100 else id as int
  }

  /** `operator+` on `RobotId`: the underlying values added and cast back to 16 bits. */
  function Plus(a: RobotId, b: RobotId): (r: RobotId)
    ensures a as int + b as int < UINT16_MODULUS ==> r as int == a as int + b as int
    ensures a as int + b as int >= UINT16_MODULUS ==> r as int == a as int + b as int - UINT16_MODULUS
  {
    ((a as int + b as int) % UINT16_MODULUS) as RobotId
  }

  /** `operator-` on `RobotId`: the underlying values subtracted and cast back to 16 bits. */
  function Minus(a: RobotId, b: RobotId): (r: RobotId)
    ensures a >= b ==> r as int == a as int - b as int
    ensures a < b ==> r as int == a as int - b as int + UINT16_MODULUS
  {
    ((a as int - b as int) % UINT16_MODULUS) as RobotId
  }

  /** Subtraction undoes addition and addition undoes subtraction, modulo 2^16. */
  lemma PlusMinusInverse(a: RobotId, b: RobotId)
    ensures Minus(Plus(a, b), b) == a
    ensures Plus(Minus(a, b), b) == a
  {
  }

  /** `isBlueTeam` is false for `INVALID` and every red enumerator, true for every blue one. */
  lemma TeamsOfEnumerators(id: RobotId)
    ensures !IsBlueTeam(INVALID)
    ensures IsRed(id) ==> !IsBlueTeam(id)
    ensures IsBlue(id) ==> IsBlueTeam(id)
  {
  }

  /** The red-to-blue mapping `id - RED_HERO + BLUE_HERO` adds 100 and keeps the role. */
  lemma RedToBlue(id: RobotId)
    requires IsRed(id)
    ensures Plus(Minus(id, RED_HERO), BLUE_HERO) as int == id as int + 100
    ensures IsBlue(Plus(Minus(id, RED_HERO), BLUE_HERO))
    ensures Role(Plus(Minus(id, RED_HERO), BLUE_HERO)) == Role(id)
  {
  }

  /** The blue-to-red mapping `id - BLUE_HERO + RED_HERO` subtracts 100 and keeps the role. */
  lemma BlueToRed(id: RobotId)
    requires IsBlue(id)
    ensures Plus(Minus(id, BLUE_HERO), RED_HERO) as int == id as int - 100
    ensures IsRed(Plus(Minus(id, BLUE_HERO), RED_HERO))
    ensures Role(Plus(Minus(id, BLUE_HERO), RED_HERO)) == Role(id)
  {
  }

  /** Mapping red to blue and back gives the same robot. */
  lemma TeamMappingRoundTrip(id: RobotId)
    requires IsRed(id)
    ensures Plus(Minus(Plus(Minus(id, RED_HERO), BLUE_HERO), BLUE_HERO), RED_HERO) == id
  {
    RedToBlue(id);
  }

  /** The graphic message types `getWaitTimeAfterGraphicSendMs` accepts. */
  datatype GraphicMessage =
    | DeleteGraphicLayerMessage
    | Graphic1Message
    | RobotToRobotMessage
    | Graphic2Message
    | Graphic5Message
    | Graphic7Message
    | GraphicCharacterMessage

  /** `DJISerial::FrameHeader`: start byte, 16-bit length, sequence byte and CRC8 (assumed layout). */
  const FRAME_HEADER_SIZE: nat := 5
  /** The 16-bit command id that follows the frame header. */
  const CMD_ID_SIZE: nat := 2
  /** `InteractiveHeader`: three `uint16_t` fields. */
  const INTERACTIVE_HEADER_SIZE: nat := 6
  /** The trailing `crc16`. */
  const CRC16_SIZE: nat := 2

  /**
   * `GraphicData`, packed: a three-byte name, then bit fields of 3+3+4+4+9+9, 10+11+11 and
   * 10+11+11 (or one 32-bit value) bits.
   */
  const GRAPHIC_DATA_SIZE: nat := 3 + (3 + 3 + 4 + 4 + 9 + 9 + 10 + 11 + 11 + 10 + 11 + 11) / 8

  /** `sizeof(T)` for each packed message type. */
  function SizeOf(m: GraphicMessage): (n: nat)
    ensures n > FRAME_HEADER_SIZE + CMD_ID_SIZE + INTERACTIVE_HEADER_SIZE
  {
    var prefix := FRAME_HEADER_SIZE + CMD_ID_SIZE + INTERACTIVE_HEADER_SIZE;
    match m
    case DeleteGraphicLayerMessage => prefix + 1 + 1 + CRC16_SIZE
    case Graphic1Message => prefix + GRAPHIC_DATA_SIZE + CRC16_SIZE
    case RobotToRobotMessage => prefix + 115
    case Graphic2Message => prefix + 2 * GRAPHIC_DATA_SIZE + CRC16_SIZE
    case Graphic5Message => prefix + 5 * GRAPHIC_DATA_SIZE + CRC16_SIZE
    case Graphic7Message => prefix + 7 * GRAPHIC_DATA_SIZE + CRC16_SIZE
    case GraphicCharacterMessage => prefix + GRAPHIC_DATA_SIZE + 30 + CRC16_SIZE
  }

  const MAX_TRANSMIT_SPEED_BYTES_PER_S: nat := 1000

  /**
   * `getWaitTimeAfterGraphicSendMs`: the milliseconds the message occupies the link at
   * `MAX_TRANSMIT_SPEED_BYTES_PER_S`, which at 1000 bytes per second is one per byte.
   */
  function GetWaitTimeAfterGraphicSendMs(m: GraphicMessage): (ms: uint32)
    ensures ms as int == SizeOf(m)
    ensures ms as int * MAX_TRANSMIT_SPEED_BYTES_PER_S >= SizeOf(m) * 1000
  {
    (SizeOf(m) * 1000 / MAX_TRANSMIT_SPEED_BYTES_PER_S) as uint32
  }

  /** The wait for each message type, given the assumed five-byte frame header. */
  lemma WaitTimes()
    ensures GetWaitTimeAfterGraphicSendMs(DeleteGraphicLayerMessage) == 17
    ensures GetWaitTimeAfterGraphicSendMs(Graphic1Message) == 30
    ensures GetWaitTimeAfterGraphicSendMs(RobotToRobotMessage) == 128
    ensures GetWaitTimeAfterGraphicSendMs(Graphic2Message) == 45
    ensures GetWaitTimeAfterGraphicSendMs(Graphic5Message) == 90
    ensures GetWaitTimeAfterGraphicSendMs(Graphic7Message) == 120
    ensures GetWaitTimeAfterGraphicSendMs(GraphicCharacterMessage) == 60
  {
  }
}
