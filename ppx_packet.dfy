/**
 * The command byte of the ppx packet protocol (libs/libs_lcb/ppx_packet.h):
 * frame delimiters and escape codes, the id, command-type and message enums,
 * and the four classification macros PPX_CMD_IS_REQ/RSP/EXCP/MSG.
 *
 * The `cmd` field of a packet is a `uint8_t`, so the macros are modelled on
 * 8-bit vectors and every statement is about all 256 byte values.
 */
module PpxPacket {

  type uint8 = bv8

  // Sizes of a packet and of its data region.
  const PACKET_MAX_SIZE: nat := 256
  const PACKET_MIN_SIZE: nat := 9
  const DATA_HEAD_SIZE: nat := 5
  const DATA_REGION_SIZE: nat := 128 + DATA_HEAD_SIZE
  const DATA_BUF_SIZE: nat := 192

  // Frame delimiters and the data tag.
  const FRAME_HEAD: uint8 := 0xA5
  const FRAME_END: uint8 := 0x55
  const DATA_TAG: uint8 := 0x33

  // Escape pairs: 0xA5 inside a frame becomes 0xAB 0xBA, 0x55 becomes 0xCD 0xDC.
  const REPHEAD_H: uint8 := 0xAB
  const REPHEAD_L: uint8 := 0xBA
  const REPEND_H: uint8 := 0xCD
  const REPEND_L: uint8 := 0xDC
  const REPHEAD_2: uint8 := 0xBB
  const REPEND_2: uint8 := 0xDD

  // Board ids (ppx_packet_id_t).
  const ID_RSVD: uint8 := 0x00
  const ID_CCB: uint8 := 0x10
  const ID_MCB: uint8 := 0x20
  const ID_FCB: uint8 := 0x30
  const ID_BMS: uint8 := 0x40
  const ID_GPRS: uint8 := 0x50
  const ID_BLE: uint8 := 0x60
  const ID_ALARM: uint8 := 0x70
  const ID_VOICE: uint8 := 0x80
  const ID_MAX: uint8 := 0x90

  // Command types (ppx_cmd_type_t): the two high bits of a command byte.
  const CMD_REQ: uint8 := 0x00
  const CMD_RSP: uint8 := 0x80
  const CMD_EXCP: uint8 := 0xC0

  // Message codes (ppx_cmd_msg_t): the low nibble of a command byte.
  const MSG_RSVD: uint8 := 0x00
  const MSG_READ: uint8 := 0x01
  const MSG_MULTREAD: uint8 := 0x02
  const MSG_WRITE: uint8 := 0x03
  const MSG_MULTWRITE: uint8 := 0x04
  const MSG_COMPARE: uint8 := 0x05
  const MSG_UPGRADE: uint8 := 0x06
  const MSG_NOTIFY: uint8 := 0x07
  const MSG_MASK: uint8 := 0x0F

  /** PPX_CMD_IS_REQ: a request byte is a non-reserved message code with both type bits clear. */
  function IsReq(x: uint8): (r: bool)
    ensures r <==> MSG_READ <= x <= MSG_MASK
    ensures r ==> x & CMD_RSP == 0
  {
    x > 0 && x <= MSG_MASK
  }

  /** PPX_CMD_IS_RSP: the response bit (bit 7) is set. */
  function IsRsp(x: uint8): (r: bool)
    ensures r <==> x >= 0x80
  {
    x & CMD_RSP == CMD_RSP
  }

  /** PPX_CMD_IS_EXCP: bits 7 and 6 are both set; every exception is also a response. */
  function IsExcp(x: uint8): (r: bool)
    ensures r <==> x >= 0xC0
    ensures r ==> IsRsp(x)
  {
    x & CMD_EXCP == CMD_EXCP
  }

  /** PPX_CMD_IS_MSG: the message code carried in the low nibble. */
  function Msg(x: uint8): (r: uint8)
    ensures r <= MSG_MASK
    ensures r == x % 16
    ensures IsReq(x) ==> r == x
  {
    x & MSG_MASK
  }

  /** The command types of ppx_cmd_type_t. */
  datatype CmdType = Req | Rsp | Excp

  function TypeBits(t: CmdType): uint8
  {
    match t
    case Req => CMD_REQ
    case Rsp => CMD_RSP
    case Excp => CMD_EXCP
  }

  /**
   * The command byte made from a command type and a message code, `type | msg`.
   * The classification macros recover both parts from it.
   */
  function CommandByte(t: CmdType, m: uint8): (c: uint8)
    requires m <= MSG_MASK
    ensures Msg(c) == m
    ensures IsRsp(c) <==> t != Req
    ensures IsExcp(c) <==> t == Excp
    ensures t == Req ==> (IsReq(c) <==> m != MSG_RSVD)
  {
    TypeBits(t) | m
  }

  /** No byte is both a request and a response; the reserved code 0x00 is neither. */
  lemma RequestResponseDisjoint(x: uint8)
    ensures !(IsReq(x) && IsRsp(x))
    ensures !IsReq(MSG_RSVD) && !IsRsp(MSG_RSVD)
  {
  }

  /** Each message code READ..NOTIFY, or-ed with CMD_RSP, is a plain response carrying that code. */
  lemma ResponseCodes(m: uint8)
    requires MSG_READ <= m <= MSG_NOTIFY
    ensures IsRsp(m | CMD_RSP) && !IsExcp(m | CMD_RSP) && Msg(m | CMD_RSP) == m
  {
    assert m | CMD_RSP == CommandByte(Rsp, m);
  }

  /** No escape byte equals the frame head or the frame end. */
  lemma EscapesAvoidDelimiters()
    ensures forall b :: b in [REPHEAD_H, REPHEAD_L, REPEND_H, REPEND_L, REPHEAD_2, REPEND_2] ==>
                          b != FRAME_HEAD && b != FRAME_END
  {
  }
}
