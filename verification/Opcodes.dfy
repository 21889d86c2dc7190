// ATT opcodes, error codes and the two opcode tables of src/shared/att.c.

module Opcodes {
  import opened Wire

  const ERROR_RSP: byte := 0x01
  const MTU_REQ: byte := 0x02
  const MTU_RSP: byte := 0x03
  const FIND_INFO_REQ: byte := 0x04
  const FIND_INFO_RSP: byte := 0x05
  const FIND_BY_TYPE_REQ: byte := 0x06
  const FIND_BY_TYPE_RSP: byte := 0x07
  const READ_BY_TYPE_REQ: byte := 0x08
  const READ_BY_TYPE_RSP: byte := 0x09
  const READ_REQ: byte := 0x0A
  const READ_RSP: byte := 0x0B
  const READ_BLOB_REQ: byte := 0x0C
  const READ_BLOB_RSP: byte := 0x0D
  const READ_MULT_REQ: byte := 0x0E
  const READ_MULT_RSP: byte := 0x0F
  const READ_BY_GRP_REQ: byte := 0x10
  const READ_BY_GRP_RSP: byte := 0x11
  const WRITE_REQ: byte := 0x12
  const WRITE_RSP: byte := 0x13
  const PREP_WRITE_REQ: byte := 0x16
  const PREP_WRITE_RSP: byte := 0x17
  const EXEC_WRITE_REQ: byte := 0x18
  const EXEC_WRITE_RSP: byte := 0x19
  const HANDLE_NFY: byte := 0x1B
  const HANDLE_IND: byte := 0x1D
  const HANDLE_CONF: byte := 0x1E
  const HANDLE_NFY_MULT: byte := 0x23
  const WRITE_CMD: byte := 0x52
  const SIGNED_WRITE_CMD: byte := 0xD2

  const ALL_REQUESTS: byte := 0x00

  const ECODE_INVALID_PDU: byte := 0x04
  const ECODE_AUTHENTICATION: byte := 0x05
  const ECODE_REQUEST_NOT_SUPPORTED: byte := 0x06
  const ECODE_ATTR_NOT_FOUND: byte := 0x0A
  const ECODE_UNLIKELY: byte := 0x0E
  const ECODE_INSUFFICIENT_ENCRYPTION: byte := 0x0F
  const ECODE_IO: byte := 0x80

  const DEFAULT_LE_MTU: u16 := 23

  datatype OpType = Req | Rsp | Cmd | Ind | Nfy | Conf | Unknown

  // get_op_type: the opcode table, then the command bit 0x40.
  function OpTypeOf(opcode: byte): OpType {
    match opcode
    case 0x02 | 0x04 | 0x06 | 0x08 | 0x0A | 0x0C | 0x0E | 0x10 | 0x12 | 0x16 | 0x18 => Req
    case 0x01 | 0x03 | 0x05 | 0x07 | 0x09 | 0x0B | 0x0D | 0x0F | 0x11 | 0x13 | 0x17 | 0x19 => Rsp
    case 0x52 | 0xD2 => Cmd
    case 0x1B | 0x23 => Nfy
    case 0x1D => Ind
    case 0x1E => Conf
    case _ => if (opcode / 0x40) % 2 == 1 then Cmd else Unknown
  }

  // get_req_opcode: 0 when the opcode answers no request.
  function ReqOpcodeOf(rsp: byte): byte {
    match rsp
    case 0x03 | 0x05 | 0x07 | 0x09 | 0x0B | 0x0D | 0x0F | 0x11 | 0x13 | 0x17 | 0x19 => rsp - 1
    case _ => 0
  }

  // What a response callback may be told: an error, the response to its own request, or the
  // confirmation of its own indication.
  predicate Answers(rsp: byte, opcode: byte) {
    || rsp == ERROR_RSP
    || (ReqOpcodeOf(rsp) != 0 && ReqOpcodeOf(rsp) == opcode)
    || (rsp == HANDLE_CONF && opcode == HANDLE_IND)
  }

  // The signature bit 0x80.
  predicate Signed(opcode: byte) { opcode >= 0x80 }
}
