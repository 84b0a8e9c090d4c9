/** The message that travels through every service (sandcat_prectice/abi/protos/messages.proto).
    The wire enums are plain 32-bit integers in the generated code. JSON text is not modelled:
    decoding what was encoded gives the message back. */
module Messages {

  const CONTENT_ERROR := 2
  const MSG_REC_RESP := 1

  datatype Msg = Msg(
    sendId: string,
    receiverId: string,
    localId: string,
    serverId: string,
    createTime: int,
    sendTime: int,
    number: int, // the field `seq`
    msgType: int,
    contentType: int,
    content: string,
    isRead: bool
  )
}
