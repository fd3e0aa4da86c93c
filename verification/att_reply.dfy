/** What the callback of an ATT request is given. */
module AttReply {
  import opened Bytes

  /** A status, and the PDU of the response when the status is 0. */
  datatype Reply = Reply(status: byte, pdu: seq<byte>)
}
