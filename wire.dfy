/** The wire message and the stream it travels on. A message is one frame of
    pb.BlockStream; framing and protobuf encoding are not modelled, so a whole
    message is read or written in one step. */
module Wire {
  import opened Errors
  import opened Cids

  newtype uint32 = x: int | 0 <= x < 0x1_0000_0000

  /** access.Token: an opaque string, only echoed and compared. */
  type Token = string

  /** pb.BlockStream_Type, with room for a tag outside the three named ones;
      the value of OtherType is never the number of a named type. */
  datatype MsgType = HANDSHAKE | REQUEST | RESPONSE | OtherType(value: int)

  /** pb.BlockStream: one flat record whatever its type. */
  datatype Msg = Msg(kind: MsgType, token: Token, id: uint32, cids: seq<Bytes>, blocks: seq<Bytes>, code: Code)

  /** The message writeToken sends; fields it leaves unset keep their zero
      value, and Null is taken to be the zero error code. */
  function HandshakeMsg(token: Token): Msg
  {
    Msg(HANDSHAKE, token, 0, [], [], Null)
  }

  /** The message writeBlocksReq sends. */
  function RequestMsg(id: uint32, cids: seq<Bytes>): Msg
  {
    Msg(REQUEST, "", id, cids, [], Null)
  }

  /** The message writeBlocksResp sends. */
  function ResponseMsg(id: uint32, blocks: seq<Bytes>, code: Code): Msg
  {
    Msg(RESPONSE, "", id, [], blocks, code)
  }

  /** What is left of an inbox after one read, whether it succeeded or not. */
  function Rest(inbox: seq<Msg>): seq<Msg>
  {
    if inbox == [] then [] else inbox[1..]
  }

  /** One end of a peer stream: the messages the peer has sent and this end
      has not read yet, the messages this end has written, and the error
      every write reports once the stream is broken (nil while it is not). */
  class Stream {
    var inbox: seq<Msg>
    var sent: seq<Msg>
    var writeFailure: Error

    constructor (inbox: seq<Msg>, writeFailure: Error)
      ensures this.inbox == inbox && sent == [] && this.writeFailure == writeFailure
    {
      this.inbox := inbox;
      sent := [];
      this.writeFailure := writeFailure;
    }

    /** serde.Read: take the next message; with none left the read fails with
        io.EOF, and the message returned is not to be looked at. */
    method Read() returns (msg: Msg, err: Error)
      modifies this`inbox
      ensures inbox == Rest(old(inbox))
      ensures err == [] <==> old(inbox) != []
      ensures old(inbox) == [] ==> err == [EOF]
      ensures old(inbox) != [] ==> msg == old(inbox)[0]
    {
      if inbox == [] {
        return Msg(OtherType(0), "", 0, [], [], Null), [EOF];
      }
      msg := inbox[0];
      inbox := inbox[1..];
      err := [];
    }

    /** serde.Write: append the message to what was sent, unless the stream
        is broken. */
    method Write(msg: Msg) returns (err: Error)
      modifies this`sent
      ensures err == writeFailure
      ensures sent == if writeFailure == [] then old(sent) + [msg] else old(sent)
    {
      if writeFailure != [] {
        return writeFailure;
      }
      sent := sent + [msg];
      err := [];
    }
  }
}
