/** The wire protocol of net.go: the token handshake, writing and reading
    block requests and responses, and round trips over a pair of connected
    streams. */
module Net {
  import opened Errors
  import opened Cids
  import opened Wire

  /** The head of the inbox is a HANDSHAKE that carries the given token. */
  predicate Echoes(inbox: seq<Msg>, token: Token)
  {
    inbox != [] && inbox[0].kind == HANDSHAKE && inbox[0].token == token
  }

  // ---------------------------------------------------------------------
  // Handshake

  /** writeToken: send one HANDSHAKE carrying the token. */
  method WriteToken(w: Stream, token: Token) returns (err: Error)
    modifies w`sent
    ensures w.writeFailure == [] ==> err == [] && w.sent == old(w.sent) + [HandshakeMsg(token)]
    ensures w.writeFailure != [] ==> err == Wrap(WritingToken, w.writeFailure) && w.sent == old(w.sent)
  {
    var e := w.Write(HandshakeMsg(token));
    if e != [] {
      return Wrap(WritingToken, e);
    }
    return [];
  }

  /** readToken: read one message, which must be a HANDSHAKE; on a message of
      another type the token returned is the placeholder "nil". */
  method ReadToken(r: Stream) returns (token: Token, err: Error)
    modifies r`inbox
    ensures r.inbox == Rest(old(r.inbox))
    ensures old(r.inbox) == [] ==> token == "" && err == Wrap(ReadingToken, [EOF])
    ensures old(r.inbox) != [] && old(r.inbox)[0].kind == HANDSHAKE ==>
              token == old(r.inbox)[0].token && err == []
    ensures old(r.inbox) != [] && old(r.inbox)[0].kind != HANDSHAKE ==>
              token == "nil" && err == [ErrUnexpectedType]
  {
    var msg, e := r.Read();
    if e != [] {
      return "", Wrap(ReadingToken, e);
    }
    if msg.kind != HANDSHAKE {
      return "nil", [ErrUnexpectedType];
    }
    return msg.token, [];
  }

  /** giveHand, the initiator: send the local token, then demand the same
      token back. Nothing is read when the write fails. */
  method GiveHand(rw: Stream, out: Token) returns (err: Error)
    modifies rw`inbox, rw`sent
    ensures err == [] <==> rw.writeFailure == [] && Echoes(old(rw.inbox), out)
    ensures rw.writeFailure != [] ==>
              err == Wrap(WritingToken, rw.writeFailure) && rw.sent == old(rw.sent) && rw.inbox == old(rw.inbox)
    ensures rw.writeFailure == [] ==>
              rw.sent == old(rw.sent) + [HandshakeMsg(out)] && rw.inbox == Rest(old(rw.inbox))
    ensures rw.writeFailure == [] && old(rw.inbox) == [] ==> err == Wrap(ReadingToken, [EOF])
    ensures rw.writeFailure == [] && old(rw.inbox) != [] && old(rw.inbox)[0].kind != HANDSHAKE ==>
              err == [ErrUnexpectedType]
    ensures rw.writeFailure == [] && old(rw.inbox) != [] && old(rw.inbox)[0].kind == HANDSHAKE ==>
              (old(rw.inbox)[0].token != out ==> err == [ErrTokenMismatch])
  {
    err := WriteToken(rw, out);
    if err != [] {
      return;
    }
    var tokenIn;
    tokenIn, err := ReadToken(rw);
    if err != [] {
      return;
    }
    if tokenIn != out {
      return [ErrTokenMismatch];
    }
    return [];
  }

  /** takeHand, the responder: read a token, put it to the access check, and
      echo it back only if the check passes. Nothing is written when the read
      fails or the check refuses. */
  method TakeHand(rw: Stream, check: Token -> Error) returns (token: Token, err: Error)
    modifies rw`inbox, rw`sent
    ensures rw.inbox == Rest(old(rw.inbox))
    ensures err == [] <==>
              old(rw.inbox) != [] && old(rw.inbox)[0].kind == HANDSHAKE
              && check(old(rw.inbox)[0].token) == [] && rw.writeFailure == []
    ensures err == [] ==> token == old(rw.inbox)[0].token && rw.sent == old(rw.sent) + [HandshakeMsg(token)]
    ensures err != [] ==> token == "" && rw.sent == old(rw.sent)
    ensures old(rw.inbox) == [] ==> err == Wrap(ReadingToken, [EOF])
    ensures old(rw.inbox) != [] && old(rw.inbox)[0].kind != HANDSHAKE ==> err == [ErrUnexpectedType]
    ensures old(rw.inbox) != [] && old(rw.inbox)[0].kind == HANDSHAKE ==>
              (check(old(rw.inbox)[0].token) != [] ==> err == check(old(rw.inbox)[0].token))
    ensures old(rw.inbox) != [] && old(rw.inbox)[0].kind == HANDSHAKE ==>
              (check(old(rw.inbox)[0].token) == [] && rw.writeFailure != [] ==>
                 err == Wrap(WritingToken, rw.writeFailure))
  {
    var e;
    token, e := ReadToken(rw);
    if e != [] {
      return "", e;
    }
    e := check(token);
    if e != [] {
      return "", e;
    }
    e := WriteToken(rw, token);
    if e != [] {
      return "", e;
    }
    err := [];
  }

  // ---------------------------------------------------------------------
  // Requests

  /** The REQUEST writeBlocksReq sends: the correlation id and the binary
      form of every CID, in order. */
  method BuildRequest(id: uint32, ids: seq<Cid>) returns (msg: Msg)
    ensures msg == RequestMsg(id, msg.cids)
    ensures |msg.cids| == |ids|
    ensures forall i | 0 <= i < |ids| :: msg.cids[i] == ids[i].bytes
  {
    var raw := new Bytes[|ids|];
    for i := 0 to |ids|
      invariant forall j | 0 <= j < i :: raw[j] == ids[j].bytes
    {
      raw[i] := ids[i].bytes;
    }
    msg := RequestMsg(id, raw[..]);
  }

  /** writeBlocksReq. */
  method WriteBlocksReq(w: Stream, id: uint32, ids: seq<Cid>) returns (err: Error)
    modifies w`sent
    ensures w.writeFailure != [] ==> err == Wrap(WritingRequest, w.writeFailure) && w.sent == old(w.sent)
    ensures w.writeFailure == [] ==> err == [] && |w.sent| == |old(w.sent)| + 1 && w.sent[..|old(w.sent)|] == old(w.sent)
    ensures w.writeFailure == [] ==>
              var msg := w.sent[|w.sent| - 1];
              msg == RequestMsg(id, msg.cids) && |msg.cids| == |ids|
              && forall i | 0 <= i < |ids| :: msg.cids[i] == ids[i].bytes
  {
    var req := BuildRequest(id, ids);
    var e := w.Write(req);
    if e != [] {
      return Wrap(WritingRequest, e);
    }
    return [];
  }

  /** The index of the first entry of raw that cid.Cast refuses, or |raw|
      when it accepts them all. */
  function FirstCastFailure(mf: Multiformats, raw: seq<Bytes>): (k: nat)
    ensures k <= |raw|
    ensures forall i | 0 <= i < k :: mf.castFailure(raw[i]) == []
    ensures k < |raw| ==> mf.castFailure(raw[k]) != []
  {
    if raw == [] || mf.castFailure(raw[0]) != [] then 0
    else 1 + FirstCastFailure(mf, raw[1..])
  }

  /** What readBlocksReq does with a message it has read: check the type,
      then cast the CIDs in order into a preallocated slice, stopping at the
      first that does not cast. The slice comes back even then, holding the
      CIDs cast so far and Undef after them, with id 0. */
  method ParseRequest(mf: Multiformats, msg: Msg) returns (id: uint32, ids: seq<Cid>, err: Error)
    ensures msg.kind != REQUEST ==> id == 0 && ids == [] && err == [ErrUnexpectedType]
    ensures msg.kind == REQUEST ==> |ids| == |msg.cids|
    ensures msg.kind == REQUEST ==>
              var k := FirstCastFailure(mf, msg.cids);
              (forall i | 0 <= i < |ids| :: ids[i] == if i <= k then Cast(mf, msg.cids[i]).0 else Undef)
              && (k == |msg.cids| ==> id == msg.id && err == [])
              && (k < |msg.cids| ==> id == 0 && err == Wrap(CastingCid, mf.castFailure(msg.cids[k])))
  {
    if msg.kind != REQUEST {
      return 0, [], [ErrUnexpectedType];
    }
    var l := |msg.cids|;
    if l == 0 {
      return msg.id, [], [];
    }
    var slots := new Cid[l](_ => Undef);
    for i := 0 to l
      invariant forall j | 0 <= j < i :: mf.castFailure(msg.cids[j]) == [] && slots[j] == Cid(msg.cids[j])
      invariant forall j | i <= j < l :: slots[j] == Undef
    {
      var (c, e) := Cast(mf, msg.cids[i]);
      slots[i] := c;
      if e != [] {
        assert FirstCastFailure(mf, msg.cids) == i;
        return 0, slots[..], Wrap(CastingCid, e);
      }
    }
    assert FirstCastFailure(mf, msg.cids) == l;
    return msg.id, slots[..], [];
  }

  /** readBlocksReq. */
  method ReadBlocksReq(r: Stream, mf: Multiformats) returns (id: uint32, ids: seq<Cid>, err: Error)
    modifies r`inbox
    ensures r.inbox == Rest(old(r.inbox))
    ensures old(r.inbox) == [] ==> id == 0 && ids == [] && err == Wrap(ReadingRequest, [EOF])
    ensures old(r.inbox) != [] && old(r.inbox)[0].kind != REQUEST ==>
              id == 0 && ids == [] && err == [ErrUnexpectedType]
    ensures old(r.inbox) != [] && old(r.inbox)[0].kind == REQUEST ==>
              var msg := old(r.inbox)[0];
              var k := FirstCastFailure(mf, msg.cids);
              |ids| == |msg.cids|
              && (forall i | 0 <= i < |ids| :: ids[i] == if i <= k then Cast(mf, msg.cids[i]).0 else Undef)
              && (k == |msg.cids| ==> id == msg.id && err == [])
              && (k < |msg.cids| ==> id == 0 && err == Wrap(CastingCid, mf.castFailure(msg.cids[k])))
  {
    var msg, e := r.Read();
    if e != [] {
      return 0, [], Wrap(ReadingRequest, e);
    }
    id, ids, err := ParseRequest(mf, msg);
  }

  // ---------------------------------------------------------------------
  // Responses

  /** The RESPONSE writeBlocksResp sends: the correlation id, the payload of
      every block in order, and one code for the whole batch. */
  method BuildResponse(id: uint32, bs: seq<Block>, reqErr: Error) returns (msg: Msg)
    ensures msg == ResponseMsg(id, msg.blocks, msg.code)
    ensures IsCodeFor(reqErr, msg.code)
    ensures |msg.blocks| == |bs|
    ensures forall i | 0 <= i < |bs| :: msg.blocks[i] == bs[i].data
  {
    var code := CodeFor(reqErr);
    var raw := new Bytes[|bs|];
    for i := 0 to |bs|
      invariant forall j | 0 <= j < i :: raw[j] == bs[j].data
    {
      raw[i] := bs[i].data;
    }
    msg := ResponseMsg(id, raw[..], code);
  }

  /** writeBlocksResp. */
  method WriteBlocksResp(w: Stream, id: uint32, bs: seq<Block>, reqErr: Error) returns (err: Error)
    modifies w`sent
    ensures w.writeFailure != [] ==> err == Wrap(WritingResponse, w.writeFailure) && w.sent == old(w.sent)
    ensures w.writeFailure == [] ==> err == [] && |w.sent| == |old(w.sent)| + 1 && w.sent[..|old(w.sent)|] == old(w.sent)
    ensures w.writeFailure == [] ==>
              var msg := w.sent[|w.sent| - 1];
              msg == ResponseMsg(id, msg.blocks, msg.code) && IsCodeFor(reqErr, msg.code)
              && |msg.blocks| == |bs| && forall i | 0 <= i < |bs| :: msg.blocks[i] == bs[i].data
  {
    var resp := BuildResponse(id, bs, reqErr);
    var e := w.Write(resp);
    if e != [] {
      return Wrap(WritingResponse, e);
    }
    return [];
  }

  /** readBlocksResp: the id and payloads as they arrived, and the error the
      code stands for, kept apart from the error of the read itself. */
  method ReadBlocksResp(r: Stream) returns (id: uint32, blocks: seq<Bytes>, remoteErr: Error, err: Error)
    modifies r`inbox
    ensures r.inbox == Rest(old(r.inbox))
    ensures old(r.inbox) == [] ==>
              id == 0 && blocks == [] && remoteErr == [] && err == Wrap(ReadingResponse, [EOF])
    ensures old(r.inbox) != [] && old(r.inbox)[0].kind != RESPONSE ==>
              id == 0 && blocks == [] && remoteErr == [] && err == [ErrUnexpectedType]
    ensures old(r.inbox) != [] && old(r.inbox)[0].kind == RESPONSE ==>
              id == old(r.inbox)[0].id && blocks == old(r.inbox)[0].blocks
              && remoteErr == ErrorFor(old(r.inbox)[0].code) && err == []
  {
    var msg, e := r.Read();
    if e != [] {
      return 0, [], [], Wrap(ReadingResponse, e);
    }
    if msg.kind != RESPONSE {
      return 0, [], [], [ErrUnexpectedType];
    }
    return msg.id, msg.blocks, ErrorFor(msg.code), [];
  }

  // ---------------------------------------------------------------------
  // Round trips over two connected streams: what one end sends is what the
  // other end reads.

  /** The handshake between giveHand(t) and takeHand(check). The initiator's
      write does not depend on anything it reads, so its HANDSHAKE is handed
      to the responder first and the responder's reply is then read by the
      initiator: the order in which the two interleave on the wire. Both
      sides succeed with t exactly when the check grants t; otherwise the
      responder reports the check's error and the initiator finds the stream
      closed. */
  method HandshakeOver(t: Token, check: Token -> Error)
    returns (initiatorErr: Error, token: Token, responderErr: Error)
    ensures responderErr == check(t)
    ensures initiatorErr == [] <==> check(t) == []
    ensures check(t) == [] ==> token == t
    ensures check(t) != [] ==> token == "" && initiatorErr == Wrap(ReadingToken, [EOF])
  {
    var probe := new Stream([], []);
    var _ := GiveHand(probe, t);
    var responder := new Stream(probe.sent, []);
    token, responderErr := TakeHand(responder, check);
    var initiator := new Stream(responder.sent, []);
    initiatorErr := GiveHand(initiator, t);
    assert initiator.sent == probe.sent;
  }

  /** A request read back from the stream it was written to gives the same id
      and the same CIDs in the same order, provided every CID is one that
      cid.Cast accepts. */
  method RequestOver(mf: Multiformats, id: uint32, ids: seq<Cid>)
    returns (idOut: uint32, idsOut: seq<Cid>, err: Error)
    requires forall i | 0 <= i < |ids| :: WellFormed(mf, ids[i])
    ensures err == [] && idOut == id && idsOut == ids
  {
    var client := new Stream([], []);
    var _ := WriteBlocksReq(client, id, ids);
    var server := new Stream(client.sent, []);
    var raw := server.inbox[0].cids;
    assert forall i | 0 <= i < |raw| :: mf.castFailure(raw[i]) == [];
    assert FirstCastFailure(mf, raw) == |raw|;
    idOut, idsOut, err := ReadBlocksReq(server, mf);
    assert forall i | 0 <= i < |ids| :: idsOut[i] == Cid(raw[i]) == ids[i];
  }

  /** A response read back from the stream it was written to gives the same
      id and the same payloads in order; the error it carries keeps the
      identity the code can express: nil stays nil, the store's not-found
      error stays not-found, and any other error arrives as unknownError. */
  method ResponseOver(id: uint32, bs: seq<Block>, reqErr: Error)
    returns (idOut: uint32, payloads: seq<Bytes>, remoteErr: Error, err: Error)
    ensures err == [] && idOut == id
    ensures |payloads| == |bs| && forall i | 0 <= i < |bs| :: payloads[i] == bs[i].data
    ensures reqErr in ErrorMap.Values ==> remoteErr == reqErr
    ensures reqErr == [] <==> remoteErr == []
    ensures ErrNotFound in reqErr && ErrUnknown !in reqErr ==> remoteErr == [ErrNotFound]
    ensures reqErr != [] && ErrNotFound !in reqErr ==> remoteErr == [ErrUnknown]
    ensures reqErr != [] ==> remoteErr == [ErrNotFound] || remoteErr == [ErrUnknown]
    ensures Is(remoteErr, [ErrNotFound]) ==> Is(reqErr, [ErrNotFound])
  {
    var server := new Stream([], []);
    var _ := WriteBlocksResp(server, id, bs, reqErr);
    var client := new Stream(server.sent, []);
    var code := server.sent[0].code;
    idOut, payloads, remoteErr, err := ReadBlocksResp(client);
    IsCodeForCases(reqErr, code);
    if reqErr in ErrorMap.Values {
      ErrorForInvertsCodeFor(reqErr, code);
    }
  }
}
