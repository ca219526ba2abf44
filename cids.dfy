/** Content identifiers, blocks and the integrity check a received payload
    must pass (newBlockCheckCid in net.go). The multiformats library behind
    cid.Cast, Cid.Prefix and Prefix.Sum is left uninterpreted. */
module Cids {
  import opened Errors

  datatype Option<T> = None | Some(value: T)

  newtype byte = b: int | 0 <= b < 256

  type Bytes = seq<byte>

  /** A CID as go-cid keeps it: its binary form, which Cid.Bytes returns. */
  datatype Cid = Cid(bytes: Bytes)

  /** cid.Undef, what cid.Cast returns with an error. */
  const Undef := Cid([])

  /** cid.Prefix: version, codec, multihash type and length. The model never
      looks inside a prefix; it only passes one from Cid.Prefix to Prefix.Sum. */
  datatype Prefix = Prefix(version: nat, codec: nat, mhType: nat, mhLength: int)

  /** The multiformats collaborators. */
  datatype Multiformats = Multiformats(
    castFailure: Bytes -> Error,          // the error cid.Cast reports for these bytes, nil when they are one whole CID
    prefix: Cid -> Prefix,                // Cid.Prefix
    sum: (Prefix, Bytes) -> (Cid, Error)) // Prefix.Sum: hash a payload and build the CID of the digest

  /** A CID that cid.Cast accepts, as every CID built by parsing or hashing is. */
  predicate WellFormed(mf: Multiformats, c: Cid)
  {
    mf.castFailure(c.bytes) == []
  }

  /** cid.Cast: bytes that parse give the CID whose binary form they are. */
  function Cast(mf: Multiformats, b: Bytes): (r: (Cid, Error))
    ensures r.1 == [] ==> r.0.bytes == b && WellFormed(mf, r.0)
    ensures r.1 != [] ==> r.0 == Undef
  {
    if mf.castFailure(b) == [] then (Cid(b), []) else (Undef, mf.castFailure(b))
  }

  /** A well-formed CID survives the trip to bytes and back. */
  lemma CastInvertsBytes(mf: Multiformats, c: Cid)
    requires WellFormed(mf, c)
    ensures Cast(mf, c.bytes) == (c, [])
  {
  }

  /** blocks.BasicBlock: a payload and the CID it is stored under. */
  datatype Block = Block(data: Bytes, cid: Cid)

  /** The block invariant: rehashing the payload under its CID's own prefix
      gives back that CID. */
  ghost predicate Intact(mf: Multiformats, b: Block)
  {
    mf.sum(mf.prefix(b.cid), b.data) == (b.cid, [])
  }

  /** newBlockCheckCid: hash the payload with the prefix of the expected CID;
      a hashing failure is passed on with no block; otherwise the block is
      keyed by the computed CID, with ErrWrongHash when that is not the
      expected one. */
  function NewBlockCheckCid(mf: Multiformats, data: Bytes, expected: Cid): (r: (Option<Block>, Error))
    ensures r.1 == [] <==> Intact(mf, Block(data, expected))
    ensures r.1 == [] ==> r.0 == Some(Block(data, expected))
    ensures mf.sum(mf.prefix(expected), data).1 != [] ==> r == (None, mf.sum(mf.prefix(expected), data).1)
    ensures r.0 == None ==> r.1 != [] && r.1 == mf.sum(mf.prefix(expected), data).1
    ensures r.0.Some? ==> r.0.value.data == data && r.0.value.cid == mf.sum(mf.prefix(expected), data).0
    ensures r.0.Some? && r.1 != [] ==> r.1 == [ErrWrongHash] && r.0.value.cid != expected
  {
    var (actual, err) := mf.sum(mf.prefix(expected), data);
    if err != [] then (None, err)
    else if actual != expected then (Some(Block(data, actual)), [ErrWrongHash])
    else (Some(Block(data, actual)), [])
  }
}
