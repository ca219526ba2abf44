# go-blockstream wire protocol, modelled in Dafny

This project models the wire protocol of go-blockstream (`net.go`). Peers use it to fetch
content-addressed blocks over libp2p streams. The model covers four parts:

- **Error codes.** A RESPONSE carries one of three error codes for its whole batch: Null,
  Unknown or NotFound. `codeFor` maps an internal error to a code by searching the table
  `errorMap` with `errors.Is`. `errorFor` maps a code back to the canonical error.
- **Token handshake.** The initiator (`giveHand`) sends a HANDSHAKE carrying its token and
  demands the same token back. The responder (`takeHand`) reads the token and runs the access
  check. It echoes the token only when the check passes.
- **Requests and responses.**
  - `writeBlocksReq` sends a REQUEST holding a correlation id and the binary form of each CID.
  - `readBlocksReq` checks the message type and casts the bytes back to CIDs.
  - `writeBlocksResp` sends a RESPONSE holding the id, the raw payloads and one code.
  - `readBlocksResp` checks the type and returns the id, the payloads and the error for the code.
- **Block integrity.** `newBlockCheckCid` hashes a received payload with the expected CID's
  prefix. It accepts the payload only when the result is the expected CID.

Modules:

- `errors.dfy` (`Errors`): Go errors as chains of identities, `errors.Is`, the code table,
  `CodeFor` and `ErrorFor`.
- `cids.dfy` (`Cids`): bytes, CIDs, blocks, the multiformats collaborators, `Cast` and
  `NewBlockCheckCid`.
- `wire.dfy` (`Wire`): the `pb.BlockStream` record and a `Stream` class.
  - `inbox` holds the messages the peer has sent that are not read yet.
  - `sent` is the log of messages written.
  - When `writeFailure` is not nil, every write fails with that error.
  - A read from an empty inbox fails with `io.EOF`.
- `net.dfy` (`Net`): the handshake, the request and response readers and writers, and three
  round trips over two connected streams. In each round trip, one end's `sent` log becomes the
  other end's `inbox`.

Modelling choices:

- **Errors.** A Go error is the sequence of its chain's identities, outermost first. The
  empty sequence is `nil`. Wrapping with `%w` puts a `Context(op)` link in front.
  `errors.Is(given, target)` holds in two cases: both errors are nil, or the outermost
  link of `target` occurs in the chain of `given`.
- **CIDs.** A CID is what go-cid stores: its binary form. `cid.Cast` either returns the CID
  for those bytes or fails. Whether it fails is given by an uninterpreted function
  `castFailure`. So "the bytes of a CID cast back to that CID" is proved for every CID that
  `cid.Cast` accepts (`Cids.CastInvertsBytes`). It is not assumed for all CIDs.
- **Hashing.** `Cid.Prefix` and `Prefix.Sum` are uninterpreted functions, passed in a
  `Multiformats` value. `Cid.Equals` compares binary forms, so it is `==` on `Cid`.
- **Map order.** Go iterates over a map in an unspecified order. So `CodeFor` picks the next
  table entry with `:|`. When an error's chain holds both canonical errors, either code may
  come back (`Errors.CodeForAmbiguous`).
- **Field defaults.** Message fields a writer leaves unset keep their protobuf zero value.
  The zero error code is taken to be Null.

Points of the code's behaviour worth knowing:

- `codeFor` walks a Go map, so no order is fixed among the table entries. When an error
  matches more than one entry, the model leaves the choice open.
- Only I/O failures and CID cast failures are wrapped with the operation's name
  (`"can't …: %w"`). A message of the wrong type and a handshake token mismatch are
  returned as new errors. The access check's error and the hasher's error are passed on
  unchanged, without wrapping.
- On a CID that fails to cast, `readBlocksReq` still returns its preallocated slice, with id 0.
  The slice holds the CIDs cast so far and `cid.Undef` after them. `Net.ParseRequest` states
  this exactly.

## Model

| member | source | states |
|---|---|---|
| `Errors.CodeFor` | net.go:28-36 | the code returned is one whose table error the given error matches under `errors.Is`, or Unknown when no entry matches, whatever order the map is walked in |
| `Errors.IsCodeForCases` | net.go:22-36 | any code codeFor may return is in the table; it is Null exactly for nil; NotFound only when the chain holds the store's not-found error; NotFound whenever the chain holds that error and not `unknownError`; Unknown for every non-nil error without the not-found error |
| `Errors.ErrorFor` | net.go:38-40 | the error is nil exactly for codes other than Unknown and NotFound, including codes outside the table; it matches the not-found error exactly for NotFound and `unknownError` exactly for Unknown |
| `Errors.ErrorForInvertsCodeFor` | net.go:22-40 | for each canonical error (nil, `unknownError`, `ErrNotFound`), errorFor of any code codeFor may choose gives back that same error |
| `Errors.CodeForInvertsErrorFor` | net.go:22-40 | for each code in the table, codeFor of errorFor(code) can only be that code |
| `Errors.CodeForAmbiguous` | net.go:28-33 | an error whose chain holds both canonical errors may be mapped to NotFound or to Unknown, depending on map iteration order |
| `Cids.Cast` | net.go:134 | a successful cast gives a well-formed CID whose binary form is the input bytes; a failed cast gives `cid.Undef` |
| `Cids.CastInvertsBytes` | net.go:105 | the binary form of a well-formed CID casts back to that CID with no error |
| `Cids.NewBlockCheckCid` | net.go:171-183 | no error exactly when hashing the payload under the expected CID's prefix gives the expected CID, and then the block is the payload keyed by that CID; a hashing failure returns no block and the hasher's error; otherwise the block is keyed by the computed CID, which differs from the expected one, with `ErrWrongHash` |
| `Wire.Stream.Read` | net.go:89-93 | one read consumes the head of the inbox and returns it; on an empty inbox it fails with `io.EOF` and consumes nothing |
| `Wire.Stream.Write` | net.go:80-83 | a write appends exactly the message to the sent log and reports no error, or leaves the log as it was and reports the stream's failure |
| `Net.WriteToken` | net.go:79-86 | on a working stream exactly one HANDSHAKE with the token is appended; on a broken one nothing is written and the failure comes back wrapped |
| `Net.ReadToken` | net.go:88-100 | one message is consumed; a HANDSHAKE yields its token and no error; another type yields the placeholder "nil" and an unexpected-type error; a failed read yields "" and the wrapped read error |
| `Net.GiveHand` | net.go:42-58 | succeeds exactly when the write works and the reply is a HANDSHAKE carrying the token sent; the one message written is that HANDSHAKE; when the write fails nothing is read; a failed read, another message type or another token each give their own error |
| `Net.TakeHand` | net.go:60-77 | succeeds exactly when the first message is a HANDSHAKE whose token passes the check and the echo can be written; then exactly one HANDSHAKE echoing that token is written and the token is returned; on any failure nothing is written and "" is returned; the check's own refusal is passed on unchanged, and a failed echo gives the wrapped write error |
| `Net.BuildRequest` | net.go:102-106 | the REQUEST carries the id and, position by position, the binary form of every CID |
| `Net.WriteBlocksReq` | net.go:102-114 | on a working stream exactly one such REQUEST is appended to what was sent; on a broken one nothing is written and the failure comes back wrapped |
| `Net.FirstCastFailure` | net.go:132-138 | the index of the first entry `cid.Cast` refuses: every earlier entry casts, and the entry at the index does not, unless the index is the length |
| `Net.ParseRequest` | net.go:123-140 | a message that is not a REQUEST gives id 0, no CIDs and an unexpected-type error; a REQUEST gives one slot per entry, the cast CIDs up to the first failure and Undef after it; all casts succeeding give the message's id and no error, an empty list included; a failure gives id 0 and the wrapped cast error |
| `Net.ReadBlocksReq` | net.go:116-141 | consumes one message and returns what ParseRequest states for it; a failed read gives id 0, no CIDs and the wrapped read error |
| `Net.BuildResponse` | net.go:143-147 | the RESPONSE carries the id, every block's raw payload in order, and a code codeFor may choose for the request's error |
| `Net.WriteBlocksResp` | net.go:143-155 | on a working stream exactly one such RESPONSE is appended to what was sent; on a broken one nothing is written and the failure comes back wrapped |
| `Net.ReadBlocksResp` | net.go:157-169 | consumes one message; a RESPONSE yields its id and payloads unchanged and errorFor of its code, with no read error; another type yields an unexpected-type error; a failed read yields the wrapped read error |
| `Net.HandshakeOver` | net.go:42-77 | giveHand(t) against takeHand(check) over connected streams: both succeed, the responder returning t, exactly when the check grants t; otherwise the responder returns the check's error and the initiator's read fails on the closed stream |
| `Net.RequestOver` | net.go:102-141 | a request written and read back over connected streams gives the same id and the same CIDs in the same order with no error, when every CID is well-formed |
| `Net.ResponseOver` | net.go:143-169 | a response written and read back over connected streams gives the same id and payloads in order; the remote error is nil exactly when the request's error was nil, equals each canonical error, stays not-found for a not-found error without `unknownError`, and is `unknownError` for any other non-nil error |

## Left out

- `blockstream.go` (the endpoint, its session and sender registries, the stream handler,
  `Close`) is not part of this model. It is lifecycle and shutdown plumbing built on
  goroutines, mutexes and wait groups.
- The collector, request cursor, session and sender are not part of this model. They live
  outside `net.go` and are scheduling and concurrency: a background batch scheduler,
  blocking cursors, and fan-out over goroutines with deduplication.
- Framing and protobuf encoding (`serde.Read`, `serde.Write`, `pb.BlockStream` marshalling)
  are not modelled. A whole message is one read or one write on `Wire.Stream`.
- Transport errors are not modelled in detail. A failed read is always `io.EOF` on an empty
  inbox, and a failed write is a fixed per-stream error.
- The internals of go-cid and go-multihash (`cid.Cast` parsing, `Prefix`, `Sum`) are left as
  uninterpreted functions in `Cids.Multiformats`.
- The access check is a pure function from token to error. The `done` error channel it sets
  up in `blockstream.go` and the peer identity it receives are left out, because they belong
  to the caller and to concurrency.
- The `maxMsgSize` constant is not modelled. It is declared in `net.go` and used only by the
  sender.
- Error message text is not modelled. Only error identity is kept, including what `%w`
  wrapping preserves.
- Net.HandshakeOver: the two ends of a handshake run concurrently in the program. The model
  runs them in sequence. The initiator's first message does not depend on anything it reads,
  so this is the only order that matters. It is obtained by running the initiator once on a
  stream with nothing to read, to capture that message. When the check refuses, the model
  assumes the responder's side closes the stream, so the initiator's read fails with
  `io.EOF`. In the program that close happens, if at all, in code outside `net.go`. A read
  that blocks forever on an open stream whose peer never writes is not represented.
