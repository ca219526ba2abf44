/** Error identities, Go's errors.Is over them, and the table that maps
    errors to the three error codes a RESPONSE can carry (net.go). */
module Errors {

  /** The identity of one link in a Go error chain. */
  datatype ErrorId =
    | ErrNotFound        // blockstore.ErrNotFound: the store holds no block for a CID
    | ErrUnknown         // unknownError: a failure the remote peer did not name
    | ErrWrongHash       // blocks.ErrWrongHash: a payload does not hash to the expected CID
    | ErrTokenMismatch   // the handshake reply carried another token than the one sent
    | ErrUnexpectedType  // a message whose type does not fit the protocol phase
    | EOF                // io.EOF: the peer closed its end of the stream
    | Context(op: Op)    // a "can't <op>: %w" wrapper around the links that follow it
    | Foreign(tag: nat)  // an error of a collaborator: transport, CID parser, hasher, access policy

  /** The operations whose failures net.go wraps with their name. */
  datatype Op =
    | WritingToken | ReadingToken
    | WritingRequest | ReadingRequest | CastingCid
    | WritingResponse | ReadingResponse

  /** A Go error as its chain, outermost link first; the empty chain is nil. */
  type Error = seq<ErrorId>

  /** fmt.Errorf("can't <op>: %w", inner). */
  function Wrap(op: Op, inner: Error): Error
  {
    [Context(op)] + inner
  }

  /** errors.Is: a nil target matches only nil; any other target is identified
      by its outermost link, which must occur in the chain of given. */
  predicate Is(given: Error, target: Error)
  {
    if target == [] then given == [] else target[0] in given
  }

  /** pb.BlockStream_ErrorCode. An enumeration value outside the three named
      ones can arrive off the wire; it is kept as OtherCode, whose value is
      never the number of Null, Unknown or NotFound. */
  datatype Code = Null | Unknown | NotFound | OtherCode(value: int)

  /** errorMap: each code and its canonical error. */
  const ErrorMap: map<Code, Error> :=
    map[Null := [], Unknown := [ErrUnknown], NotFound := [ErrNotFound]]

  /** The codes codeFor may return for given: one whose canonical error given
      matches, or Unknown when none matches. Go iterates over a map in an
      unspecified order, so when several entries match each is possible. */
  ghost predicate IsCodeFor(given: Error, code: Code)
  {
    (code in ErrorMap && Is(given, ErrorMap[code]))
    || (code == Unknown && forall c | c in ErrorMap :: !Is(given, ErrorMap[c]))
  }

  /** codeFor: an early-return search over errorMap, in whatever order the
      map yields its entries. */
  method CodeFor(given: Error) returns (code: Code)
    ensures IsCodeFor(given, code)
  {
    var pending := ErrorMap.Keys;
    while pending != {}
      invariant pending <= ErrorMap.Keys
      invariant forall c | c in ErrorMap && c !in pending :: !Is(given, ErrorMap[c])
      decreases pending
    {
      var c :| c in pending;
      if Is(given, ErrorMap[c]) {
        return c;
      }
      pending := pending - {c};
    }
    return Unknown;
  }

  /** What any code codeFor may choose says about the error it came from. */
  lemma IsCodeForCases(given: Error, code: Code)
    requires IsCodeFor(given, code)
    ensures code in ErrorMap
    ensures code == Null <==> given == []
    ensures code == NotFound ==> ErrNotFound in given
    ensures ErrNotFound in given && ErrUnknown !in given ==> code == NotFound
    ensures given != [] && ErrNotFound !in given ==> code == Unknown
  {
    assert Null in ErrorMap && NotFound in ErrorMap;
  }

  /** errorFor: a direct lookup; a code missing from the table yields the
      map's zero value, nil. */
  function ErrorFor(code: Code): (e: Error)
    ensures e == [] <==> code != Unknown && code != NotFound
    ensures Is(e, [ErrNotFound]) <==> code == NotFound
    ensures Is(e, [ErrUnknown]) <==> code == Unknown
  {
    if code in ErrorMap then ErrorMap[code] else []
  }

  /** Mapping a canonical error to a code and back gives the same error. */
  lemma ErrorForInvertsCodeFor(given: Error, code: Code)
    requires given in ErrorMap.Values
    requires IsCodeFor(given, code)
    ensures ErrorFor(code) == given
  {
  }

  /** Every code of the table is the only code its own error maps back to. */
  lemma CodeForInvertsErrorFor(code: Code, other: Code)
    requires code in ErrorMap
    ensures IsCodeFor(ErrorFor(code), other) <==> other == code
  {
  }

  /** An error that holds both canonical errors may be sent as either code:
      the choice rests on Go's map iteration order. */
  lemma CodeForAmbiguous(given: Error)
    requires ErrNotFound in given && ErrUnknown in given
    ensures IsCodeFor(given, NotFound) && IsCodeFor(given, Unknown)
  {
  }
}
