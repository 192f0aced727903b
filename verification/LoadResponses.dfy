/**
 The load generator's consumer against the responses of the protocol.
 */
module LoadResponses {
  import opened Bytes
  import opened Frames
  import opened Responses
  import LoadBuffers

  /**
   The consumer takes the header of every response a server can state within the cap, and of an OK,
   NULL, VALUE or ERROR code no other.
   */
  lemma HeaderAccepted(f: RawFrame)
    ensures (exists r :: ResponseFrame(r) == Option.Some(f)) && |f.payload| <= MAX_PAYLOAD ==>
              !LoadBuffers.BadHeader(f.code, |f.payload|)
    ensures !LoadBuffers.BadHeader(f.code, |f.payload|) && f.code != EVENT ==>
              |f.payload| <= MAX_PAYLOAD && exists r :: ResponseFrame(r) == Option.Some(f)
  {
    hide EventPayload;
    if !LoadBuffers.BadHeader(f.code, |f.payload|) && f.code != EVENT {
      var r := match f.code
        case 0 => Ok
        case 1 => Value(f.payload)
        case 2 => Null
        case _ => Error(FromServer(f.payload));
      assert ResponseFrame(r) == Option.Some(f);
    }
  }
}
