/**
 * One run of a sync handler: the two fetches, the delta, the short-circuit
 * on an empty delta, the single POST and the JSON envelope, with every
 * thrown error caught into the uniform failure envelope.
 *
 * The HTTP calls are inputs: the awaited result of each GET, and the reply
 * the destination would give to a POST of a given payload. The run reports
 * the calls it issued, in order.
 */
module SyncRun {
  import opened Js
  import opened Wrappers
  import opened Failures
  import opened Delta

  /**
   * A fetched payload as the handler reads it (`data?.data` from the source,
   * `data` from the destination): an array of records, or any other
   * JavaScript value, `undefined` when the field is missing.
   */
  datatype Payload<T> = Arr(elems: seq<T>) | Value(v: JsValue)

  /**
   * `payload || []`: an array (always truthy) stands for its records, a falsy
   * value for no records; a truthy value that is not an array stands for
   * none, since the `.map` or `.filter` called on it throws.
   */
  function Records<T>(b: Payload<T>): (r: Option<seq<T>>)
    ensures b.Arr? ==> r == Some(b.elems)
    ensures b.Value? ==> (r.Some? <==> b.v in Falsy) && (r.Some? ==> r.value == [])
  {
    match b
    case Arr(elems) => Some(elems)
    case Value(v) => if Truthy(v) then None else Some([])
  }

  /** Every falsy payload, and only a falsy one among the non-arrays, reads as the empty sequence. */
  lemma FalsyPayloadIsEmpty<T>()
    ensures forall v | v in Falsy :: Records<T>(Value(v)) == Some([])
    ensures forall v | v !in Falsy :: Records<T>(Value(v)) == None
  {
  }

  /** The fixed texts of one handler. */
  datatype Labels = Labels(
    countField: string,      // name of the count in the success envelope
    nothingNew: string,      // message of the "nothing new" envelope
    failed: string,          // message of the failure envelope
    destNotArray: string,    // TypeError message of `.map` on a non-array destination payload
    sourceNotArray: string)  // TypeError message of `.filter` on a non-array source payload

  /** What distinguishes the two handlers: the id fields on either side, the record mapping and the texts. */
  datatype Pipeline<!S, !D> = Pipeline(sourceKey: S -> int, destKey: D -> int, toDest: S -> D, labels: Labels)

  /** The JSON body sent back to the caller. */
  datatype Envelope =
    | NothingNew(message: string)
    | Synced(countField: string, count: nat, destinationReply: JsValue)
    | Failed(message: string, error: string)
  {
    function Success(): bool { !Failed? }

    /** `res.json` answers 200; the catch block sets 500. */
    function Status(): int { if Failed? then 500 else 200 }
  }

  /** An HTTP call the handler issues. */
  datatype Call<D> = GetSource | GetDestination | Post(payload: seq<D>)

  /** What a run did: the calls it issued, the envelope, and the diagnostic branch it logged on failure. */
  datatype Outcome<D> = Outcome(calls: seq<Call<D>>, body: Envelope, diagnostic: Option<ErrorKind>)

  /** The catch block: every failure gets the same envelope, carrying only the error's message. */
  function Abort<S, D>(p: Pipeline<S, D>, calls: seq<Call<D>>, e: Failure): (o: Outcome<D>)
    ensures o.calls == calls
    ensures o.body == Failed(p.labels.failed, e.message) && o.body.Status() == 500
    ensures o.diagnostic == Some(Classify(e))
  {
    Outcome(calls, Failed(p.labels.failed, e.message), Some(Classify(e)))
  }

  /** The records a run would write, given both payloads. */
  function Pending<S, D>(p: Pipeline<S, D>, src: seq<S>, dest: seq<D>): seq<D> {
    NewRecords(src, dest, p.sourceKey, p.destKey, p.toDest)
  }

  /** A body from which the handler can compute a delta. */
  predicate Usable<T>(r: Result<Payload<T>, Failure>) {
    r.Ok? && Records(r.value).Some?
  }

  /** One invocation of a handler. */
  function Sync<S, D>(p: Pipeline<S, D>,
                      source: Result<Payload<S>, Failure>,
                      dest: Result<Payload<D>, Failure>,
                      reply: seq<D> -> Result<JsValue, Failure>): (o: Outcome<D>)
    ensures 1 <= |o.calls| <= 3 && o.calls[0] == GetSource
    ensures forall i | 0 <= i < |o.calls| && o.calls[i].Post? :: i == |o.calls| - 1
    ensures o.body.Failed? <==> o.diagnostic.Some?
    ensures o.body.Success() <==> o.diagnostic.None?
    ensures o.body.Failed? ==> o.body.message == p.labels.failed
  {
    if source.Err? then Abort(p, [GetSource], source.error)
    else if dest.Err? then Abort(p, [GetSource, GetDestination], dest.error)
    else if Records(dest.value).None? then
      Abort(p, [GetSource, GetDestination], OtherFailure(p.labels.destNotArray))
    else if Records(source.value).None? then
      Abort(p, [GetSource, GetDestination], OtherFailure(p.labels.sourceNotArray))
    else
      var delta := Pending(p, Records(source.value).value, Records(dest.value).value);
      if |delta| == 0 then
        Outcome([GetSource, GetDestination], NothingNew(p.labels.nothingNew), None)
      else
        var calls := [GetSource, GetDestination, Post(delta)];
        match reply(delta)
        case Err(e) => Abort(p, calls, e)
        case Ok(ack) => Outcome(calls, Synced(p.labels.countField, |delta|, ack), None)
  }

  /**
   * The short-circuit: with both payloads in hand, an empty delta ends the run
   * with "nothing new" and no POST; a non-empty one is sent whole in exactly
   * one POST, and a successful reply reports its length, at most the number
   * of source records.
   */
  lemma ShortCircuit<S, D>(p: Pipeline<S, D>,
                           source: Result<Payload<S>, Failure>,
                           dest: Result<Payload<D>, Failure>,
                           reply: seq<D> -> Result<JsValue, Failure>)
    requires Usable(source) && Usable(dest)
    ensures var src := Records(source.value).value;
            var delta := Pending(p, src, Records(dest.value).value);
            var o := Sync(p, source, dest, reply);
            && (delta == [] ==> o == Outcome([GetSource, GetDestination], NothingNew(p.labels.nothingNew), None))
            && (delta != [] ==> o.calls == [GetSource, GetDestination, Post(delta)])
            && (delta != [] && reply(delta).Ok? ==>
                  o.body == Synced(p.labels.countField, |delta|, reply(delta).value) && |delta| <= |src|)
            && (delta != [] && reply(delta).Err? ==> o == Abort(p, o.calls, reply(delta).error))
  {
  }

  /** No POST without a delta: whatever the inputs, a POST carries the run's non-empty delta. */
  lemma PostCarriesDelta<S, D>(p: Pipeline<S, D>,
                               source: Result<Payload<S>, Failure>,
                               dest: Result<Payload<D>, Failure>,
                               reply: seq<D> -> Result<JsValue, Failure>,
                               payload: seq<D>)
    requires Post(payload) in Sync(p, source, dest, reply).calls
    ensures Usable(source) && Usable(dest)
    ensures payload == Pending(p, Records(source.value).value, Records(dest.value).value) && payload != []
  {
  }

  /**
   * A missing or otherwise falsy payload is an empty one, never an error: a
   * falsy destination payload behaves as an empty array, and a falsy source
   * payload yields "nothing new" with no POST whenever the destination fetch
   * yields an array or a falsy payload.
   */
  lemma MissingPayload<S, D>(p: Pipeline<S, D>,
                             source: Result<Payload<S>, Failure>,
                             dest: Result<Payload<D>, Failure>,
                             reply: seq<D> -> Result<JsValue, Failure>,
                             v: JsValue)
    requires v in Falsy
    ensures Sync(p, source, Ok(Value(v)), reply) == Sync(p, source, Ok(Arr([])), reply)
    ensures Usable(dest) ==>
              Sync(p, Ok(Value(v)), dest, reply) == Outcome([GetSource, GetDestination], NothingNew(p.labels.nothingNew), None)
  {
    FalsyPayloadIsEmpty<D>();
    FalsyPayloadIsEmpty<S>();
  }

  /**
   * Every failure ends the run at the call that failed, with status 500 and
   * the same envelope whatever its diagnostic branch: a failed source fetch
   * issues nothing more, a failed destination fetch or a truthy payload that is not an array
   * issues no POST.
   */
  lemma FailureAborts<S, D>(p: Pipeline<S, D>,
                            source: Result<Payload<S>, Failure>,
                            dest: Result<Payload<D>, Failure>,
                            reply: seq<D> -> Result<JsValue, Failure>)
    ensures source.Err? ==> Sync(p, source, dest, reply) == Abort(p, [GetSource], source.error)
    ensures source.Ok? && dest.Err? ==>
              Sync(p, source, dest, reply) == Abort(p, [GetSource, GetDestination], dest.error)
    ensures source.Ok? && Usable(dest) && Records(source.value).None? ==>
              Sync(p, source, dest, reply) ==
              Abort(p, [GetSource, GetDestination], OtherFailure(p.labels.sourceNotArray))
    ensures source.Ok? && dest.Ok? && Records(dest.value).None? ==>
              Sync(p, source, dest, reply) ==
              Abort(p, [GetSource, GetDestination], OtherFailure(p.labels.destNotArray))
  {
  }

  /** The failure envelope depends on the error's message only, not on which kind of error it was. */
  lemma FailureEnvelopeUniform<S, D>(p: Pipeline<S, D>, calls: seq<Call<D>>, e1: Failure, e2: Failure)
    requires e1.message == e2.message
    ensures Abort(p, calls, e1).body == Abort(p, calls, e2).body
  {
  }

  /**
   * Idempotence of a whole run: once the destination holds what a run would
   * post, a second run against the same source finds nothing new and issues
   * no POST.
   */
  lemma SecondRunIsNoOp<S(!new), D>(p: Pipeline<S, D>, src: seq<S>, dest: seq<D>,
                                    reply: seq<D> -> Result<JsValue, Failure>)
    requires KeepsKey(p.sourceKey, p.destKey, p.toDest)
    ensures Sync(p, Ok(Arr(src)), Ok(Arr(dest + Pending(p, src, dest))), reply) ==
            Outcome([GetSource, GetDestination], NothingNew(p.labels.nothingNew), None)
  {
    SyncTwiceFindsNothing(src, dest, p.sourceKey, p.destKey, p.toDest);
  }
}
