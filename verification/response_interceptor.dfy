/** ResponseInterceptor: the last stage of a cached call. It filters the wrappers produced
    by the cache and network layers by freshness and finality, substitutes one synthetic
    empty wrapper when none is left, and turns each remaining wrapper into what the caller
    receives: the response (with cache metadata attached when the response can hold it),
    an empty completion, or an error. The finalised metadata of every intercepted wrapper
    is published before that choice is made.

    The reactive stream becomes a sequence: `Apply` returns one step per intercepted
    wrapper, in order, holding the metadata value published and the outcome delivered. As
    with flatMap, the first error ends the stream, so nothing after it is intercepted.
 */
module ResponseInterceptor {
  import opened Wrappers
  import opened Instructions
  import opened CacheExceptions

  /** CacheMetadata.Duration: milliseconds spent on disk, on the network, and in total. */
  datatype CallDuration = CallDuration(disk: int, network: int, total: int)

  /** The cause of an upstream error. EmptyResponseException marks "there was no data"
      rather than a failure. */
  datatype ErrorCause = EmptyResponseException | OtherCause(description: string)

  /** The upstream error type carried in metadata. */
  datatype UpstreamError = UpstreamError(description: string, cause: Option<ErrorCause>)

  /** CacheMetadata: the token of the call, the upstream error if any, and the timings. */
  datatype Metadata = Metadata(cacheToken: CacheToken, exception: Option<UpstreamError>, callDuration: CallDuration)

  /** A response object. `isHolder`: its class implements CacheMetadata.Holder, so it has
      a metadata field that can be set. `isThrowable`: the object is itself a Throwable. */
  datatype Response = Response(ref: nat, isHolder: bool, isThrowable: bool, metadata: Option<Metadata>)

  /** ResponseWrapper: what the cache and network layers produce for one emission. */
  datatype ResponseWrapper = ResponseWrapper(responseClass: ClassRef, response: Option<Response>, metadata: Metadata)

  /** The Throwables the interceptor can deliver. */
  datatype DeliveredError =
    | MetadataFailure(exception: CacheException)
    | UpstreamFailure(upstream: UpstreamError)
    | IllegalState(message: string)
    | ThrownResponse(thrown: Response)

  /** What one intercepted wrapper becomes for the caller. */
  datatype Outcome = Emit(response: Response) | Empty | Error(failure: DeliveredError)

  /** EmptyResponseFactory: the substitute wrapper for a token, and a zero value of a
      response class (which may not exist). */
  datatype EmptyResponseFactory = EmptyResponseFactory(
    emptyResponseWrapper: CacheToken -> ResponseWrapper,
    create: (bool, ClassRef) -> Option<Response>)

  /** The constructor arguments of ResponseInterceptor that its decisions depend on. */
  datatype Interceptor = Interceptor(
    emptyResponseFactory: EmptyResponseFactory,
    configuration: CacheConfiguration,
    instructionToken: CacheToken,
    isSingle: bool,
    isCompletable: bool,
    start: int,
    mergeOnNextOnError: bool)

  /** One intercepted wrapper: the metadata published for it and the outcome delivered. */
  datatype Step = Step(published: Metadata, outcome: Outcome)

  // ---------------------------------------------------------------------------
  // Step 1: the freshness and finality filter

  /** responseFilter. The operation comes from the interceptor's instruction token, the
      status from the wrapper's own token. */
  function ResponseFilter(ri: Interceptor, wrapper: ResponseWrapper): (r: bool)
    ensures !ri.instructionToken.instruction.operation.IsExpiring() ==> r
    ensures ri.instructionToken.instruction.operation.IsExpiring() ==>
              var operation := ri.instructionToken.instruction.operation;
              var status := wrapper.metadata.cacheToken.status;
              (r <==>
                 (status.isFresh || !operation.freshOnly)
                 && (status.isFinal || !operation.filterFinal)
                 && (ri.isSingle ==>
                       status.isFinal || (ri.configuration.allowNonFinalForSingle && !operation.filterFinal)))
  {
    var status := wrapper.metadata.cacheToken.status;
    var operation := ri.instructionToken.instruction.operation;
    if operation.IsExpiring() then
      var filterFresh := status.isFresh || !operation.freshOnly;
      var filterFinal := status.isFinal || !operation.filterFinal;
      if filterFresh && filterFinal then
        if ri.isSingle then status.isFinal || (ri.configuration.allowNonFinalForSingle && !operation.filterFinal)
        else true
      else false
    else true
  }

  /** A single-result caller never receives a non-final emission of an Expiring operation
      unless non-final emissions are allowed for singles and the operation does not
      filter them. */
  lemma SingleSeesNonFinalOnlyWhenAllowed(ri: Interceptor, wrapper: ResponseWrapper)
    requires ri.isSingle && ri.instructionToken.instruction.operation.IsExpiring()
    requires !wrapper.metadata.cacheToken.status.isFinal
    ensures ResponseFilter(ri, wrapper) ==>
              ri.configuration.allowNonFinalForSingle && !ri.instructionToken.instruction.operation.filterFinal
  {
  }

  /** `upstream.filter(responseFilter)`: the passing wrappers, in upstream order. */
  function FilterUpstream(ri: Interceptor, upstream: seq<ResponseWrapper>): (r: seq<ResponseWrapper>)
    ensures |r| <= |upstream|
    ensures forall i :: 0 <= i < |r| ==> r[i] in upstream && ResponseFilter(ri, r[i])
    ensures forall w :: w in upstream && ResponseFilter(ri, w) ==> w in r
    ensures !ri.instructionToken.instruction.operation.IsExpiring() ==> r == upstream
  {
    if |upstream| == 0 then []
    else
      (if ResponseFilter(ri, upstream[0]) then [upstream[0]] else [])
      + FilterUpstream(ri, upstream[1..])
  }

  /** The filter works emission by emission: filtering a concatenation filters each part. */
  lemma {:induction false} FilterUpstreamAppend(ri: Interceptor, a: seq<ResponseWrapper>, b: seq<ResponseWrapper>)
    ensures FilterUpstream(ri, a + b) == FilterUpstream(ri, a) + FilterUpstream(ri, b)
  {
    if |a| == 0 {
      assert a + b == b;
    } else {
      assert (a + b)[0] == a[0];
      assert (a + b)[1..] == a[1..] + b;
      FilterUpstreamAppend(ri, a[1..], b);
    }
  }

  // ---------------------------------------------------------------------------
  // Step 2: the empty fallback

  /** `switchIfEmpty`: what reaches `intercept`. */
  function SwitchIfEmpty(ri: Interceptor, passed: seq<ResponseWrapper>): seq<ResponseWrapper>
  {
    if |passed| == 0 then [ri.emptyResponseFactory.emptyResponseWrapper(ri.instructionToken)] else passed
  }

  // ---------------------------------------------------------------------------
  // Steps 3 to 6: intercept

  /** The mergeOnNextOnError that applies to a wrapper: its own operation's flag when that
      operation is Expiring and sets it, the interceptor's flag otherwise. */
  function EffectiveMergeOnNextOnError(ri: Interceptor, wrapper: ResponseWrapper): (r: bool)
    ensures var operation := wrapper.metadata.cacheToken.instruction.operation;
      && (operation.IsExpiring() && operation.mergeOnNextOnError.Some? ==> r == operation.mergeOnNextOnError.value)
      && (!operation.IsExpiring() || operation.mergeOnNextOnError.None? ==> r == ri.mergeOnNextOnError)
  {
    var operation := wrapper.metadata.cacheToken.instruction.operation;
    if operation.IsExpiring() then operation.mergeOnNextOnError.OrElse(ri.mergeOnNextOnError)
    else ri.mergeOnNextOnError
  }

  /** The wrapper's metadata with the total call duration set to `now - start`. */
  function Finalise(ri: Interceptor, metadata: Metadata, now: int): Metadata
  {
    metadata.(callDuration := metadata.callDuration.(total := now - ri.start))
  }

  const METADATA_ERROR_PREFIX := "Could not add cache metadata to response '"
  const METADATA_ERROR_SUFFIX :=
    "'. If you want to enable metadata for this class, it needs extend the 'CacheMetadata.Holder' interface."
    + " The 'mergeOnNextOnError' directive will be cause an exception to be thrown for classes"
    + " that do not support cache metadata."

  /** checkForError: a METADATA error exactly when the call is not a Completable and
      mergeOnNextOnError is in force. */
  function CheckForError(ri: Interceptor, responseClass: ClassRef, mergeOnNextOnError: bool)
    : (r: Option<CacheException>)
    ensures r.Some? <==> !ri.isCompletable && mergeOnNextOnError
    ensures r.Some? ==> r.value.kind == METADATA
  {
    if !ri.isCompletable && mergeOnNextOnError then
      Some(CacheException(METADATA, METADATA_ERROR_PREFIX + responseClass.simpleName + METADATA_ERROR_SUFFIX))
    else None
  }

  /** The METADATA error names the response class that cannot hold metadata. */
  lemma CheckForErrorNamesClass(ri: Interceptor, responseClass: ClassRef, mergeOnNextOnError: bool)
    requires !ri.isCompletable && mergeOnNextOnError
    ensures var r := CheckForError(ri, responseClass, mergeOnNextOnError);
      r.Some? && Mentions(r.value.message, responseClass.simpleName)
  {
    MentionsMiddle(METADATA_ERROR_PREFIX, responseClass.simpleName, METADATA_ERROR_SUFFIX);
  }

  /** The result of addMetadataIfPossible: the error it returns, and the response object
      afterwards (the same object, its metadata field possibly set). */
  datatype Attachment = Attachment(error: Option<CacheException>, response: Response)

  /** addMetadataIfPossible. */
  function AddMetadataIfPossible(ri: Interceptor, response: Response, responseClass: ClassRef,
                                 metadata: Metadata, mergeOnNextOnError: bool): (r: Attachment)
    ensures r.response.ref == response.ref
    ensures ri.isCompletable ==> r == Attachment(None, response)
    ensures !ri.isCompletable && response.isHolder ==>
              r.error.None? && r.response == response.(metadata := Some(metadata))
    ensures !ri.isCompletable && !response.isHolder ==>
              r.response == response && (r.error.Some? <==> mergeOnNextOnError)
              && (r.error.Some? ==> r.error.value.kind == METADATA)
  {
    if !ri.isCompletable then
      if !response.isHolder then Attachment(CheckForError(ri, responseClass, mergeOnNextOnError), response)
      else Attachment(None, response.(metadata := Some(metadata)))
    else Attachment(None, response)
  }

  /** The response `intercept` works with: the wrapper's own, else a zero value from the
      factory. */
  function ResolvedResponse(ri: Interceptor, wrapper: ResponseWrapper): Option<Response>
  {
    if wrapper.response.Some? then wrapper.response
    else ri.emptyResponseFactory.create(EffectiveMergeOnNextOnError(ri, wrapper), wrapper.responseClass)
  }

  /** intercept: the metadata published for a wrapper and the single outcome delivered. */
  function Intercept(ri: Interceptor, wrapper: ResponseWrapper, now: int): (r: Step)
    // the published metadata is the wrapper's, with only the total duration finalised
    ensures r.published.cacheToken == wrapper.metadata.cacheToken
    ensures r.published.exception == wrapper.metadata.exception
    ensures r.published.callDuration ==
              CallDuration(wrapper.metadata.callDuration.disk, wrapper.metadata.callDuration.network, now - ri.start)
  {
    var mergeOnNextOnError := EffectiveMergeOnNextOnError(ri, wrapper);
    var metadata := Finalise(ri, wrapper.metadata, now);
    var response := ResolvedResponse(ri, wrapper);
    var outcome :=
      if response.None? then
        match CheckForError(ri, wrapper.responseClass, mergeOnNextOnError)
        case Some(e) => Error(MetadataFailure(e))
        case None =>
          match metadata.exception
          case Some(upstream) => Error(UpstreamFailure(upstream))
          case None => Error(IllegalState("Something went wrong"))
      else
        var attached := AddMetadataIfPossible(ri, response.value, wrapper.responseClass, metadata, mergeOnNextOnError);
        if attached.error.Some? then Error(MetadataFailure(attached.error.value))
        else if attached.response.isThrowable then Error(ThrownResponse(attached.response))
        else if ri.isCompletable && metadata.exception.Some? then
          if metadata.exception.value.cause == Some(EmptyResponseException) then Empty
          else Error(UpstreamFailure(metadata.exception.value))
        else Emit(attached.response);
    Step(metadata, outcome)
  }

  /** How intercept chooses the one outcome of a wrapper, in terms of the response it
      works with (the wrapper's own or the factory's zero value), the effective
      mergeOnNextOnError, and the upstream error carried in the metadata. */
  lemma InterceptDecision(ri: Interceptor, wrapper: ResponseWrapper, now: int)
    // no response and no zero value: always an error
    ensures ResolvedResponse(ri, wrapper).None? ==> Intercept(ri, wrapper, now).outcome.Error?
    // the METADATA error arises exactly when metadata is asked for and cannot be held
    ensures var o := Intercept(ri, wrapper, now).outcome;
      var response := ResolvedResponse(ri, wrapper);
      && ((o.Error? && o.failure.MetadataFailure?) <==>
            (!ri.isCompletable && EffectiveMergeOnNextOnError(ri, wrapper)
             && (response.None? || !response.value.isHolder)))
      && (o.Error? && o.failure.MetadataFailure? ==> o.failure.exception.kind == METADATA)
    // an upstream error delivered is the wrapper's own
    ensures var o := Intercept(ri, wrapper, now).outcome;
      o.Error? && o.failure.UpstreamFailure? ==> wrapper.metadata.exception == Some(o.failure.upstream)
    // the internal-state error only when nothing else explains the missing response
    ensures var o := Intercept(ri, wrapper, now).outcome;
      (o.Error? && o.failure.IllegalState?) <==>
        (ResolvedResponse(ri, wrapper).None? && wrapper.metadata.exception.None?
         && !(!ri.isCompletable && EffectiveMergeOnNextOnError(ri, wrapper)))
    // an empty completion only for a Completable whose upstream error is the empty sentinel
    ensures var o := Intercept(ri, wrapper, now).outcome;
      var response := ResolvedResponse(ri, wrapper);
      o.Empty? <==>
        (ri.isCompletable && response.Some? && !response.value.isThrowable
         && wrapper.metadata.exception.Some? && wrapper.metadata.exception.value.cause == Some(EmptyResponseException))
    // the response is emitted exactly when it exists, is no Throwable, needs no missing
    // metadata support, and is not a Completable's upstream error
    ensures var o := Intercept(ri, wrapper, now).outcome;
      var response := ResolvedResponse(ri, wrapper);
      o.Emit? <==>
        (response.Some? && !response.value.isThrowable
         && (ri.isCompletable || response.value.isHolder || !EffectiveMergeOnNextOnError(ri, wrapper))
         && !(ri.isCompletable && wrapper.metadata.exception.Some?))
    // what is emitted is the same object, carrying the published metadata if it can
    ensures var step := Intercept(ri, wrapper, now);
      var response := ResolvedResponse(ri, wrapper);
      step.outcome.Emit? ==>
        && response.Some?
        && step.outcome.response.ref == response.value.ref
        && (response.value.isHolder && !ri.isCompletable ==>
              step.outcome.response == response.value.(metadata := Some(step.published)))
        && (!response.value.isHolder || ri.isCompletable ==> step.outcome.response == response.value)
  {
  }

  /** `flatMap(step)` over `wrappers`, the k-th step reading the clock value `clock(k)`.
      Every wrapper reached publishes one metadata value and yields one outcome; the
      first error ends the stream. */
  function FlatMapUntilError(step: (ResponseWrapper, int) -> Step, wrappers: seq<ResponseWrapper>,
                             clock: nat -> int, k: nat): (r: seq<Step>)
    ensures |r| <= |wrappers|
    ensures |wrappers| > 0 ==> |r| > 0
    ensures forall i :: 0 <= i < |r| ==> r[i] == step(wrappers[i], clock(k + i))
    ensures forall i :: 0 <= i < |r| - 1 ==> !r[i].outcome.Error?
    ensures |r| < |wrappers| ==> r[|r| - 1].outcome.Error?
    decreases |wrappers|
  {
    if |wrappers| == 0 then []
    else
      var first := step(wrappers[0], clock(k));
      if first.outcome.Error? then [first]
      else
        var rest := FlatMapUntilError(step, wrappers[1..], clock, k + 1);
        var r := [first] + rest;
        assert forall i :: 0 < i < |r| ==> r[i] == rest[i - 1] && wrappers[i] == wrappers[1..][i - 1];
        r
  }

  /** The same stream seen from its first element: the i-th step reads `clock(i)`. */
  lemma FlatMapFromStart(step: (ResponseWrapper, int) -> Step, wrappers: seq<ResponseWrapper>,
                         clock: nat -> int, r: seq<Step>)
    requires r == FlatMapUntilError(step, wrappers, clock, 0)
    ensures forall i :: 0 <= i < |r| ==> r[i] == step(wrappers[i], clock(i))
  {
    forall i | 0 <= i < |r|
      ensures r[i] == step(wrappers[i], clock(i))
    {
      assert 0 + i == i;
    }
  }

  /** ResponseInterceptor.apply: filter, fall back to one substitute wrapper, then
      `flatMap(this::intercept)`. The result lists, in order, the metadata published and
      the outcome delivered for each intercepted wrapper. */
  function Apply(ri: Interceptor, upstream: seq<ResponseWrapper>, clock: nat -> int): (r: seq<Step>)
    ensures |r| >= 1
    ensures var passed := FilterUpstream(ri, upstream);
      var substitute := ri.emptyResponseFactory.emptyResponseWrapper(ri.instructionToken);
      && (|passed| == 0 ==> r == [Intercept(ri, substitute, clock(0))])
      && (|passed| > 0 ==>
            |r| <= |passed|
            && (|r| < |passed| ==> r[|r| - 1].outcome.Error?)
            && forall i :: 0 <= i < |r| ==> r[i] == Intercept(ri, passed[i], clock(i)))
    ensures forall i :: 0 <= i < |r| ==> r[i].published.callDuration.total == clock(i) - ri.start
    ensures forall i :: 0 <= i < |r| - 1 ==> !r[i].outcome.Error?
  {
    var passed := FilterUpstream(ri, upstream);
    var r := FlatMapUntilError((w, now) => Intercept(ri, w, now), SwitchIfEmpty(ri, passed), clock, 0);
    SwitchedRun(ri, passed, clock, r);
    r
  }

  /** What the interception of the stream `switchIfEmpty` produces from `passed` delivers. */
  lemma SwitchedRun(ri: Interceptor, passed: seq<ResponseWrapper>, clock: nat -> int, r: seq<Step>)
    requires r == FlatMapUntilError((w, now) => Intercept(ri, w, now), SwitchIfEmpty(ri, passed), clock, 0)
    ensures |r| >= 1
    ensures var substitute := ri.emptyResponseFactory.emptyResponseWrapper(ri.instructionToken);
      && (|passed| == 0 ==> r == [Intercept(ri, substitute, clock(0))])
      && (|passed| > 0 ==>
            |r| <= |passed|
            && (|r| < |passed| ==> r[|r| - 1].outcome.Error?)
            && forall i :: 0 <= i < |r| ==> r[i] == Intercept(ri, passed[i], clock(i)))
    ensures forall i :: 0 <= i < |r| ==> r[i].published.callDuration.total == clock(i) - ri.start
    ensures forall i :: 0 <= i < |r| - 1 ==> !r[i].outcome.Error?
  {
    var wrappers := SwitchIfEmpty(ri, passed);
    FlatMapFromStart((w, now) => Intercept(ri, w, now), wrappers, clock, r);
    if |passed| == 0 {
      assert wrappers == [ri.emptyResponseFactory.emptyResponseWrapper(ri.instructionToken)];
    } else {
      assert wrappers == passed;
    }
  }

  /** Every wrapper of a non-Expiring call is intercepted, in order, until the first error. */
  lemma NonExpiringInterceptsEverything(ri: Interceptor, upstream: seq<ResponseWrapper>, clock: nat -> int)
    requires !ri.instructionToken.instruction.operation.IsExpiring()
    requires |upstream| > 0
    ensures var r := Apply(ri, upstream, clock);
      && |r| <= |upstream|
      && (forall i :: 0 <= i < |r| ==> r[i] == Intercept(ri, upstream[i], clock(i)))
      && (!r[|r| - 1].outcome.Error? ==> |r| == |upstream|)
  {
    assert FilterUpstream(ri, upstream) == upstream;
  }

  // ---------------------------------------------------------------------------
  // Scenarios

  /** A single-result call whose only upstream emission is non-final, under an operation
      that filters non-final emissions, receives the substitute wrapper's outcome instead. */
  lemma NonFinalSingleFallsBack(ri: Interceptor, stale: ResponseWrapper, clock: nat -> int)
    requires ri.isSingle && ri.instructionToken.instruction.operation.IsExpiring()
    requires ri.instructionToken.instruction.operation.filterFinal
    requires !stale.metadata.cacheToken.status.isFinal
    ensures Apply(ri, [stale], clock)
              == [Intercept(ri, ri.emptyResponseFactory.emptyResponseWrapper(ri.instructionToken), clock(0))]
  {
    assert FilterUpstream(ri, [stale]) == [];
  }

  /** An empty upstream on a streaming call with Cache(freshOnly = false,
      mergeOnNextOnError = false): the substitute wrapper carries no response and the
      factory has no zero value, so the substitute's own upstream error is delivered and
      its EMPTY-status metadata is published. */
  lemma EmptyStreamingCallDeliversSubstituteError(ri: Interceptor, clock: nat -> int, emptyError: UpstreamError)
    requires !ri.isSingle && !ri.isCompletable
    requires ri.instructionToken.instruction.operation.Cache?
    requires !ri.instructionToken.instruction.operation.freshOnly
    requires ri.instructionToken.instruction.operation.mergeOnNextOnError == Some(false)
    requires var substitute := ri.emptyResponseFactory.emptyResponseWrapper(ri.instructionToken);
      && substitute.response.None?
      && substitute.metadata.exception == Some(emptyError)
      && substitute.metadata.cacheToken.instruction == ri.instructionToken.instruction
      && !substitute.metadata.cacheToken.status.isFresh && substitute.metadata.cacheToken.status.isFinal
      && ri.emptyResponseFactory.create(false, substitute.responseClass).None?
    ensures var r := Apply(ri, [], clock);
      && |r| == 1
      && r[0].outcome == Error(UpstreamFailure(emptyError))
      && r[0].published.cacheToken == ri.emptyResponseFactory.emptyResponseWrapper(ri.instructionToken).metadata.cacheToken
  {
    var substitute := ri.emptyResponseFactory.emptyResponseWrapper(ri.instructionToken);
    assert EffectiveMergeOnNextOnError(ri, substitute) == false;
  }

  /** A Completable call whose response exists and whose upstream error is caused by the
      empty-response sentinel completes empty instead of failing. */
  lemma CompletableEmptySentinelCompletes(ri: Interceptor, wrapper: ResponseWrapper, now: int)
    requires ri.isCompletable
    requires wrapper.response.Some? && !wrapper.response.value.isThrowable
    requires wrapper.metadata.exception.Some?
    requires wrapper.metadata.exception.value.cause == Some(EmptyResponseException)
    ensures Intercept(ri, wrapper, now).outcome == Empty
  {
  }

  /** A Completable call without a response (and without a zero value) fails with its
      upstream error even when that error is the empty-response sentinel. */
  lemma CompletableWithoutResponseFails(ri: Interceptor, wrapper: ResponseWrapper, now: int, upstream: UpstreamError)
    requires ri.isCompletable
    requires ResolvedResponse(ri, wrapper).None?
    requires wrapper.metadata.exception == Some(upstream)
    ensures Intercept(ri, wrapper, now).outcome == Error(UpstreamFailure(upstream))
  {
  }
}
