/** RetrofitCallAdapter's choice of instruction for a call, as its unit test pins it down.

    A call whose return type is not an Rx type is passed through untouched. Otherwise the
    instruction comes from, in order: a cache header that deserialises to an instruction;
    the instruction the annotations declared; the default cache predicate, which (only
    when the call has neither a header nor an annotation instruction) synthesises an
    Expiring Cache operation from the global configuration. When none applies the call is
    returned without being adapted.
 */
module CallAdapter {
  import opened Wrappers
  import opened Instructions
  import opened AnnotationProcessor

  /** The request identity the default predicate is asked about. */
  datatype RequestMetadata = RequestMetadata(url: string, requestBody: Option<string>)

  /** What CacheInstructionSerialiser.deserialise made of the header value. */
  datatype Deserialisation =
    | Deserialised(instruction: CacheInstruction)
    | DeserialisedNull
    | DeserialisationThrew

  /** The cache header of the request, if the request has one. */
  datatype CacheHeader = NoHeader | Header(value: string, deserialisation: Deserialisation)

  /** What `adapt` returns: the call as the underlying adapter produced it, or the same
      Rx kind composed with a cache interceptor built for an instruction. */
  datatype Adaptation = Unadapted | Adapted(rxType: RxType, instruction: CacheInstruction)

  /** The instruction the default predicate synthesises: an Expiring Cache on the call's
      own response class, every setting taken from configuration, neither fresh-only nor
      filtering non-final emissions. */
  function DefaultInstruction(config: CacheConfiguration, responseClass: ClassRef): (r: CacheInstruction)
    ensures r.responseClass == responseClass
    ensures r.operation.Cache?
    ensures r.operation.durationInMillis == config.cacheDurationInMillis
    ensures r.operation.connectivityTimeoutInMillis == config.connectivityTimeoutInMillis
    ensures r.operation.mergeOnNextOnError == Some(config.mergeOnNextOnError)
    ensures r.operation.encrypt == Some(config.encrypt)
    ensures r.operation.compress == Some(config.compress)
    ensures !r.operation.freshOnly && !r.operation.filterFinal
  {
    CacheInstruction(
      responseClass,
      Cache(config.cacheDurationInMillis, config.connectivityTimeoutInMillis, false,
            Some(config.mergeOnNextOnError), Some(config.encrypt), Some(config.compress), false))
  }

  /** The header's instruction, when it deserialised to one; a null result or a failed
      deserialisation yields nothing and is not an error. */
  function HeaderInstruction(header: CacheHeader): Option<CacheInstruction>
  {
    if header.Header? && header.deserialisation.Deserialised? then Some(header.deserialisation.instruction)
    else None
  }

  /** RetrofitCallAdapter.adapt: `rxType` is None for a call whose return type is not Rx;
      `annotationInstruction` is what AnnotationProcessor.process returned for the call. */
  function Adapt(config: CacheConfiguration, cachePredicate: (ClassRef, RequestMetadata) -> bool,
                 responseClass: ClassRef, annotationInstruction: Option<CacheInstruction>,
                 rxType: Option<RxType>, header: CacheHeader, request: RequestMetadata): (r: Adaptation)
    ensures r.Adapted? ==> rxType == Some(r.rxType)
  {
    match rxType
    case None => Unadapted
    case Some(rx) =>
      match HeaderInstruction(header)
      case Some(instruction) => Adapted(rx, instruction)
      case None =>
        match annotationInstruction
        case Some(instruction) => Adapted(rx, instruction)
        case None =>
          if header.NoHeader? && cachePredicate(responseClass, request) then
            Adapted(rx, DefaultInstruction(config, responseClass))
          else Unadapted
  }

  /** The expectation of the adapter's unit test, written as the test computes it: which
      calls are adapted, and with which instruction. */
  function ExpectedAdaptation(config: CacheConfiguration, cachePredicate: (ClassRef, RequestMetadata) -> bool,
                              responseClass: ClassRef, annotationInstruction: Option<CacheInstruction>,
                              rxType: Option<RxType>, header: CacheHeader, request: RequestMetadata): Adaptation
  {
    var hasInstruction := annotationInstruction.Some?;
    var hasHeader := header.Header?;
    var isHeaderDeserialisationSuccess := hasHeader && header.deserialisation.Deserialised?;
    var hasDefaultAdaptation := cachePredicate(responseClass, request);
    var usesDefaultAdaptation := hasDefaultAdaptation && !hasHeader && !hasInstruction;
    if rxType.None? then Unadapted
    else if isHeaderDeserialisationSuccess || hasInstruction || usesDefaultAdaptation then
      if usesDefaultAdaptation then Adapted(rxType.value, DefaultInstruction(config, responseClass))
      else if isHeaderDeserialisationSuccess then Adapted(rxType.value, header.deserialisation.instruction)
      else Adapted(rxType.value, annotationInstruction.value)
    else Unadapted
  }

  /** The adapter meets the test's expectation on every input, including the combinations
      the test does not exercise (a header next to an annotation instruction). */
  lemma AdaptMeetsTestExpectation(config: CacheConfiguration, cachePredicate: (ClassRef, RequestMetadata) -> bool,
                                  responseClass: ClassRef, annotationInstruction: Option<CacheInstruction>,
                                  rxType: Option<RxType>, header: CacheHeader, request: RequestMetadata)
    ensures Adapt(config, cachePredicate, responseClass, annotationInstruction, rxType, header, request)
         == ExpectedAdaptation(config, cachePredicate, responseClass, annotationInstruction, rxType, header, request)
  {
  }

  /** Precedence: header instruction, then annotation instruction, then the default
      predicate, then no adaptation; a non-Rx call is never adapted. */
  lemma SelectionPrecedence(config: CacheConfiguration, cachePredicate: (ClassRef, RequestMetadata) -> bool,
                            responseClass: ClassRef, annotationInstruction: Option<CacheInstruction>,
                            rx: RxType, header: CacheHeader, request: RequestMetadata)
    ensures Adapt(config, cachePredicate, responseClass, annotationInstruction, None, header, request) == Unadapted
    ensures var r := Adapt(config, cachePredicate, responseClass, annotationInstruction, Some(rx), header, request);
      && (HeaderInstruction(header).Some? ==> r == Adapted(rx, HeaderInstruction(header).value))
      && (HeaderInstruction(header).None? && annotationInstruction.Some? ==>
            r == Adapted(rx, annotationInstruction.value))
      && (header.NoHeader? && annotationInstruction.None? ==>
            (r.Adapted? <==> cachePredicate(responseClass, request))
            && (r.Adapted? ==> r.instruction == DefaultInstruction(config, responseClass)))
      && (header.Header? && HeaderInstruction(header).None? && annotationInstruction.None? ==> r == Unadapted)
      && (!cachePredicate(responseClass, request) && HeaderInstruction(header).None? && annotationInstruction.None?
          ==> r == Unadapted)
  {
  }
}
