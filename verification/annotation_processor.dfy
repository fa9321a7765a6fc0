/** AnnotationProcessor: turns the cache annotations declared on a Retrofit call into at
    most one CacheInstruction, rejecting a call that declares two of them.

    Annotations are walked in declaration order. Unknown annotations are skipped; each
    recognised one is mapped to an Operation, with the -1 duration and timeout sentinels
    replaced by the configured defaults; a second recognised annotation fails with an
    ANNOTATION CacheException naming both.
 */
module AnnotationProcessor {
  import opened Wrappers
  import opened Instructions
  import opened CacheExceptions

  /** The tri-state flag used by annotation attributes; DEFAULT leaves the choice to the
      call-level or global configuration. */
  datatype OptionalBoolean = TRUE | FALSE | DEFAULT
  {
    function Value(): Option<bool>
    {
      match this
      case TRUE => Some(true)
      case FALSE => Some(false)
      case DEFAULT => None
    }
  }

  /** The annotations a call may carry: the seven cache directives, or anything else. */
  datatype Annotation =
    | CacheAnnotation(durationInMillis: int, connectivityTimeoutInMillis: int, freshOnly: bool,
                      mergeOnNextOnError: OptionalBoolean, encrypt: OptionalBoolean, compress: OptionalBoolean)
    | DoNotCacheAnnotation
    | InvalidateAnnotation(typeToInvalidate: ClassRef)
    | RefreshAnnotation(durationInMillis: int, connectivityTimeoutInMillis: int, freshOnly: bool,
                        mergeOnNextOnError: OptionalBoolean)
    | OfflineAnnotation(freshOnly: bool, mergeOnNextOnError: OptionalBoolean)
    | ClearAnnotation(typeToClear: ClassRef, clearOldEntriesOnly: bool)
    | ClearAllAnnotation(clearOldEntriesOnly: bool)
    | OtherAnnotation(annotationClass: ClassRef)

  /** The RxJava type a call returns. */
  datatype RxType = OBSERVABLE | SINGLE | COMPLETABLE
  {
    /** The simple name of the Rx class. */
    function RxClassName(): string
    {
      match this
      case OBSERVABLE => "Observable"
      case SINGLE => "Single"
      case COMPLETABLE => "Completable"
    }
  }

  /** RxType.getTypedName: the call's return type as written in Kotlin. A Completable's is
      its Rx class name alone; an Observable's or Single's is `Rx<Response>`, the response
      class's simple name as the one type argument. */
  function TypedName(rxType: RxType, responseClass: ClassRef): (r: string)
    ensures |rxType.RxClassName()| <= |r| && r[..|rxType.RxClassName()|] == rxType.RxClassName()
    ensures rxType == COMPLETABLE ==> r == "Completable"
    ensures rxType != COMPLETABLE ==>
              && |r| == |rxType.RxClassName()| + |responseClass.simpleName| + 2
              && r[|rxType.RxClassName()|] == '<'
              && r[|r| - 1] == '>'
              && OccursAt(r, responseClass.simpleName, |r| - 1 - |responseClass.simpleName|)
  {
    if rxType == COMPLETABLE then rxType.RxClassName()
    else rxType.RxClassName() + "<" + responseClass.simpleName + ">"
  }

  /** A Completable's typed name ignores the response class; an Observable's or Single's
      typed name determines both the Rx type and the response class's simple name. */
  lemma TypedNameDeterminesType(rx1: RxType, c1: ClassRef, rx2: RxType, c2: ClassRef)
    ensures TypedName(COMPLETABLE, c1) == "Completable"
    ensures rx1 != COMPLETABLE ==> TypedName(rx1, c1) != TypedName(COMPLETABLE, c2)
    ensures rx1 != COMPLETABLE && rx2 != COMPLETABLE && TypedName(rx1, c1) == TypedName(rx2, c2)
            ==> rx1 == rx2 && c1.simpleName == c2.simpleName
  {
    var t1, t2 := TypedName(rx1, c1), TypedName(rx2, c2);
    if rx1 != COMPLETABLE {
      // an Rx<Response> name ends with '>', "Completable" with 'e'
      assert t1[|t1| - 1] != "Completable"[|"Completable"| - 1];
    }
    if rx1 != COMPLETABLE && rx2 != COMPLETABLE && t1 == t2 {
      // the first letter tells Observable from Single
      assert t1[0] == rx1.RxClassName()[0] && t2[0] == rx2.RxClassName()[0];
      var n := |rx1.RxClassName()|;
      assert c1.simpleName == t1[n + 1..|t1| - 1];
      assert c2.simpleName == t2[n + 1..|t2| - 1];
    }
  }

  /** The operation type an annotation stands for, or None for an unknown annotation. */
  function FoundOperation(annotation: Annotation): Option<OperationType>
  {
    match annotation
    case CacheAnnotation(_, _, _, _, _, _) => Some(CACHE)
    case DoNotCacheAnnotation => Some(DO_NOT_CACHE)
    case InvalidateAnnotation(_) => Some(INVALIDATE)
    case RefreshAnnotation(_, _, _, _) => Some(REFRESH)
    case OfflineAnnotation(_, _) => Some(OFFLINE)
    case ClearAnnotation(_, _) => Some(CLEAR)
    case ClearAllAnnotation(_) => Some(CLEAR_ALL)
    case OtherAnnotation(_) => None
  }

  predicate IsCacheAnnotation(annotation: Annotation)
  {
    FoundOperation(annotation).Some?
  }

  /** The -1 sentinel means "use the configured value". */
  function OrConfigured(value: int, configured: int): (r: int)
    ensures value == -1 ==> r == configured
    ensures value != -1 ==> r == value
  {
    if value == -1 then configured else value
  }

  /** The instruction a single annotation produces for a call returning `responseClass`
      (the `when` of getInstruction, without the duplicate check). */
  function ToInstruction(config: CacheConfiguration, responseClass: ClassRef, annotation: Annotation)
    : (r: Option<CacheInstruction>)
    ensures r.Some? <==> IsCacheAnnotation(annotation)
    ensures r.Some? ==>
              (r.value.operation.Type() ==
                 if annotation.ClearAllAnnotation? then CLEAR else FoundOperation(annotation).value)
    ensures r.Some? && !annotation.InvalidateAnnotation? && !annotation.ClearAnnotation?
            ==> r.value.responseClass == responseClass
  {
    match annotation
    case CacheAnnotation(duration, timeout, freshOnly, merge, encrypt, compress) =>
      Some(CacheInstruction(
        responseClass,
        Cache(OrConfigured(duration, config.cacheDurationInMillis),
              OrConfigured(timeout, config.connectivityTimeoutInMillis),
              freshOnly, merge.Value(), encrypt.Value(), compress.Value(),
              config.filterFinalDefaults.cache)))
    case InvalidateAnnotation(typeToInvalidate) =>
      Some(CacheInstruction(typeToInvalidate, Invalidate))
    case RefreshAnnotation(duration, timeout, freshOnly, merge) =>
      Some(CacheInstruction(
        responseClass,
        Refresh(OrConfigured(duration, config.cacheDurationInMillis),
                OrConfigured(timeout, config.connectivityTimeoutInMillis),
                freshOnly, merge.Value(),
                config.filterFinalDefaults.refresh)))
    case OfflineAnnotation(freshOnly, merge) =>
      Some(CacheInstruction(responseClass, Offline(freshOnly, merge.Value(), config.filterFinalDefaults.offline)))
    case ClearAnnotation(typeToClear, clearOldEntriesOnly) =>
      Some(CacheInstruction(typeToClear, Clear(Some(typeToClear), clearOldEntriesOnly)))
    case ClearAllAnnotation(clearOldEntriesOnly) =>
      Some(CacheInstruction(responseClass, Clear(None, clearOldEntriesOnly)))
    case DoNotCacheAnnotation =>
      Some(CacheInstruction(responseClass, DoNotCache))
    case OtherAnnotation(_) =>
      None
  }

  /** Cache and Refresh: a -1 duration or timeout takes the configured value, any other
      value is kept; the flags are copied from the annotation, DEFAULT becoming None. */
  lemma ExpiringFieldMapping(config: CacheConfiguration, responseClass: ClassRef, annotation: Annotation)
    requires annotation.CacheAnnotation? || annotation.RefreshAnnotation?
    ensures var op := ToInstruction(config, responseClass, annotation).value.operation;
      && op.durationInMillis ==
           (if annotation.durationInMillis == -1 then config.cacheDurationInMillis else annotation.durationInMillis)
      && op.connectivityTimeoutInMillis ==
           (if annotation.connectivityTimeoutInMillis == -1 then config.connectivityTimeoutInMillis
            else annotation.connectivityTimeoutInMillis)
      && op.freshOnly == annotation.freshOnly
      && op.mergeOnNextOnError == annotation.mergeOnNextOnError.Value()
      && (annotation.CacheAnnotation? ==>
            op.encrypt == annotation.encrypt.Value() && op.compress == annotation.compress.Value())
  {
  }

  /** Invalidate and Clear target the class named by the annotation, not the call's own
      response class; ClearAll clears every type and DoNotCache targets the call's class. */
  lemma AdministrativeTargets(config: CacheConfiguration, responseClass: ClassRef, annotation: Annotation)
    requires annotation.InvalidateAnnotation? || annotation.ClearAnnotation? || annotation.ClearAllAnnotation?
             || annotation.DoNotCacheAnnotation? || annotation.OfflineAnnotation?
    ensures var i := ToInstruction(config, responseClass, annotation).value;
      && (annotation.InvalidateAnnotation? ==>
            i.responseClass == annotation.typeToInvalidate && i.operation == Invalidate)
      && (annotation.ClearAnnotation? ==>
            i.responseClass == annotation.typeToClear
            && i.operation == Clear(Some(annotation.typeToClear), annotation.clearOldEntriesOnly))
      && (annotation.ClearAllAnnotation? ==>
            i.responseClass == responseClass && i.operation == Clear(None, annotation.clearOldEntriesOnly))
      && (annotation.DoNotCacheAnnotation? ==> i == CacheInstruction(responseClass, DoNotCache))
      && (annotation.OfflineAnnotation? ==>
            i.responseClass == responseClass && i.operation.Offline?
            && i.operation.freshOnly == annotation.freshOnly
            && i.operation.mergeOnNextOnError == annotation.mergeOnNextOnError.Value())
  {
  }

  const CONFLICT_PREFIX := "More than one cache annotation defined for method returning "
  const CONFLICT_FOUND := ", found "
  const CONFLICT_EXISTING := " after existing annotation "
  const CONFLICT_SUFFIX := ". Only one annotation can be used for this method."

  /** The message of the duplicate-annotation error. */
  function ConflictMessage(rxType: RxType, responseClass: ClassRef, found: OperationType, existing: OperationType)
    : string
  {
    var head := CONFLICT_PREFIX + TypedName(rxType, responseClass) + CONFLICT_FOUND;
    var tail := CONFLICT_EXISTING + existing.AnnotationName() + CONFLICT_SUFFIX;
    head + found.AnnotationName() + tail
  }

  /** The error for a second cache annotation: ANNOTATION type, naming both annotations. */
  function ConflictError(rxType: RxType, responseClass: ClassRef, found: OperationType, existing: OperationType)
    : (e: CacheException)
    ensures e.kind == ANNOTATION
    ensures Mentions(e.message, found.AnnotationName())
    ensures Mentions(e.message, existing.AnnotationName())
    ensures Mentions(e.message, TypedName(rxType, responseClass))
  {
    var typed := TypedName(rxType, responseClass);
    var head := CONFLICT_PREFIX + typed + CONFLICT_FOUND;
    var tail := CONFLICT_EXISTING + existing.AnnotationName() + CONFLICT_SUFFIX;
    MentionsMiddle(CONFLICT_PREFIX, typed, CONFLICT_FOUND);
    MentionsBefore(head, found.AnnotationName(), typed);
    MentionsBefore(head + found.AnnotationName(), tail, typed);
    MentionsMiddle(head, found.AnnotationName(), tail);
    MentionsMiddle(CONFLICT_EXISTING, existing.AnnotationName(), CONFLICT_SUFFIX);
    MentionsAfter(head + found.AnnotationName(), tail, existing.AnnotationName());
    CacheException(ANNOTATION, ConflictMessage(rxType, responseClass, found, existing))
  }

  /** getInstruction: a second cache annotation fails with the duplicate-annotation error
      naming both annotations; otherwise the annotation is mapped to its instruction. */
  function GetInstruction(config: CacheConfiguration, current: Option<CacheInstruction>, rxType: RxType,
                          responseClass: ClassRef, found: OperationType, annotation: Annotation)
    : (r: Result<Option<CacheInstruction>, CacheException>)
    ensures r.Failure? <==> current.Some?
    ensures r.Failure? ==>
              && r.error.kind == ANNOTATION
              && Mentions(r.error.message, found.AnnotationName())
              && Mentions(r.error.message, current.value.operation.Type().AnnotationName())
              && Mentions(r.error.message, TypedName(rxType, responseClass))
    ensures r.Success? ==> (r.value.Some? <==> IsCacheAnnotation(annotation))
    ensures r.Success? && r.value.Some? ==>
              && r.value.value.operation.Type() ==
                   (if annotation.ClearAllAnnotation? then CLEAR else FoundOperation(annotation).value)
              && (!annotation.InvalidateAnnotation? && !annotation.ClearAnnotation? ==>
                    r.value.value.responseClass == responseClass)
  {
    if current.Some? then
      Failure(ConflictError(rxType, responseClass, found, current.value.operation.Type()))
    else
      Success(ToInstruction(config, responseClass, annotation))
  }

  /** The recognised cache annotations, in declaration order: the reference against which
      `process` is specified. */
  function CacheAnnotations(annotations: seq<Annotation>): (r: seq<Annotation>)
    ensures |r| <= |annotations|
    ensures forall i :: 0 <= i < |r| ==> r[i] in annotations && IsCacheAnnotation(r[i])
    ensures forall a :: a in annotations && IsCacheAnnotation(a) ==> a in r
  {
    if |annotations| == 0 then []
    else
      (if IsCacheAnnotation(annotations[0]) then [annotations[0]] else [])
      + CacheAnnotations(annotations[1..])
  }

  /** The filter distributes over concatenation. */
  lemma {:induction false} CacheAnnotationsAppend(a: seq<Annotation>, b: seq<Annotation>)
    ensures CacheAnnotations(a + b) == CacheAnnotations(a) + CacheAnnotations(b)
  {
    if |a| == 0 {
      assert a + b == b;
    } else {
      assert (a + b)[0] == a[0];
      assert (a + b)[1..] == a[1..] + b;
      CacheAnnotationsAppend(a[1..], b);
    }
  }

  /** The forEach of `process`, continued from instruction `current`. */
  function ProcessFrom(config: CacheConfiguration, annotations: seq<Annotation>, rxType: RxType,
                       responseClass: ClassRef, current: Option<CacheInstruction>)
    : (r: Result<Option<CacheInstruction>, CacheException>)
    ensures var found := CacheAnnotations(annotations);
      && (|found| == 0 ==> r == Success(current))
      && (|found| > 0 && current.Some? ==>
            r == Failure(ConflictError(rxType, responseClass, FoundOperation(found[0]).value,
                                       current.value.operation.Type())))
      && (|found| == 1 && current.None? ==> r == Success(ToInstruction(config, responseClass, found[0])))
      && (|found| > 1 && current.None? ==>
            r == Failure(ConflictError(rxType, responseClass, FoundOperation(found[1]).value,
                                       ToInstruction(config, responseClass, found[0]).value.operation.Type())))
    decreases |annotations|
  {
    if |annotations| == 0 then Success(current)
    else
      var annotation := annotations[0];
      match FoundOperation(annotation)
      case None => ProcessFrom(config, annotations[1..], rxType, responseClass, current)
      case Some(found) =>
        match GetInstruction(config, current, rxType, responseClass, found, annotation)
        case Failure(e) => Failure(e)
        case Success(next) => ProcessFrom(config, annotations[1..], rxType, responseClass, next)
  }

  /** AnnotationProcessor.process: the instruction the call's annotations declare, None
      when they declare none, or the ANNOTATION error raised by a second cache annotation. */
  function Process(config: CacheConfiguration, annotations: seq<Annotation>, rxType: RxType, responseClass: ClassRef)
    : (r: Result<Option<CacheInstruction>, CacheException>)
    ensures var found := CacheAnnotations(annotations);
      && (|found| == 0 <==> r == Success(None))
      && (|found| == 1 <==> r.Success? && r.value.Some?)
      && (|found| == 1 ==> r == Success(ToInstruction(config, responseClass, found[0])))
      && (|found| > 1 <==> r.Failure?)
      && (|found| > 1 ==>
            r == Failure(ConflictError(rxType, responseClass, FoundOperation(found[1]).value,
                                       ToInstruction(config, responseClass, found[0]).value.operation.Type())))
  {
    ProcessFrom(config, annotations, rxType, responseClass, None)
  }

  /** An annotation the processor does not recognise is skipped: inserting one anywhere
      leaves the outcome of `process` unchanged. */
  lemma UnknownAnnotationIgnored(config: CacheConfiguration, before: seq<Annotation>, after: seq<Annotation>,
                                 other: Annotation, rxType: RxType, responseClass: ClassRef)
    requires !IsCacheAnnotation(other)
    ensures Process(config, before + [other] + after, rxType, responseClass)
         == Process(config, before + after, rxType, responseClass)
  {
    UnknownAnnotationNotFound(before, other, after);
    ProcessDependsOnFound(config, before + [other] + after, before + after, rxType, responseClass);
  }

  /** The recognised annotations do not change when an unknown one is inserted. */
  lemma UnknownAnnotationNotFound(before: seq<Annotation>, other: Annotation, after: seq<Annotation>)
    requires !IsCacheAnnotation(other)
    ensures CacheAnnotations(before + [other] + after) == CacheAnnotations(before + after)
  {
    var prefix, middle, suffix := CacheAnnotations(before), CacheAnnotations([other]), CacheAnnotations(after);
    assert [other][1..] == [];
    assert middle == [];
    CacheAnnotationsAppend(before + [other], after);
    CacheAnnotationsAppend(before, [other]);
    CacheAnnotationsAppend(before, after);
    assert prefix + middle == prefix;
  }

  /** The outcome of `process` depends only on the recognised annotations, in order. */
  lemma ProcessDependsOnFound(config: CacheConfiguration, a: seq<Annotation>, b: seq<Annotation>,
                              rxType: RxType, responseClass: ClassRef)
    requires CacheAnnotations(a) == CacheAnnotations(b)
    ensures Process(config, a, rxType, responseClass) == Process(config, b, rxType, responseClass)
  {
    var found := CacheAnnotations(a);
    if |found| == 0 {
    } else if |found| == 1 {
    } else {
    }
  }

  /** Any two cache annotations on one call, in either order and whatever unknown
      annotations come before, between and after them, fail with an ANNOTATION error
      naming both; this includes the same kind twice. */
  lemma TwoAnnotationsAlwaysConflict(config: CacheConfiguration, first: Annotation, second: Annotation,
                                     before: seq<Annotation>, between: seq<Annotation>, after: seq<Annotation>,
                                     rxType: RxType, responseClass: ClassRef)
    requires IsCacheAnnotation(first) && IsCacheAnnotation(second)
    requires forall a :: a in before ==> !IsCacheAnnotation(a)
    requires forall a :: a in between ==> !IsCacheAnnotation(a)
    requires forall a :: a in after ==> !IsCacheAnnotation(a)
    ensures var r := Process(config, before + [first] + between + [second] + after, rxType, responseClass);
      && r.Failure?
      && r.error.kind == ANNOTATION
      && Mentions(r.error.message, FoundOperation(second).value.AnnotationName())
      && Mentions(r.error.message, ToInstruction(config, responseClass, first).value.operation.Type().AnnotationName())
  {
    TwoAnnotationsFound(first, second, before, between, after);
    assert FoundOperation(second).Some?;
  }

  /** The recognised annotations of such a list are exactly the two, in order. */
  lemma TwoAnnotationsFound(first: Annotation, second: Annotation,
                            before: seq<Annotation>, between: seq<Annotation>, after: seq<Annotation>)
    requires IsCacheAnnotation(first) && IsCacheAnnotation(second)
    requires forall a :: a in before ==> !IsCacheAnnotation(a)
    requires forall a :: a in between ==> !IsCacheAnnotation(a)
    requires forall a :: a in after ==> !IsCacheAnnotation(a)
    ensures CacheAnnotations(before + [first] + between + [second] + after) == [first, second]
  {
    NoCacheAnnotations(before);
    NoCacheAnnotations(between);
    NoCacheAnnotations(after);
    assert CacheAnnotations([first]) == [first];
    assert CacheAnnotations([second]) == [second];
    var s1 := before + [first];
    CacheAnnotationsAppend(before, [first]);
    assert CacheAnnotations(s1) == [first];
    var s2 := s1 + between;
    CacheAnnotationsAppend(s1, between);
    assert CacheAnnotations(s2) == [first];
    var s3 := s2 + [second];
    CacheAnnotationsAppend(s2, [second]);
    assert CacheAnnotations(s3) == [first, second];
    CacheAnnotationsAppend(s3, after);
    assert CacheAnnotations(s3 + after) == [first, second];
  }

  lemma {:induction false} NoCacheAnnotations(annotations: seq<Annotation>)
    requires forall a :: a in annotations ==> !IsCacheAnnotation(a)
    ensures CacheAnnotations(annotations) == []
  {
    if |annotations| > 0 {
      assert annotations[0] in annotations;
      NoCacheAnnotations(annotations[1..]);
    }
  }
}
