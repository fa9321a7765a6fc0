# DejaVu cache directives and response interception, in Dafny

This project models the decision logic of DejaVu, a caching layer for Retrofit/RxJava
calls. Three parts are modelled as pure functions over immutable datatypes:

- **Annotation processing** (`AnnotationProcessor`). The cache annotations on a call
  (`@Cache`, `@Refresh`, `@Offline`, `@Invalidate`, `@Clear`, `@ClearAll`, `@DoNotCache`)
  become at most one `CacheInstruction`. Unknown annotations are skipped. The `-1`
  duration and timeout sentinels take the configured defaults. A second cache annotation
  fails with an `ANNOTATION` `CacheException` that names both annotations.
- **Instruction selection** (`CallAdapter`). The call adapter picks the instruction for an
  Rx call. A header that deserialises to an instruction wins. Next comes the annotation
  instruction. Next, the default cache predicate synthesises an Expiring `Cache`
  operation from configuration. Otherwise the call is not adapted. A non-Rx call is
  passed through.
- **Response interception** (`ResponseInterceptor`). The wrappers coming out of the cache
  and network layers go through three stages:
  - a freshness/finality filter that depends on single-result versus streaming
    consumption;
  - a substitute empty wrapper when nothing passes;
  - `intercept`, which finalises `callDuration.total` and publishes the metadata. It then
    delivers exactly one outcome: the response (carrying its metadata when it implements
    `CacheMetadata.Holder`), an empty completion, or an error.

`CacheExceptions` models `CacheException`: its three types, its `equals` (type and
message only) and its `hashCode`. The `hashCode` keeps the 32-bit Int overflow explicit.
`Instructions` holds the shared data model: `Operation`, `CacheInstruction`,
`CacheStatus`, `CacheToken` and the configuration fields that are read.

The reactive stream is a sequence. `ResponseInterceptor.Apply` returns one step per
intercepted wrapper, in order: the metadata it published and the outcome it delivered. As with `flatMap`, the first error
ends the stream. The metadata subject becomes that ordered list of published values. The
wall clock becomes a parameter: `clock(k)` is the time read by the k-th `intercept`.
The `EmptyResponseFactory` becomes two function parameters. The header deserialiser and
the default cache predicate are also parameters.

## Model

| member | source | states |
|---|---|---|
| `ResponseInterceptor.ResponseFilter` | cache_interceptor/src/main/java/uk/co/glass_software/android/dejavu/interceptors/internal/response/ResponseInterceptor.kt:70-84 | A non-Expiring operation lets every wrapper pass. For an Expiring operation a wrapper passes iff `(isFresh or not freshOnly) and (isFinal or not filterFinal)`, and, for a single-result call, also `isFinal or (allowNonFinalForSingle and not filterFinal)`. This is the unit test's flattened oracle. |
| `ResponseInterceptor.SingleSeesNonFinalOnlyWhenAllowed` | cache_interceptor/src/main/java/uk/co/glass_software/android/dejavu/interceptors/internal/response/ResponseInterceptor.kt:79-80 | A non-final emission of an Expiring operation reaches a single-result caller only if `allowNonFinalForSingle` is set and the operation does not filter non-final emissions. |
| `ResponseInterceptor.FilterUpstream` | cache_interceptor/src/main/java/uk/co/glass_software/android/dejavu/interceptors/internal/response/ResponseInterceptor.kt:93 | The filtered stream holds exactly the upstream wrappers that pass: every kept wrapper came from upstream and passes, and every passing wrapper is kept. For a non-Expiring operation the stream is unchanged. |
| `ResponseInterceptor.FilterUpstreamAppend` | cache_interceptor/src/main/java/uk/co/glass_software/android/dejavu/interceptors/internal/response/ResponseInterceptor.kt:93 | The filter decides each emission on its own and keeps upstream order: filtering `a + b` gives the filtered `a` followed by the filtered `b`. |
| `ResponseInterceptor.EffectiveMergeOnNextOnError` | cache_interceptor/src/main/java/uk/co/glass_software/android/dejavu/interceptors/internal/response/ResponseInterceptor.kt:106-108 | The wrapper operation's own flag applies when that operation is Expiring and sets the flag. Otherwise the interceptor's constructor flag applies. |
| `ResponseInterceptor.CheckForError` | cache_interceptor/src/main/java/uk/co/glass_software/android/dejavu/interceptors/internal/response/ResponseInterceptor.kt:190-201 | Yields an error iff the call is not a Completable and mergeOnNextOnError is in force. That error has type METADATA. |
| `ResponseInterceptor.CheckForErrorNamesClass` | cache_interceptor/src/main/java/uk/co/glass_software/android/dejavu/interceptors/internal/response/ResponseInterceptor.kt:190-199 | The METADATA error's message names the response class that cannot hold metadata. |
| `ResponseInterceptor.AddMetadataIfPossible` | cache_interceptor/src/main/java/uk/co/glass_software/android/dejavu/interceptors/internal/response/ResponseInterceptor.kt:165-181 | A Completable: no error and the response is untouched. A Holder: no error, and the same object gets the metadata. Anything else: the response is untouched, and there is a METADATA error iff mergeOnNextOnError is in force. The object's identity is always kept. |
| `ResponseInterceptor.Intercept` | cache_interceptor/src/main/java/uk/co/glass_software/android/dejavu/interceptors/internal/response/ResponseInterceptor.kt:110-121 | The published metadata is the wrapper's, with the same token, the same exception and the same disk and network times. Only `callDuration.total` changes, to `now - start`. It is published for every wrapper, whatever the outcome. |
| `ResponseInterceptor.InterceptDecision` | cache_interceptor/src/main/java/uk/co/glass_software/android/dejavu/interceptors/internal/response/ResponseInterceptor.kt:116-157 | No response and no zero value always gives an error. A METADATA error occurs iff the call is not a Completable, mergeOnNextOnError is in force, and there is no Holder response. An IllegalState error occurs iff there is no response, no upstream exception and no METADATA error. An empty completion occurs iff the call is a Completable, has a non-Throwable response, and its upstream exception is caused by the empty-response sentinel. Emission happens iff none of these applies. The emitted object is the same response, carrying the published metadata when it is a Holder. |
| `ResponseInterceptor.FlatMapUntilError` | cache_interceptor/src/main/java/uk/co/glass_software/android/dejavu/interceptors/internal/response/ResponseInterceptor.kt:95 | Each wrapper reached, in order, yields exactly one step (published metadata and outcome), computed from that wrapper and the next clock reading. Only the last step can be an error, and the stream stops before its end only at an error. |
| `ResponseInterceptor.Apply` | cache_interceptor/src/main/java/uk/co/glass_software/android/dejavu/interceptors/internal/response/ResponseInterceptor.kt:92-95 | At least one step, each pairing a published metadata value with the outcome delivered. When nothing passes the filter, including an empty upstream, exactly one wrapper is intercepted: the factory's substitute for the instruction token. Otherwise the passing wrappers are intercepted in order, and fewer steps than passing wrappers means the last step is an error. Each published total is `clock(i) - start`, and no error precedes the last outcome. |
| `ResponseInterceptor.NonExpiringInterceptsEverything` | cache_interceptor/src/main/java/uk/co/glass_software/android/dejavu/interceptors/internal/response/ResponseInterceptor.kt:83 | Under DoNotCache, Invalidate or Clear, every upstream wrapper is intercepted in order. The stream is cut short only by an error. |
| `ResponseInterceptor.NonFinalSingleFallsBack` | cache_interceptor/src/main/java/uk/co/glass_software/android/dejavu/interceptors/internal/response/ResponseInterceptor.kt:93-94 | A single-result call gets only a non-final emission, under an operation that filters non-final emissions. That emission is dropped, and the whole call is exactly the interception of the factory's substitute wrapper at the first clock reading: its finalised metadata is published and its outcome delivered. |
| `ResponseInterceptor.EmptyStreamingCallDeliversSubstituteError` | cache_interceptor/src/main/java/uk/co/glass_software/android/dejavu/interceptors/internal/response/ResponseInterceptor.kt:116-141 | Streaming call, empty upstream, `Cache(freshOnly = false, mergeOnNextOnError = false)`, and a factory with no zero value: the substitute's upstream error is the only outcome, and the substitute's metadata is published. |
| `ResponseInterceptor.CompletableEmptySentinelCompletes` | cache_interceptor/src/main/java/uk/co/glass_software/android/dejavu/interceptors/internal/response/ResponseInterceptor.kt:143-146 | A Completable with a response, whose upstream exception is caused by the empty-response sentinel, completes empty. |
| `ResponseInterceptor.CompletableWithoutResponseFails` | cache_interceptor/src/main/java/uk/co/glass_software/android/dejavu/interceptors/internal/response/ResponseInterceptor.kt:123-141 | A Completable with neither a response nor a zero value fails with its upstream exception, even when that exception is the empty-response sentinel. |
| `AnnotationProcessor.TypedName` | cache_interceptor/src/main/java/uk/co/glass_software/android/dejavu/retrofit/annotations/AnnotationProcessor.kt:188-190 | The typed name starts with the Rx class's simple name. A Completable's is exactly `Completable`. An Observable's or Single's is exactly `Rx<Response>`: the Rx name, then `<`, then the response class's simple name, then `>`, and nothing else. |
| `AnnotationProcessor.TypedNameDeterminesType` | cache_interceptor/src/main/java/uk/co/glass_software/android/dejavu/retrofit/annotations/AnnotationProcessor.kt:188-190 | COMPLETABLE's name is just `Completable`, whatever the response class. For OBSERVABLE and SINGLE, the `Rx<Response>` name is never `Completable`, and it determines both the Rx type and the response class's simple name. |
| `AnnotationProcessor.ToInstruction` | cache_interceptor/src/main/java/uk/co/glass_software/android/dejavu/retrofit/annotations/AnnotationProcessor.kt:118-180 | An instruction exists iff the annotation is a cache annotation. Its operation type is the annotation's own (ClearAll gives a Clear operation). It targets the call's response class except for Invalidate and Clear. |
| `AnnotationProcessor.ExpiringFieldMapping` | cache_interceptor/src/main/java/uk/co/glass_software/android/dejavu/retrofit/annotations/AnnotationProcessor.kt:119-144 | For Cache and Refresh, a duration or timeout of -1 becomes the configured value, and any other value is kept. freshOnly and mergeOnNextOnError are copied, and so are encrypt and compress for Cache. |
| `AnnotationProcessor.AdministrativeTargets` | cache_interceptor/src/main/java/uk/co/glass_software/android/dejavu/retrofit/annotations/AnnotationProcessor.kt:131-177 | Invalidate targets `typeToInvalidate`. Clear targets `typeToClear` with `Clear(typeToClear, clearOldEntriesOnly)`. ClearAll targets the call's class with `Clear(null, clearOldEntriesOnly)`. DoNotCache targets the call's class. Offline targets the call's class and carries only freshOnly and mergeOnNextOnError. |
| `AnnotationProcessor.ConflictError` | cache_interceptor/src/main/java/uk/co/glass_software/android/dejavu/retrofit/annotations/AnnotationProcessor.kt:108-116 | The duplicate-annotation error has type ANNOTATION. Its message names the found annotation, the existing annotation and the call's typed return name. |
| `AnnotationProcessor.GetInstruction` | cache_interceptor/src/main/java/uk/co/glass_software/android/dejavu/retrofit/annotations/AnnotationProcessor.kt:103-181 | Fails iff an instruction already exists. The failure is an ANNOTATION error whose message names the found annotation, the existing instruction's annotation and the call's typed return name. Otherwise an instruction is returned iff the annotation is a cache annotation. It carries the annotation's operation type (ClearAll gives Clear) and targets the call's class, except for Invalidate and Clear. |
| `AnnotationProcessor.CacheAnnotations` | cache_interceptor/src/main/java/uk/co/glass_software/android/dejavu/retrofit/annotations/AnnotationProcessor.kt:62-71 | The recognised annotations in declaration order: only cache annotations from the input, and every one of them. |
| `AnnotationProcessor.ProcessFrom` | cache_interceptor/src/main/java/uk/co/glass_software/android/dejavu/retrofit/annotations/AnnotationProcessor.kt:61-80 | Continuing from an existing instruction: no further cache annotation keeps it, and any further cache annotation fails on the first one. Starting from none: one cache annotation yields its instruction, and two or more fail on the second, naming the first one's operation type. |
| `AnnotationProcessor.Process` | cache_interceptor/src/main/java/uk/co/glass_software/android/dejavu/retrofit/annotations/AnnotationProcessor.kt:56-83 | No cache annotation iff the result is null. Exactly one iff an instruction is returned, and that instruction is the annotation's. Two or more iff the result is the ANNOTATION error for the second annotation found after the first. |
| `AnnotationProcessor.UnknownAnnotationIgnored` | cache_interceptor/src/main/java/uk/co/glass_software/android/dejavu/retrofit/annotations/AnnotationProcessor.kt:62-70 | Inserting an unknown annotation anywhere in the list does not change the result. |
| `AnnotationProcessor.UnknownAnnotationNotFound` | cache_interceptor/src/main/java/uk/co/glass_software/android/dejavu/retrofit/annotations/AnnotationProcessor.kt:62-70 | Inserting an unknown annotation leaves the list of recognised annotations unchanged. |
| `AnnotationProcessor.ProcessDependsOnFound` | cache_interceptor/src/main/java/uk/co/glass_software/android/dejavu/retrofit/annotations/AnnotationProcessor.kt:56-83 | Two annotation lists with the same recognised annotations, in the same order, give the same result. |
| `AnnotationProcessor.TwoAnnotationsAlwaysConflict` | cache_interceptor/src/main/java/uk/co/glass_software/android/dejavu/retrofit/annotations/AnnotationProcessor.kt:108-116 | Any two cache annotations fail with an ANNOTATION error naming both: either kind, the same kind twice, either order, with any unknown annotations before, between and after them. |
| `AnnotationProcessor.TwoAnnotationsFound` | cache_interceptor/src/main/java/uk/co/glass_software/android/dejavu/retrofit/annotations/AnnotationProcessor.kt:61-71 | Two cache annotations surrounded by any unknown annotations are recognised as exactly those two, in declaration order. |
| `CallAdapter.DefaultInstruction` | cache_interceptor/src/test/java/uk/co/glass_software/android/dejavu/retrofit/RetrofitCallAdapterUnitTest.kt:207-264 | The default instruction targets the call's response class with an Expiring Cache operation. Duration, timeout, mergeOnNextOnError, encrypt and compress come from configuration. `freshOnly` and `filterFinal` are false. |
| `CallAdapter.Adapt` | cache_interceptor/src/test/java/uk/co/glass_software/android/dejavu/retrofit/RetrofitCallAdapterUnitTest.kt:279-297 | An adapted call keeps its Rx kind, and only an Rx call is adapted. |
| `CallAdapter.AdaptMeetsTestExpectation` | cache_interceptor/src/test/java/uk/co/glass_software/android/dejavu/retrofit/RetrofitCallAdapterUnitTest.kt:158-305 | On every input, adaptation equals the test's expectation, computed the way the test computes it: which calls are adapted, and with the header, annotation or default instruction. |
| `CallAdapter.SelectionPrecedence` | cache_interceptor/src/test/java/uk/co/glass_software/android/dejavu/retrofit/RetrofitCallAdapterUnitTest.kt:266-270 | A non-Rx call is passed through. A deserialised header instruction beats the annotation instruction. A null or failed header deserialisation falls back to the annotation instruction. With neither a header nor an annotation instruction, the call is adapted iff the predicate holds, and then with the default instruction. Otherwise the call is returned unadapted. |
| `CacheExceptions.ExceptionTypes` | cache_interceptor/src/main/java/uk/co/glass_software/android/dejavu/retrofit/annotations/CacheException.kt:27-31 | `Type.values()` lists every exception type, each exactly once. |
| `CacheExceptions.ExactlyThreeTypes` | cache_interceptor/src/main/java/uk/co/glass_software/android/dejavu/retrofit/annotations/CacheException.kt:27-31 | Every type is among the three listed, and the three are distinct. |
| `CacheExceptions.Equals` | cache_interceptor/src/main/java/uk/co/glass_software/android/dejavu/retrofit/annotations/CacheException.kt:33-43 | null is never equal. The same reference is always equal. An object of another class is never equal. |
| `CacheExceptions.EqualsIffSameTypeAndMessage` | cache_interceptor/src/main/java/uk/co/glass_software/android/dejavu/retrofit/annotations/CacheException.kt:33-43 | Two references are equal iff the other is a CacheException with the same type and the same message. |
| `CacheExceptions.EqualsIsEquivalence` | cache_interceptor/src/main/java/uk/co/glass_software/android/dejavu/retrofit/annotations/CacheException.kt:33-43 | equals is reflexive, symmetric and transitive. |
| `CacheExceptions.StringHashIsPolynomial` | cache_interceptor/src/main/java/uk/co/glass_software/android/dejavu/retrofit/annotations/CacheException.kt:46 | The message hash, computed as `h = 31*h + c` with Int overflow, equals the documented polynomial `s[0]*31^(n-1) + ... + s[n-1]` reduced to an Int. |
| `CacheExceptions.HashCode` | cache_interceptor/src/main/java/uk/co/glass_software/android/dejavu/retrofit/annotations/CacheException.kt:45-47 | `type.hashCode() * 31 + message.hashCode()`, evaluated step by step with Int overflow, equals one reduction to an Int of the exact sum of the type's hash times 31 and the message's hash polynomial. |
| `CacheExceptions.EqualsImpliesEqualHash` | cache_interceptor/src/main/java/uk/co/glass_software/android/dejavu/retrofit/annotations/CacheException.kt:33-47 | Equal exceptions have equal hash codes, whatever identity hashes the JVM gives the enum constants. |

### Behaviour worth knowing

- **Default predicate and headers.** The adapter's unit test uses the default cache
  predicate only when the request has no cache header at all
  (RetrofitCallAdapterUnitTest.kt:159). So a header that fails to deserialise, on a call
  without an annotation instruction, leaves the call unadapted. The test never exercises
  that combination with a true predicate.
- **Empty completion.** A Completable whose upstream exception is caused by the
  empty-response sentinel completes empty only when a response value exists
  (ResponseInterceptor.kt:123-146). Without a response or a zero value, the upstream
  exception is delivered as an error (`CompletableWithoutResponseFails`).
- **mergeOnNextOnError.** The operation's own flag is read through an Elvis chain
  (ResponseInterceptor.kt:107-108). So an Expiring operation whose flag is unset (the
  annotation's `DEFAULT`) falls back to the interceptor's constructor flag, as a
  non-Expiring operation does.

## Left out

- RxJava (`Observable`, `filter`, `switchIfEmpty`, `flatMap`, `PublishSubject`). Streams are
  sequences. Subscription, cancellation and threading are not modelled.
- `dateFactory`. The clock is a parameter. The `.toInt()` of the elapsed time
  (ResponseInterceptor.kt:112) is taken as exact integer subtraction, so there is no 32-bit
  truncation of durations longer than about 24 days.
- `EmptyResponseFactory`, `CacheInstructionSerialiser`, the `CacheStatus` table, and the
  classes `CacheInstruction`, `CacheToken`, `CacheConfiguration` and `OptionalBoolean` are
  not part of this model.
  - The factory's two calls and the deserialiser's three possible results are inputs.
  - A status is a record carrying its `isFresh`/`isFinal` values, so the filter lemmas
    cover every status.
  - `OptionalBoolean` is taken to map `DEFAULT` to null.
  - The `filterFinal` default that the Expiring constructors give annotation-built
    operations is a configuration input (`FilterFinalDefaults`).
  - A `Clear` operation's type is taken to be CLEAR, even when it came from `@ClearAll`.
  - No header round-trip is claimed.
- `RetrofitCallAdapter.kt` itself is not part of this model. `CallAdapter.Adapt` is stated
  only against its unit test's expectations. The request metadata and the default cache
  predicate are inputs.
- `ResponseInterceptor.AddMetadataIfPossible`: the holder's `metadata` field is set in place
  (ResponseInterceptor.kt:177), but the model gives each emitted response as a snapshot
  taken at emission time. If one response object reaches `intercept` in two wrappers, the
  JVM's first emission afterwards shows the second metadata. In the model the two emitted
  values share a `ref` but keep their own metadata. This aliasing is not modelled.
- Logging calls. Exception messages are modelled only as far as naming the annotations
  and the response class.
- `CacheExceptions.StringHashIsPolynomial`: works on Unicode scalar values, not UTF-16 code
  units. Characters outside the Basic Multilingual Plane hash as one value, not as a
  surrogate pair.
- The legacy `CacheInterceptorBuilder` wiring (SQLite, Gson, Android `ContentValues`), the
  `CachedList` subclass, demo presenters and UI, the commented-out error interceptor test,
  and the test assertion helpers. None of these holds the cache decision logic modelled here.
