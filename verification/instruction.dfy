/** The cache directive data model shared by the annotation processor, the call adapter
    and the response interceptor: the operation a call asks for, the instruction that pairs
    it with a target response class, the token that carries a resolved cache status, and the
    global configuration.

    The classes behind these values (CacheInstruction, CacheToken, CacheStatus,
    CacheConfiguration) are not part of this model; only the fields these modules read appear.
 */
module Instructions {
  import opened Wrappers

  /** A Java class as the cache layer uses it: an identity (its package and simple name). */
  datatype ClassRef = ClassRef(packageName: string, simpleName: string)

  /** CacheInstruction.Operation.Type: one value per directive annotation. */
  datatype OperationType = CACHE | DO_NOT_CACHE | INVALIDATE | REFRESH | OFFLINE | CLEAR | CLEAR_ALL
  {
    /** The name of the annotation the operation type stands for, as used in error messages. */
    function AnnotationName(): string
    {
      match this
      case CACHE => "Cache"
      case DO_NOT_CACHE => "DoNotCache"
      case INVALIDATE => "Invalidate"
      case REFRESH => "Refresh"
      case OFFLINE => "Offline"
      case CLEAR => "Clear"
      case CLEAR_ALL => "ClearAll"
    }
  }

  /** CacheInstruction.Operation. Cache, Refresh and Offline form the Expiring family;
      their mergeOnNextOnError, encrypt and compress flags are nullable (None means "use
      the call-level or global default"), and filterFinal says whether non-final
      emissions are filtered out. */
  datatype Operation =
    | Cache(durationInMillis: int, connectivityTimeoutInMillis: int, freshOnly: bool,
            mergeOnNextOnError: Option<bool>, encrypt: Option<bool>, compress: Option<bool>,
            filterFinal: bool)
    | Refresh(durationInMillis: int, connectivityTimeoutInMillis: int, freshOnly: bool,
              mergeOnNextOnError: Option<bool>, filterFinal: bool)
    | Offline(freshOnly: bool, mergeOnNextOnError: Option<bool>, filterFinal: bool)
    | DoNotCache
    | Invalidate
    | Clear(typeToClear: Option<ClassRef>, clearOldEntriesOnly: bool)
  {
    /** `operation is Expiring` */
    predicate IsExpiring()
    {
      Cache? || Refresh? || Offline?
    }

    /** The operation's type tag. A Clear operation is tagged CLEAR whether or not it
        names a target class (the ClearAll annotation produces an untargeted Clear). */
    function Type(): OperationType
    {
      match this
      case Cache(_, _, _, _, _, _, _) => CACHE
      case Refresh(_, _, _, _, _) => REFRESH
      case Offline(_, _, _) => OFFLINE
      case DoNotCache => DO_NOT_CACHE
      case Invalidate => INVALIDATE
      case Clear(_, _) => CLEAR
    }
  }

  /** An immutable pairing of the targeted response class with the operation to apply. */
  datatype CacheInstruction = CacheInstruction(responseClass: ClassRef, operation: Operation)

  /** The resolved state of a cache entry. The status table itself is not part of this
      model: each status carries the values of its two predicates, so that every
      statement about the filter holds for every assignment of freshness and finality. */
  datatype CacheStatus = CacheStatus(name: string, isFresh: bool, isFinal: bool)

  /** The token attached to every wrapper produced for one call. */
  datatype CacheToken = CacheToken(instruction: CacheInstruction, status: CacheStatus, requestKey: string)

  /** The filterFinal value an Expiring operation gets when its constructor is not told
      otherwise (the constructors' defaults are not part of this model). */
  datatype FilterFinalDefaults = FilterFinalDefaults(cache: bool, refresh: bool, offline: bool)

  /** The fields of CacheConfiguration these modules read, plus `filterFinalDefaults`,
      which is not a CacheConfiguration field: it stands for the filterFinal defaults of the
      Expiring operation constructors, carried here so annotation processing can reach them.
      The default cache predicate is a separate input of the call adapter. */
  datatype CacheConfiguration = CacheConfiguration(
    cacheDurationInMillis: int,
    connectivityTimeoutInMillis: int,
    encrypt: bool,
    compress: bool,
    mergeOnNextOnError: bool,
    allowNonFinalForSingle: bool,
    filterFinalDefaults: FilterFinalDefaults)

  /** `needle` occurs in `s` starting at index `i`. */
  ghost predicate OccursAt(s: string, needle: string, i: int)
  {
    0 <= i <= |s| - |needle| && s[i..i + |needle|] == needle
  }

  /** `needle` occurs as a contiguous part of `s`. */
  ghost predicate Mentions(s: string, needle: string)
  {
    exists i :: OccursAt(s, needle, i)
  }

  lemma MentionsItself(s: string)
    ensures Mentions(s, s)
  {
    assert s[0..|s|] == s;
    assert OccursAt(s, s, 0);
  }

  /** What `s` mentions, `s + t` mentions. */
  lemma MentionsBefore(s: string, t: string, needle: string)
    requires Mentions(s, needle)
    ensures Mentions(s + t, needle)
  {
    var i :| OccursAt(s, needle, i);
    assert (s + t)[i..i + |needle|] == s[i..i + |needle|];
    assert OccursAt(s + t, needle, i);
  }

  /** `needle` placed between any two strings is mentioned by the result. */
  lemma MentionsMiddle(s: string, needle: string, t: string)
    ensures Mentions(s + needle + t, needle)
  {
    MentionsItself(needle);
    MentionsAfter(s, needle, needle);
    MentionsBefore(s + needle, t, needle);
  }

  /** What `t` mentions, `s + t` mentions. */
  lemma MentionsAfter(s: string, t: string, needle: string)
    requires Mentions(t, needle)
    ensures Mentions(s + t, needle)
  {
    var i :| OccursAt(t, needle, i);
    assert (s + t)[|s| + i..|s| + i + |needle|] == t[i..i + |needle|];
    assert OccursAt(s + t, needle, |s| + i);
  }
}
