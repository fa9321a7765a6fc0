/** CacheException: the typed error shared by annotation processing and response
    interception, with its value-based equality and hash code.

    A JVM object is modelled as a reference plus its runtime value, so that `equals`
    can be stated the way the class states it: the same reference is equal, an object of
    another class (or null) is not, and two CacheExceptions compare by type and message
    only (their stack traces and identities are ignored).
 */
module CacheExceptions {
  import opened Wrappers

  /** CacheException.Type, in declaration order. */
  datatype ExceptionType = ANNOTATION | METADATA | SERIALISATION

  /** `Type.values()`: every type, each exactly once. */
  function ExceptionTypes(): (r: seq<ExceptionType>)
    ensures forall t: ExceptionType :: t in r
    ensures forall i, j :: 0 <= i < j < |r| ==> r[i] != r[j]
  {
    var r := [ANNOTATION, METADATA, SERIALISATION];
    EveryTypeListed(r);
    r
  }

  lemma EveryTypeListed(r: seq<ExceptionType>)
    requires r == [ANNOTATION, METADATA, SERIALISATION]
    ensures forall t: ExceptionType :: t in r
  {
    forall t: ExceptionType
      ensures t in r
    {
      match t
      case ANNOTATION => assert r[0] == t;
      case METADATA => assert r[1] == t;
      case SERIALISATION => assert r[2] == t;
    }
  }

  /** There is no exception type beyond the three listed, and the three are distinct. */
  lemma ExactlyThreeTypes(t: ExceptionType)
    ensures t in ExceptionTypes()
    ensures |set u | u in ExceptionTypes()| == 3
  {
    var s := set u | u in ExceptionTypes();
    assert s == {ANNOTATION, METADATA, SERIALISATION};
  }

  /** The state of a CacheException that `equals` and `hashCode` look at. */
  datatype CacheException = CacheException(kind: ExceptionType, message: string)

  /** The runtime value behind a reference: a CacheException, or an object of some other class. */
  datatype ObjectValue = CacheExceptionValue(exception: CacheException) | OtherValue(className: string)

  /** A JVM reference and the object it points to. */
  datatype Obj = Obj(ref: nat, value: ObjectValue)

  /** Two references never disagree about the object they share. */
  predicate Consistent(a: Obj, b: Obj)
  {
    a.ref == b.ref ==> a.value == b.value
  }

  /** CacheException.equals, with `self` a CacheException and `other` any nullable object. */
  function Equals(self: Obj, other: Option<Obj>): (r: bool)
    requires self.value.CacheExceptionValue?
    ensures other.None? ==> !r
    ensures other.Some? && other.value.ref == self.ref ==> r
    ensures other.Some? && !other.value.value.CacheExceptionValue? && other.value.ref != self.ref ==> !r
  {
    if other.Some? && other.value.ref == self.ref then true
    else if other.None? || !other.value.value.CacheExceptionValue? then false
    else
      var mine := self.value.exception;
      var theirs := other.value.value.exception;
      if mine.kind != theirs.kind then false
      else if mine.message != theirs.message then false
      else true
  }

  /** On a consistent pair of references, equality is exactly agreement on type and message. */
  lemma EqualsIffSameTypeAndMessage(a: Obj, b: Obj)
    requires a.value.CacheExceptionValue?
    requires Consistent(a, b)
    ensures Equals(a, Some(b)) <==>
              b.value.CacheExceptionValue?
              && b.value.exception.kind == a.value.exception.kind
              && b.value.exception.message == a.value.exception.message
  {
  }

  /** equals is reflexive, symmetric and transitive on consistent references. */
  lemma EqualsIsEquivalence(a: Obj, b: Obj, c: Obj)
    requires a.value.CacheExceptionValue? && b.value.CacheExceptionValue? && c.value.CacheExceptionValue?
    requires Consistent(a, b) && Consistent(b, c) && Consistent(a, c)
    ensures Equals(a, Some(a))
    ensures Equals(a, Some(b)) <==> Equals(b, Some(a))
    ensures Equals(a, Some(b)) && Equals(b, Some(c)) ==> Equals(a, Some(c))
  {
    EqualsIffSameTypeAndMessage(a, b);
    EqualsIffSameTypeAndMessage(b, a);
    EqualsIffSameTypeAndMessage(b, c);
    EqualsIffSameTypeAndMessage(a, c);
  }

  // ---------------------------------------------------------------------------
  // 32-bit hash arithmetic

  const TWO_32: int := 0x1_0000_0000
  const TWO_31: int := 0x8000_0000

  /** A Kotlin Int. */
  type Int32 = x: int | -TWO_31 <= x < TWO_31

  /** The Int an overflowing Kotlin Int expression evaluates to: `x` reduced modulo 2^32
      into the signed range. */
  function Wrap32(x: int): (r: Int32)
    ensures (x - r) % TWO_32 == 0
  {
    (x + TWO_31) % TWO_32 - TWO_31
  }

  /** Wrapping forgets whole multiples of 2^32. */
  lemma Wrap32Congruent(x: int, k: int)
    ensures Wrap32(x + k * TWO_32) == Wrap32(x)
  {
    var a := x + TWO_31;
    var q, r := a / TWO_32, a % TWO_32;
    var q2, r2 := (a + k * TWO_32) / TWO_32, (a + k * TWO_32) % TWO_32;
    assert a + k * TWO_32 == (q + k) * TWO_32 + r;
    assert (q + k - q2) * TWO_32 == r2 - r;
    assert r2 == r;
  }

  /** String.hashCode: `h = 31 * h + c` over the characters, in Int arithmetic. */
  function StringHash(s: string): Int32
  {
    if |s| == 0 then 0 else Wrap32(31 * StringHash(s[..|s| - 1]) + s[|s| - 1] as int)
  }

  function Pow31(n: nat): nat
  {
    if n == 0 then 1 else 31 * Pow31(n - 1)
  }

  /** The documented value of String.hashCode before overflow:
      s[0]*31^(n-1) + s[1]*31^(n-2) + ... + s[n-1]. */
  function HashPolynomial(s: string): int
  {
    if |s| == 0 then 0 else s[0] as int * Pow31(|s| - 1) + HashPolynomial(s[1..])
  }

  /** Appending a character multiplies the polynomial by 31 and adds the character. */
  lemma {:induction false} HashPolynomialSnoc(s: string, c: char)
    ensures HashPolynomial(s + [c]) == 31 * HashPolynomial(s) + c as int
  {
    if |s| == 0 {
      assert s + [c] == [c];
      assert [c][1..] == [];
    } else {
      var t := s + [c];
      assert t[0] == s[0];
      assert t[1..] == s[1..] + [c];
      HashPolynomialSnoc(s[1..], c);
      calc {
        HashPolynomial(t);
        s[0] as int * Pow31(|s|) + HashPolynomial(s[1..] + [c]);
        s[0] as int * (31 * Pow31(|s| - 1)) + 31 * HashPolynomial(s[1..]) + c as int;
        { assert s[0] as int * (31 * Pow31(|s| - 1)) == 31 * (s[0] as int * Pow31(|s| - 1)); }
        31 * (s[0] as int * Pow31(|s| - 1) + HashPolynomial(s[1..])) + c as int;
      }
    }
  }

  /** The loop-with-overflow hash equals the documented polynomial reduced to an Int. */
  lemma {:induction false} StringHashIsPolynomial(s: string)
    ensures StringHash(s) == Wrap32(HashPolynomial(s))
  {
    if |s| > 0 {
      var p := s[..|s| - 1];
      var c := s[|s| - 1];
      assert s == p + [c];
      StringHashIsPolynomial(p);
      HashPolynomialSnoc(p, c);
      var x := HashPolynomial(p);
      var k := (x + TWO_31) / TWO_32;
      assert Wrap32(x) == x - k * TWO_32;
      assert 31 * Wrap32(x) + c as int == (31 * x + c as int) + (-31 * k) * TWO_32;
      Wrap32Congruent(31 * x + c as int, -31 * k);
    }
  }

  /** CacheException.hashCode: `type.hashCode() * 31 + message.hashCode()` in Int
      arithmetic. An enum constant's hash is its identity hash, assigned by the JVM,
      so it is a parameter here. The nested wrap-arounds agree with one reduction of the
      exact value. */
  function HashCode(e: CacheException, typeHash: ExceptionType -> Int32): (r: Int32)
    ensures r == Wrap32(typeHash(e.kind) * 31 + HashPolynomial(e.message))
  {
    WrappedSumIsReducedSum(typeHash(e.kind) * 31, e.message);
    Wrap32(Wrap32(typeHash(e.kind) * 31) + StringHash(e.message))
  }

  /** Wrapping a product, then adding a string hash and wrapping again, is one reduction
      of the exact sum. */
  lemma WrappedSumIsReducedSum(h: int, message: string)
    ensures Wrap32(Wrap32(h) + StringHash(message)) == Wrap32(h + HashPolynomial(message))
  {
    var k1 := (h + TWO_31) / TWO_32;
    assert Wrap32(h) == h - k1 * TWO_32;
    var p := HashPolynomial(message);
    StringHashIsPolynomial(message);
    var k2 := (p + TWO_31) / TWO_32;
    assert StringHash(message) == p - k2 * TWO_32;
    assert Wrap32(h) + StringHash(message) == (h + p) + (-k1 - k2) * TWO_32;
    Wrap32Congruent(h + p, -k1 - k2);
  }

  /** Equal exceptions have equal hash codes, whatever hashes the JVM gives the enum. */
  lemma EqualsImpliesEqualHash(a: Obj, b: Obj, typeHash: ExceptionType -> Int32)
    requires a.value.CacheExceptionValue? && b.value.CacheExceptionValue?
    requires Consistent(a, b)
    requires Equals(a, Some(b))
    ensures HashCode(a.value.exception, typeHash) == HashCode(b.value.exception, typeHash)
  {
    EqualsIffSameTypeAndMessage(a, b);
  }
}
