/**
 * Failure-carrying wrappers shared by the model: `Option` stands for a
 * nullable pointer or handle, `Outcome` for an operation that either
 * completes or throws.
 */
module Wrappers {

  datatype Option<+T> = None | Some(value: T)

  /** `Fail(msg)` models a C++ exception carrying `msg`. */
  datatype Outcome = Ok | Fail(message: string) {
    predicate IsFailure() { Fail? }
    function PropagateFailure(): Outcome requires Fail? { this }
  }

  datatype Result<+T> = Success(value: T) | Failure(message: string) {
    predicate IsFailure() { Failure? }
    function PropagateFailure<U>(): Result<U> requires Failure? { Failure(message) }
    function Extract(): T requires Success? { value }
  }

  /** Concatenation regrouped; stated once so that trace proofs need not rediscover it. */
  lemma AppendAssociates<T>(a: seq<T>, b: seq<T>, c: seq<T>)
    ensures (a + b) + c == a + (b + c)
  {
  }

  /** An iteration order of a hash map's keys, which the source leaves unspecified: each key exactly once. */
  ghost predicate EnumeratesKeys<K(!new)>(order: seq<K>, keys: set<K>) {
    && (forall i, j :: 0 <= i < j < |order| ==> order[i] != order[j])
    && (forall k :: k in order <==> k in keys)
  }

  /** Dropping the last key of an enumeration enumerates the other keys. */
  lemma EnumerationDropLast<K(!new)>(order: seq<K>, keys: set<K>)
    requires EnumeratesKeys(order, keys) && |order| > 0
    ensures order[|order| - 1] in keys
    ensures EnumeratesKeys(order[..|order| - 1], keys - {order[|order| - 1]})
  {
    var pre := order[..|order| - 1];
    var last := order[|order| - 1];
    assert last in order;
    forall k ensures k in pre <==> k in keys - {last} {
      if k in pre {
        var i :| 0 <= i < |pre| && pre[i] == k;
        assert order[i] == k;
      }
      if k in keys - {last} {
        assert k in order;
        var i :| 0 <= i < |order| && order[i] == k;
        assert i < |pre|;
        assert pre[i] == k;
      }
    }
  }

  /** An enumeration visits exactly as many keys as there are. */
  lemma {:induction false} EnumerationSize<K(!new)>(order: seq<K>, keys: set<K>)
    requires EnumeratesKeys(order, keys)
    ensures |order| == |keys|
    decreases |order|
  {
    if |order| == 0 {
      assert keys == {} by {
        assert forall k :: k in keys ==> k in order;
      }
    } else {
      EnumerationDropLast(order, keys);
      EnumerationSize(order[..|order| - 1], keys - {order[|order| - 1]});
    }
  }
}

/**
 * Fixed-width unsigned and signed integer conversions, written out so
 * that the model is explicit where the source relies on uint32_t
 * wrap-around or on a static_cast to int32_t.
 */
module MachineInts {

  const U32_MODULUS: nat := 0x1_0000_0000
  const U32_MAX: nat := 0xFFFF_FFFF
  const I32_MIN: int := -0x8000_0000

  predicate IsU32(x: int) { 0 <= x < U32_MODULUS }

  /** Unsigned 32-bit wrap-around of an arbitrary integer. */
  function U32(x: int): (r: nat)
    ensures IsU32(r)
    ensures IsU32(x) ==> r == x
  {
    x % U32_MODULUS
  }

  /** `static_cast<int32_t>` of a uint32_t value (two's complement). */
  function I32(x: nat): (r: int)
    requires IsU32(x)
    ensures I32_MIN <= r < 0x8000_0000
    ensures r >= 0 <==> x < 0x8000_0000
    ensures U32(r) == x
  {
    if x < 0x8000_0000 then x else x - U32_MODULUS
  }

  /** Wrapping after every addition equals wrapping once at the end. */
  lemma U32AddWrap(a: int, b: int)
    ensures U32(U32(a) + b) == U32(a + b)
  {
    var q := a / U32_MODULUS;
    assert a == q * U32_MODULUS + U32(a);
    ModuloShift(U32(a) + b, q);
  }

  lemma ModuloShift(x: int, q: int)
    ensures (x + q * U32_MODULUS) % U32_MODULUS == x % U32_MODULUS
  {
    var r := x % U32_MODULUS;
    var d := x / U32_MODULUS;
    assert x + q * U32_MODULUS == (d + q) * U32_MODULUS + r;
  }
}
