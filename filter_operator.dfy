/** The `filter(... equalTo:)` operators: stream transforms that keep the outputs equal to a
    target value, or whose key equals it. A stream is the sequence of outputs a publisher emits;
    a weakly captured target is an `Option`, `None` once the target has been deallocated. The
    target's liveness is read afresh for every output, and an operator works output by output
    (`KeepConcat`), so a stream during which the target dies is the live prefix followed by the
    dead suffix. */
module FilterOperator {
  import opened Wrappers

  /** `r` is an order-preserving subsequence of `s`. */
  ghost predicate Subsequence<T>(r: seq<T>, s: seq<T>)
    decreases |s|
  {
    r == [] || (s != [] && ((r[0] == s[0] && Subsequence(r[1..], s[1..])) || Subsequence(r, s[1..])))
  }

  /** Combine's `filter(_:)`: the outputs the predicate accepts, in order. */
  function Keep<T>(s: seq<T>, p: T -> bool): (r: seq<T>)
    ensures |r| <= |s|
    ensures forall i :: 0 <= i < |r| ==> r[i] in s && p(r[i])
    ensures forall i :: 0 <= i < |s| && p(s[i]) ==> s[i] in r
  {
    if s == [] then [] else (if p(s[0]) then [s[0]] else []) + Keep(s[1..], p)
  }

  lemma {:induction false} KeepIsSubsequence<T>(s: seq<T>, p: T -> bool)
    ensures Subsequence(Keep(s, p), s)
  {
    if s != [] {
      KeepIsSubsequence(s[1..], p);
      if p(s[0]) {
        assert Keep(s, p) == [s[0]] + Keep(s[1..], p);
        assert Keep(s, p)[1..] == Keep(s[1..], p);
      } else {
        assert Keep(s, p) == Keep(s[1..], p);
      }
    }
  }

  /** Filtering twice with the same predicate is filtering once. */
  lemma {:induction false} KeepIdempotent<T>(s: seq<T>, p: T -> bool)
    ensures Keep(Keep(s, p), p) == Keep(s, p)
  {
    if s != [] {
      KeepIdempotent(s[1..], p);
      if p(s[0]) {
        var r := Keep(s, p);
        assert r == [s[0]] + Keep(s[1..], p);
        assert r[0] == s[0] && r[1..] == Keep(s[1..], p);
      } else {
        assert Keep(s, p) == Keep(s[1..], p);
      }
    }
  }

  /** Filtering works output by output: a stream split in two is filtered piece by piece. */
  lemma {:induction false} KeepConcat<T>(a: seq<T>, b: seq<T>, p: T -> bool)
    ensures Keep(a + b, p) == Keep(a, p) + Keep(b, p)
  {
    if a == [] {
      assert a + b == b;
    } else {
      assert (a + b)[0] == a[0] && (a + b)[1..] == a[1..] + b;
      KeepConcat(a[1..], b, p);
    }
  }

  /** Keeping the outputs equal to `v` yields `v` once for each occurrence of `v`. */
  lemma {:induction false} KeepEqualCounts<T>(s: seq<T>, v: T)
    ensures Keep(s, x => x == v) == seq(multiset(s)[v], _ => v)
  {
    if s != [] {
      KeepEqualCounts(s[1..], v);
      assert s == [s[0]] + s[1..];
      assert multiset(s) == multiset{s[0]} + multiset(s[1..]);
    }
  }

  /** Each output is kept as often as it occurs if the predicate accepts it, and never
      otherwise. */
  lemma {:induction false} KeepCounts<T>(s: seq<T>, p: T -> bool, x: T)
    ensures multiset(Keep(s, p))[x] == if p(x) then multiset(s)[x] else 0
  {
    if s != [] {
      KeepCounts(s[1..], p, x);
      assert s == [s[0]] + s[1..];
      assert multiset(s) == multiset{s[0]} + multiset(s[1..]);
    }
  }

  /** `filter(equalTo: value)` for an `AnyObject & Equatable` output, with `value` captured
      weakly: while the target is alive exactly its equals pass, once it is gone nothing does. */
  function FilterEqualTo<T(==)>(outputs: seq<T>, target: Option<T>): (r: seq<T>)
    ensures target.None? ==> r == []
    ensures target.Some? ==> r == seq(multiset(outputs)[target.value], _ => target.value)
  {
    var p := (x: T) => Is(target, x);
    if target.Some? then
      KeepEqualCounts(outputs, target.value);
      KeepSamePredicate(outputs, p, x => x == target.value);
      Keep(outputs, p)
    else
      KeepNone(outputs, p);
      Keep(outputs, p)
  }

  /** The weakly captured `target` is still alive and equal to `x`. */
  predicate Is<T(==)>(target: Option<T>, x: T) {
    target.Some? && target.value == x
  }

  /** Two predicates that agree on every output keep the same outputs. */
  lemma {:induction false} KeepSamePredicate<T>(s: seq<T>, p: T -> bool, q: T -> bool)
    requires forall x :: p(x) == q(x)
    ensures Keep(s, p) == Keep(s, q)
  {
    if s != [] {
      KeepSamePredicate(s[1..], p, q);
    }
  }

  /** A predicate that accepts nothing keeps nothing. */
  lemma {:induction false} KeepNone<T>(s: seq<T>, p: T -> bool)
    requires forall x :: !p(x)
    ensures Keep(s, p) == []
  {
    if s != [] {
      KeepNone(s[1..], p);
    }
  }

  /** `filter(keyPath, equalTo: value)` for an `AnyObject & Equatable` key, with `value`
      captured weakly: the outputs whose key equals the live target, none once it is gone. */
  function FilterKeyEqualTo<T, K(==)>(outputs: seq<T>, key: T -> K, target: Option<K>): (r: seq<T>)
    ensures target.None? ==> r == []
    ensures target.Some? ==> forall i :: 0 <= i < |r| ==> r[i] in outputs && key(r[i]) == target.value
    ensures target.Some? ==> forall i :: 0 <= i < |outputs| && key(outputs[i]) == target.value ==> outputs[i] in r
    ensures target.Some? ==> forall x :: x in outputs ==> multiset(r)[x] == if key(x) == target.value then multiset(outputs)[x] else 0
    ensures Subsequence(r, outputs)
  {
    var p := (x: T) => Is(target, key(x));
    KeepIsSubsequence(outputs, p);
    forall x | x in outputs {
      KeepCounts(outputs, p, x);
    }
    if target.None? then KeepNone(outputs, p); Keep(outputs, p) else Keep(outputs, p)
  }

  /** `filter(keyPath, equalTo: value)` for a merely `Equatable` key: `value` is held strongly,
      so this is the weak variant with a target that never goes away. */
  function FilterKeyEqual<T, K(==)>(outputs: seq<T>, key: T -> K, value: K): (r: seq<T>)
    ensures forall i :: 0 <= i < |r| ==> r[i] in outputs && key(r[i]) == value
    ensures forall i :: 0 <= i < |outputs| && key(outputs[i]) == value ==> outputs[i] in r
    ensures forall x :: x in outputs ==> multiset(r)[x] == if key(x) == value then multiset(outputs)[x] else 0
    ensures r == FilterKeyEqualTo(outputs, key, Some(value))
  {
    forall x | x in outputs {
      KeepCounts(outputs, x => key(x) == value, x);
    }
    KeepSamePredicate(outputs, (x: T) => key(x) == value, (x: T) => Is(Some(value), key(x)));
    Keep(outputs, x => key(x) == value)
  }

  /** Applying any of the three filters a second time changes nothing. */
  lemma FilterIdempotent<T, K>(outputs: seq<T>, key: T -> K, target: Option<T>, keyTarget: Option<K>)
    ensures FilterEqualTo(FilterEqualTo(outputs, target), target) == FilterEqualTo(outputs, target)
    ensures FilterKeyEqualTo(FilterKeyEqualTo(outputs, key, keyTarget), key, keyTarget)
         == FilterKeyEqualTo(outputs, key, keyTarget)
  {
    KeepIdempotent(outputs, x => Is(target, x));
    KeepIdempotent(outputs, (x: T) => Is(keyTarget, key(x)));
  }
}
