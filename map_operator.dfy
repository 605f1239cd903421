/** The `map(to:)` operators: stream transforms that replace every output with a constant. A
    stream is the sequence of outputs a publisher emits; a weakly captured object is an
    `Option`, `None` once the object has been deallocated. */
module MapOperator {
  import opened Wrappers

  /** Combine's `compactMap { $0 }`: the values that are present, in order. */
  function CompactMap<U>(s: seq<Option<U>>): (r: seq<U>)
    ensures |r| <= |s|
    ensures forall i :: 0 <= i < |r| ==> Some(r[i]) in s
  {
    if s == [] then [] else (if s[0].Some? then [s[0].value] else []) + CompactMap(s[1..])
  }

  /** `compactMap` works element by element. */
  lemma {:induction false} CompactMapConcat<U>(a: seq<Option<U>>, b: seq<Option<U>>)
    ensures CompactMap(a + b) == CompactMap(a) + CompactMap(b)
  {
    if a == [] {
      assert a + b == b;
    } else {
      assert (a + b)[0] == a[0] && (a + b)[1..] == a[1..] + b;
      CompactMapConcat(a[1..], b);
    }
  }

  /** `compactMap` over a run of one optional value: all of them if present, none if absent. */
  lemma {:induction false} CompactMapConstant<U>(n: nat, o: Option<U>)
    ensures o.Some? ==> CompactMap(seq(n, _ => o)) == seq(n, _ => o.value)
    ensures o.None? ==> CompactMap(seq(n, _ => o)) == []
  {
    if n > 0 {
      CompactMapConstant(n - 1, o);
      assert seq(n, _ => o)[1..] == seq(n - 1, _ => o);
      if o.Some? {
        assert seq(n, _ => o.value) == [o.value] + seq(n - 1, _ => o.value);
      }
    }
  }

  /** `map(to: value)`: one output per input, each equal to `value`. */
  function MapTo<T, U>(outputs: seq<T>, value: U): (r: seq<U>)
    ensures |r| == |outputs|
    ensures forall i :: 0 <= i < |r| ==> r[i] == value
  {
    seq(|outputs|, _ => value)
  }

  /** `mapToVoid()`: one unit per input. */
  function MapToVoid<T>(outputs: seq<T>): (r: seq<()>)
    ensures |r| == |outputs|
  {
    MapTo(outputs, ())
  }

  /** `map(to: object)`: `map { [weak object] _ in object }` followed by `compactMap`. While
      the target lives every input becomes the target; once it is gone, inputs are dropped. */
  function MapToObject<T, U>(outputs: seq<T>, target: Option<U>): (r: seq<U>)
    ensures target.Some? ==> r == MapTo(outputs, target.value)
    ensures target.None? ==> r == []
  {
    CompactMapConstant(|outputs|, target);
    CompactMap(seq(|outputs|, _ => target))
  }

  /** The outputs never depend on what the inputs were, only on how many there were. */
  lemma ContentsIrrelevant<T, U>(a: seq<T>, b: seq<T>, value: U, target: Option<U>)
    requires |a| == |b|
    ensures MapTo(a, value) == MapTo(b, value)
    ensures MapToVoid(a) == MapToVoid(b)
    ensures MapToObject(a, target) == MapToObject(b, target)
  {
  }

  /** A stream during which the target is deallocated: inputs while it lives map to it, later
      ones are dropped, so there are never more outputs than inputs. */
  lemma {:induction false} MapToObjectAcrossDeallocation<T, U>(alive: seq<T>, gone: seq<T>, target: U)
    ensures CompactMap(seq(|alive|, _ => Some(target)) + seq(|gone|, _ => Option<U>.None))
         == MapToObject(alive, Some(target)) + MapToObject(gone, None)
         == MapTo(alive, target)
    ensures |MapToObject(alive, Some(target)) + MapToObject(gone, None)| <= |alive + gone|
  {
    var none: Option<U> := None;
    CompactMapConcat(seq(|alive|, _ => Some(target)), seq(|gone|, _ => none));
    CompactMapConstant(|alive|, Some(target));
    CompactMapConstant(|gone|, none);
  }
}
