/** The arithmetic of `sendBatch`'s chunk loop (CombineConnection.swift, lines 47-55), as
    written. Each pass computes `prefix = sandSize` and `end = min(max, count - sandSize)`,
    slices `data[prefix..<end]` and adds `end` to `sandSize`. `end` is a chunk LENGTH that the
    code uses as the slice's upper OFFSET. Swift's `..<` traps when the lower bound exceeds the
    upper one, so the run of the loop stops at the first inverted slice.

    Two views of the loop are kept apart: `Steps` is the counter arithmetic alone (what the
    loop computes if no slice ever trapped), `Run` is what the loop does, slices included.
    `RunFollowsSteps` connects them. */
module Chunking {

  type Bytes = seq<bv8>

  function Min(a: int, b: int): (r: int)
    ensures r <= a && r <= b && (r == a || r == b)
  {
    if a <= b then a else b
  }

  /** One pass of the loop: its lower bound `prefix` and its `end`. */
  datatype Step = Step(prefix: int, end: int) {
    /** `prefix..<end` is not a valid range: forming it traps. */
    predicate Inverted() {
      prefix > end
    }
  }

  /** The passes of the loop from `sent` bytes counted on, for a positive maximum. */
  function Steps(count: int, max: int, sent: int): (r: seq<Step>)
    requires max > 0 && 0 <= sent <= count
    ensures |r| <= count - sent
    ensures r == [] <==> sent == count
    decreases count - sent
  {
    if sent >= count then [] else
      var end := Min(max, count - sent);
      [Step(sent, end)] + Steps(count, max, sent + end)
  }

  /** The sum of the `end` values, i.e. how far `sandSize` advances. */
  function SumEnds(steps: seq<Step>): int
  {
    if steps == [] then 0 else steps[0].end + SumEnds(steps[1..])
  }

  /** Pass `i` starts at `sent + i*max`; every pass but the last has `end == max`, the last
      takes what remains, so every `end` lies in `1..max`. */
  lemma {:induction false} StepsShape(count: int, max: int, sent: int, i: int)
    requires max > 0 && 0 <= sent <= count && 0 <= i < |Steps(count, max, sent)|
    ensures Steps(count, max, sent)[i].prefix == sent + i * max
    ensures Steps(count, max, sent)[i].end == Min(max, count - (sent + i * max))
    ensures 1 <= Steps(count, max, sent)[i].end <= max
    ensures i < |Steps(count, max, sent)| - 1 ==> Steps(count, max, sent)[i].end == max
    ensures i == |Steps(count, max, sent)| - 1 ==> sent + i * max + Steps(count, max, sent)[i].end == count
    decreases count - sent
  {
    var end := Min(max, count - sent);
    var rest := Steps(count, max, sent + end);
    assert Steps(count, max, sent) == [Step(sent, end)] + rest;
    if i == 0 {
      if |rest| > 0 {
        assert sent + end < count;
      }
    } else {
      assert sent + end < count;
      assert end == max;
      StepsShape(count, max, sent + end, i - 1);
      assert sent + end + (i - 1) * max == sent + i * max;
    }
  }

  /** `sandSize` grows by exactly the bytes remaining: the loop leaves exactly at `count`. */
  lemma {:induction false} StepsSum(count: int, max: int, sent: int)
    requires max > 0 && 0 <= sent <= count
    ensures SumEnds(Steps(count, max, sent)) == count - sent
    decreases count - sent
  {
    if sent < count {
      var end := Min(max, count - sent);
      StepsSum(count, max, sent + end);
      assert Steps(count, max, sent)[1..] == Steps(count, max, sent + end);
    }
  }

  lemma {:induction false} MulAtLeast(k: int, m: int)
    requires k >= 1 && m > 0
    ensures k * m >= m
    decreases k
  {
    if k > 1 {
      MulAtLeast(k - 1, m);
      assert k * m == (k - 1) * m + m;
    }
  }

  /** Floor division pinned down by its quotient's bracket. */
  lemma DivIs(x: int, m: int, q: int)
    requires m > 0 && q * m <= x < q * m + m
    ensures x / m == q
  {
    var d := x / m;
    assert x == d * m + x % m && 0 <= x % m < m;
    assert (d - q) * m == d * m - q * m;
    if d > q {
      MulAtLeast(d - q, m);
    } else if d < q {
      MulAtLeast(q - d, m);
    }
  }

  /** Adding the divisor adds one to the quotient. */
  lemma DivShift(x: int, m: int)
    requires m > 0 && x >= 0
    ensures (x + m) / m == x / m + 1
  {
    var q := x / m;
    assert q * m <= x < q * m + m;
    assert (q + 1) * m == q * m + m;
    DivIs(x + m, m, q + 1);
  }

  /** The loop makes `ceil((count - sent) / max)` passes. */
  lemma {:induction false} StepsCount(count: int, max: int, sent: int)
    requires max > 0 && 0 <= sent <= count
    ensures |Steps(count, max, sent)| == (count - sent + max - 1) / max
    decreases count - sent
  {
    if sent == count {
      DivIs(max - 1, max, 0);
    } else {
      var end := Min(max, count - sent);
      StepsCount(count, max, sent + end);
      if end == max {
        DivShift(count - sent - 1, max);
      } else {
        DivIs(max - 1, max, 0);
        DivIs(count - sent + max - 1, max, 1);
      }
    }
  }

  /** The first pass over an oversized payload asks for exactly `data[0..<max]`. */
  lemma FirstStep(count: int, max: int)
    requires 0 < max < count
    ensures Steps(count, max, 0)[0] == Step(0, max)
  {
  }

  /** The slices are well-formed only for a payload of exactly twice the maximum, and then
      the second slice is the empty `data[max..<max]`; for every other oversized payload
      some slice is inverted: the second when `count < 2*max`, the third when `count > 2*max`. */
  lemma {:induction false} InvertedUnlessDouble(count: int, max: int)
    requires 0 < max < count
    ensures count == 2 * max ==> Steps(count, max, 0) == [Step(0, max), Step(max, max)]
    ensures count < 2 * max ==> |Steps(count, max, 0)| == 2 && Steps(count, max, 0)[1].Inverted()
    ensures count > 2 * max ==> |Steps(count, max, 0)| >= 3 && Steps(count, max, 0)[2].Inverted()
    ensures (forall i :: 0 <= i < |Steps(count, max, 0)| ==> !Steps(count, max, 0)[i].Inverted())
            <==> count == 2 * max
  {
    var s := Steps(count, max, 0);
    assert s == [Step(0, max)] + Steps(count, max, max);
    if count < 2 * max {
      assert Steps(count, max, max) == [Step(max, count - max)] + Steps(count, max, count);
      assert s[1].Inverted();
    } else if count == 2 * max {
      assert Steps(count, max, max) == [Step(max, max)] + Steps(count, max, 2 * max);
    } else {
      assert Steps(count, max, max) == [Step(max, max)] + Steps(count, max, 2 * max);
      var end := Min(max, count - 2 * max);
      assert Steps(count, max, 2 * max) == [Step(2 * max, end)] + Steps(count, max, 2 * max + end);
      assert s[2] == Step(2 * max, end);
      assert s[2].Inverted();
    }
  }

  /** What the loop does with the slice of one pass. */
  datatype Outcome =
    | Finished   // the loop left normally
    | Trapped    // forming an inverted range trapped: the process stops
    | Spins      // `end == 0`: `sandSize` never moves and the loop never ends

  /** A well-formed slice `data[lower..<upper]` that was sent. */
  datatype Slice = Slice(lower: nat, upper: nat)

  datatype RunResult = RunResult(slices: seq<Slice>, outcome: Outcome)

  /** The run of the loop from `sent` bytes counted on, for any maximum: the slices it sends,
      in order, and how it ends. A pass whose `end` is 0 is recorded once and reported as
      `Spins`, since it would repeat forever. */
  function Run(count: nat, max: int, sent: nat): (r: RunResult)
    requires sent <= count
    decreases count - sent
    ensures forall i :: 0 <= i < |r.slices| ==> r.slices[i].lower <= r.slices[i].upper <= count
  {
    if sent >= count then RunResult([], Finished)
    else
      var end := Min(max, count - sent);
      if sent > end then RunResult([], Trapped)
      else if end == 0 then RunResult([Slice(0, 0)], Spins)
      else
        var rest := Run(count, max, sent + end);
        RunResult([Slice(sent, end)] + rest.slices, rest.outcome)
  }

  /** One pass of the loop from `sent`: it traps, spins or sends `[sent, end)` and goes on. */
  lemma RunStep(count: nat, max: int, sent: nat)
    requires sent < count
    ensures var end := Min(max, count - sent);
      && (sent > end ==> Run(count, max, sent) == RunResult([], Trapped))
      && (sent <= end && end == 0 ==> Run(count, max, sent) == RunResult([Slice(sent, end)], Spins))
      && (sent <= end && end != 0 ==>
            Run(count, max, sent) == RunResult([Slice(sent, end)] + Run(count, max, sent + end).slices,
                                               Run(count, max, sent + end).outcome))
  {
  }

  /** The steps up to the first inverted one, as slices, and whether one was inverted. */
  function UntilInverted(steps: seq<Step>): RunResult
  {
    if steps == [] then RunResult([], Finished)
    else if steps[0].Inverted() || steps[0].prefix < 0 then RunResult([], Trapped)
    else
      var rest := UntilInverted(steps[1..]);
      RunResult([Slice(steps[0].prefix, steps[0].end)] + rest.slices, rest.outcome)
  }

  /** For a positive maximum the loop sends the counter's slices until the first inverted one,
      and it finishes exactly when no slice is inverted. */
  lemma {:induction false} RunFollowsSteps(count: nat, max: int, sent: nat)
    requires max > 0 && sent <= count
    ensures Run(count, max, sent) == UntilInverted(Steps(count, max, sent))
    decreases count - sent
  {
    if sent < count {
      var end := Min(max, count - sent);
      var steps := Steps(count, max, sent);
      assert steps[0] == Step(sent, end) && steps[1..] == Steps(count, max, sent + end);
      if sent <= end {
        RunFollowsSteps(count, max, sent + end);
      }
    }
  }

  /** The whole run for an oversized payload and a positive maximum. */
  lemma {:induction false} RunOversized(count: nat, max: int)
    requires 0 < max < count
    ensures count == 2 * max ==> Run(count, max, 0) == RunResult([Slice(0, max), Slice(max, max)], Finished)
    ensures count < 2 * max ==> Run(count, max, 0) == RunResult([Slice(0, max)], Trapped)
    ensures count > 2 * max ==> Run(count, max, 0) == RunResult([Slice(0, max), Slice(max, max)], Trapped)
  {
    assert Run(count, max, 0).slices == [Slice(0, max)] + Run(count, max, max).slices;
    if count > 2 * max {
      assert Run(count, max, max).slices == [Slice(max, max)] + Run(count, max, 2 * max).slices;
      assert Run(count, max, 2 * max) == RunResult([], Trapped);
    } else if count == 2 * max {
      assert Run(count, max, max).slices == [Slice(max, max)] + Run(count, max, 2 * max).slices;
    }
  }

  /** The bytes handed to the transport, slice after slice. */
  function Payload(data: Bytes, slices: seq<Slice>): Bytes
    requires forall i :: 0 <= i < |slices| ==> slices[i].lower <= slices[i].upper <= |data|
  {
    if slices == [] then [] else data[slices[0].lower..slices[0].upper] + Payload(data, slices[1..])
  }

  /** Of a payload larger than a positive maximum, only its first `max` bytes ever reach the
      transport, whatever its length; a payload of exactly `2*max` bytes finishes the loop
      without its second half having been sent. */
  lemma OnlyFirstChunkSent(data: Bytes, max: int)
    requires 0 < max < |data|
    ensures Payload(data, Run(|data|, max, 0).slices) == data[..max]
    ensures Run(|data|, max, 0).outcome == Finished <==> |data| == 2 * max
  {
    RunOversized(|data|, max);
    var slices := Run(|data|, max, 0).slices;
    if |slices| == 2 {
      assert Payload(data, slices) == data[0..max] + (data[max..max] + Payload(data, []));
    } else {
      assert Payload(data, slices) == data[0..max] + Payload(data, []);
    }
  }

  /** A zero maximum never lets an oversized payload leave the loop; a negative one traps on
      the first slice. */
  lemma NonPositiveMaximum(count: nat, max: int)
    requires max <= 0 && count > 0
    ensures max == 0 ==> Run(count, max, 0) == RunResult([Slice(0, 0)], Spins)
    ensures max < 0 ==> Run(count, max, 0) == RunResult([], Trapped)
  {
  }
}
