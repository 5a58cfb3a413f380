/** The pool's only producer: a rotating, bounded collection of claims over all task formats. */
module Poller {
  import opened Wrappers
  import opened Counting
  import opened LeaseBudget
  import opened Modular
  import opened TaskQueue

  /** A claimed delivery with the local deadline anchored before its claim. */
  datatype LeasedTask = LeasedTask(id: RowId, token: Token, anchor: Instant, deadline: Instant)

  datatype ClaimError = Storage | TimedOut | InvalidDelivery

  /** What the queue answers to one call; a call cut off by the shared deadline is an error. */
  type Answer = Result<seq<LeasedTask>, ClaimError>

  const USIZE: nat := 0x1_0000_0000_0000_0000

  function WrappingAdd(a: nat, b: nat): (r: nat)
    ensures r < USIZE
  {
    (a + b) % 0x1_0000_0000_0000_0000
  }

  function FormatIndex(start: nat, offset: nat, count: nat): (i: nat)
    requires count > 0
    ensures i < count
  {
    WrappingAdd(start, offset) % count
  }

  /** Deliveries of the first `n` answers, in order. */
  function Confirmed(answers: seq<Answer>, n: nat): seq<LeasedTask>
    requires n <= |answers|
  {
    if n == 0 then []
    else Confirmed(answers, n - 1) + if answers[n - 1].Ok? then answers[n - 1].value else []
  }

  /** Every delivery of every confirmed answer is in the batch, at the place its answer and its order there give it. */
  lemma {:induction false} ConfirmedIsConcatenation(answers: seq<Answer>, n: nat, k: nat)
    requires k < n <= |answers|
    ensures Confirmed(answers, k) <= Confirmed(answers, k + 1) <= Confirmed(answers, n)
    ensures Confirmed(answers, k + 1)[|Confirmed(answers, k)|..] == if answers[k].Ok? then answers[k].value else []
  {
    if k + 1 < n {
      ConfirmedIsConcatenation(answers, n - 1, k);
    }
  }

  /** The answer to the call at offset `k` honours the limit that was passed with it. */
  predicate Honours(answers: seq<Answer>, limit: nat, k: nat)
    requires k < |answers|
  {
    answers[k].Ok? && |Confirmed(answers, k)| <= limit ==> |Confirmed(answers, k)| + |answers[k].value| <= limit
  }

  predicate HonoursLimit(answers: seq<Answer>, limit: nat) {
    forall k {:trigger Honours(answers, limit, k)} :: 0 <= k < |answers| ==> Honours(answers, limit, k)
  }

  datatype Call = Call(format: Format, limit: nat)

  /** The first `n` formats of a pass, in rotated order. */
  function Pass(formats: seq<Format>, start: nat, n: nat): (pass: seq<Format>)
    requires n <= |formats|
    ensures |pass| == n
  {
    if n == 0 then [] else Pass(formats, start, n - 1) + [formats[FormatIndex(start, n - 1, |formats|)]]
  }

  lemma {:induction false} PassAt(formats: seq<Format>, start: nat, n: nat, k: nat)
    requires k < n <= |formats|
    ensures Pass(formats, start, n)[k] == formats[FormatIndex(start, k, |formats|)]
  {
    if k < n - 1 {
      PassAt(formats, start, n - 1, k);
    }
  }

  /** The calls of a pass follow its formats, each asking for what is still missing. */
  ghost predicate Follows(calls: seq<Call>, pass: seq<Format>, answers: seq<Answer>, limit: nat)
    requires |calls| <= |pass| == |answers|
  {
    forall k {:trigger calls[k]} :: 0 <= k < |calls| ==>
      calls[k].format == pass[k] && calls[k].limit == limit - |Confirmed(answers, k)| > 0
  }

  lemma FollowsExtend(calls: seq<Call>, call: Call, pass: seq<Format>, answers: seq<Answer>, limit: nat)
    requires |calls| < |pass| == |answers| && Follows(calls, pass, answers, limit)
    requires call.format == pass[|calls|] && call.limit == limit - |Confirmed(answers, |calls|)| > 0
    ensures Follows(calls + [call], pass, answers, limit)
  {
    var calls' := calls + [call];
    forall k {:trigger calls'[k]} | 0 <= k < |calls'|
      ensures calls'[k].format == pass[k] && calls'[k].limit == limit - |Confirmed(answers, k)| > 0
    {
      if k < |calls| {
        assert calls'[k] == calls[k];
      }
    }
  }

  /** The first call that failed before anything was claimed, if any. */
  ghost predicate FailsAt(answers: seq<Answer>, k: nat) {
    k < |answers| && answers[k].Err? && (forall j :: 0 <= j < k ==> answers[j] == Ok([]))
  }

  class Poller {
    const formats: seq<Format>
    var nextFormatStart: nat

    ghost predicate Valid()
      reads this
    {
      nextFormatStart < USIZE
    }

    constructor (formats: seq<Format>)
      ensures Valid() && this.formats == formats && nextFormatStart == 0
    {
      this.formats := formats;
      nextFormatStart := 0;
    }

    method FormatAt(start: nat, offset: nat) returns (format: Format)
      requires offset < |formats|
      ensures format == Pass(formats, start, |formats|)[offset]
    {
      PassAt(formats, start, |formats|, offset);
      format := formats[WrappingAdd(start, offset) % |formats|];
    }

    /**
     * One rotating pass. `answers[k]` is what the queue answers to the call for the format at offset
     * `k`; `calls` are the calls actually made.
     */
    method Claim(limit: nat, answers: seq<Answer>) returns (r: Answer, calls: seq<Call>)
      requires Valid() && |answers| == |formats| && HonoursLimit(answers, limit)
      modifies this`nextFormatStart
      ensures Valid() && nextFormatStart == WrappingAdd(old(nextFormatStart), 1)
      ensures |calls| <= |formats| && Follows(calls, Pass(formats, old(nextFormatStart), |formats|), answers, limit)
      ensures r.Ok? ==> |r.value| <= limit && r.value == Confirmed(answers, |calls|)
      ensures r.Ok? ==> |calls| == |formats| || |r.value| == limit || (|r.value| > 0 && answers[|calls| - 1].Err?)
      ensures r.Err? ==> |calls| > 0 && FailsAt(answers, |calls| - 1) && r == answers[|calls| - 1]
      ensures r.Ok? && limit > 0 ==> forall k: nat :: !FailsAt(answers, k)
    {
      var claimed: seq<LeasedTask> := [];
      var count := |formats|;
      var start := nextFormatStart;
      nextFormatStart := WrappingAdd(start, 1);
      calls := [];
      ghost var pass := Pass(formats, start, count);
      ghost var first := 0;
      for offset := 0 to count
        invariant nextFormatStart == WrappingAdd(start, 1)
        invariant |calls| == offset && Follows(calls, pass, answers, limit)
        invariant claimed == Confirmed(answers, offset) && |claimed| <= limit
        invariant forall k :: 0 <= k < offset ==> answers[k].Ok?
        invariant claimed == [] ==> forall k :: 0 <= k < offset ==> answers[k] == Ok([])
        invariant claimed != [] ==> first < offset && answers[first] != Ok([])
      {
        if |claimed| == limit {
          return Ok(claimed), calls;
        }
        var format := FormatAt(start, offset);
        var call := Call(format, limit - |claimed|);
        FollowsExtend(calls, call, pass, answers, limit);
        calls := calls + [call];
        var result := answers[offset];
        assert Honours(answers, limit, offset);
        if result.Ok? {
          first := if claimed == [] then offset else first;
          claimed := claimed + result.value;
        } else if claimed != [] {
          return Ok(claimed), calls;
        } else {
          assert FailsAt(answers, offset);
          return Err(result.error), calls;
        }
      }
      return Ok(claimed), calls;
    }
  }

  // ---------- Rotation ----------

  /** A pass of `count` offsets names every format at most once. */
  ghost predicate Distinct(start: nat, count: nat)
    requires count > 0
  {
    forall j, k :: 0 <= j < k < count ==> FormatIndex(start, j, count) != FormatIndex(start, k, count)
  }

  /** Past the wrap the index restarts from zero; before it, it counts up to the wrap. */
  lemma WrappedIndex(start: nat, offset: nat, count: nat)
    requires start < USIZE && offset < count <= USIZE
    ensures FormatIndex(start, offset, count) ==
      if start + offset >= USIZE then start + offset - USIZE else (start + offset) % count
  {
    if start + offset >= USIZE {
      DivisionIsUnique(start + offset, 1, start + offset - USIZE, USIZE);
      SmallModulo(start + offset - USIZE, count);
    } else {
      SmallModulo(start + offset, USIZE);
    }
  }

  /** Two offsets whose plain sums decide their indices name different formats. */
  lemma PlainSumsDiffer(start: nat, j: nat, k: nat, count: nat)
    requires j < k < count
    requires FormatIndex(start, j, count) == (start + j) % count && FormatIndex(start, k, count) == (start + k) % count
    ensures FormatIndex(start, j, count) != FormatIndex(start, k, count)
  {
    var a, b := start + j, start + k;
    if a % count == b % count {
      CloseAndCongruent(a, b, count);
    }
  }

  lemma DistinctWithoutWrap(start: nat, count: nat)
    requires 0 < count <= USIZE && start < USIZE && start + count <= USIZE
    ensures Distinct(start, count)
  {
    forall j, k | 0 <= j < k < count
      ensures FormatIndex(start, j, count) != FormatIndex(start, k, count)
    {
      WrappedIndex(start, j, count);
      WrappedIndex(start, k, count);
      PlainSumsDiffer(start, j, k, count);
    }
  }

  lemma DistinctWhenWrapIsSeamless(start: nat, count: nat)
    requires 0 < count <= USIZE && start < USIZE && USIZE % count == 0
    ensures Distinct(start, count)
  {
    forall j, k | 0 <= j < k < count
      ensures FormatIndex(start, j, count) != FormatIndex(start, k, count)
    {
      SeamlessIndex(start, j, count);
      SeamlessIndex(start, k, count);
      PlainSumsDiffer(start, j, k, count);
    }
  }

  lemma SeamlessIndex(start: nat, offset: nat, count: nat)
    requires count > 0 && start < USIZE && offset < count <= USIZE && USIZE % count == 0
    ensures FormatIndex(start, offset, count) == (start + offset) % count
  {
    if start + offset >= USIZE {
      WrappedIndex(start, offset, count);
      ModuloAdd(USIZE, start + offset - USIZE, count);
    }
  }

  /** A number with remainder `r` exceeds by `r` a multiple, so steps back by less than that keep the rest. */
  lemma RemainderBefore(n: nat, back: nat, count: nat)
    requires count > 0 && back <= n % count
    ensures n >= back && (n - back) % count == n % count - back
  {
    assert n == n / count * count + n % count;
    DivisionIsUnique(n - back, n / count, n % count - back, count);
  }

  /** With `m` offsets before the wrap and `r` left over, two offsets meet on one index. */
  lemma CollisionAtWrap(start: nat, count: nat) returns (j: nat, k: nat)
    requires 0 < count <= USIZE && start < USIZE < start + count && USIZE % count != 0
    ensures j < k < count && FormatIndex(start, j, count) == FormatIndex(start, k, count)
  {
    var m, r := USIZE - start, USIZE % count;
    if r <= m {
      j, k := m - r, m;
      RemainderBefore(USIZE, r, count);
    } else {
      j, k := 0, r;
      RemainderBefore(USIZE, m, count);
    }
    WrappedIndex(start, j, count);
    WrappedIndex(start, k, count);
  }

  /**
   * Exactly when a pass names each format at most once: the counter does not wrap inside the pass, or
   * the number of formats divides the counter's range.
   */
  lemma PassesVisitOnce(start: nat, count: nat)
    requires 0 < count <= USIZE && start < USIZE
    ensures Distinct(start, count) <==> start + count <= USIZE || USIZE % count == 0
  {
    if start + count <= USIZE {
      DistinctWithoutWrap(start, count);
    } else if USIZE % count == 0 {
      DistinctWhenWrapIsSeamless(start, count);
    } else {
      var j, k := CollisionAtWrap(start, count);
    }
  }

  /** Start of the `n`-th of successive calls. */
  function StartAfter(start: nat, n: nat): nat {
    if n == 0 then start else WrappingAdd(StartAfter(start, n - 1), 1)
  }

  /** The first format of the `n`-th successive call is the one at offset `n` of the first call. */
  lemma {:induction false} FirstFormatRotates(start: nat, n: nat, count: nat)
    requires count > 0 && start < USIZE
    ensures StartAfter(start, n) == WrappingAdd(start, n)
    ensures FormatIndex(StartAfter(start, n), 0, count) == FormatIndex(start, n, count)
  {
    if n > 0 {
      FirstFormatRotates(start, n - 1, count);
      ModuloAdd(start + (n - 1), 1, USIZE);
    }
    ModuloAdd(start + n, 0, USIZE);
  }

  /** Indices of the formats that come first in `count` successive calls. */
  function Firsts(start: nat, count: nat): (firsts: seq<nat>)
    requires count > 0
    ensures |firsts| == count
    ensures forall n :: 0 <= n < count ==> firsts[n] == FormatIndex(StartAfter(start, n), 0, count)
  {
    seq(count, n requires 0 <= n < count => FormatIndex(StartAfter(start, n), 0, count))
  }

  lemma FirstsFollowPass(start: nat, count: nat)
    requires count > 0 && start < USIZE
    ensures forall n :: 0 <= n < count ==> Firsts(start, count)[n] == FormatIndex(start, n, count)
  {
    forall n | 0 <= n < count
      ensures Firsts(start, count)[n] == FormatIndex(start, n, count)
    {
      FirstFormatRotates(start, n, count);
    }
  }

  lemma FirstsUnique(start: nat, count: nat)
    requires 0 < count && start < USIZE
    ensures Unique(Firsts(start, count)) <==> Distinct(start, count)
  {
    FirstsFollowPass(start, count);
    var firsts := Firsts(start, count);
    if Unique(firsts) {
      forall j, k | 0 <= j < k < count
        ensures FormatIndex(start, j, count) != FormatIndex(start, k, count)
      {
        assert firsts[j] != firsts[k];
      }
    } else {
      var j, k :| 0 <= j < k < |firsts| && firsts[j] == firsts[k];
      assert FormatIndex(start, j, count) == FormatIndex(start, k, count);
    }
  }

  /**
   * In `count` successive calls every format comes first exactly once if and only if the counter does
   * not wrap among them or the number of formats divides its range; otherwise some format is never first.
   */
  lemma EachFormatFirstOnce(start: nat, count: nat)
    requires 0 < count <= USIZE && start < USIZE
    ensures var fair := start + count <= USIZE || USIZE % count == 0;
      && (fair <==> Unique(Firsts(start, count)))
      && (fair <==> forall f: nat :: f < count ==> f in Firsts(start, count))
  {
    PassesVisitOnce(start, count);
    FirstsUnique(start, count);
    Pigeonhole(Firsts(start, count));
  }
}
