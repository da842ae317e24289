/**
 The touch-count de-duplication latch. The driver reports a sustained touch
 once, on the first poll that sees it, and 0 on every later poll until the
 count falls back to 0; a raw count above two is treated as no touch.
 */
module Latch {

  import opened Bus

  /** The clamp: the controllers report at most two touches, so a larger raw
      count is sensor noise and counts as no touch. */
  function Normalize(raw: bv8): (n: int)
    ensures 0 <= n <= 2
    ensures raw as int <= 2 ==> n == raw as int
    ensures n == 0 <==> raw == 0 || raw as int > 2
  {
    var touchCount := raw as int;
    if touchCount > 2 then 0 else touchCount
  }

  /** What one poll returns, and the latch afterwards. */
  datatype Step = Step(count: int, latched: bool)

  /** One poll of the touch count. `read` is the byte read, or None when the
      register read failed, in which case the latch is left as it was. */
  function Poll(latched: bool, read: Option<bv8>): (s: Step)
    ensures read.None? ==> s == Step(0, latched)
    ensures read.Some? ==> s.latched == (Normalize(read.value) > 0)
    ensures read.Some? ==> s.count == if latched then 0 else Normalize(read.value)
    ensures 0 <= s.count <= 2
    ensures s.count != 0 <==> !latched && s.latched
  {
    match read
    case None => Step(0, latched)
    case Some(raw) =>
      var touchCount := Normalize(raw);
      if latched && touchCount == 0 then Step(0, false)
      else if latched then Step(0, true)
      else if touchCount > 0 && touchCount < 3 then Step(touchCount, true)
      else Step(touchCount, false)
  }

  /** A count above two is handled exactly like a lifted finger, including
      releasing a held latch. */
  lemma NoiseActsAsLift(latched: bool, raw: bv8)
    requires raw as int > 2
    ensures Poll(latched, Some(raw)) == Poll(latched, Some(0))
    ensures Poll(latched, Some(raw)) == Step(0, false)
  {
  }

  /** The counts returned by a series of polls, and the latch at the end. */
  datatype Polls = Polls(counts: seq<int>, latched: bool)

  function Run(latched: bool, samples: seq<Option<bv8>>): (r: Polls)
    ensures |r.counts| == |samples|
    ensures forall i :: 0 <= i < |r.counts| ==> 0 <= r.counts[i] <= 2
    decreases |samples|
  {
    if samples == [] then Polls([], latched)
    else
      var s := Poll(latched, samples[0]);
      var rest := Run(s.latched, samples[1..]);
      Polls([s.count] + rest.counts, rest.latched)
  }

  /** A successful read whose clamped count is 0: the finger was lifted. */
  predicate IsLift(read: Option<bv8>) {
    read.Some? && Normalize(read.value) == 0
  }

  /** A successful read whose clamped count is 1 or 2: a finger is down. */
  predicate IsTouch(read: Option<bv8>) {
    read.Some? && Normalize(read.value) > 0
  }

  /** Reference view of the latch after a series of polls: it is set exactly
      when the last successful read saw a touch; failed reads do not count,
      and with no successful read it keeps its initial value. */
  function LatchAfter(latched: bool, samples: seq<Option<bv8>>): bool
    decreases |samples|
  {
    if samples == [] then latched
    else if samples[|samples| - 1].None? then LatchAfter(latched, samples[..|samples| - 1])
    else IsTouch(samples[|samples| - 1])
  }

  /** Taking the first poll off the front of a series. */
  lemma {:induction false} LatchAfterCons(latched: bool, read: Option<bv8>, rest: seq<Option<bv8>>)
    ensures LatchAfter(latched, [read] + rest) == LatchAfter(Poll(latched, read).latched, rest)
    decreases |rest|
  {
    var all := [read] + rest;
    if rest == [] {
      assert all[..0] == [];
    } else {
      var n := |rest| - 1;
      assert all[|all| - 1] == rest[n];
      assert all[..|all| - 1] == [read] + rest[..n];
      LatchAfterCons(latched, read, rest[..n]);
    }
  }

  /** The latch the polls leave behind is the reference latch. */
  lemma {:induction false} RunLatch(latched: bool, samples: seq<Option<bv8>>)
    ensures Run(latched, samples).latched == LatchAfter(latched, samples)
    decreases |samples|
  {
    if samples != [] {
      assert samples == [samples[0]] + samples[1..];
      RunLatch(Poll(latched, samples[0]).latched, samples[1..]);
      LatchAfterCons(latched, samples[0], samples[1..]);
    }
  }

  /** Poll i reports the clamped count exactly when its read succeeded and
      the latch before it, as the reference defines it, was clear. */
  lemma {:induction false} RunAt(latched: bool, samples: seq<Option<bv8>>, i: nat)
    requires i < |samples|
    ensures Run(latched, samples).counts[i] ==
      if samples[i].None? || LatchAfter(latched, samples[..i]) then 0 else Normalize(samples[i].value)
    ensures 0 <= Run(latched, samples).counts[i] <= 2
    decreases i
  {
    if i == 0 {
      assert samples[..0] == [];
    } else {
      var s := Poll(latched, samples[0]);
      RunAt(s.latched, samples[1..], i - 1);
      assert samples[..i] == [samples[0]] + samples[1..][..i - 1];
      LatchAfterCons(latched, samples[0], samples[1..][..i - 1]);
    }
  }

  /** Once a touch has been seen, the latch stays set until a lift is read. */
  lemma {:induction false} LatchHeld(latched: bool, samples: seq<Option<bv8>>, i: nat, j: nat)
    requires i < j <= |samples|
    requires IsTouch(samples[i])
    requires forall k :: i < k < j ==> !IsLift(samples[k])
    ensures LatchAfter(latched, samples[..j])
    decreases j
  {
    var prefix := samples[..j];
    assert prefix[|prefix| - 1] == samples[j - 1];
    if j > i + 1 && samples[j - 1].None? {
      assert prefix[..|prefix| - 1] == samples[..j - 1];
      LatchHeld(latched, samples, i, j - 1);
    }
  }

  /** A sustained touch is reported once: between any two polls that report
      a touch there is a poll that read a lift. */
  lemma {:induction false} ReportedOnce(latched: bool, samples: seq<Option<bv8>>, i: nat, j: nat)
    requires i < j < |samples|
    requires Run(latched, samples).counts[i] != 0 && Run(latched, samples).counts[j] != 0
    ensures exists k :: i < k < j && IsLift(samples[k])
  {
    RunAt(latched, samples, i);
    RunAt(latched, samples, j);
    if forall k :: i < k < j ==> !IsLift(samples[k]) {
      LatchHeld(latched, samples, i, j);
      assert false;
    }
  }

  /** The latch is reusable: a touch read right after a lift is reported. */
  lemma {:induction false} ReportedAfterLift(latched: bool, samples: seq<Option<bv8>>, k: nat)
    requires k + 1 < |samples|
    requires IsLift(samples[k]) && IsTouch(samples[k + 1])
    ensures Run(latched, samples).counts[k + 1] == Normalize(samples[k + 1].value)
  {
    RunAt(latched, samples, k + 1);
    var prefix := samples[..k + 1];
    assert prefix[|prefix| - 1] == samples[k];
  }

  /** The two worked examples: a held touch is reported once, and a touch
      after a lift is reported again. */
  lemma Examples()
    ensures Run(false, [Some(0), Some(1), Some(1), Some(1), Some(0)]).counts == [0, 1, 0, 0, 0]
    ensures Run(false, [Some(1), Some(1), Some(0), Some(1)]).counts == [1, 0, 0, 1]
  {
  }
}
