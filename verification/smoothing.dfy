/**
 * The tuner's frequency smoother (`addToBuffer` / `smoothedFrequency` in
 * `TunaViewModel`): a window of at most seven recent pitch estimates that is
 * restarted on a jump of more than 30 Hz, read out as its upper median.
 */
module Smoothing {
  import opened Wrappers

  const Capacity := 7
  const JumpThreshold: real := 30.0

  /** A new estimate more than 30 Hz from the last one starts a new note. */
  predicate IsJump(buffer: seq<real>, f: real) {
    |buffer| > 0 && Abs(f - buffer[|buffer| - 1]) > JumpThreshold
  }

  /** Adjacent entries are at most 30 Hz apart. */
  predicate Continuous(buffer: seq<real>) {
    forall i :: 0 < i < |buffer| ==> Abs(buffer[i] - buffer[i - 1]) <= JumpThreshold
  }

  /** The invariant every buffer the tuner builds satisfies. */
  predicate Valid(buffer: seq<real>) {
    |buffer| <= Capacity && Continuous(buffer)
  }

  function AddToBuffer(buffer: seq<real>, f: real): (r: seq<real>)
    ensures |r| >= 1 && r[|r| - 1] == f
    ensures IsJump(buffer, f) ==> r == [f]
    ensures !IsJump(buffer, f) ==>
      && |r| == (if |buffer| + 1 > Capacity then |buffer| else |buffer| + 1)
      && r == (buffer + [f])[|buffer| + 1 - |r|..]
    ensures |buffer| <= Capacity ==> |r| <= Capacity
  {
    if IsJump(buffer, f) then [f]
    else
      var appended := buffer + [f];
      if |appended| > Capacity then appended[1..] else appended
  }

  lemma SuffixContinuous(s: seq<real>, k: nat)
    requires k <= |s| && Continuous(s)
    ensures Continuous(s[k..])
  {
    forall i | 0 < i < |s[k..]| ensures Abs(s[k..][i] - s[k..][i - 1]) <= JumpThreshold {
      assert s[k..][i] == s[k + i] && s[k..][i - 1] == s[k + i - 1];
    }
  }

  /** `AddToBuffer` keeps the buffer within seven entries and continuous. */
  lemma AddPreservesValid(buffer: seq<real>, f: real)
    requires Valid(buffer)
    ensures Valid(AddToBuffer(buffer, f))
  {
    if !IsJump(buffer, f) {
      var appended := buffer + [f];
      assert Continuous(appended) by {
        forall i | 0 < i < |appended| ensures Abs(appended[i] - appended[i - 1]) <= JumpThreshold {
          if i < |buffer| {
            assert appended[i] == buffer[i] && appended[i - 1] == buffer[i - 1];
          }
        }
      }
      SuffixContinuous(appended, |appended| - |AddToBuffer(buffer, f)|);
    }
  }

  predicate Sorted(s: seq<real>) {
    forall i, j :: 0 <= i < j < |s| ==> s[i] <= s[j]
  }

  function Insert(x: real, s: seq<real>): (r: seq<real>)
    requires Sorted(s)
    ensures Sorted(r)
    ensures multiset(r) == multiset(s) + multiset{x}
  {
    if |s| == 0 || x <= s[0] then [x] + s
    else
      var rest := Insert(x, s[1..]);
      assert multiset(rest) == multiset(s[1..]) + multiset{x};
      assert s == [s[0]] + s[1..];
      assert forall k :: 0 <= k < |rest| ==> s[0] <= rest[k] by {
        forall k | 0 <= k < |rest| ensures s[0] <= rest[k] {
          assert rest[k] in multiset(rest);
        }
      }
      [s[0]] + rest
  }

  /** `buffer.sorted()`: an ascending permutation. */
  function Sort(s: seq<real>): (r: seq<real>)
    ensures Sorted(r)
    ensures multiset(r) == multiset(s)
  {
    if |s| == 0 then []
    else
      assert s == [s[0]] + s[1..];
      Insert(s[0], Sort(s[1..]))
  }

  /** Number of entries strictly below `v`. */
  function CountBelow(s: seq<real>, v: real): nat {
    if |s| == 0 then 0 else (if s[0] < v then 1 else 0) + CountBelow(s[1..], v)
  }

  /** Number of entries at most `v`. */
  function CountAtMost(s: seq<real>, v: real): nat {
    if |s| == 0 then 0 else (if s[0] <= v then 1 else 0) + CountAtMost(s[1..], v)
  }

  lemma {:induction false} InsertCounts(x: real, s: seq<real>, v: real)
    requires Sorted(s)
    ensures CountBelow(Insert(x, s), v) == CountBelow(s, v) + (if x < v then 1 else 0)
    ensures CountAtMost(Insert(x, s), v) == CountAtMost(s, v) + (if x <= v then 1 else 0)
    decreases |s|
  {
    if |s| == 0 || x <= s[0] {
      assert ([x] + s)[1..] == s;
    } else {
      InsertCounts(x, s[1..], v);
      assert ([s[0]] + Insert(x, s[1..]))[1..] == Insert(x, s[1..]);
    }
  }

  /** Sorting does not change how many entries lie below a value. */
  lemma {:induction false} SortCounts(s: seq<real>, v: real)
    ensures CountBelow(Sort(s), v) == CountBelow(s, v)
    ensures CountAtMost(Sort(s), v) == CountAtMost(s, v)
    decreases |s|
  {
    if |s| > 0 {
      SortCounts(s[1..], v);
      InsertCounts(s[0], Sort(s[1..]), v);
    }
  }

  /** In an ascending sequence, s[k] has at most k entries below it and more than k at most it. */
  lemma {:induction false} SortedRank(s: seq<real>, k: nat)
    requires Sorted(s) && k < |s|
    ensures CountBelow(s, s[k]) <= k < CountAtMost(s, s[k])
    decreases |s|
  {
    if k == 0 {
      BelowMinimumIsNone(s, s[0]);
    } else {
      SortedRank(s[1..], k - 1);
      assert s[1..][k - 1] == s[k];
    }
  }

  lemma {:induction false} BelowMinimumIsNone(s: seq<real>, v: real)
    requires forall i :: 0 <= i < |s| ==> v <= s[i]
    ensures CountBelow(s, v) == 0
    decreases |s|
  {
    if |s| > 0 {
      BelowMinimumIsNone(s[1..], v);
    }
  }

  /**
   * `smoothedFrequency`: absent for an empty buffer, otherwise the entry at
   * position count/2 of the sorted buffer — the upper median, an entry with
   * at most count/2 entries below it and more than count/2 at most it.
   */
  function SmoothedFrequency(buffer: seq<real>): (r: Option<real>)
    ensures r.None? <==> |buffer| == 0
    ensures r.Some? ==> r.value in buffer
    ensures r.Some? ==> CountBelow(buffer, r.value) <= |buffer| / 2 < CountAtMost(buffer, r.value)
  {
    if |buffer| == 0 then None
    else
      var sorted := Sort(buffer);
      assert |sorted| == |multiset(sorted)| == |buffer|;
      var v := sorted[|buffer| / 2];
      assert v in multiset(buffer) by { assert v in multiset(sorted); }
      SortedRank(sorted, |buffer| / 2);
      SortCounts(buffer, v);
      Some(v)
  }

  lemma {:induction false} CountsSeparate(s: seq<real>, u: real, v: real)
    requires u < v
    ensures CountAtMost(s, u) <= CountBelow(s, v)
    decreases |s|
  {
    if |s| > 0 {
      CountsSeparate(s[1..], u, v);
    }
  }

  /**
   * The rank condition pins the median down: no other value has at most
   * count/2 entries below it and more than count/2 at most it.
   */
  lemma MedianUnique(buffer: seq<real>, v: real)
    requires |buffer| > 0
    requires CountBelow(buffer, v) <= |buffer| / 2 < CountAtMost(buffer, v)
    ensures SmoothedFrequency(buffer) == Some(v)
  {
    var m := SmoothedFrequency(buffer).value;
    if m < v {
      CountsSeparate(buffer, m, v);
    } else if v < m {
      CountsSeparate(buffer, v, m);
    }
  }

  /** A 40 Hz jump restarts the buffer with the new pitch alone. */
  lemma JumpExample()
    ensures AddToBuffer(AddToBuffer([], 100.0), 140.0) == [140.0]
  {
    assert AddToBuffer([], 100.0) == [100.0];
    assert IsJump([100.0], 140.0);
  }

  /** Without a jump, a buffer with room left just grows by the new pitch. */
  lemma AppendWithRoom(buffer: seq<real>, f: real)
    requires |buffer| < Capacity && !IsJump(buffer, f)
    ensures AddToBuffer(buffer, f) == buffer + [f]
  {
  }

  /** Pitches within 30 Hz of each other accumulate in arrival order. */
  lemma SteadyExample()
    ensures AddToBuffer(AddToBuffer(AddToBuffer(AddToBuffer([], 100.0), 101.0), 99.0), 102.0) == [100.0, 101.0, 99.0, 102.0]
  {
    AppendWithRoom([], 100.0);
    assert [] + [100.0] == [100.0];
    AppendWithRoom([100.0], 101.0);
    assert [100.0] + [101.0] == [100.0, 101.0];
    AppendWithRoom([100.0, 101.0], 99.0);
    assert [100.0, 101.0] + [99.0] == [100.0, 101.0, 99.0];
    AppendWithRoom([100.0, 101.0, 99.0], 102.0);
    assert [100.0, 101.0, 99.0] + [102.0] == [100.0, 101.0, 99.0, 102.0];
  }

  /** The worked example: [100, 101, 99, 102] reads out 101. */
  lemma MedianExample()
    ensures SmoothedFrequency([100.0, 101.0, 99.0, 102.0]) == Some(101.0)
  {
    MedianUnique([100.0, 101.0, 99.0, 102.0], 101.0);
  }
}
