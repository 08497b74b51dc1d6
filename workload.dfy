/** The workload every policy starts from: its well-formedness, the sort by
    arrival time each policy performs first, and the per-tick admission of
    the processes that arrive at the current tick. */
module Workload {
  import opened Process

  /** Every process needs at least one tick of CPU and arrives at a tick the
      clock reaches.  A zero or negative burst is never seen to finish, and a
      negative arrival is never admitted, so without this no policy stops. */
  predicate Admissible(w: seq<ProcessInfo>)
  {
    forall k :: 0 <= k < |w| ==> w[k].burst >= 1 && w[k].arrival >= 0
  }

  ghost predicate ArrivalSorted(w: seq<ProcessInfo>)
  {
    forall i, j :: 0 <= i < j < |w| ==> w[i].arrival <= w[j].arrival
  }

  /** The workload indices `lo`, ..., `hi - 1`, in order. */
  function Range(lo: nat, hi: nat): (r: seq<nat>)
    requires lo <= hi
    ensures |r| == hi - lo
  {
    seq(hi - lo, i requires 0 <= i < hi - lo => lo + i)
  }

  /** Sorts the working copy of the workload by ascending arrival time, in
      place.  Only the order by arrival is promised: equal arrival times may
      come out in any order, as with an unstable sort. */
  method SortByArrival(a: array<ProcessInfo>)
    modifies a
    ensures ArrivalSorted(a[..])
    ensures multiset(a[..]) == old(multiset(a[..]))
  {
    for i := 0 to a.Length
      invariant forall x, y :: 0 <= x < y < i ==> a[x].arrival <= a[y].arrival
      invariant multiset(a[..]) == old(multiset(a[..]))
    {
      Sink(a, i);
    }
  }

  /** The state of an insertion step at position `j`: the first `i + 1`
      entries are in order except around `j`, and `s[j]` is no later than
      any entry after it. */
  ghost predicate Sinking(s: seq<ProcessInfo>, i: nat, j: nat)
  {
    && j <= i < |s|
    && (forall x, y :: 0 <= x < y <= i && x != j && y != j ==> s[x].arrival <= s[y].arrival)
    && (forall y :: j < y <= i ==> s[j].arrival <= s[y].arrival)
  }

  /** Swapping `s[j]` with its later left neighbour moves the step one to the left. */
  lemma SinkStep(s: seq<ProcessInfo>, i: nat, j: nat)
    requires Sinking(s, i, j) && 0 < j && s[j - 1].arrival > s[j].arrival
    ensures Sinking(s[j - 1 := s[j]][j := s[j - 1]], i, j - 1)
    ensures multiset(s[j - 1 := s[j]][j := s[j - 1]]) == multiset(s)
  {
  }

  /** The step stops once its entry is no earlier than its left neighbour. */
  lemma SinkDone(s: seq<ProcessInfo>, i: nat, j: nat)
    requires Sinking(s, i, j) && (j == 0 || s[j - 1].arrival <= s[j].arrival)
    ensures forall x, y :: 0 <= x < y <= i ==> s[x].arrival <= s[y].arrival
  {
  }

  /** One insertion step: `a[i]` is swapped leftwards past every larger
      arrival time, so the sorted prefix grows by one. */
  method Sink(a: array<ProcessInfo>, i: nat)
    requires i < a.Length
    requires forall x, y :: 0 <= x < y < i ==> a[x].arrival <= a[y].arrival
    modifies a
    ensures forall x, y :: 0 <= x < y <= i ==> a[x].arrival <= a[y].arrival
    ensures multiset(a[..]) == old(multiset(a[..]))
  {
    var j: nat := i;
    while j > 0 && a[j - 1].arrival > a[j].arrival
      invariant Sinking(a[..], i, j)
      invariant multiset(a[..]) == old(multiset(a[..]))
    {
      ghost var s := a[..];
      SinkStep(s, i, j);
      a[j - 1], a[j] := a[j], a[j - 1];
      assert a[..] == s[j - 1 := s[j]][j := s[j - 1]];
      j := j - 1;
    }
    SinkDone(a[..], i, j);
  }

  /** The by-value copy of the workload each policy sorts before its loop. */
  method SortedCopy(workload: seq<ProcessInfo>) returns (w: seq<ProcessInfo>)
    ensures ArrivalSorted(w)
    ensures multiset(w) == multiset(workload)
  {
    var a := new ProcessInfo[|workload|](i requires 0 <= i < |workload| => workload[i]);
    assert a[..] == workload;
    SortByArrival(a);
    w := a[..];
  }

  /** Reordering an admissible workload keeps it admissible. */
  lemma AdmissiblePermutation(a: seq<ProcessInfo>, b: seq<ProcessInfo>)
    requires multiset(a) == multiset(b) && Admissible(b)
    ensures Admissible(a)
  {
    forall k | 0 <= k < |a| ensures a[k].burst >= 1 && a[k].arrival >= 0 {
      assert a[k] in multiset(b);
      var j :| 0 <= j < |b| && b[j] == a[k];
    }
  }

  /** Idle ticks from `time` until the next pending arrival, `w[cursor]`;
      the last component of every policy's termination rank. */
  function Gap(w: seq<ProcessInfo>, cursor: nat, time: int): int
  {
    if cursor < |w| then w[cursor].arrival - time else 0
  }

  /** Where admission at tick `time` stops: the end of the run of pending
      entries from `cursor` on whose arrival time is `time`. */
  function Admitted(w: seq<ProcessInfo>, cursor: nat, time: int): (c: nat)
    requires cursor <= |w|
    ensures cursor <= c <= |w|
    ensures forall k :: cursor <= k < c ==> w[k].arrival == time
    ensures c < |w| ==> w[c].arrival != time
    decreases |w| - cursor
  {
    if cursor < |w| && w[cursor].arrival == time then Admitted(w, cursor + 1, time) else cursor
  }

  /** The run that `Admitted` ends is the only one with its properties. */
  lemma {:induction false} AdmittedUnique(w: seq<ProcessInfo>, cursor: nat, time: int, c: nat)
    requires cursor <= c <= |w|
    requires forall k :: cursor <= k < c ==> w[k].arrival == time
    requires c < |w| ==> w[c].arrival != time
    ensures c == Admitted(w, cursor, time)
    decreases c - cursor
  {
    if cursor < c {
      AdmittedUnique(w, cursor + 1, time, c);
    }
  }

  /** Admission at tick `time`: the pending entries from `cursor` on whose
      arrival time is `time` move, in workload order, to the back of the
      ready structure, and admission stops at the first entry that arrives
      at another tick. */
  method Admit(w: seq<ProcessInfo>, cursor: nat, time: int, ready: seq<ProcessInfo>)
    returns (ready': seq<ProcessInfo>, cursor': nat)
    requires cursor <= |w|
    ensures cursor <= cursor' <= |w|
    ensures ready' == ready + w[cursor..cursor']
    ensures forall k :: cursor <= k < cursor' ==> w[k].arrival == time
    ensures cursor' < |w| ==> w[cursor'].arrival != time
    ensures cursor' == Admitted(w, cursor, time)
  {
    ready', cursor' := ready, cursor;
    while cursor' < |w| && w[cursor'].arrival == time
      invariant cursor <= cursor' <= |w|
      invariant ready' == ready + w[cursor..cursor']
      invariant forall k :: cursor <= k < cursor' ==> w[k].arrival == time
    {
      assert w[cursor..cursor' + 1] == w[cursor..cursor'] + [w[cursor']];
      ready' := ready' + [w[cursor']];
      cursor' := cursor' + 1;
    }
    AdmittedUnique(w, cursor, time, cursor');
  }

  /** Every entry of `ready` is a working copy of the workload record its
      origin names, and every origin was admitted before `cursor`. */
  ghost predicate AllTrack(w: seq<ProcessInfo>, ready: seq<ProcessInfo>, orig: seq<nat>, cursor: nat)
  {
    && |orig| == |ready|
    && forall i :: 0 <= i < |ready| ==> orig[i] < cursor && orig[i] < |w| && Tracks(ready[i], w[orig[i]])
  }

  /** Every entry of `ready` is the unmodified workload record its origin
      names, and every origin was admitted before `cursor`. */
  ghost predicate AllOriginal(w: seq<ProcessInfo>, ready: seq<ProcessInfo>, orig: seq<nat>, cursor: nat)
  {
    && |orig| == |ready|
    && forall i :: 0 <= i < |ready| ==> orig[i] < cursor && orig[i] < |w| && ready[i] == w[orig[i]]
  }

  /** The turnaround each entry of `ready` has accrued, counted from its
      arrival, reaches tick `t - 1` for the first `n` entries and tick `t`
      for the others, or up to `slack` ticks beyond. */
  ghost predicate ElapsedTo(w: seq<ProcessInfo>, ready: seq<ProcessInfo>, orig: seq<nat>, n: nat, t: int, slack: nat)
  {
    && |orig| == |ready|
    && forall i :: 0 <= i < |ready| ==>
         && orig[i] < |w|
         && (if i < n then t - 1 else t) <= w[orig[i]].arrival + Elapsed(ready[i], w[orig[i]]) <= (if i < n then t - 1 else t) + slack
  }

  /** Admitted records start out as working copies of themselves. */
  lemma AdmitTracks(w: seq<ProcessInfo>, ready: seq<ProcessInfo>, orig: seq<nat>, c0: nat, c1: nat)
    requires Admissible(w) && c0 <= c1 <= |w|
    requires AllTrack(w, ready, orig, c0)
    ensures AllTrack(w, ready + w[c0..c1], orig + Range(c0, c1), c1)
  {
    var r, o := ready + w[c0..c1], orig + Range(c0, c1);
    forall i | 0 <= i < |r| ensures o[i] < c1 && o[i] < |w| && Tracks(r[i], w[o[i]]) {
      if i >= |ready| {
        assert r[i] == w[c0 + (i - |ready|)];
        assert o[i] == c0 + (i - |ready|);
      } else {
        assert r[i] == ready[i] && o[i] == orig[i];
      }
    }
  }

  /** Admitted records are the workload records themselves. */
  lemma AdmitOriginal(w: seq<ProcessInfo>, ready: seq<ProcessInfo>, orig: seq<nat>, c0: nat, c1: nat)
    requires c0 <= c1 <= |w|
    requires AllOriginal(w, ready, orig, c0)
    ensures AllOriginal(w, ready + w[c0..c1], orig + Range(c0, c1), c1)
  {
    var r, o := ready + w[c0..c1], orig + Range(c0, c1);
    forall i | 0 <= i < |r| ensures o[i] < c1 && o[i] < |w| && r[i] == w[o[i]] {
      if i >= |ready| {
        assert r[i] == w[c0 + (i - |ready|)];
        assert o[i] == c0 + (i - |ready|);
      } else {
        assert r[i] == ready[i] && o[i] == orig[i];
      }
    }
  }

  /** Processes admitted at tick `t` have accrued nothing, so they reach
      exactly tick `t`. */
  lemma AdmitElapsed(w: seq<ProcessInfo>, ready: seq<ProcessInfo>, orig: seq<nat>, n: nat, t: int, slack: nat, c0: nat, c1: nat)
    requires c0 <= c1 <= |w| && n <= |ready|
    requires ElapsedTo(w, ready, orig, n, t, slack)
    requires forall k :: c0 <= k < c1 ==> w[k].arrival == t
    ensures ElapsedTo(w, ready + w[c0..c1], orig + Range(c0, c1), n, t, slack)
  {
    var r, o := ready + w[c0..c1], orig + Range(c0, c1);
    forall i | 0 <= i < |r|
      ensures o[i] < |w|
      ensures (if i < n then t - 1 else t) <= w[o[i]].arrival + Elapsed(r[i], w[o[i]]) <= (if i < n then t - 1 else t) + slack
    {
      if i >= |ready| {
        assert r[i] == w[c0 + (i - |ready|)];
        assert o[i] == c0 + (i - |ready|);
      } else {
        assert r[i] == ready[i] && o[i] == orig[i];
      }
    }
  }

  /** The admitted ids are those already accounted for plus the new arrivals. */
  lemma AdmitIds(w: seq<ProcessInfo>, ready: seq<ProcessInfo>, others: set<char>, c0: nat, c1: nat)
    requires c0 <= c1 <= |w|
    requires Ids(w[..c0]) == others + Ids(ready)
    ensures Ids(w[..c1]) == others + Ids(ready + w[c0..c1])
  {
    assert w[..c1] == w[..c0] + w[c0..c1];
    IdsConcat(w[..c0], w[c0..c1]);
    IdsConcat(ready, w[c0..c1]);
  }

  /** After admission at `time`, every admitted process has arrived and the
      next pending one arrives strictly later. */
  lemma AdmitArrivals(w: seq<ProcessInfo>, time: int, c0: nat, c1: nat)
    requires ArrivalSorted(w) && c0 <= c1 <= |w|
    requires forall k :: 0 <= k < c0 ==> w[k].arrival <= time
    requires c0 < |w| ==> w[c0].arrival >= time
    requires forall k :: c0 <= k < c1 ==> w[k].arrival == time
    requires c1 < |w| ==> w[c1].arrival != time
    ensures forall k :: 0 <= k < c1 ==> w[k].arrival <= time
    ensures c1 < |w| ==> w[c1].arrival > time
  {
    forall k | 0 <= k < c1 ensures w[k].arrival <= time {
      if k >= c0 {
        assert w[k].arrival == time;
      }
    }
    if c1 < |w| && c0 < c1 {
      assert w[c0].arrival <= w[c1].arrival;
    }
  }
}
