/** Operations on a ready structure held as a sequence: extracting a process
    of minimum burst (the top of a min-burst priority queue or heap, whose tie
    order is left open) and aging every waiting process by one tick. */
module ReadySet {
  import opened Process
  import opened Workload

  /** `s[i]` has a minimum burst among `s`. */
  ghost predicate IsMinBurst(s: seq<ProcessInfo>, i: nat)
  {
    i < |s| && forall j :: 0 <= j < |s| ==> s[i].burst <= s[j].burst
  }

  /** The first position of a minimum burst among the first `k` entries. */
  function FirstMin(s: seq<ProcessInfo>, k: nat): (i: nat)
    requires 1 <= k <= |s|
    ensures i < k
    ensures forall j :: 0 <= j < k ==> s[i].burst <= s[j].burst
    ensures forall j :: 0 <= j < i ==> s[j].burst > s[i].burst
  {
    if k == 1 then 0
    else if s[k - 1].burst < s[FirstMin(s, k - 1)].burst then k - 1
    else FirstMin(s, k - 1)
  }

  /** The position the model takes the top of the ready structure from:
      the first process of minimum burst. */
  function MinIndex(s: seq<ProcessInfo>): (i: nat)
    requires s != []
    ensures IsMinBurst(s, i)
  {
    FirstMin(s, |s|)
  }

  /** The position of a process of minimum burst: what the top of a
      priority queue ordered by `lhs.burst_time > rhs.burst_time` holds. */
  method FindMin(s: seq<ProcessInfo>) returns (i: nat)
    requires s != []
    ensures IsMinBurst(s, i) && i == MinIndex(s)
  {
    i := 0;
    var k := 1;
    while k < |s|
      invariant i < k <= |s|
      invariant i == FirstMin(s, k)
    {
      if s[k].burst < s[i].burst {
        i := k;
      }
      k := k + 1;
    }
  }

  /** `s` with the element at `i` taken out, the others in their order. */
  function Without<T>(s: seq<T>, i: nat): (r: seq<T>)
    requires i < |s|
    ensures |r| == |s| - 1
    ensures forall j :: 0 <= j < i ==> r[j] == s[j]
    ensures forall j :: i <= j < |r| ==> r[j] == s[j + 1]
  {
    s[..i] + s[i + 1..]
  }

  /** Popping an entry, and its origin with it, keeps the others unmodified
      workload records. */
  lemma AllOriginalWithout(w: seq<ProcessInfo>, ready: seq<ProcessInfo>, orig: seq<nat>, cursor: nat, i: nat)
    requires AllOriginal(w, ready, orig, cursor) && i < |ready|
    ensures AllOriginal(w, Without(ready, i), Without(orig, i), cursor)
  {
  }

  /** Popping an entry, and its origin with it, keeps the others working
      copies of their records. */
  lemma AllTrackWithout(w: seq<ProcessInfo>, ready: seq<ProcessInfo>, orig: seq<nat>, cursor: nat, i: nat)
    requires AllTrack(w, ready, orig, cursor) && i < |ready|
    ensures AllTrack(w, Without(ready, i), Without(orig, i), cursor)
  {
  }

  /** Popping an entry, and its origin with it, keeps the others charged
      up to the same tick. */
  lemma ElapsedWithout(w: seq<ProcessInfo>, ready: seq<ProcessInfo>, orig: seq<nat>, t: int, i: nat)
    requires ElapsedTo(w, ready, orig, 0, t, 0) && i < |ready|
    ensures ElapsedTo(w, Without(ready, i), Without(orig, i), 0, t, 0)
  {
  }

  /** Taking `s[i]` out leaves exactly the other elements. */
  lemma WithoutMultiset<T>(s: seq<T>, i: nat)
    requires i < |s|
    ensures multiset(s) == multiset(Without(s, i)) + multiset{s[i]}
  {
    assert s == s[..i] + [s[i]] + s[i + 1..];
  }

  lemma IdsWithout(s: seq<ProcessInfo>, i: nat)
    requires i < |s|
    ensures Ids(s) == Ids(Without(s, i)) + {s[i].id}
  {
    var l, r := s[..i], s[i + 1..];
    assert s == l + ([s[i]] + r);
    assert Without(s, i) == l + r;
    IdsConcat(l, [s[i]] + r);
    IdsConcat([s[i]], r);
    IdsConcat(l, r);
    assert [s[i]][0].id == s[i].id;
    assert Ids([s[i]]) == {s[i].id};
  }

  lemma TotalBurstSplit(l: seq<ProcessInfo>, x: ProcessInfo, r: seq<ProcessInfo>)
    ensures TotalBurst(l + [x] + r) == TotalBurst(l + r) + x.burst
  {
    TotalBurstConcat(l + [x], r);
    TotalBurstConcat(l, [x]);
    TotalBurstConcat(l, r);
  }

  lemma SplitAt<T>(s: seq<T>, i: nat)
    requires i < |s|
    ensures s == s[..i] + [s[i]] + s[i + 1..]
  {
  }

  lemma TotalBurstWithout(s: seq<ProcessInfo>, i: nat)
    requires i < |s|
    ensures TotalBurst(s) == TotalBurst(Without(s, i)) + s[i].burst
  {
    SplitAt(s, i);
    TotalBurstSplit(s[..i], s[i], s[i + 1..]);
  }

  /** Every process of `s` after one waiting tick. */
  function AgedAll(s: seq<ProcessInfo>): (r: seq<ProcessInfo>)
  {
    seq(|s|, i requires 0 <= i < |s| => Aged(s[i]))
  }

  /** Aging changes neither the work owed nor the ids waiting. */
  lemma AgedAllKeeps(s: seq<ProcessInfo>)
    ensures |AgedAll(s)| == |s|
    ensures TotalBurst(AgedAll(s)) == TotalBurst(s) && Ids(AgedAll(s)) == Ids(s)
  {
    TotalBurstPointwise(AgedAll(s), s);
    IdsPointwise(AgedAll(s), s);
  }

  /** One waiting tick for every process in `s` (the `std::for_each` that
      increments `wait_time` and `turnaround_time`). */
  method AgeAll(s: seq<ProcessInfo>) returns (r: seq<ProcessInfo>)
    ensures |r| == |s|
    ensures forall i :: 0 <= i < |s| ==> r[i] == Aged(s[i])
    ensures TotalBurst(r) == TotalBurst(s) && Ids(r) == Ids(s)
    ensures r == AgedAll(s)
  {
    r := [];
    for i := 0 to |s|
      invariant |r| == i
      invariant forall j :: 0 <= j < i ==> r[j] == Aged(s[j])
    {
      r := r + [Aged(s[i])];
    }
    assert r == AgedAll(s);
    AgedAllKeeps(s);
  }
}
