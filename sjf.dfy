/** Shortest Job First, non-preemptive: each tick admits the arrivals,
    releases the CPU when the running process has had its whole burst,
    dispatches a ready process of minimum burst when the CPU is free, and
    stops at the first tick where nothing runs and nothing is pending.  The
    statistics of a process are fixed when it is dispatched. */
module ShortestJobFirst {
  import opened Process
  import opened Workload
  import opened ReadySet

  /** The locals of the tick loop: `current_time`, a cursor standing for the
      erased front of `processVector`, the priority queue, the running
      process (`process_executing` with `curr_process_info`) and
      `process_stats`. */
  datatype State = State(
    time: int,
    cursor: nat,
    ready: seq<ProcessInfo>,
    running: Option<ProcessInfo>,
    stats: map<char, Stat>)

  function Init(): State
  {
    State(0, 0, [], None, map[])
  }

  /** Ghost bookkeeping: the workload index each ready entry was admitted
      from, and the index whose dispatch produced each statistics entry. */
  datatype Origins = Origins(ready: seq<nat>, finished: map<char, nat>)

  /** The statistics recorded when `p` is dispatched at tick `time`. */
  function DispatchStat(p: ProcessInfo, time: int): Stat
  {
    Stat(time - p.arrival, time - p.arrival + p.burst)
  }

  /** The tick at which the CPU will next be free: the end of the running
      process's burst, or now. */
  function Horizon(s: State): int
  {
    if s.running.Some? then s.running.value.start + s.running.value.burst else s.time
  }

  /** The statistics entry for `id` comes from dispatching `w[fin[id]]` no
      earlier than its arrival, its turnaround is its wait plus its burst,
      and the process, counted from its arrival, is done by tick `horizon`. */
  ghost predicate Scheduled(w: seq<ProcessInfo>, cursor: nat, horizon: int, stats: map<char, Stat>, fin: map<char, nat>, id: char)
    requires id in stats
  {
    && id in fin
    && fin[id] < cursor <= |w|
    && w[fin[id]].id == id
    && stats[id].wait >= 0
    && stats[id].turnaround == stats[id].wait + w[fin[id]].burst
    && w[fin[id]].arrival + stats[id].turnaround <= horizon
  }

  lemma ScheduledLater(w: seq<ProcessInfo>, c0: nat, h0: int, c1: nat, h1: int, stats: map<char, Stat>, fin: map<char, nat>)
    requires c0 <= c1 <= |w| && h0 <= h1
    requires forall id :: id in stats ==> Scheduled(w, c0, h0, stats, fin, id)
    ensures forall id :: id in stats ==> Scheduled(w, c1, h1, stats, fin, id)
  {
    forall id | id in stats ensures Scheduled(w, c1, h1, stats, fin, id) {
      assert Scheduled(w, c0, h0, stats, fin, id);
    }
  }

  /** What holds between the phases of a tick as well as at its head:
      admitted entries have arrived, ready entries are unmodified workload
      records, every admitted id is either still queued or has statistics,
      and every statistics entry is accounted for. */
  ghost predicate Core(w: seq<ProcessInfo>, s: State, o: Origins)
  {
    && Admissible(w) && ArrivalSorted(w)
    && s.cursor <= |w| && s.time >= 0
    && (forall k :: 0 <= k < s.cursor ==> w[k].arrival <= s.time)
    && AllOriginal(w, s.ready, o.ready, s.cursor)
    && Ids(w[..s.cursor]) == s.stats.Keys + Ids(s.ready)
    && (forall id :: id in s.stats ==> Scheduled(w, s.cursor, Horizon(s), s.stats, o.finished, id))
    && RunningScheduled(w, s, o)
  }

  /** The running process's entry is its own, and it ends, counted from
      its arrival, exactly when its burst does. */
  ghost predicate RunningScheduled(w: seq<ProcessInfo>, s: State, o: Origins)
  {
    s.running.Some? ==>
      var p := s.running.value;
      && p.id in s.stats && p.id in o.finished && o.finished[p.id] < |w| && w[o.finished[p.id]].id == p.id
      && w[o.finished[p.id]].arrival + s.stats[p.id].turnaround == p.start + p.burst
  }

  /** The loop invariant, at the head of every tick: nothing pending has
      arrived yet, the CPU is idle only when the queue is empty, a running
      process has not yet had its whole burst, nothing has been admitted
      before the first tick, and after it an idle CPU means some process is
      still to arrive. */
  ghost predicate Inv(w: seq<ProcessInfo>, s: State, o: Origins)
  {
    && Core(w, s, o)
    && (s.cursor < |w| ==> w[s.cursor].arrival >= s.time)
    && (s.running.None? ==> s.ready == [])
    && (s.running.Some? ==>
          s.running.value.arrival <= s.running.value.start < s.time <= s.running.value.start + s.running.value.burst)
    && (s.time == 0 ==> s.cursor == 0)
    && (s.time > 0 && s.running.None? ==> s.cursor < |w|)
  }

  /** The loop has stopped at tick `s.time`: at tick 0 only for an empty
      workload, and otherwise at the tick at which some recorded process
      ends, counted from its arrival. */
  ghost predicate Finished(w: seq<ProcessInfo>, s: State, o: Origins)
  {
    && (s.time == 0 ==> |w| == 0)
    && (s.time > 0 ==>
          exists id :: id in s.stats && id in o.finished && o.finished[id] < |w| && w[o.finished[id]].id == id
                       && w[o.finished[id]].arrival + s.stats[id].turnaround == s.time)
  }

  /** Work still owed: the bursts in the queue and the running process's
      ticks until `start_time + burst_time`. */
  function Remaining(s: State): int
  {
    TotalBurst(s.ready) + if s.running.Some? then s.running.value.start + s.running.value.burst - s.time else 0
  }

  /** The lexicographic rank (pending count, remaining work, gap) went down. */
  ghost predicate Progress(w: seq<ProcessInfo>, s: State, s': State)
  {
    || s'.cursor > s.cursor
    || (s'.cursor == s.cursor && Remaining(s') < Remaining(s))
    || (s'.cursor == s.cursor && Remaining(s') == Remaining(s) && Gap(w, s'.cursor, s'.time) < Gap(w, s.cursor, s.time))
  }

  lemma RankBounded(w: seq<ProcessInfo>, s: State, o: Origins)
    requires Inv(w, s, o)
    ensures Remaining(s) >= 0 && Gap(w, s.cursor, s.time) >= 0
  {
    forall i | 0 <= i < |s.ready| ensures s.ready[i].burst >= 1 {
      assert s.ready[i] == w[o.ready[i]];
    }
    TotalBurstPositive(s.ready);
  }

  /** The termination check on the running process: it gives up the CPU
      exactly when `start_time + burst_time` reaches the current tick, and
      is never preempted otherwise. */
  function Release(s: State): (r: State)
    ensures r.running.None? <==>
              s.running.None? || s.running.value.start + s.running.value.burst == s.time
    ensures r.running.Some? ==> r.running == s.running
    ensures r == s.(running := r.running)
  {
    if s.running.Some? && s.running.value.start + s.running.value.burst == s.time then
      s.(running := None)
    else
      s
  }

  /** Dispatch: only when the CPU is free and the queue is not empty, a
      process of minimum burst leaves the queue, starts at the current tick,
      and its wait `start - arrival` and turnaround `wait + burst` are
      recorded under its id. */
  method Dispatch(s: State) returns (s': State, picked: Option<nat>)
    ensures picked.Some? <==> s.running.None? && s.ready != []
    ensures picked.None? ==> s' == s
    ensures picked.Some? ==> s.ready != [] && picked.value == MinIndex(s.ready)
    ensures picked.Some? ==>
              picked.value < |s.ready| &&
              var i, p := picked.value, s.ready[picked.value];
              && IsMinBurst(s.ready, i)
              && s' == s.(ready := Without(s.ready, i),
                          running := Some(p.(start := s.time)),
                          stats := s.stats[p.id := DispatchStat(p, s.time)])
  {
    s', picked := s, None;
    if s.running.None? && s.ready != [] {
      var i := FindMin(s.ready);
      var p := s.ready[i];
      s' := s.(ready := Without(s.ready, i),
               running := Some(p.(start := s.time)),
               stats := s.stats[p.id := DispatchStat(p, s.time)]);
      picked := Some(i);
    }
  }

  /** One tick of the loop before the completion test, as a function of the
      state at its head: admission, release, and dispatch of the first
      process of minimum burst. */
  ghost function Step(w: seq<ProcessInfo>, s: State): State
    requires s.cursor <= |w|
  {
    var c := Admitted(w, s.cursor, s.time);
    var r := Release(s.(ready := s.ready + w[s.cursor..c], cursor := c));
    if r.running.None? && r.ready != [] then
      var i := MinIndex(r.ready);
      var p := r.ready[i];
      r.(ready := Without(r.ready, i), running := Some(p.(start := r.time)),
         stats := r.stats[p.id := DispatchStat(p, r.time)])
    else
      r
  }

  /** Admission keeps the core invariant and leaves pending only later arrivals. */
  lemma AdmitKeeps(w: seq<ProcessInfo>, s: State, o: Origins, a: State, oa: Origins)
    requires Inv(w, s, o)
    requires s.cursor <= a.cursor <= |w|
    requires a == s.(ready := s.ready + w[s.cursor..a.cursor], cursor := a.cursor)
    requires oa == o.(ready := o.ready + Range(s.cursor, a.cursor))
    requires forall k :: s.cursor <= k < a.cursor ==> w[k].arrival == s.time
    requires a.cursor < |w| ==> w[a.cursor].arrival != s.time
    ensures Core(w, a, oa)
    ensures a.cursor < |w| ==> w[a.cursor].arrival > a.time
  {
    assert Horizon(a) == Horizon(s);
    AdmitOriginal(w, s.ready, o.ready, s.cursor, a.cursor);
    AdmitIds(w, s.ready, s.stats.Keys, s.cursor, a.cursor);
    AdmitArrivals(w, s.time, s.cursor, a.cursor);
    ScheduledLater(w, s.cursor, Horizon(s), a.cursor, Horizon(a), s.stats, o.finished);
  }

  /** The release keeps the core invariant and the work owed, since it frees
      the CPU only at the end of the running burst. */
  lemma ReleaseKeeps(w: seq<ProcessInfo>, a: State, o: Origins)
    requires Core(w, a, o)
    requires a.running.Some? ==> a.time <= a.running.value.start + a.running.value.burst
    ensures Core(w, Release(a), o)
    ensures Remaining(Release(a)) == Remaining(a)
    ensures Release(a).running.Some? ==> a.time < a.running.value.start + a.running.value.burst
  {
    assert Horizon(Release(a)) == Horizon(a);
  }

  function DispatchOrigins(r: State, o: Origins, i: nat): Origins
    requires i < |r.ready| && |o.ready| == |r.ready|
  {
    Origins(Without(o.ready, i), o.finished[r.ready[i].id := o.ready[i]])
  }

  /** Recording the dispatch of the arrived record `w[k]` at tick `t` keeps
      every entry accounted for, up to the end of its burst. */
  lemma ScheduledDispatch(w: seq<ProcessInfo>, cursor: nat, t: int, stats: map<char, Stat>, fin: map<char, nat>, k: nat)
    requires k < cursor <= |w| && w[k].arrival <= t && w[k].burst >= 1
    requires forall id :: id in stats ==> Scheduled(w, cursor, t, stats, fin, id)
    ensures var stats', fin' := stats[w[k].id := DispatchStat(w[k], t)], fin[w[k].id := k];
            forall id :: id in stats' ==> Scheduled(w, cursor, t + w[k].burst, stats', fin', id)
  {
    var stats', fin' := stats[w[k].id := DispatchStat(w[k], t)], fin[w[k].id := k];
    forall id | id in stats' ensures Scheduled(w, cursor, t + w[k].burst, stats', fin', id) {
      if id != w[k].id {
        assert Scheduled(w, cursor, t, stats, fin, id);
      }
    }
  }

  /** Dispatching the process at `i` on a free CPU keeps the core invariant
      and the work owed. */
  lemma DispatchKeeps(w: seq<ProcessInfo>, r: State, o: Origins, i: nat)
    requires Core(w, r, o) && r.running.None?
    requires i < |r.ready|
    ensures Core(w, r.(ready := Without(r.ready, i),
                       running := Some(r.ready[i].(start := r.time)),
                       stats := r.stats[r.ready[i].id := DispatchStat(r.ready[i], r.time)]),
                 DispatchOrigins(r, o, i))
  {
    var p := r.ready[i];
    var d := r.(ready := Without(r.ready, i), running := Some(p.(start := r.time)),
                stats := r.stats[p.id := DispatchStat(p, r.time)]);
    var od := DispatchOrigins(r, o, i);
    IdsWithout(r.ready, i);
    assert p == w[o.ready[i]];
    AllOriginalWithout(w, r.ready, o.ready, r.cursor, i);
    ScheduledDispatch(w, r.cursor, r.time, r.stats, o.finished, o.ready[i]);
    assert AllOriginal(w, d.ready, od.ready, d.cursor);
    assert Ids(w[..d.cursor]) == d.stats.Keys + Ids(d.ready);
    assert forall id :: id in d.stats ==> Scheduled(w, d.cursor, Horizon(d), d.stats, od.finished, id);
    assert RunningScheduled(w, d, od);
  }

  /** Dispatch on a free CPU moves the popped burst from the queue to the
      running process, which owes all of it. */
  lemma DispatchRemaining(r: State, i: nat)
    requires r.running.None? && i < |r.ready|
    ensures Remaining(r.(ready := Without(r.ready, i),
                         running := Some(r.ready[i].(start := r.time)),
                         stats := r.stats[r.ready[i].id := DispatchStat(r.ready[i], r.time)])) == Remaining(r)
  {
    TotalBurstWithout(r.ready, i);
  }

  /** Advancing the clock after a tick that did not stop restores the loop
      invariant and lowers the rank. */
  lemma AdvanceKeeps(w: seq<ProcessInfo>, s: State, o: Origins, d: State, od: Origins)
    requires Inv(w, s, o) && Core(w, d, od)
    requires d.time == s.time && s.cursor <= d.cursor
    requires d.cursor == s.cursor ==> Remaining(d) == Remaining(s)
    requires d.cursor < |w| ==> w[d.cursor].arrival > d.time
    requires d.running.None? ==> d.ready == [] && d.cursor < |w|
    requires d.running.Some? ==>
               d.running.value.arrival <= d.running.value.start <= d.time < d.running.value.start + d.running.value.burst
    ensures Inv(w, d.(time := d.time + 1), od)
    ensures Progress(w, s, d.(time := d.time + 1))
  {
    var s' := d.(time := d.time + 1);
    ScheduledLater(w, d.cursor, Horizon(d), s'.cursor, Horizon(s'), d.stats, od.finished);
    if d.cursor == s.cursor && d.running.None? {
      assert Remaining(s) == 0 == Remaining(s');
    }
  }

  /** Where each record of the state after `Step` came from. */
  ghost function StepOrigins(w: seq<ProcessInfo>, s: State, o: Origins): Origins
    requires s.cursor <= |w| && |o.ready| == |s.ready|
  {
    var c := Admitted(w, s.cursor, s.time);
    var oa := o.(ready := o.ready + Range(s.cursor, c));
    var r := Release(s.(ready := s.ready + w[s.cursor..c], cursor := c));
    if r.running.None? && r.ready != [] then DispatchOrigins(r, oa, MinIndex(r.ready)) else oa
  }

  /** When the tick stops the loop, the stop is at tick 0 only for an empty
      workload, and otherwise exactly when the running process finished:
      an idle CPU at the head of a later tick means a process is still to
      arrive, and its admission would have been followed by a dispatch. */
  lemma StopsAtFinish(w: seq<ProcessInfo>, s: State, o: Origins)
    requires Inv(w, s, o)
    requires Step(w, s).running.None? && Step(w, s).cursor == |w|
    ensures Finished(w, Step(w, s), o)
  {
    var c := Admitted(w, s.cursor, s.time);
    var a := s.(ready := s.ready + w[s.cursor..c], cursor := c);
    var r := Release(a);
    assert !(r.running.None? && r.ready != []);
    var d := Step(w, s);
    assert d == r;
    if s.running.Some? {
      var p := s.running.value;
      assert RunningScheduled(w, s, o);
      assert p.id in d.stats && w[o.finished[p.id]].arrival + d.stats[p.id].turnaround == d.time;
    } else if s.cursor < |w| {
      assert false;
    }
  }

  /** What a tick's phases establish about the state `d` they leave,
      with origins `od`, coming from the state `s` at the loop head: the
      core invariant, only later arrivals pending, a busy CPU whenever
      the queue is not empty, a running burst not yet over, and a stop as
      `Finished` says. */
  ghost predicate Stepped(w: seq<ProcessInfo>, s: State, d: State, od: Origins)
  {
    && Core(w, d, od) && d.time == s.time && s.cursor <= d.cursor
    && (d.cursor == s.cursor ==> Remaining(d) == Remaining(s))
    && (d.cursor < |w| ==> w[d.cursor].arrival > d.time)
    && (d.running.None? ==> d.ready == [])
    && (d.running.Some? ==>
          d.running.value.arrival <= d.running.value.start <= d.time < d.running.value.start + d.running.value.burst)
    && (d.running.None? && d.cursor == |w| ==> Finished(w, d, od))
  }

  /** The dispatch phase on a free CPU and a non-empty queue completes the
      tick as `Stepped` says. */
  lemma DispatchStepped(w: seq<ProcessInfo>, s: State, r: State, o: Origins, i: nat)
    requires Core(w, r, o) && r.running.None? && i < |r.ready|
    requires r.time == s.time && s.cursor <= r.cursor
    requires r.cursor == s.cursor ==> Remaining(r) == Remaining(s)
    requires r.cursor < |w| ==> w[r.cursor].arrival > r.time
    ensures var p := r.ready[i];
            Stepped(w, s, r.(ready := Without(r.ready, i), running := Some(p.(start := r.time)),
                             stats := r.stats[p.id := DispatchStat(p, r.time)]),
                    DispatchOrigins(r, o, i))
  {
    DispatchKeeps(w, r, o, i);
    DispatchRemaining(r, i);
    assert o.ready[i] < r.cursor && w[o.ready[i]] == r.ready[i];
  }

  /** The phases of one tick together establish `Stepped`. */
  lemma StepKeeps(w: seq<ProcessInfo>, s: State, o: Origins)
    requires Inv(w, s, o)
    ensures Stepped(w, s, Step(w, s), StepOrigins(w, s, o))
  {
    var c := Admitted(w, s.cursor, s.time);
    var a := s.(ready := s.ready + w[s.cursor..c], cursor := c);
    var oa := o.(ready := o.ready + Range(s.cursor, c));
    AdmitKeeps(w, s, o, a, oa);
    if c == s.cursor {
      assert a.ready == s.ready + [];
      assert a == s;
    }
    var r := Release(a);
    ReleaseKeeps(w, a, oa);
    if r.running.None? && r.ready != [] {
      DispatchStepped(w, s, r, oa, MinIndex(r.ready));
    } else {
      assert Step(w, s) == r && StepOrigins(w, s, o) == oa;
      if r.running.None? && r.cursor == |w| {
        StopsAtFinish(w, s, o);
      }
    }
  }

  /** One iteration of the `while(true)` loop: admission, release,
      dispatch and the completion test.  The new state is `Step` of the
      old one, with the clock advanced unless the loop stops; the loop
      stops exactly when nothing runs and nothing is pending, and then as
      `Finished` says; otherwise the invariant is kept and the rank goes
      down. */
  method Tick(w: seq<ProcessInfo>, s: State, ghost o: Origins) returns (s': State, ghost o': Origins, done: bool)
    requires Inv(w, s, o)
    ensures s' == if done then Step(w, s) else Step(w, s).(time := s.time + 1)
    ensures done <==> s'.running.None? && s'.cursor == |w|
    ensures done ==> Core(w, s', o') && s'.time == s.time && s'.ready == [] && Finished(w, s', o')
    ensures !done ==> Inv(w, s', o')
    ensures !done ==> s'.time == s.time + 1 && Progress(w, s, s')
  {
    var ready, cursor := Admit(w, s.cursor, s.time, s.ready);
    var a := s.(ready := ready, cursor := cursor);
    var r := Release(a);
    var d, picked := Dispatch(r);
    assert a == s.(ready := s.ready + w[s.cursor..cursor], cursor := cursor);
    assert d == Step(w, s);
    StepKeeps(w, s, o);
    o' := StepOrigins(w, s, o);
    done := d.running.None? && d.cursor == |w|;
    if done {
      s' := d;
    } else {
      AdvanceKeeps(w, s, o, d, o');
      s' := d.(time := d.time + 1);
    }
  }

  /** The loop runs until nothing runs and nothing is pending. */
  method Loop(w: seq<ProcessInfo>, s0: State, ghost o0: Origins) returns (s: State, ghost o: Origins)
    requires Inv(w, s0, o0)
    ensures Core(w, s, o) && s.cursor == |w| && s.ready == [] && s.running.None?
    ensures Finished(w, s, o)
  {
    s, o := s0, o0;
    while true
      invariant Inv(w, s, o)
      decreases |w| - s.cursor, Remaining(s), Gap(w, s.cursor, s.time)
    {
      RankBounded(w, s, o);
      var s', o', done := Tick(w, s, o);
      s, o := s', o';
      if done {
        break;
      }
      RankBounded(w, s, o);
    }
  }

  /** Some process of the workload ends, counted from its arrival, exactly
      at tick `completion`. */
  ghost predicate EndsAt(workload: seq<ProcessInfo>, stats: map<char, Stat>, completion: int)
  {
    exists k :: 0 <= k < |workload| && workload[k].id in stats
                && workload[k].arrival + stats[workload[k].id].turnaround == completion
  }

  /** Where the loop stopped, read over the original workload: at tick 0
      for an empty one, and otherwise when one of its processes ended. */
  lemma FinalCompletion(w: seq<ProcessInfo>, workload: seq<ProcessInfo>, s: State, o: Origins)
    requires multiset(w) == multiset(workload)
    requires s.stats.Keys == Ids(workload) && s.time >= 0
    requires Finished(w, s, o)
    ensures workload == [] ==> s.time == 0
    ensures workload != [] ==> EndsAt(workload, s.stats, s.time)
  {
    if workload == [] {
      assert |w| == 0;
      assert s.stats.Keys == {};
    } else {
      assert |w| != 0;
      var id :| id in s.stats && id in o.finished && o.finished[id] < |w| && w[o.finished[id]].id == id
                && w[o.finished[id]].arrival + s.stats[id].turnaround == s.time;
      var k := o.finished[id];
      assert w[k] in multiset(workload);
      var j :| 0 <= j < |workload| && workload[j] == w[k];
      assert workload[j].id in s.stats;
    }
  }

  /** When the loop stops, every id of the workload has exactly one entry,
      each accounted for by one of its records, and every process arrived
      by the completion tick. */
  lemma FinalStats(w: seq<ProcessInfo>, workload: seq<ProcessInfo>, s: State, o: Origins)
    requires multiset(w) == multiset(workload)
    requires Core(w, s, o) && s.cursor == |w| && s.ready == [] && s.running.None?
    ensures s.stats.Keys == Ids(workload)
    ensures forall id :: id in s.stats ==> Completed(workload, s.stats[id], id, s.time)
    ensures forall k :: 0 <= k < |workload| ==> 0 <= workload[k].arrival <= s.time
  {
    assert w[..s.cursor] == w;
    IdsPermutation(w, workload);
    forall id | id in s.stats ensures Completed(workload, s.stats[id], id, s.time) {
      assert Scheduled(w, s.cursor, Horizon(s), s.stats, o.finished, id);
      var k := o.finished[id];
      assert w[k] in multiset(workload);
      var j :| 0 <= j < |workload| && workload[j] == w[k];
    }
    ArrivedBy(w, workload, s.time);
  }

  /** The SJF simulation over a workload: sort by arrival, then tick until
      nothing runs and nothing is pending.  Every process gets exactly one
      statistics entry under its id, with a non-negative wait, a turnaround
      equal to that wait plus its burst, and an arrival plus turnaround no
      later than `completion`, the tick reported as "Complete", which no
      arrival comes after. */
  method Run(workload: seq<ProcessInfo>) returns (stats: map<char, Stat>, completion: int)
    requires Admissible(workload)
    ensures stats.Keys == Ids(workload)
    ensures forall id :: id in stats ==> Completed(workload, stats[id], id, completion)
    ensures forall k :: 0 <= k < |workload| ==> 0 <= workload[k].arrival <= completion
    ensures workload == [] ==> completion == 0
    ensures workload != [] ==> EndsAt(workload, stats, completion)
  {
    var w := SortedCopy(workload);
    AdmissiblePermutation(w, workload);
    var s, o := Loop(w, Init(), Origins([], map[]));
    FinalStats(w, workload, s, o);
    FinalCompletion(w, workload, s, o);
    stats, completion := s.stats, s.time;
  }
}
