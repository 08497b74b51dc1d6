/** Shortest Remaining Time First, preemptive: each tick admits the
    arrivals into a min-burst heap, serves the running process for one tick,
    records it when its burst reaches 0 or puts it back into the heap when a
    waiting process has a strictly smaller burst, dispatches a process of
    minimum burst when the CPU is free, and then ages every waiting process. */
module ShortestRemainingTime {
  import opened Process
  import opened Workload
  import opened ReadySet

  /** The locals of the tick loop: `current_time`, the cursor standing for
      the erased front of `processVector`, the heap `processQueue`, the
      running process (`process_executing` with `curr_process_info`) and
      `process_stats`. */
  datatype State = State(
    time: int,
    cursor: nat,
    ready: seq<ProcessInfo>,
    running: Option<ProcessInfo>,
    stats: map<char, Stat>)

  function Init(): State
  {
    State(0, 0, [], None, map[])
  }

  /** Ghost bookkeeping: the workload index of each heap entry and of the
      running process, and the index whose termination produced each
      statistics entry. */
  datatype Origins = Origins(ready: seq<nat>, running: nat, finished: map<char, nat>)

  function RunningIds(r: Option<ProcessInfo>): set<char>
  {
    if r.Some? then {r.value.id} else {}
  }

  function RunningBurst(r: Option<ProcessInfo>): int
  {
    if r.Some? then r.value.burst else 0
  }

  /** What holds between the phases of a tick as well as at its head:
      admitted entries have arrived, the heap entries and the running
      process are working copies of their workload records, every admitted
      id is recorded, running or in the heap, and every statistics entry is
      accounted for by the tick it was recorded at. */
  ghost predicate Core(w: seq<ProcessInfo>, s: State, o: Origins)
  {
    && Admissible(w) && ArrivalSorted(w)
    && s.cursor <= |w| && s.time >= 0
    && (forall k :: 0 <= k < s.cursor ==> w[k].arrival <= s.time)
    && AllTrack(w, s.ready, o.ready, s.cursor)
    && (s.running.Some? ==> o.running < s.cursor && Tracks(s.running.value, w[o.running]))
    && Ids(w[..s.cursor]) == s.stats.Keys + RunningIds(s.running) + Ids(s.ready)
    && (forall id :: id in s.stats ==> Recorded(w, s.cursor, s.time, s.stats, o.finished, id))
  }

  /** The running process, counted from its arrival, has been charged up
      to tick `t`. */
  ghost predicate RunningAt(w: seq<ProcessInfo>, s: State, o: Origins, t: int)
  {
    s.running.Some? ==> o.running < |w| && w[o.running].arrival + Elapsed(s.running.value, w[o.running]) == t
  }

  /** The loop invariant, at the head of every tick: nothing pending has
      arrived yet, the CPU is idle only when the heap is empty, every heap
      entry has been charged up to the current tick (it was aged for the
      tick before), and the running process up to the tick before; nothing
      has been admitted before the first tick, and after it an idle CPU
      means some process is still to arrive. */
  ghost predicate Inv(w: seq<ProcessInfo>, s: State, o: Origins)
  {
    && Core(w, s, o)
    && (s.cursor < |w| ==> w[s.cursor].arrival >= s.time)
    && (s.running.None? ==> s.ready == [])
    && ElapsedTo(w, s.ready, o.ready, 0, s.time, 0)
    && RunningAt(w, s, o, s.time - 1)
    && (s.time == 0 ==> s.cursor == 0)
    && (s.time > 0 && s.running.None? ==> s.cursor < |w|)
  }

  /** The state the loop stops in: the core invariant holds, everything
      has been admitted, nothing runs or waits, and the stop is at tick 0
      only for an empty workload and otherwise at the tick `last` finished. */
  ghost predicate Halted(w: seq<ProcessInfo>, s: State, o: Origins, last: char)
  {
    && Core(w, s, o) && s.cursor == |w| && s.ready == [] && s.running.None?
    && StoppedAt(w, s.stats, o.finished, s.time, 0, last)
  }

  /** Work still owed: the bursts in the heap and the running burst. */
  function Remaining(s: State): int
  {
    TotalBurst(s.ready) + RunningBurst(s.running)
  }

  /** The lexicographic rank (pending count, remaining work, gap) went down. */
  ghost predicate Progress(w: seq<ProcessInfo>, s: State, s': State)
  {
    || s'.cursor > s.cursor
    || (s'.cursor == s.cursor && Remaining(s') < Remaining(s))
    || (s'.cursor == s.cursor && Remaining(s') == Remaining(s) && Gap(w, s'.cursor, s'.time) < Gap(w, s.cursor, s.time))
  }

  lemma RankBounded(w: seq<ProcessInfo>, s: State, o: Origins)
    requires Core(w, s, o)
    ensures Remaining(s) >= 0
  {
    TotalBurstPositive(s.ready);
  }

  /** The preemption test: the top of the heap, a process of minimum burst,
      has a strictly smaller burst than `p`.  An empty heap never preempts. */
  method Preempts(ready: seq<ProcessInfo>, p: ProcessInfo) returns (b: bool)
    ensures b <==> ready != [] && ready[MinIndex(ready)].burst < p.burst
    ensures b <==> exists j :: 0 <= j < |ready| && ready[j].burst < p.burst
  {
    if ready == [] {
      return false;
    }
    var i := FindMin(ready);
    b := ready[i].burst < p.burst;
  }

  /** The service step: the running process loses one tick of burst and
      gains one of turnaround; at burst 0 its wait and turnaround are
      recorded under its id and the CPU is freed; otherwise, when the top
      of the heap has a strictly smaller burst, it goes back into the heap
      and the CPU is freed; otherwise it keeps the CPU. */
  function Served(s: State): State
  {
    if s.running.None? then s
    else
      var c := Ran(s.running.value);
      if c.burst == 0 then s.(running := None, stats := s.stats[c.id := Stat(c.wait, c.turnaround)])
      else if s.ready != [] && s.ready[MinIndex(s.ready)].burst < c.burst then s.(ready := s.ready + [c], running := None)
      else s.(running := Some(c))
  }

  /** The service step as the loop runs it, with the heap's top found by
      `Preempts`.  A process goes back into the heap exactly when some
      waiting process has a strictly smaller remaining burst. */
  method Serve(s: State) returns (s': State)
    ensures s' == Served(s)
    ensures s.running.Some? && s.running.value.burst != 1 ==>
              (s'.running.None? <==> exists j :: 0 <= j < |s.ready| && s.ready[j].burst < s.running.value.burst - 1)
  {
    s' := s;
    if s.running.Some? {
      var c := Ran(s.running.value);
      if c.burst == 0 {
        s' := s.(running := None, stats := s.stats[c.id := Stat(c.wait, c.turnaround)]);
      } else {
        var preempt := Preempts(s.ready, c);
        if preempt {
          s' := s.(ready := s.ready + [c], running := None);
        } else {
          s' := s.(running := Some(c));
        }
      }
    }
  }

  /** Dispatch: only when the CPU is free and the heap is not empty, the
      first process of minimum burst leaves the heap and runs. */
  function Dispatched(s: State): State
  {
    if s.running.None? && s.ready != [] then
      var i := MinIndex(s.ready);
      s.(ready := Without(s.ready, i), running := Some(s.ready[i]))
    else s
  }

  /** The dispatch step as the loop runs it, with the heap's top found by
      `FindMin`. */
  method Dispatch(s: State) returns (s': State, picked: Option<nat>)
    ensures picked.Some? <==> s.running.None? && s.ready != []
    ensures picked.None? ==> s' == s
    ensures picked.Some? ==> s.ready != [] && picked.value == MinIndex(s.ready)
    ensures s' == Dispatched(s)
    ensures picked.Some? ==>
              picked.value < |s.ready|
              && IsMinBurst(s.ready, picked.value)
              && s' == s.(ready := Without(s.ready, picked.value), running := Some(s.ready[picked.value]))
  {
    s', picked := s, None;
    if s.running.None? && s.ready != [] {
      var i := FindMin(s.ready);
      s' := s.(ready := Without(s.ready, i), running := Some(s.ready[i]));
      picked := Some(i);
    }
  }

  /** Everything a tick does after admission, as a function of the state
      `a` admission left: service, dispatch, and aging of every waiting
      process. */
  ghost function AfterAdmission(a: State): State
  {
    var d := Dispatched(Served(a));
    d.(ready := AgedAll(d.ready))
  }

  /** One tick of the loop before the completion test, as a function of the
      state at its head: admission, then `AfterAdmission`. */
  ghost function Step(w: seq<ProcessInfo>, s: State): State
    requires s.cursor <= |w|
  {
    var c := Admitted(w, s.cursor, s.time);
    AfterAdmission(s.(ready := s.ready + w[s.cursor..c], cursor := c))
  }

  /** Admission keeps the core invariant, leaves pending only later
      arrivals, and the new heap entries are charged up to this tick. */
  lemma AdmitKeeps(w: seq<ProcessInfo>, s: State, o: Origins, a: State, oa: Origins)
    requires Inv(w, s, o)
    requires s.cursor <= a.cursor <= |w|
    requires a == s.(ready := s.ready + w[s.cursor..a.cursor], cursor := a.cursor)
    requires oa == o.(ready := o.ready + Range(s.cursor, a.cursor))
    requires forall k :: s.cursor <= k < a.cursor ==> w[k].arrival == s.time
    requires a.cursor < |w| ==> w[a.cursor].arrival != s.time
    ensures Core(w, a, oa)
    ensures ElapsedTo(w, a.ready, oa.ready, 0, a.time, 0) && RunningAt(w, a, oa, a.time - 1)
    ensures a.cursor < |w| ==> w[a.cursor].arrival > a.time
  {
    AdmitTracks(w, s.ready, o.ready, s.cursor, a.cursor);
    AdmitIds(w, s.ready, s.stats.Keys + RunningIds(s.running), s.cursor, a.cursor);
    AdmitArrivals(w, s.time, s.cursor, a.cursor);
    AdmitElapsed(w, s.ready, o.ready, 0, s.time, 0, s.cursor, a.cursor);
    RecordedLater(w, s.cursor, s.time, a.cursor, a.time, s.stats, o.finished);
  }

  /** Origins follow the running process through service. */
  function ServeOrigins(o: Origins, s: State, s': State): Origins
  {
    if s.running.Some? && s.running.value.burst == 1 then
      o.(finished := o.finished[s.running.value.id := o.running])
    else if s.running.Some? && s'.running.None? then
      o.(ready := o.ready + [o.running])
    else
      o
  }

  /** A running process that reaches burst 0 is recorded: the core
      invariant is kept, and its turnaround ends, counted from its arrival,
      at the current tick. */
  lemma TerminateKeeps(w: seq<ProcessInfo>, a: State, o: Origins)
    requires Core(w, a, o) && a.running.Some? && a.running.value.burst == 1
    requires RunningAt(w, a, o, a.time - 1)
    ensures var c := Ran(a.running.value);
            var stats', fin' := a.stats[c.id := Stat(c.wait, c.turnaround)], o.finished[c.id := o.running];
            && Core(w, a.(running := None, stats := stats'), o.(finished := fin'))
            && EndsWithin(w, stats', fin', c.id, a.time, 0)
  {
    var c := Ran(a.running.value);
    var b := a.(running := None, stats := a.stats[c.id := Stat(c.wait, c.turnaround)]);
    var ob := o.(finished := o.finished[c.id := o.running]);
    assert Tracks(a.running.value, w[o.running]);
    forall id | id in b.stats ensures Recorded(w, b.cursor, b.time, b.stats, ob.finished, id) {
      if id != c.id {
        assert Recorded(w, a.cursor, a.time, a.stats, o.finished, id);
      }
    }
  }

  /** A preempted process goes back into the heap, charged up to the
      current tick like every other heap entry: the core invariant is kept. */
  lemma PreemptKeeps(w: seq<ProcessInfo>, a: State, o: Origins)
    requires Core(w, a, o) && a.running.Some? && a.running.value.burst != 1
    requires ElapsedTo(w, a.ready, o.ready, 0, a.time, 0) && RunningAt(w, a, o, a.time - 1)
    ensures var c := Ran(a.running.value);
            && Core(w, a.(ready := a.ready + [c], running := None), o.(ready := o.ready + [o.running]))
            && ElapsedTo(w, a.ready + [c], o.ready + [o.running], 0, a.time, 0)
    ensures TotalBurst(a.ready + [Ran(a.running.value)]) == TotalBurst(a.ready) + a.running.value.burst - 1
  {
    var c := Ran(a.running.value);
    var b := a.(ready := a.ready + [c], running := None);
    var ob := o.(ready := o.ready + [o.running]);
    assert Tracks(a.running.value, w[o.running]);
    IdsConcat(a.ready, [c]);
    assert [c][0].id == c.id;
    assert Ids([c]) == {c.id};
    TotalBurstConcat(a.ready, [c]);
    forall i | 0 <= i < |b.ready|
      ensures ob.ready[i] < b.cursor && ob.ready[i] < |w| && Tracks(b.ready[i], w[ob.ready[i]])
      ensures w[ob.ready[i]].arrival + Elapsed(b.ready[i], w[ob.ready[i]]) == a.time
    {
      if i < |a.ready| {
        assert b.ready[i] == a.ready[i] && ob.ready[i] == o.ready[i];
      }
    }
  }

  /** Dispatching the process at `i` keeps the core invariant, the work
      owed and the charges. */
  lemma DispatchKeeps(w: seq<ProcessInfo>, b: State, o: Origins, i: nat)
    requires Core(w, b, o) && b.running.None? && i < |b.ready|
    requires ElapsedTo(w, b.ready, o.ready, 0, b.time, 0)
    ensures var d, od := b.(ready := Without(b.ready, i), running := Some(b.ready[i])),
                         o.(ready := Without(o.ready, i), running := o.ready[i]);
            && Core(w, d, od)
            && ElapsedTo(w, d.ready, od.ready, 0, d.time, 0) && RunningAt(w, d, od, d.time)
            && Remaining(d) == Remaining(b)
  {
    var d, od := b.(ready := Without(b.ready, i), running := Some(b.ready[i])),
                 o.(ready := Without(o.ready, i), running := o.ready[i]);
    IdsWithout(b.ready, i);
    assert Ids(w[..d.cursor]) == d.stats.Keys + RunningIds(d.running) + Ids(d.ready);
    TotalBurstWithout(b.ready, i);
    assert o.ready[i] < b.cursor && Tracks(b.ready[i], w[o.ready[i]]);
    AllTrackWithout(w, b.ready, o.ready, b.cursor, i);
    ElapsedWithout(w, b.ready, o.ready, b.time, i);
    assert forall id :: id in d.stats ==> Recorded(w, d.cursor, d.time, d.stats, od.finished, id);
  }

  /** Aging the heap keeps the core invariant and the work owed, and
      charges every heap entry for the tick that follows. */
  lemma AgeKeeps(w: seq<ProcessInfo>, d: State, o: Origins, aged: seq<ProcessInfo>)
    requires Core(w, d, o) && ElapsedTo(w, d.ready, o.ready, 0, d.time, 0)
    requires |aged| == |d.ready| && forall i :: 0 <= i < |aged| ==> aged[i] == Aged(d.ready[i])
    requires TotalBurst(aged) == TotalBurst(d.ready) && Ids(aged) == Ids(d.ready)
    ensures Core(w, d.(ready := aged), o)
    ensures ElapsedTo(w, aged, o.ready, 0, d.time + 1, 0)
  {
    forall i | 0 <= i < |aged| ensures Tracks(aged[i], w[o.ready[i]]) {
      assert Tracks(d.ready[i], w[o.ready[i]]);
    }
  }

  /** Where each record of `Dispatched(b)` came from. */
  ghost function DispatchedOrigins(b: State, o: Origins): Origins
  {
    if b.running.None? && b.ready != [] && |o.ready| == |b.ready| then
      var i := MinIndex(b.ready);
      o.(ready := Without(o.ready, i), running := o.ready[i])
    else o
  }

  /** Where each record of `AfterAdmission(a)` came from. */
  ghost function AfterOrigins(a: State, o: Origins): Origins
  {
    DispatchedOrigins(Served(a), ServeOrigins(o, a, Served(a)))
  }

  /** Dispatch keeps the core invariant, the charges and the work owed,
      and leaves the CPU idle only when the heap is empty. */
  lemma DispatchSettles(w: seq<ProcessInfo>, b: State, o: Origins)
    requires Core(w, b, o) && ElapsedTo(w, b.ready, o.ready, 0, b.time, 0) && RunningAt(w, b, o, b.time)
    ensures var d, od := Dispatched(b), DispatchedOrigins(b, o);
            && Core(w, d, od) && ElapsedTo(w, d.ready, od.ready, 0, d.time, 0) && RunningAt(w, d, od, d.time)
            && Remaining(d) == Remaining(b) && d.time == b.time && d.cursor == b.cursor
            && d.stats == b.stats && od.finished == o.finished
            && (d.running.None? <==> b.running.None? && b.ready == [])
            && (d.running.None? ==> d.ready == [])
  {
    if b.running.None? && b.ready != [] {
      DispatchKeeps(w, b, o, MinIndex(b.ready));
    }
  }

  /** Aging keeps everything but the heap's charges, which move on a tick. */
  lemma AgeSettles(w: seq<ProcessInfo>, d: State, o: Origins)
    requires Core(w, d, o) && ElapsedTo(w, d.ready, o.ready, 0, d.time, 0)
    ensures var e := d.(ready := AgedAll(d.ready));
            && Core(w, e, o) && ElapsedTo(w, e.ready, o.ready, 0, e.time + 1, 0)
            && Remaining(e) == Remaining(d)
            && (e.ready == [] <==> d.ready == [])
  {
    AgedAllKeeps(d.ready);
    AgeKeeps(w, d, o, AgedAll(d.ready));
  }

  /** What the phases after admission establish about the state `e` they
      leave, with origins `oe`, coming from the state `a` admission left:
      the core invariant; the running process charged up to this tick and
      the heap up to the next; the clock and cursor unchanged; the CPU busy
      whenever the heap is not empty; one unit of work done exactly when a
      process ran; and an idle CPU only when the heap was empty and the
      process that ran, if any, finished at this tick. */
  ghost predicate Settled(w: seq<ProcessInfo>, a: State, e: State, oe: Origins)
  {
    && Core(w, e, oe)
    && ElapsedTo(w, e.ready, oe.ready, 0, e.time + 1, 0) && RunningAt(w, e, oe, e.time)
    && e.time == a.time && e.cursor == a.cursor
    && (e.running.None? ==> e.ready == [])
    && Remaining(e) == Remaining(a) - (if a.running.Some? then 1 else 0)
    && (e.running.None? <==>
          && a.ready == []
          && (a.running.Some? ==>
                a.running.value.burst == 1 && a.running.value.id in e.stats
                && EndsWithin(w, e.stats, oe.finished, a.running.value.id, a.time, 0)))
  }

  /** Service keeps the core invariant and does one unit of work exactly
      when a process ran; the heap and a process still running are charged
      up to the current tick; and the CPU is left idle with an empty heap
      only when the heap was empty and the process that ran finished, its
      entry ending, counted from its arrival, at this tick. */
  lemma ServeSettles(w: seq<ProcessInfo>, a: State, o: Origins)
    requires Core(w, a, o)
    requires ElapsedTo(w, a.ready, o.ready, 0, a.time, 0) && RunningAt(w, a, o, a.time - 1)
    ensures var b, ob := Served(a), ServeOrigins(o, a, Served(a));
            && Core(w, b, ob) && ElapsedTo(w, b.ready, ob.ready, 0, b.time, 0)
            && RunningAt(w, b, ob, b.time)
            && Remaining(b) == Remaining(a) - (if a.running.Some? then 1 else 0)
            && b.time == a.time && b.cursor == a.cursor
            && (b.running.None? && b.ready == [] <==>
                  && a.ready == []
                  && (a.running.Some? ==>
                        a.running.value.burst == 1 && a.running.value.id in b.stats
                        && EndsWithin(w, b.stats, ob.finished, a.running.value.id, a.time, 0)))
  {
    if a.running.Some? {
      var b, c := Served(a), Ran(a.running.value);
      assert Tracks(a.running.value, w[o.running]);
      if c.burst == 0 {
        assert b == a.(running := None, stats := a.stats[c.id := Stat(c.wait, c.turnaround)]);
        TerminateKeeps(w, a, o);
      } else if b.running.None? {
        assert b == a.(ready := a.ready + [c], running := None);
        PreemptKeeps(w, a, o);
      } else {
        assert b == a.(running := Some(c));
      }
    }
  }

  /** The phases after admission establish `Settled`. */
  lemma AfterAdmissionKeeps(w: seq<ProcessInfo>, a: State, o: Origins)
    requires Core(w, a, o)
    requires ElapsedTo(w, a.ready, o.ready, 0, a.time, 0) && RunningAt(w, a, o, a.time - 1)
    ensures Settled(w, a, AfterAdmission(a), AfterOrigins(a, o))
  {
    var b, ob := Served(a), ServeOrigins(o, a, Served(a));
    ServeSettles(w, a, o);
    var d, od := Dispatched(b), DispatchedOrigins(b, ob);
    DispatchSettles(w, b, ob);
    AgeSettles(w, d, od);
  }

  /** Everything a tick does after admission: service, dispatch and aging,
      leaving `AfterAdmission(a)`. */
  method ServeDispatchAge(a: State) returns (e: State)
    ensures e == AfterAdmission(a)
  {
    var b := Serve(a);
    var d, picked := Dispatch(b);
    var aged := AgeAll(d.ready);
    e := d.(ready := aged);
  }

  /** Where each record of `Step(w, s)` came from. */
  ghost function StepOrigins(w: seq<ProcessInfo>, s: State, o: Origins): Origins
    requires s.cursor <= |w|
  {
    var c := Admitted(w, s.cursor, s.time);
    AfterOrigins(s.(ready := s.ready + w[s.cursor..c], cursor := c), o.(ready := o.ready + Range(s.cursor, c)))
  }

  /** What a tick's phases establish about the state `d` they leave, with
      origins `od`, coming from the state `s` at the loop head: the core
      invariant and the charges, the clock unchanged, only later arrivals
      pending, one unit of work done when nothing was admitted and a
      process ran, the CPU busy whenever the heap is not empty, and a stop
      only at tick 0 for an empty workload or when `last` finished. */
  ghost predicate Stepped(w: seq<ProcessInfo>, s: State, d: State, od: Origins, last: char)
  {
    && Core(w, d, od)
    && ElapsedTo(w, d.ready, od.ready, 0, d.time + 1, 0) && RunningAt(w, d, od, d.time)
    && d.time == s.time && s.cursor <= d.cursor
    && (d.cursor == s.cursor ==> Remaining(d) == Remaining(s) - (if s.running.Some? then 1 else 0))
    && (d.cursor < |w| ==> w[d.cursor].arrival > d.time)
    && (d.running.None? ==> d.ready == [])
    && (d.running.None? && d.cursor == |w| ==> StoppedAt(w, d.stats, od.finished, d.time, 0, last))
  }

  /** What admission leaves in `a`, with origins `oa`, coming from the
      state `s` at the loop head: the core invariant, the heap charged up
      to the previous tick, only later arrivals pending, and the new heap
      entries being exactly the ones the cursor passed over. */
  ghost predicate AdmittedFrom(w: seq<ProcessInfo>, s: State, a: State, oa: Origins)
  {
    && Core(w, a, oa)
    && ElapsedTo(w, a.ready, oa.ready, 0, a.time, 0) && RunningAt(w, a, oa, a.time - 1)
    && (a.cursor < |w| ==> w[a.cursor].arrival > a.time)
    && s.cursor <= a.cursor <= |w| && a.time == s.time && a.running == s.running
    && |a.ready| == |s.ready| + (a.cursor - s.cursor)
    && (a.cursor == s.cursor ==> a == s)
  }

  /** A tick that leaves nothing running or pending stops at tick 0 only
      for an empty workload, since an idle CPU at the head of a later tick
      means a process is still to arrive, and otherwise at the tick the
      process that ran finished. */
  lemma StopsAtFinish(w: seq<ProcessInfo>, s: State, a: State, oa: Origins, d: State, od: Origins, last: char)
    requires s.running.Some? ==> last == s.running.value.id
    requires s.running.None? ==> s.ready == []
    requires s.time == 0 ==> s.cursor == 0 && s.running.None?
    requires s.time > 0 && s.running.None? ==> s.cursor < |w|
    requires AdmittedFrom(w, s, a, oa)
    requires Settled(w, a, d, od)
    ensures d.running.None? && d.cursor == |w| ==> StoppedAt(w, d.stats, od.finished, d.time, 0, last)
  {
    if d.running.Some? || d.cursor < |w| {
    } else if s.running.None? {
      assert a.ready == [] && a.cursor == s.cursor;
      assert s.time == 0 && |w| == 0;
    } else {
      assert d.time == s.time > 0;
      assert EndsWithin(w, d.stats, od.finished, last, d.time, 0);
    }
  }

  /** The phases of one tick establish `Stepped`. */
  lemma StepKeeps(w: seq<ProcessInfo>, s: State, o: Origins, last: char)
    requires Inv(w, s, o)
    requires s.running.Some? ==> last == s.running.value.id
    ensures Stepped(w, s, Step(w, s), StepOrigins(w, s, o), last)
  {
    var c := Admitted(w, s.cursor, s.time);
    var a := s.(ready := s.ready + w[s.cursor..c], cursor := c);
    var oa := o.(ready := o.ready + Range(s.cursor, c));
    AdmitKeeps(w, s, o, a, oa);
    if c == s.cursor {
      assert a.ready == s.ready + [];
      assert a == s;
    }
    assert AdmittedFrom(w, s, a, oa);
    AfterAdmissionKeeps(w, a, oa);
    var d, od := AfterAdmission(a), AfterOrigins(a, oa);
    StopsAtFinish(w, s, a, oa, d, od, last);
  }

  /** One iteration of the `while(true)` loop.  The new state is `Step` of
      the old one, with the clock advanced unless the loop stops; the loop
      stops exactly when nothing runs and nothing is pending, and then at
      the tick some process finished (at tick 0 only for an empty
      workload); otherwise the invariant is kept and the rank goes down. */
  method Tick(w: seq<ProcessInfo>, s: State, ghost o: Origins) returns (s': State, ghost o': Origins, done: bool, ghost last: char)
    requires Inv(w, s, o)
    ensures s' == if done then Step(w, s) else Step(w, s).(time := s.time + 1)
    ensures done <==> s'.running.None? && s'.cursor == |w|
    ensures done ==> s'.time == s.time && Halted(w, s', o', last)
    ensures !done ==> Inv(w, s', o') && s'.time == s.time + 1 && Progress(w, s, s')
  {
    var ready, cursor := Admit(w, s.cursor, s.time, s.ready);
    var a := s.(ready := ready, cursor := cursor);
    var e := ServeDispatchAge(a);
    assert e == Step(w, s);
    last := if s.running.Some? then s.running.value.id else ' ';
    StepKeeps(w, s, o, last);
    o' := StepOrigins(w, s, o);
    done := e.running.None? && e.cursor == |w|;
    if done {
      s' := e;
    } else {
      s' := e.(time := e.time + 1);
      AdvanceKeeps(w, e, o', s');
    }
  }

  /** Moving the clock on after the tick's phases keeps the invariant. */
  lemma AdvanceKeeps(w: seq<ProcessInfo>, e: State, o: Origins, s': State)
    requires Core(w, e, o) && s' == e.(time := e.time + 1)
    requires ElapsedTo(w, e.ready, o.ready, 0, e.time + 1, 0) && RunningAt(w, e, o, e.time)
    requires e.cursor < |w| ==> w[e.cursor].arrival > e.time
    requires e.running.None? ==> e.ready == [] && e.cursor < |w|
    ensures Inv(w, s', o)
  {
    RecordedLater(w, e.cursor, e.time, e.cursor, e.time + 1, e.stats, o.finished);
  }

  /** The invariant holds before the first tick. */
  lemma InitInv(w: seq<ProcessInfo>)
    requires Admissible(w) && ArrivalSorted(w)
    ensures Inv(w, Init(), Origins([], 0, map[]))
  {
    assert w[..0] == [];
    if |w| > 0 {
      assert w[0].arrival >= 0;
    }
  }

  /** At the end of the loop every process of the workload has one
      statistics entry, accounted for by one of its records; the loop
      stopped at tick 0 for an empty workload and otherwise at the tick
      some process finished; and for fresh records the entries are in the
      reported form. */
  lemma FinalStats(w: seq<ProcessInfo>, workload: seq<ProcessInfo>, s: State, o: Origins, last: char)
    requires Halted(w, s, o, last)
    requires multiset(w) == multiset(workload)
    ensures Reported(workload, s.stats, s.time, 0)
  {
    assert w[..s.cursor] == w;
    IdsPermutation(w, workload);
    RecordedFinished(w, workload, s.time, s.stats, o.finished);
    ArrivedBy(w, workload, s.time);
    StoppedFinished(w, workload, s.stats, o.finished, s.time, 0, last);
    FreshCompleted(workload, s.stats, s.time);
  }

  /** The `while(true)` loop: ticks until nothing runs and nothing is pending. */
  method Loop(w: seq<ProcessInfo>, s0: State, ghost o0: Origins) returns (s: State, ghost o: Origins, ghost last: char)
    requires Inv(w, s0, o0)
    ensures Halted(w, s, o, last)
  {
    s, o := s0, o0;
    while true
      invariant Inv(w, s, o)
      decreases |w| - s.cursor, Remaining(s), Gap(w, s.cursor, s.time)
    {
      RankBounded(w, s, o);
      var s', o', done, l := Tick(w, s, o);
      s, o, last := s', o', l;
      if done {
        break;
      }
      RankBounded(w, s, o);
    }
  }

  /** The SRTF simulation over a workload: sort by arrival, then tick until
      nothing runs and nothing is pending.  Every process gets exactly one
      statistics entry under its id, whose turnaround minus wait is the work
      the record came in with (its burst, for a fresh record), whose wait
      and turnaround only grew, and whose turnaround, counted from the
      arrival, ends no later than `completion`, the tick reported as
      "Complete".  That tick is 0 for an empty workload and otherwise the
      one at which some process ends; for records built by `NewProcess`,
      every entry has a non-negative wait and a turnaround equal to wait
      plus burst. */
  method Run(workload: seq<ProcessInfo>) returns (stats: map<char, Stat>, completion: int)
    requires Admissible(workload)
    ensures Reported(workload, stats, completion, 0)
  {
    var w := SortedCopy(workload);
    AdmissiblePermutation(w, workload);
    var s := Init();
    ghost var o := Origins([], 0, map[]);
    InitInv(w);
    ghost var last;
    s, o, last := Loop(w, s, o);
    FinalStats(w, workload, s, o, last);
    stats, completion := s.stats, s.time;
  }
}
