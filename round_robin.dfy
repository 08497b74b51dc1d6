/** Round Robin with a fixed quantum: a FIFO queue whose front is the
    running process.  Each tick admits the arrivals to the back, serves the
    front for one tick while everything behind it waits, removes a finished
    front or moves an expired one to the back, and gives a newly dispatched
    front a full quantum. */
module RoundRobin {
  import opened Process
  import opened Workload
  import opened ReadySet

  /** The locals of the tick loop: `current_time`, the cursor standing for
      the erased front of `processVector`, `processQueue` (whose front runs
      while `process_executing`) and `process_stats`. */
  datatype State = State(
    time: int,
    cursor: nat,
    queue: seq<ProcessInfo>,
    executing: bool,
    stats: map<char, Stat>)

  function Init(): State
  {
    State(0, 0, [], false, map[])
  }

  /** Ghost bookkeeping: the workload index each queue entry was admitted
      from, and the index whose termination produced each statistics entry. */
  datatype Origins = Origins(queue: seq<nat>, finished: map<char, nat>)

  /** How far past the current tick a charge may run: none when only the
      entries queued before admission wait through a tick, and one tick
      when, as written, the entries admitted at that tick wait through it
      too. */
  function Slack(asWritten: bool): nat
  {
    if asWritten then 1 else 0
  }

  /** What holds between the phases of a tick as well as at its head:
      admitted entries have arrived, queued entries are working copies of
      their workload records, every admitted id is queued or has
      statistics, and every statistics entry is accounted for by the tick
      it was recorded at, give or take `slack`. */
  ghost predicate Core(w: seq<ProcessInfo>, slack: nat, s: State, o: Origins)
  {
    && Admissible(w) && ArrivalSorted(w)
    && s.cursor <= |w| && s.time >= 0
    && (forall k :: 0 <= k < s.cursor ==> w[k].arrival <= s.time)
    && AllTrack(w, s.queue, o.queue, s.cursor)
    && Ids(w[..s.cursor]) == s.stats.Keys + Ids(s.queue)
    && (forall id :: id in s.stats ==> Recorded(w, s.cursor, s.time + slack, s.stats, o.finished, id))
  }

  /** A running front has between 1 and `quantum` ticks left in its slice. */
  ghost predicate SliceOk(s: State, quantum: int)
  {
    s.executing && quantum >= 1 ==> s.queue != [] && 1 <= s.queue[0].quantum <= quantum
  }

  /** The loop invariant, at the head of every tick: nothing pending has
      arrived yet, the CPU is busy exactly when the queue is not empty, and
      every queued entry has been charged, from its arrival, for every tick
      before the current one (and, as written, possibly for the current one
      too); nothing has been admitted before the first tick, and after it
      an idle CPU means some process is still to arrive. */
  ghost predicate Inv(w: seq<ProcessInfo>, quantum: int, asWritten: bool, s: State, o: Origins)
  {
    && Core(w, Slack(asWritten), s, o)
    && (s.cursor < |w| ==> w[s.cursor].arrival >= s.time)
    && (s.executing <==> s.queue != [])
    && SliceOk(s, quantum)
    && ElapsedTo(w, s.queue, o.queue, |s.queue|, s.time, Slack(asWritten))
    && (s.time == 0 ==> s.cursor == 0)
    && (s.time > 0 && !s.executing ==> s.cursor < |w|)
  }

  /** The state the loop stops in: the core invariant holds, everything
      has been admitted, nothing runs or waits, and the stop is at tick 0
      only for an empty workload and otherwise at the tick `last` finished,
      give or take `slack`. */
  ghost predicate Halted(w: seq<ProcessInfo>, slack: nat, s: State, o: Origins, last: char)
  {
    && Core(w, slack, s, o) && s.cursor == |w| && s.queue == [] && !s.executing
    && StoppedAt(w, s.stats, o.finished, s.time, slack, last)
  }

  /** The lexicographic rank (pending count, bursts owed, gap) went down. */
  ghost predicate Progress(w: seq<ProcessInfo>, s: State, s': State)
  {
    || s'.cursor > s.cursor
    || (s'.cursor == s.cursor && TotalBurst(s'.queue) < TotalBurst(s.queue))
    || (s'.cursor == s.cursor && TotalBurst(s'.queue) == TotalBurst(s.queue) && Gap(w, s'.cursor, s'.time) < Gap(w, s.cursor, s.time))
  }

  lemma RankBounded(w: seq<ProcessInfo>, slack: nat, s: State, o: Origins)
    requires Core(w, slack, s, o)
    ensures TotalBurst(s.queue) >= 0
  {
    TotalBurstPositive(s.queue);
  }

  /** The service step of an executing tick, on a queue whose first `n`
      entries were already queued before this tick's admission: the front
      runs one tick, losing one of burst and of quantum and gaining one of
      turnaround, and the other entries that were waiting during that tick
      gain one of wait and of turnaround.  Entries admitted at this tick
      did not wait during it and are left as they are. */
  function Served(queue: seq<ProcessInfo>, n: nat): (r: seq<ProcessInfo>)
    requires 1 <= n <= |queue|
    ensures |r| == |queue|
    ensures r[0] == Ran(queue[0]).(quantum := queue[0].quantum - 1)
    ensures forall i :: 1 <= i < n ==> r[i] == Aged(queue[i])
    ensures forall i :: n <= i < |queue| ==> r[i] == queue[i]
  {
    seq(|queue|, i requires 0 <= i < |queue| =>
      if i == 0 then Ran(queue[0]).(quantum := queue[0].quantum - 1)
      else if i < n then Aged(queue[i])
      else queue[i])
  }

  /** Service keeps every id and every entry's work, and does exactly one
      unit of burst. */
  lemma ServedConserves(queue: seq<ProcessInfo>, n: nat)
    requires 1 <= n <= |queue|
    ensures Ids(Served(queue, n)) == Ids(queue)
    ensures forall i :: 0 <= i < |queue| ==> Work(Served(queue, n)[i]) == Work(queue[i])
    ensures TotalBurst(Served(queue, n)) == TotalBurst(queue) - 1
  {
    var r := Served(queue, n);
    IdsPointwise(r, queue);
    TotalBurstPointwise(r[1..], queue[1..]);
  }

  /** The aging loop of the service block of `round_robin`
      (main.cpp:127-132) as corrected: the waiting entries are those queued
      before admission, and the aging loop walks exactly them. */
  method Service(queue: seq<ProcessInfo>, n: nat) returns (queue': seq<ProcessInfo>)
    requires 1 <= n <= |queue|
    ensures queue' == Served(queue, n)
  {
    var waiting := AgeAll(queue[1..n]);
    queue' := [Ran(queue[0]).(quantum := queue[0].quantum - 1)] + waiting + queue[n..];
  }

  /** The aging loop of the service block of `round_robin`
      (main.cpp:127-132) as written: it walks every entry behind the
      front, including those admitted at this very tick. */
  method ServiceAsWritten(queue: seq<ProcessInfo>) returns (queue': seq<ProcessInfo>)
    requires queue != []
    ensures queue' == Served(queue, |queue|)
  {
    var waiting := AgeAll(queue[1..]);
    queue' := [Ran(queue[0]).(quantum := queue[0].quantum - 1)] + waiting;
  }

  /** An entry `n` admitted at tick `t`, behind a running front, is
      charged by the aging loop as written for tick `t` itself, and so
      already counts a tick that ends after the one it arrived at; the
      corrected service leaves it as admitted. */
  lemma AsWrittenOvercharges(queue: seq<ProcessInfo>, n: nat, t: int)
    requires 1 <= n < |queue| && queue[n].arrival == t
    ensures var r := Served(queue, |queue|)[n];
            r.wait == queue[n].wait + 1 && r.arrival + Elapsed(r, queue[n]) == t + 1
    ensures Served(queue, n)[n] == queue[n]
  {
  }

  /** The workload A (burst 2, arrival 0), B (burst 1, arrival 1) with
      quantum 2, at tick 1: A was dispatched at tick 0 and B has just been
      admitted behind it.  As written, B leaves the tick with one tick of
      wait although it arrived at this very tick, and counted from its
      arrival it is already charged up to tick 2. */
  lemma AsWrittenExample(a: ProcessInfo, b: ProcessInfo, served: seq<ProcessInfo>)
    requires served == Served([a, b], 2)
    requires a == ProcessInfo('A', 2, 0, -1, 0, 0, 2) && b == ProcessInfo('B', 1, 1, -1, 0, 0, 0)
    ensures served[1].wait == 1 && b.arrival + Elapsed(served[1], b) == 2
  {
  }

  /** The transitions after service: a front whose burst reached 0 has its
      wait and turnaround recorded under its id and leaves the queue;
      otherwise a front whose quantum reached 0 moves to the back, behind
      everything admitted this tick; either way the CPU becomes free. */
  function Resolved(s: State): State
    requires s.queue != []
  {
    var front := s.queue[0];
    if front.burst == 0 then
      s.(queue := s.queue[1..], executing := false, stats := s.stats[front.id := Stat(front.wait, front.turnaround)])
    else if front.quantum == 0 then
      s.(queue := s.queue[1..] + [front], executing := false)
    else
      s
  }

  /** The termination and quantum-expiry tests of the service block. */
  method Resolve(s: State) returns (s': State)
    requires s.queue != []
    ensures s' == Resolved(s)
  {
    var front := s.queue[0];
    if front.burst == 0 {
      s' := s.(queue := s.queue[1..], executing := false,
               stats := s.stats[front.id := Stat(front.wait, front.turnaround)]);
    } else if front.quantum == 0 {
      s' := s.(queue := s.queue[1..] + [front], executing := false);
    } else {
      s' := s;
    }
  }

  /** Dispatch: when the CPU is free and the queue is not empty, the front
      starts running with a full quantum; otherwise nothing changes. */
  function Dispatched(s: State, quantum: int): State
  {
    if !s.executing && s.queue != [] then
      s.(queue := [s.queue[0].(quantum := quantum)] + s.queue[1..], executing := true)
    else
      s
  }

  method Dispatch(s: State, quantum: int) returns (s': State)
    ensures s' == Dispatched(s, quantum)
  {
    s' := s;
    if !s.executing && s.queue != [] {
      s' := s.(queue := [s.queue[0].(quantum := quantum)] + s.queue[1..], executing := true);
    }
  }

  /** How many entries at the front of the queue after admission `a`, from
      the loop-head state `s`, the service step treats as having waited
      through the tick: as written, all of them; as corrected, those
      queued before admission. */
  function Waiting(asWritten: bool, s: State, a: State): nat
  {
    if asWritten then |a.queue| else |s.queue|
  }

  /** Everything a tick does after admission, as a function of the state
      `a` admission left: while a process executes, service of the first
      `n` entries and the transitions; then dispatch. */
  function Serviced(a: State, quantum: int, n: nat): State
    requires a.executing ==> 1 <= n <= |a.queue|
  {
    Dispatched(if a.executing then Resolved(a.(queue := Served(a.queue, n))) else a, quantum)
  }

  /** One tick of the loop before the completion test, as a function of the
      state at its head: admission, then `Serviced`. */
  function Step(w: seq<ProcessInfo>, quantum: int, asWritten: bool, s: State): State
    requires s.cursor <= |w| && (s.executing ==> s.queue != [])
  {
    var c := Admitted(w, s.cursor, s.time);
    var a := s.(queue := s.queue + w[s.cursor..c], cursor := c);
    Serviced(a, quantum, Waiting(asWritten, s, a))
  }

  /** The phases of one tick before the completion test, with the aging
      loop as written or as corrected; they leave `Step` of the state at
      the head of the tick. */
  method Phases(w: seq<ProcessInfo>, quantum: int, asWritten: bool, s: State) returns (d: State)
    requires s.cursor <= |w| && (s.executing ==> s.queue != [])
    ensures d == Step(w, quantum, asWritten, s)
  {
    var waiting := |s.queue|;
    var queue, cursor := Admit(w, s.cursor, s.time, s.queue);
    var a := s.(queue := queue, cursor := cursor);
    var b := a;
    if a.executing {
      var served;
      if asWritten {
        served := ServiceAsWritten(a.queue);
      } else {
        served := Service(a.queue, waiting);
      }
      b := Resolve(a.(queue := served));
    }
    d := Dispatch(b, quantum);
  }

  /** Entries admitted at tick `t`, appended behind entries charged up to
      tick `t - 1` or `t`, are charged within the same bounds. */
  lemma AdmitElapsedAll(w: seq<ProcessInfo>, queue: seq<ProcessInfo>, orig: seq<nat>, t: int, c0: nat, c1: nat)
    requires c0 <= c1 <= |w|
    requires ElapsedTo(w, queue, orig, |queue|, t, 1)
    requires forall k :: c0 <= k < c1 ==> w[k].arrival == t
    ensures ElapsedTo(w, queue + w[c0..c1], orig + Range(c0, c1), |queue| + (c1 - c0), t, 1)
  {
    var r, o := queue + w[c0..c1], orig + Range(c0, c1);
    forall i | 0 <= i < |r|
      ensures o[i] < |w|
      ensures t - 1 <= w[o[i]].arrival + Elapsed(r[i], w[o[i]]) <= t
    {
      if i >= |queue| {
        assert r[i] == w[c0 + (i - |queue|)];
        assert o[i] == c0 + (i - |queue|);
      } else {
        assert r[i] == queue[i] && o[i] == orig[i];
      }
    }
  }

  /** Admission keeps the core invariant, leaves pending only later
      arrivals and the running front where it was; the entries the service
      step treats as waiting are charged up to the previous tick, give or
      take the slack, and the others up to this one. */
  lemma AdmitKeeps(w: seq<ProcessInfo>, quantum: int, asWritten: bool, s: State, o: Origins, a: State, oa: Origins)
    requires Inv(w, quantum, asWritten, s, o)
    requires s.cursor <= a.cursor <= |w|
    requires a == s.(queue := s.queue + w[s.cursor..a.cursor], cursor := a.cursor)
    requires oa == o.(queue := o.queue + Range(s.cursor, a.cursor))
    requires forall k :: s.cursor <= k < a.cursor ==> w[k].arrival == s.time
    requires a.cursor < |w| ==> w[a.cursor].arrival != s.time
    ensures Core(w, Slack(asWritten), a, oa) && SliceOk(a, quantum)
    ensures a.executing ==> a.queue != [] && a.queue[0] == s.queue[0]
    ensures a.cursor < |w| ==> w[a.cursor].arrival > a.time
    ensures ElapsedTo(w, a.queue, oa.queue, if a.executing then Waiting(asWritten, s, a) else 0, a.time, Slack(asWritten))
  {
    AdmitTracks(w, s.queue, o.queue, s.cursor, a.cursor);
    AdmitIds(w, s.queue, s.stats.Keys, s.cursor, a.cursor);
    AdmitArrivals(w, s.time, s.cursor, a.cursor);
    if asWritten && s.executing {
      AdmitElapsedAll(w, s.queue, o.queue, s.time, s.cursor, a.cursor);
    } else {
      AdmitElapsed(w, s.queue, o.queue, |s.queue|, s.time, Slack(asWritten), s.cursor, a.cursor);
    }
    RecordedLater(w, s.cursor, s.time + Slack(asWritten), a.cursor, a.time + Slack(asWritten), s.stats, o.finished);
  }

  /** Origins follow the queue through service and the transitions. */
  function ResolveOrigins(o: Origins, served: seq<ProcessInfo>): Origins
    requires |o.queue| == |served| > 0
  {
    if served[0].burst == 0 then
      Origins(o.queue[1..], o.finished[served[0].id := o.queue[0]])
    else if served[0].quantum == 0 then
      Origins(o.queue[1..] + [o.queue[0]], o.finished)
    else
      o
  }

  /** What service does to each entry: those behind the front still track
      their workload records, the front tracks its record except that its
      burst may have reached 0, and every entry is now charged up to the
      current tick, give or take the slack. */
  lemma ServedTracks(w: seq<ProcessInfo>, c: nat, queue: seq<ProcessInfo>, orig: seq<nat>, n: nat, t: int, slack: nat)
    requires AllTrack(w, queue, orig, c) && 1 <= n <= |queue|
    requires ElapsedTo(w, queue, orig, n, t, slack)
    ensures var served := Served(queue, n);
            && AllTrack(w, served[1..], orig[1..], c)
            && ElapsedTo(w, served, orig, 0, t, slack)
            && (served[0].burst != 0 ==> AllTrack(w, served, orig, c))
    ensures var f, g := Served(queue, n)[0], w[orig[0]];
            f.id == g.id && f.arrival == g.arrival && Work(f) == Work(g)
            && f.wait >= g.wait && f.turnaround >= g.turnaround && 0 <= f.burst < g.burst
  {
    var served := Served(queue, n);
    assert Tracks(queue[0], w[orig[0]]);
    forall i | 1 <= i < |served| ensures Tracks(served[i], w[orig[i]]) {
      assert Tracks(queue[i], w[orig[i]]);
    }
  }

  /** Entries charged up to tick `t` stay so when the front leaves. */
  lemma ElapsedTail(w: seq<ProcessInfo>, queue: seq<ProcessInfo>, orig: seq<nat>, t: int, slack: nat)
    requires queue != [] && ElapsedTo(w, queue, orig, 0, t, slack)
    ensures ElapsedTo(w, queue[1..], orig[1..], 0, t, slack)
  {
    forall i | 0 <= i < |queue| - 1
      ensures orig[1..][i] < |w|
      ensures t <= w[orig[1..][i]].arrival + Elapsed(queue[1..][i], w[orig[1..][i]]) <= t + slack
    {
      assert queue[1..][i] == queue[i + 1] && orig[1..][i] == orig[i + 1];
    }
  }

  /** Entries charged up to tick `t` stay so when the front moves to the back. */
  lemma ElapsedRotate(w: seq<ProcessInfo>, queue: seq<ProcessInfo>, orig: seq<nat>, t: int, slack: nat)
    requires queue != [] && ElapsedTo(w, queue, orig, 0, t, slack)
    ensures ElapsedTo(w, queue[1..] + [queue[0]], orig[1..] + [orig[0]], 0, t, slack)
  {
    var q, o := queue[1..] + [queue[0]], orig[1..] + [orig[0]];
    forall i | 0 <= i < |q|
      ensures o[i] < |w|
      ensures t <= w[o[i]].arrival + Elapsed(q[i], w[o[i]]) <= t + slack
    {
      if i < |q| - 1 {
        assert q[i] == queue[i + 1] && o[i] == orig[i + 1];
      }
    }
  }

  /** Working copies stay so when the front moves to the back. */
  lemma AllTrackRotate(w: seq<ProcessInfo>, queue: seq<ProcessInfo>, orig: seq<nat>, c: nat)
    requires queue != [] && AllTrack(w, queue, orig, c)
    ensures AllTrack(w, queue[1..] + [queue[0]], orig[1..] + [orig[0]], c)
  {
    var q, o := queue[1..] + [queue[0]], orig[1..] + [orig[0]];
    forall i | 0 <= i < |q| ensures o[i] < c && o[i] < |w| && Tracks(q[i], w[o[i]]) {
      if i < |q| - 1 {
        assert q[i] == queue[i + 1] && o[i] == orig[i + 1];
      }
    }
  }

  /** A finished front is recorded and leaves: the core invariant is kept,
      and the front's turnaround ends, counted from its arrival, at the
      current tick, give or take the slack. */
  lemma TerminateKeeps(w: seq<ProcessInfo>, slack: nat, a: State, o: Origins, served: seq<ProcessInfo>)
    requires Core(w, slack, a, o) && a.queue != []
    requires |served| == |a.queue| && Ids(served) == Ids(a.queue)
    requires AllTrack(w, served[1..], o.queue[1..], a.cursor)
    requires ElapsedTo(w, served, o.queue, 0, a.time, slack)
    requires var f, g := served[0], w[o.queue[0]];
             f.id == g.id && Work(f) == Work(g) && f.wait >= g.wait && f.turnaround >= g.turnaround && f.burst == 0
    ensures var f := served[0];
            var b := a.(queue := served[1..], executing := false, stats := a.stats[f.id := Stat(f.wait, f.turnaround)]);
            var ob := Origins(o.queue[1..], o.finished[f.id := o.queue[0]]);
            Core(w, slack, b, ob) && EndsWithin(w, b.stats, ob.finished, f.id, a.time, slack)
  {
    var f := served[0];
    var b := a.(queue := served[1..], executing := false, stats := a.stats[f.id := Stat(f.wait, f.turnaround)]);
    var ob := Origins(o.queue[1..], o.finished[f.id := o.queue[0]]);
    assert served == [f] + served[1..];
    IdsConcat([f], served[1..]);
    assert Ids([f]) == {f.id};
    forall id | id in b.stats ensures Recorded(w, b.cursor, b.time + slack, b.stats, ob.finished, id) {
      if id != f.id {
        assert Recorded(w, a.cursor, a.time + slack, a.stats, o.finished, id);
      }
    }
  }

  /** Replacing the queue by one with the same ids, tracking the same
      records, keeps the core invariant. */
  lemma RequeueKeeps(w: seq<ProcessInfo>, slack: nat, a: State, o: Origins, queue: seq<ProcessInfo>, orig: seq<nat>, executing: bool)
    requires Core(w, slack, a, o)
    requires Ids(queue) == Ids(a.queue) && AllTrack(w, queue, orig, a.cursor)
    ensures Core(w, slack, a.(queue := queue, executing := executing), o.(queue := orig))
  {
    var b, ob := a.(queue := queue, executing := executing), o.(queue := orig);
    forall id | id in b.stats ensures Recorded(w, b.cursor, b.time + slack, b.stats, ob.finished, id) {
      assert Recorded(w, a.cursor, a.time + slack, a.stats, o.finished, id);
    }
  }

  /** Moving the front to the back keeps the work owed. */
  lemma TotalBurstRotate(queue: seq<ProcessInfo>)
    requires queue != []
    ensures TotalBurst(queue[1..] + [queue[0]]) == TotalBurst(queue)
  {
    assert queue == [queue[0]] + queue[1..];
    TotalBurstConcat([queue[0]], queue[1..]);
    TotalBurstConcat(queue[1..], [queue[0]]);
  }

  /** An expired front moves to the back: the core invariant is kept. */
  lemma RotateKeeps(w: seq<ProcessInfo>, slack: nat, a: State, o: Origins, served: seq<ProcessInfo>)
    requires Core(w, slack, a, o) && a.queue != []
    requires |served| == |a.queue| && Ids(served) == Ids(a.queue)
    requires AllTrack(w, served, o.queue, a.cursor)
    ensures Core(w, slack, a.(queue := served[1..] + [served[0]], executing := false),
                 Origins(o.queue[1..] + [o.queue[0]], o.finished))
  {
    var f := served[0];
    assert served == [f] + served[1..];
    IdsConcat([f], served[1..]);
    IdsConcat(served[1..], [f]);
    AllTrackRotate(w, served, o.queue, a.cursor);
    RequeueKeeps(w, slack, a, o, served[1..] + [f], o.queue[1..] + [o.queue[0]], false);
  }

  /** What service and the transitions establish about the state `b` they
      leave, with origins `ob`, from the state `a` admission left: the core
      invariant and a valid slice, every queued entry charged up to the
      current tick, give or take `slack`, the clock and cursor unchanged,
      a busy CPU only with a front, one unit of work done, and an empty
      queue only when the front finished, its turnaround ending, counted
      from its arrival, at this tick. */
  ghost predicate ServedWell(w: seq<ProcessInfo>, quantum: int, slack: nat, a: State, b: State, ob: Origins)
    requires a.queue != []
  {
    && Core(w, slack, b, ob) && SliceOk(b, quantum)
    && ElapsedTo(w, b.queue, ob.queue, 0, b.time, slack)
    && b.time == a.time && b.cursor == a.cursor
    && (b.executing ==> b.queue != [])
    && TotalBurst(b.queue) == TotalBurst(a.queue) - 1
    && (b.queue == [] ==> EndsWithin(w, b.stats, ob.finished, a.queue[0].id, a.time, slack))
  }

  /** Service of the first `n` entries followed by the transitions
      establishes `ServedWell`. */
  lemma ServeKeeps(w: seq<ProcessInfo>, quantum: int, slack: nat, a: State, o: Origins, n: nat)
    requires Core(w, slack, a, o) && SliceOk(a, quantum) && a.executing && 1 <= n <= |a.queue|
    requires ElapsedTo(w, a.queue, o.queue, n, a.time, slack)
    ensures ServedWell(w, quantum, slack, a, Resolved(a.(queue := Served(a.queue, n))), ResolveOrigins(o, Served(a.queue, n)))
  {
    var served := Served(a.queue, n);
    var f := served[0];
    ServedConserves(a.queue, n);
    ServedTracks(w, a.cursor, a.queue, o.queue, n, a.time, slack);
    if f.burst == 0 {
      TerminateServed(w, quantum, slack, a, o, served);
    } else if f.quantum == 0 {
      RotateKeeps(w, slack, a, o, served);
      TotalBurstRotate(served);
      ElapsedRotate(w, served, o.queue, a.time, slack);
    }
  }

  /** A finished front after service establishes `ServedWell`. */
  lemma TerminateServed(w: seq<ProcessInfo>, quantum: int, slack: nat, a: State, o: Origins, served: seq<ProcessInfo>)
    requires Core(w, slack, a, o) && a.queue != [] && |served| == |a.queue|
    requires a.queue[0].id == served[0].id && Ids(served) == Ids(a.queue)
    requires TotalBurst(served) == TotalBurst(a.queue) - 1
    requires AllTrack(w, served[1..], o.queue[1..], a.cursor)
    requires ElapsedTo(w, served, o.queue, 0, a.time, slack)
    requires var f, g := served[0], w[o.queue[0]];
             f.id == g.id && Work(f) == Work(g) && f.wait >= g.wait && f.turnaround >= g.turnaround && f.burst == 0
    ensures ServedWell(w, quantum, slack, a, Resolved(a.(queue := served)), ResolveOrigins(o, served))
  {
    var f := served[0];
    TerminateKeeps(w, slack, a, o, served);
    ElapsedTail(w, served, o.queue, a.time, slack);
    assert served == [f] + served[1..];
    TotalBurstConcat([f], served[1..]);
  }

  /** Dispatch keeps the core invariant, the work owed and the charges,
      and gives a valid slice; the CPU is then busy exactly when the queue
      is not empty. */
  lemma DispatchKeeps(w: seq<ProcessInfo>, quantum: int, slack: nat, b: State, o: Origins)
    requires Core(w, slack, b, o) && SliceOk(b, quantum) && (b.executing ==> b.queue != [])
    requires ElapsedTo(w, b.queue, o.queue, 0, b.time, slack)
    ensures var d := Dispatched(b, quantum);
            && Core(w, slack, d, o) && SliceOk(d, quantum)
            && ElapsedTo(w, d.queue, o.queue, 0, d.time, slack)
            && (d.executing <==> d.queue != [])
            && TotalBurst(d.queue) == TotalBurst(b.queue)
  {
    var d := Dispatched(b, quantum);
    if d != b {
      IdsPointwise(d.queue, b.queue);
      TotalBurstPointwise(d.queue, b.queue);
      forall i | 0 <= i < |d.queue|
        ensures Tracks(d.queue[i], w[o.queue[i]]) && Elapsed(d.queue[i], w[o.queue[i]]) == Elapsed(b.queue[i], w[o.queue[i]])
      {
        assert Tracks(b.queue[i], w[o.queue[i]]);
      }
    }
  }

  /** Where each record of `Serviced(a, quantum, n)` came from. */
  function ServicedOrigins(a: State, o: Origins, n: nat): Origins
    requires |o.queue| == |a.queue| && (a.executing ==> 1 <= n <= |a.queue|)
  {
    if a.executing then ResolveOrigins(o, Served(a.queue, n)) else o
  }

  /** What the phases after admission `a` establish about the state `d`
      they leave, with origins `od`: the core invariant and the charges,
      the clock and cursor unchanged, one unit of work done exactly when a
      process executed, the CPU busy exactly when the queue is not empty,
      and an idle CPU only when the queue was empty or the front that ran
      finished at this tick, give or take `slack`. */
  ghost predicate Settled(w: seq<ProcessInfo>, quantum: int, slack: nat, a: State, d: State, od: Origins)
  {
    && Core(w, slack, d, od) && SliceOk(d, quantum)
    && ElapsedTo(w, d.queue, od.queue, 0, d.time, slack)
    && d.time == a.time && d.cursor == a.cursor
    && (d.executing <==> d.queue != [])
    && TotalBurst(d.queue) == TotalBurst(a.queue) - (if a.executing then 1 else 0)
    && (!d.executing ==>
          if a.executing then a.queue != [] && EndsWithin(w, d.stats, od.finished, a.queue[0].id, a.time, slack)
          else a.queue == [])
  }

  /** The phases after admission establish `Settled`. */
  lemma ServicedKeeps(w: seq<ProcessInfo>, quantum: int, slack: nat, a: State, o: Origins, n: nat)
    requires Core(w, slack, a, o) && SliceOk(a, quantum)
    requires a.executing ==> 1 <= n <= |a.queue|
    requires ElapsedTo(w, a.queue, o.queue, if a.executing then n else 0, a.time, slack)
    ensures Settled(w, quantum, slack, a, Serviced(a, quantum, n), ServicedOrigins(a, o, n))
  {
    var b := a;
    if a.executing {
      b := Resolved(a.(queue := Served(a.queue, n)));
      ServeKeeps(w, quantum, slack, a, o, n);
      assert ServedWell(w, quantum, slack, a, b, ServicedOrigins(a, o, n));
    }
    DispatchKeeps(w, quantum, slack, b, ServicedOrigins(a, o, n));
  }

  /** Where each record of `Step(w, quantum, asWritten, s)` came from. */
  ghost function StepOrigins(w: seq<ProcessInfo>, asWritten: bool, s: State, o: Origins): Origins
    requires s.cursor <= |w| && (s.executing ==> s.queue != []) && |o.queue| == |s.queue|
  {
    var c := Admitted(w, s.cursor, s.time);
    var a := s.(queue := s.queue + w[s.cursor..c], cursor := c);
    ServicedOrigins(a, o.(queue := o.queue + Range(s.cursor, c)), Waiting(asWritten, s, a))
  }

  /** What a tick's phases establish about the state `d` they leave, with
      origins `od`, coming from the state `s` at the loop head: the core
      invariant and the charges, the clock unchanged, only later arrivals
      pending, one unit of work done when nothing was admitted and the
      queue was not empty, the CPU busy exactly when the queue is not
      empty, and a stop only at tick 0 for an empty workload or when `last`
      finished, give or take `slack`. */
  ghost predicate Stepped(w: seq<ProcessInfo>, quantum: int, slack: nat, s: State, d: State, od: Origins, last: char)
  {
    && Core(w, slack, d, od) && SliceOk(d, quantum)
    && ElapsedTo(w, d.queue, od.queue, 0, d.time, slack)
    && d.time == s.time && s.cursor <= d.cursor
    && (d.executing <==> d.queue != [])
    && (d.cursor < |w| ==> w[d.cursor].arrival > d.time)
    && (d.cursor == s.cursor ==> TotalBurst(d.queue) < TotalBurst(s.queue) || (d.queue == [] && s.queue == []))
    && (!d.executing && d.cursor == |w| ==> StoppedAt(w, d.stats, od.finished, d.time, slack, last))
  }

  /** A tick that leaves nothing running or pending stops at tick 0 only
      for an empty workload, since at a later tick an idle CPU means a
      process is still to arrive and nothing executes at tick 0; otherwise
      it stops when the front that ran finished. */
  lemma StopsAtFinish(w: seq<ProcessInfo>, quantum: int, asWritten: bool, s: State, o: Origins, a: State,
                      d: State, od: Origins, last: char)
    requires Inv(w, quantum, asWritten, s, o)
    requires s.executing ==> last == s.queue[0].id
    requires s.cursor <= a.cursor <= |w| && a == s.(queue := s.queue + w[s.cursor..a.cursor], cursor := a.cursor)
    requires Settled(w, quantum, Slack(asWritten), a, d, od)
    requires !d.executing && d.cursor == |w|
    ensures StoppedAt(w, d.stats, od.finished, d.time, Slack(asWritten), last)
  {
    if !s.executing {
      assert |a.queue| == |s.queue| + (a.cursor - s.cursor);
    }
  }

  /** The phases of one tick establish `Stepped`. */
  lemma StepKeeps(w: seq<ProcessInfo>, quantum: int, asWritten: bool, s: State, o: Origins, last: char)
    requires Inv(w, quantum, asWritten, s, o)
    requires s.executing ==> last == s.queue[0].id
    ensures Stepped(w, quantum, Slack(asWritten), s, Step(w, quantum, asWritten, s), StepOrigins(w, asWritten, s, o), last)
  {
    var c := Admitted(w, s.cursor, s.time);
    var a := s.(queue := s.queue + w[s.cursor..c], cursor := c);
    var oa := o.(queue := o.queue + Range(s.cursor, c));
    AdmitKeeps(w, quantum, asWritten, s, o, a, oa);
    if c == s.cursor {
      assert a.queue == s.queue + [];
      assert a == s;
    }
    var n := Waiting(asWritten, s, a);
    ServicedKeeps(w, quantum, Slack(asWritten), a, oa, n);
    var d, od := Serviced(a, quantum, n), ServicedOrigins(a, oa, n);
    if !d.executing && d.cursor == |w| {
      StopsAtFinish(w, quantum, asWritten, s, o, a, d, od, last);
    }
  }

  /** One iteration of the `while(true)` loop.  The new state is `Step` of
      the old one, with the clock advanced unless the loop stops; the loop
      stops exactly when nothing runs and nothing is pending, and then at
      the tick some process finished (at tick 0 only for an empty
      workload), give or take the slack; otherwise the invariant is kept
      and the rank goes down. */
  method Tick(w: seq<ProcessInfo>, quantum: int, asWritten: bool, s: State, ghost o: Origins)
    returns (s': State, ghost o': Origins, done: bool, ghost last: char)
    requires Inv(w, quantum, asWritten, s, o)
    ensures s' == if done then Step(w, quantum, asWritten, s) else Step(w, quantum, asWritten, s).(time := s.time + 1)
    ensures done <==> !s'.executing && s'.cursor == |w|
    ensures done ==> s'.time == s.time && Halted(w, Slack(asWritten), s', o', last)
    ensures !done ==> Inv(w, quantum, asWritten, s', o') && s'.time == s.time + 1 && Progress(w, s, s')
  {
    var d := Phases(w, quantum, asWritten, s);
    last := if s.executing then s.queue[0].id else ' ';
    StepKeeps(w, quantum, asWritten, s, o, last);
    o' := StepOrigins(w, asWritten, s, o);
    done := !d.executing && d.cursor == |w|;
    if done {
      s' := d;
    } else {
      s' := d.(time := d.time + 1);
      AdvanceKeeps(w, quantum, asWritten, s, d, o', s', last);
    }
  }

  /** Moving the clock on after a tick that did not stop restores the loop
      invariant and lowers the rank. */
  lemma AdvanceKeeps(w: seq<ProcessInfo>, quantum: int, asWritten: bool, s: State, d: State, od: Origins, s': State, last: char)
    requires Stepped(w, quantum, Slack(asWritten), s, d, od, last)
    requires d.executing || d.cursor < |w|
    requires s' == d.(time := d.time + 1)
    ensures Inv(w, quantum, asWritten, s', od)
    ensures Progress(w, s, s')
  {
    RecordedLater(w, d.cursor, d.time + Slack(asWritten), d.cursor, s'.time + Slack(asWritten), d.stats, od.finished);
  }

  /** The invariant holds before the first tick. */
  lemma InitInv(w: seq<ProcessInfo>, quantum: int, asWritten: bool)
    requires Admissible(w) && ArrivalSorted(w)
    ensures Inv(w, quantum, asWritten, Init(), Origins([], map[]))
  {
    assert w[..0] == [];
    if |w| > 0 {
      assert w[0].arrival >= 0;
    }
  }

  /** The `while(true)` loop: ticks until nothing runs and nothing is pending. */
  method Loop(w: seq<ProcessInfo>, quantum: int, asWritten: bool, s0: State, ghost o0: Origins)
    returns (s: State, ghost o: Origins, ghost last: char)
    requires Inv(w, quantum, asWritten, s0, o0)
    ensures Halted(w, Slack(asWritten), s, o, last)
  {
    s, o := s0, o0;
    while true
      invariant Inv(w, quantum, asWritten, s, o)
      decreases |w| - s.cursor, TotalBurst(s.queue), Gap(w, s.cursor, s.time)
    {
      RankBounded(w, Slack(asWritten), s, o);
      var s', o', done, l := Tick(w, quantum, asWritten, s, o);
      s, o, last := s', o', l;
      if done {
        break;
      }
      RankBounded(w, Slack(asWritten), s, o);
    }
  }

  /** At the end of the loop every process of the workload has one
      statistics entry, accounted for by one of its records, and every
      process arrived by the tick the loop stopped at. */
  lemma HaltedStats(w: seq<ProcessInfo>, workload: seq<ProcessInfo>, slack: nat, s: State, o: Origins, last: char)
    requires Halted(w, slack, s, o, last)
    requires multiset(w) == multiset(workload)
    ensures s.stats.Keys == Ids(workload) && s.time >= 0
    ensures forall id :: id in s.stats ==> FinishedFrom(workload, s.stats[id], id, s.time + slack)
    ensures forall k :: 0 <= k < |workload| ==> 0 <= workload[k].arrival <= s.time
  {
    assert w[..s.cursor] == w;
    IdsPermutation(w, workload);
    RecordedFinished(w, workload, s.time + slack, s.stats, o.finished);
    ArrivedBy(w, workload, s.time);
  }

  /** At the end of the loop every process of the workload has one
      statistics entry, accounted for by one of its records; the loop
      stopped at tick 0 for an empty workload and otherwise at the tick
      some process finished; all of it give or take `slack`. */
  lemma FinalStats(w: seq<ProcessInfo>, workload: seq<ProcessInfo>, slack: nat, s: State, o: Origins, last: char)
    requires Halted(w, slack, s, o, last)
    requires multiset(w) == multiset(workload)
    ensures Reported(workload, s.stats, s.time, slack)
  {
    HaltedStats(w, workload, slack, s, o, last);
    StoppedFinished(w, workload, s.stats, o.finished, s.time, slack, last);
    FreshCompleted(workload, s.stats, s.time + slack);
  }

  /** The Round Robin simulation over a workload with the given quantum,
      with the aging loop as written or as corrected: sort by arrival, then
      tick until nothing runs and nothing is pending.  Every process gets
      exactly one statistics entry under its id, whose turnaround minus
      wait is the work the record came in with (its burst, for a fresh
      record), whose wait and turnaround only grew, and whose turnaround,
      counted from the arrival, ends no later than `completion`, the tick
      reported as "Complete", which is 0 for an empty workload and
      otherwise the tick at which some process ends.  As written, each of
      these ends may lie one tick later.  A quantum below 1 never expires,
      and the policy then serves in arrival order. */
  method Run(workload: seq<ProcessInfo>, quantum: int, asWritten: bool) returns (stats: map<char, Stat>, completion: int)
    requires Admissible(workload)
    ensures Reported(workload, stats, completion, Slack(asWritten))
  {
    var w := SortedCopy(workload);
    AdmissiblePermutation(w, workload);
    var s := Init();
    ghost var o := Origins([], map[]);
    InitInv(w, quantum, asWritten);
    ghost var last;
    s, o, last := Loop(w, quantum, asWritten, s, o);
    FinalStats(w, workload, Slack(asWritten), s, o, last);
    stats, completion := s.stats, s.time;
  }
}
