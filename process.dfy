/** The process record every scheduling policy works on, the statistics a
    policy keeps per finished process, and the bookkeeping quantities the
    proofs about all three policies share. */
module Process {

  datatype Option<T> = None | Some(value: T)

  /** One process: `processID`, `burst_time`, `arrival_time`, `start_time`,
      `wait_time`, `turnaround_time` and `quantum_remaining` of `process_info`. */
  datatype ProcessInfo = ProcessInfo(
    id: char,
    burst: int,
    arrival: int,
    start: int,
    wait: int,
    turnaround: int,
    quantum: int)

  /** The three-argument constructor: start -1, wait and turnaround 0, and
      the quantum left at its default 0. */
  function NewProcess(id: char, burst: int, arrival: int): (r: ProcessInfo)
    ensures r.id == id && r.burst == burst && r.arrival == arrival
    ensures r.start == -1 && r.wait == 0 && r.turnaround == 0 && r.quantum == 0
    ensures Work(r) == burst
  {
    ProcessInfo(id, burst, arrival, -1, 0, 0, 0)
  }

  /** The `(wait_time, turnaround_time)` pair the statistics map keeps per id. */
  datatype Stat = Stat(wait: int, turnaround: int)

  /** The quantity every tick of Round Robin and SRTF leaves unchanged: a
      running tick moves one unit from `burst` to `turnaround`, a waiting tick
      adds one to both `wait` and `turnaround`.  For a fresh record it is the
      burst, and once the burst is 0 it is `turnaround - wait`. */
  function Work(p: ProcessInfo): int
  {
    p.turnaround - p.wait + p.burst
  }

  /** One tick on the CPU. */
  function Ran(p: ProcessInfo): (r: ProcessInfo)
    ensures Work(r) == Work(p) && r.burst == p.burst - 1
    ensures r.id == p.id && r.arrival == p.arrival && r.wait == p.wait && r.turnaround > p.turnaround
  {
    p.(burst := p.burst - 1, turnaround := p.turnaround + 1)
  }

  /** One tick spent waiting in a ready structure. */
  function Aged(p: ProcessInfo): (r: ProcessInfo)
    ensures Work(r) == Work(p) && r.burst == p.burst
    ensures r.id == p.id && r.arrival == p.arrival && r.wait == p.wait + 1 && r.turnaround == p.turnaround + 1
  {
    p.(wait := p.wait + 1, turnaround := p.turnaround + 1)
  }

  /** `p` is a working copy of the workload record `orig`: same identity,
      same conserved work, bookkeeping only ever grown, burst only ever shrunk
      and still positive. */
  ghost predicate Tracks(p: ProcessInfo, orig: ProcessInfo)
  {
    && p.id == orig.id
    && p.arrival == orig.arrival
    && Work(p) == Work(orig)
    && p.wait >= orig.wait
    && p.turnaround >= orig.turnaround
    && 1 <= p.burst <= orig.burst
  }

  /** The ids that occur in `s`. */
  function Ids(s: seq<ProcessInfo>): set<char>
  {
    set i | 0 <= i < |s| :: s[i].id
  }

  lemma IdsConcat(a: seq<ProcessInfo>, b: seq<ProcessInfo>)
    ensures Ids(a + b) == Ids(a) + Ids(b)
  {
    forall x | x in Ids(a + b) ensures x in Ids(a) + Ids(b) {
      var i :| 0 <= i < |a + b| && (a + b)[i].id == x;
      if i >= |a| {
        assert b[i - |a|].id == x;
      } else {
        assert a[i].id == x;
      }
    }
    forall x | x in Ids(a) ensures x in Ids(a + b) {
      var i :| 0 <= i < |a| && a[i].id == x;
      assert (a + b)[i].id == x;
    }
    forall x | x in Ids(b) ensures x in Ids(a + b) {
      var i :| 0 <= i < |b| && b[i].id == x;
      assert (a + b)[|a| + i].id == x;
    }
  }

  /** Two sequences whose ids agree position by position have the same ids. */
  lemma IdsPointwise(a: seq<ProcessInfo>, b: seq<ProcessInfo>)
    requires |a| == |b|
    requires forall i :: 0 <= i < |a| ==> a[i].id == b[i].id
    ensures Ids(a) == Ids(b)
  {
    forall x | x in Ids(a) ensures x in Ids(b) {
      var i :| 0 <= i < |a| && a[i].id == x;
      assert b[i].id == x;
    }
    forall x | x in Ids(b) ensures x in Ids(a) {
      var i :| 0 <= i < |b| && b[i].id == x;
      assert a[i].id == x;
    }
  }

  /** Reordering a sequence keeps its ids. */
  lemma IdsPermutation(a: seq<ProcessInfo>, b: seq<ProcessInfo>)
    requires multiset(a) == multiset(b)
    ensures Ids(a) == Ids(b)
  {
    forall x | x in Ids(a) ensures x in Ids(b) {
      var i :| 0 <= i < |a| && a[i].id == x;
      assert a[i] in multiset(b);
      var j :| 0 <= j < |b| && b[j] == a[i];
    }
    forall x | x in Ids(b) ensures x in Ids(a) {
      var j :| 0 <= j < |b| && b[j].id == x;
      assert b[j] in multiset(a);
      var i :| 0 <= i < |a| && a[i] == b[j];
    }
  }

  /** Sum of the bursts still owed by the processes in `s`. */
  function TotalBurst(s: seq<ProcessInfo>): int
  {
    if s == [] then 0 else s[0].burst + TotalBurst(s[1..])
  }

  lemma {:induction false} TotalBurstConcat(a: seq<ProcessInfo>, b: seq<ProcessInfo>)
    ensures TotalBurst(a + b) == TotalBurst(a) + TotalBurst(b)
  {
    if a == [] {
      assert a + b == b;
    } else {
      assert (a + b)[1..] == a[1..] + b;
      TotalBurstConcat(a[1..], b);
    }
  }

  /** With every burst positive, the total is at least the number of processes. */
  lemma {:induction false} TotalBurstPositive(s: seq<ProcessInfo>)
    requires forall i :: 0 <= i < |s| ==> s[i].burst >= 1
    ensures TotalBurst(s) >= |s|
  {
    if s != [] {
      TotalBurstPositive(s[1..]);
    }
  }

  /** Sequences whose bursts agree position by position owe the same total. */
  lemma {:induction false} TotalBurstPointwise(a: seq<ProcessInfo>, b: seq<ProcessInfo>)
    requires |a| == |b|
    requires forall i :: 0 <= i < |a| ==> a[i].burst == b[i].burst
    ensures TotalBurst(a) == TotalBurst(b)
  {
    if a != [] {
      TotalBurstPointwise(a[1..], b[1..]);
    }
  }

  /** Ticks of turnaround `p` has accrued since it was the record `orig`. */
  function Elapsed(p: ProcessInfo, orig: ProcessInfo): int
  {
    p.turnaround - orig.turnaround
  }

  /** A statistics entry for `id` was produced by the workload record
      `w[fin[id]]`, admitted before `cursor`: turnaround minus wait is the
      record's work (the final burst is 0), neither went below the record's,
      and the turnaround it accrued ends, counted from the arrival, no later
      than tick `time`. */
  ghost predicate Recorded(w: seq<ProcessInfo>, cursor: nat, time: int, stats: map<char, Stat>, fin: map<char, nat>, id: char)
    requires id in stats
  {
    && id in fin
    && fin[id] < cursor <= |w|
    && w[fin[id]].id == id
    && stats[id].turnaround - stats[id].wait == Work(w[fin[id]])
    && stats[id].wait >= w[fin[id]].wait
    && stats[id].turnaround >= w[fin[id]].turnaround
    && w[fin[id]].arrival + (stats[id].turnaround - w[fin[id]].turnaround) <= time
  }

  /** Admitting more of the workload and advancing the clock keep every
      entry accounted for. */
  lemma RecordedLater(w: seq<ProcessInfo>, c0: nat, t0: int, c1: nat, t1: int, stats: map<char, Stat>, fin: map<char, nat>)
    requires c0 <= c1 <= |w| && t0 <= t1
    requires forall id :: id in stats ==> Recorded(w, c0, t0, stats, fin, id)
    ensures forall id :: id in stats ==> Recorded(w, c1, t1, stats, fin, id)
  {
    forall id | id in stats ensures Recorded(w, c1, t1, stats, fin, id) {
      assert Recorded(w, c0, t0, stats, fin, id);
    }
  }

  /** The statistics entry `st` for `id` belongs to some process of the
      workload with that id: turnaround minus wait is the work that record
      came in with (its burst, for a fresh record), neither wait nor
      turnaround went below the record's, and the process, counted from its
      arrival, finished no later than `completion`. */
  ghost predicate FinishedFrom(workload: seq<ProcessInfo>, st: Stat, id: char, completion: int)
  {
    exists k :: 0 <= k < |workload| && workload[k].id == id
                && st.turnaround - st.wait == Work(workload[k])
                && st.wait >= workload[k].wait
                && st.turnaround >= workload[k].turnaround
                && workload[k].arrival + (st.turnaround - workload[k].turnaround) <= completion
  }

  /** Some process of the workload whose id has a statistics entry ends,
      counted from its arrival, between `completion` and `completion +
      slack`. */
  ghost predicate FinishedAt(workload: seq<ProcessInfo>, stats: map<char, Stat>, completion: int, slack: nat)
  {
    exists k :: 0 <= k < |workload| && workload[k].id in stats
                && completion <= workload[k].arrival + (stats[workload[k].id].turnaround - workload[k].turnaround)
                                <= completion + slack
  }

  /** The entry `st` for `id` in the form the statistics table reports: it
      belongs to a process of the workload with that id, its wait is not
      negative, its turnaround is its wait plus the process's burst, and
      arrival plus turnaround is no later than `completion`. */
  ghost predicate Completed(workload: seq<ProcessInfo>, st: Stat, id: char, completion: int)
  {
    exists k :: 0 <= k < |workload| && workload[k].id == id
                && st.wait >= 0
                && st.turnaround == st.wait + workload[k].burst
                && workload[k].arrival + st.turnaround <= completion
  }

  /** What a simulation reports for a workload, with an end tick that may
      overshoot by `slack`: every id of the workload has exactly one
      statistics entry, each accounted for by one of its records and done
      by `completion + slack`; every process arrived by `completion`; the
      run ends at tick 0 for an empty workload and otherwise when some
      process ends; and for fresh records each entry has a non-negative
      wait and a turnaround equal to wait plus burst. */
  ghost predicate Reported(workload: seq<ProcessInfo>, stats: map<char, Stat>, completion: int, slack: nat)
  {
    && stats.Keys == Ids(workload)
    && (forall id :: id in stats ==> FinishedFrom(workload, stats[id], id, completion + slack))
    && (forall k :: 0 <= k < |workload| ==> 0 <= workload[k].arrival <= completion)
    && (workload == [] ==> completion == 0)
    && (workload != [] ==> FinishedAt(workload, stats, completion, slack))
    && (FreshWorkload(workload) ==> forall id :: id in stats ==> Completed(workload, stats[id], id, completion + slack))
  }

  /** Every record was built by the three-argument constructor, as the
      records read from the input file are. */
  ghost predicate FreshWorkload(workload: seq<ProcessInfo>)
  {
    forall k :: 0 <= k < |workload| ==> workload[k] == NewProcess(workload[k].id, workload[k].burst, workload[k].arrival)
  }

  /** For a workload of fresh records, an entry accounted for by a record
      is in the reported form: the wait is not negative and the turnaround
      is the wait plus the burst. */
  lemma FreshCompleted(workload: seq<ProcessInfo>, stats: map<char, Stat>, completion: int)
    requires forall id :: id in stats ==> FinishedFrom(workload, stats[id], id, completion)
    ensures FreshWorkload(workload) ==> forall id :: id in stats ==> Completed(workload, stats[id], id, completion)
  {
    forall id | id in stats && FreshWorkload(workload) ensures Completed(workload, stats[id], id, completion) {
      var k :| 0 <= k < |workload| && workload[k].id == id
               && stats[id].turnaround - stats[id].wait == Work(workload[k])
               && stats[id].wait >= workload[k].wait
               && stats[id].turnaround >= workload[k].turnaround
               && workload[k].arrival + (stats[id].turnaround - workload[k].turnaround) <= completion;
      assert workload[k] == NewProcess(workload[k].id, workload[k].burst, workload[k].arrival);
    }
  }

  /** Once the whole of a reordered workload `w` has been admitted, every
      statistics entry accounted for by a record of `w` belongs to a process
      of the original workload. */
  lemma RecordedFinished(w: seq<ProcessInfo>, workload: seq<ProcessInfo>, time: int, stats: map<char, Stat>, fin: map<char, nat>)
    requires multiset(w) == multiset(workload)
    requires forall id :: id in stats ==> Recorded(w, |w|, time, stats, fin, id)
    ensures forall id :: id in stats ==> FinishedFrom(workload, stats[id], id, time)
  {
    forall id | id in stats ensures FinishedFrom(workload, stats[id], id, time) {
      assert Recorded(w, |w|, time, stats, fin, id);
      var k := fin[id];
      assert w[k] in multiset(workload);
      var j :| 0 <= j < |workload| && workload[j] == w[k];
    }
  }

  /** The statistics entry for `id`, produced by the record `w[fin[id]]`,
      ends, counted from the arrival, between tick `t` and `t + slack`. */
  ghost predicate EndsWithin(w: seq<ProcessInfo>, stats: map<char, Stat>, fin: map<char, nat>, id: char, t: int, slack: nat)
  {
    && id in stats && id in fin && fin[id] < |w| && w[fin[id]].id == id
    && t <= w[fin[id]].arrival + (stats[id].turnaround - w[fin[id]].turnaround) <= t + slack
  }

  /** Where a simulation loop over the arrival-sorted workload `w` stopped:
      at tick 0 only when `w` is empty, and at a later tick `t` only when
      the recorded entry for `last` ends, counted from its arrival, between
      `t` and `t + slack`. */
  ghost predicate StoppedAt(w: seq<ProcessInfo>, stats: map<char, Stat>, fin: map<char, nat>, t: int, slack: nat, last: char)
  {
    && (t == 0 ==> |w| == 0)
    && (t > 0 ==> EndsWithin(w, stats, fin, last, t, slack))
  }

  /** Read over the original workload, the stop is at tick 0 for an empty
      workload, and otherwise when one of its processes ends. */
  lemma StoppedFinished(w: seq<ProcessInfo>, workload: seq<ProcessInfo>, stats: map<char, Stat>, fin: map<char, nat>, t: int, slack: nat, last: char)
    requires multiset(w) == multiset(workload)
    requires stats.Keys == Ids(workload) && t >= 0
    requires StoppedAt(w, stats, fin, t, slack, last)
    ensures workload == [] ==> t == 0
    ensures workload != [] ==> FinishedAt(workload, stats, t, slack)
  {
    if workload == [] {
      assert |w| == 0;
      assert stats.Keys == {};
    } else {
      assert |w| != 0;
      var k := fin[last];
      assert w[k] in multiset(workload);
      var j :| 0 <= j < |workload| && workload[j] == w[k];
      assert workload[j].id in stats;
    }
  }

  /** If every process of a reordered workload has arrived, at a tick
      between 0 and `time`, so has every process of the original. */
  lemma ArrivedBy(w: seq<ProcessInfo>, workload: seq<ProcessInfo>, time: int)
    requires multiset(w) == multiset(workload)
    requires forall k :: 0 <= k < |w| ==> 0 <= w[k].arrival <= time
    ensures forall k :: 0 <= k < |workload| ==> 0 <= workload[k].arrival <= time
  {
    forall k | 0 <= k < |workload| ensures 0 <= workload[k].arrival <= time {
      assert workload[k] in multiset(w);
      var j :| 0 <= j < |w| && w[j] == workload[k];
    }
  }
}
