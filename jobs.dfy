/**
 * The job table of `JobManager` (src/JobManager.php): a map from job id to a
 * record, changed in place by `newJob`, the output and exit callbacks that
 * `newJob` registers, `endJob`, `shutdown` and the periodic retention sweep.
 *
 * The clock (`time()`) and the random source (`mt_rand`) are inputs: a `now`
 * argument, and a sequence of candidate draws for the id generator.
 */
module Jobs {
  import opened Wrappers
  import Uuid

  datatype JobState = Running | Terminating | Ended

  /** The argument of `Process::terminate`: none (SIGTERM) or the text a caller supplied. */
  datatype Sig = Sigterm | Named(name: string)

  /**
   * The ReactPHP process handle, reduced to what the core does with it: the
   * command it runs and the signals delivered to it so far.
   */
  datatype Process = Process(command: string, signals: seq<Sig>)

  /** One row of the table; PHP's `null` fields are `None`. */
  datatype Job = Job(
    process: Option<Process>,
    state: JobState,
    stdout: string,
    stderr: string,
    exitCode: Option<int>,
    started: int,
    ended: Option<int>)

  /**
   * What every operation keeps true of a row: a running job holds its handle
   * and has not ended; an ended job has released its handle and has an end time;
   * the handle is released exactly when the end time is written.
   */
  predicate Consistent(j: Job)
  {
    && (j.state == Running ==> j.process.Some? && j.ended.None? && j.exitCode.None?)
    && (j.state == Ended ==> j.ended.Some?)
    && (j.process.Some? <==> j.ended.None?)
    && (j.exitCode.Some? ==> j.ended.Some?)
  }

  /** The allowed moves of `state`: stay, leave `Running`, or go from `Terminating` to `Ended`. */
  predicate StateStep(before: JobState, after: JobState)
  {
    before == after || (before == Running && after != Running) || (before == Terminating && after == Ended)
  }

  // ------------------------------------------------------------ new jobs

  /** The ids `genUUID` prints for successive draws of `mt_rand`. */
  function Candidates(draws: seq<Uuid.Draw>): (ids: seq<string>)
    ensures |ids| == |draws|
    ensures forall i :: 0 <= i < |ids| ==> ids[i] == Uuid.Format(draws[i]) && |ids[i]| == 36
  {
    seq(|draws|, i requires 0 <= i < |draws| => Uuid.Format(draws[i]))
  }

  /** Some candidate is not in use: the random source eventually yields a free id. */
  predicate SomeFree(ids: seq<string>, taken: set<string>)
  {
    exists i :: 0 <= i < |ids| && ids[i] !in taken
  }

  /** The index of the first candidate not in use: where `newJob`'s retry loop stops. */
  function FirstFree(ids: seq<string>, taken: set<string>): (k: nat)
    requires SomeFree(ids, taken)
    ensures k < |ids| && ids[k] !in taken
    ensures forall i :: 0 <= i < k ==> ids[i] in taken
  {
    if ids[0] !in taken then 0 else 1 + FirstFree(ids[1..], taken)
  }

  /**
   * The id `newJob` hands out when `mt_rand` produces `draws` and `taken` are
   * in use: the formatting of the first draw whose id is free, every earlier
   * draw having formatted to an id already taken.
   */
  function NewId(draws: seq<Uuid.Draw>, taken: set<string>): (id: string)
    requires SomeFree(Candidates(draws), taken)
    ensures id !in taken && |id| == 36
    ensures exists k :: 0 <= k < |draws| && id == Uuid.Format(draws[k])
                        && forall i :: 0 <= i < k ==> Uuid.Format(draws[i]) in taken
  {
    var ids := Candidates(draws);
    var k := FirstFree(ids, taken);
    assert forall i :: 0 <= i < k ==> Uuid.Format(draws[i]) in taken by {
      forall i | 0 <= i < k
        ensures Uuid.Format(draws[i]) in taken
      {
        assert ids[i] in taken;
      }
    }
    ids[k]
  }

  /** The record `newJob` stores once the process handle is attached. */
  function Fresh(command: string, now: int): (j: Job)
    ensures Consistent(j) && j.state == Running && j.started == now
    ensures j.stdout == [] && j.stderr == [] && j.exitCode.None? && j.ended.None?
    ensures j.process == Some(Process(command, []))
  {
    Job(Some(Process(command, [])), Running, "", "", None, now, None)
  }

  // ------------------------------------------------------------ callbacks

  /** The exit closure: end time, released handle, exit code and `ended` state. */
  function Exited(j: Job, code: Option<int>, now: int): (e: Job)
    ensures e.state == Ended && e.ended == Some(now) && e.exitCode == code && e.process.None?
    ensures e.stdout == j.stdout && e.stderr == j.stderr && e.started == j.started
  {
    j.(ended := Some(now), process := None, exitCode := code, state := Ended)
  }

  /** The exit closure keeps a row consistent and moves its state forward. */
  lemma ExitedConsistent(j: Job, code: Option<int>, now: int)
    requires Consistent(j)
    ensures Consistent(Exited(j, code, now))
    ensures StateStep(j.state, Exited(j, code, now).state)
  {
  }

  /**
   * What the exit closure leaves in a row, as written: the `Exited` writes when
   * an exit code is reported; with a null code the logging call throws before
   * any write, and the row is unchanged.
   */
  function AfterExit(j: Job, code: Option<int>, now: int): Job
  {
    if code.Some? then Exited(j, code, now) else j
  }

  /**
   * A job killed by a signal never ends in the table: after its exit closure
   * it is still not `ended`, still holds its handle, and no sweep removes it,
   * whatever the cutoff.
   */
  lemma SignalKilledJobStaysOpen(jobs: map<string, Job>, id: string, now: int, cutoff: int)
    requires id in jobs && Consistent(jobs[id]) && jobs[id].process.Some?
    ensures var after := jobs[id := AfterExit(jobs[id], None, now)];
      && after[id].state != Ended && after[id].process.Some? && after[id].ended.None?
      && id in Swept(after, cutoff) && Swept(after, cutoff)[id] == jobs[id]
  {
    var after := jobs[id := AfterExit(jobs[id], None, now)];
    assert after[id] == jobs[id];
    SweptExactly(after, cutoff, id);
  }

  /** `terminate($signal)` on a handle: the signal is delivered to the process. */
  function Signalled(p: Process, s: Sig): (q: Process)
    ensures q.command == p.command && q.signals == p.signals + [s]
  {
    p.(signals := p.signals + [s])
  }

  /** What `endJob` does to a row it finds: `terminating`, and SIGTERM to the handle if there is one. */
  function Terminated(j: Job): (t: Job)
    ensures t.state == Terminating
    ensures t.process == (if j.process.Some? then Some(Signalled(j.process.value, Sigterm)) else None)
    ensures t.stdout == j.stdout && t.stderr == j.stderr && t.exitCode == j.exitCode
    ensures t.started == j.started && t.ended == j.ended
  {
    var t := j.(state := Terminating);
    if j.process.Some? then t.(process := Some(Signalled(j.process.value, Sigterm))) else t
  }

  /**
   * `endJob` keeps a row consistent whatever its state, but moves it forward
   * only when the row has not ended: on an `ended` row it writes `terminating` back.
   */
  lemma TerminatedConsistent(j: Job)
    requires Consistent(j)
    ensures Consistent(Terminated(j))
    ensures StateStep(j.state, Terminated(j).state) <==> j.state != Ended
  {
  }

  // ------------------------------------------------------------ retention

  /** PHP's `$info['ended'] != null` is a loose comparison: an end time of 0 reads as unset. */
  predicate HasEnded(j: Job)
  {
    j.ended.Some? && j.ended.value != 0
  }

  /** The sweep's test: the job ended before `cutoff` (= now - jobHistory). */
  predicate Expired(j: Job, cutoff: int)
  {
    HasEnded(j) && j.ended.value < cutoff
  }

  /** The ids the sweep collects in its first pass. */
  function ExpiredIds(jobs: map<string, Job>, cutoff: int): set<string>
  {
    set id | id in jobs && Expired(jobs[id], cutoff)
  }

  /** The table after a sweep: the expired ids are unset, nothing else is touched. */
  function Swept(jobs: map<string, Job>, cutoff: int): (kept: map<string, Job>)
    ensures kept.Keys <= jobs.Keys
  {
    jobs - ExpiredIds(jobs, cutoff)
  }

  /**
   * The sweep removes exactly the jobs that ended before the cutoff; every
   * job it keeps is unchanged, and a job with no end time is always kept.
   */
  lemma SweptExactly(jobs: map<string, Job>, cutoff: int, id: string)
    ensures id in Swept(jobs, cutoff) <==> id in jobs && !Expired(jobs[id], cutoff)
    ensures id in Swept(jobs, cutoff) ==> Swept(jobs, cutoff)[id] == jobs[id]
    ensures id in jobs && !HasEnded(jobs[id]) ==> id in Swept(jobs, cutoff)
  {
  }

  /** The ids listed in `ids`, as a set. */
  function Elements(ids: seq<string>): (s: set<string>)
    ensures forall id :: id in s <==> id in ids
  {
    set id | id in ids
  }

  // ------------------------------------------------------------ the table

  class JobManager {
    /** `$config['jobHistory']`: seconds a finished job is kept. */
    const history: int
    /** `$jobs`: job id to record. */
    var jobs: map<string, Job>

    ghost predicate Valid()
      reads this
    {
      forall id :: id in jobs ==> Consistent(jobs[id])
    }

    constructor (history: int)
      ensures this.history == history && jobs == map[] && Valid()
    {
      this.history := history;
      jobs := map[];
    }

    /** `hasJob`: `isset($this->jobs[$jobID])`. */
    predicate HasJob(id: string)
      reads this
    {
      id in jobs
    }

    /** `getJobs`: the ids in the table. */
    function JobIds(): (ids: set<string>)
      reads this
      ensures forall id :: id in ids <==> HasJob(id)
    {
      jobs.Keys
    }

    /** `getJob`: the stored record, or `null` when there is none. */
    function GetJob(id: string): (r: Option<Job>)
      reads this
      ensures r.None? <==> !HasJob(id)
      ensures r.Some? ==> r.value == jobs[id]
    {
      if HasJob(id) then Some(jobs[id]) else None
    }

    /**
     * `newJob`: draw ids until one is free, insert a running record, attach the
     * process handle. `ids` are the successive results of `genUUID` (see
     * `Candidates`), assumed to include a free id eventually.
     */
    method NewJob(command: string, ids: seq<string>, now: int) returns (id: string)
      requires Valid()
      requires SomeFree(ids, jobs.Keys)
      modifies this
      ensures Valid()
      ensures id !in old(jobs) && id == ids[FirstFree(ids, old(jobs).Keys)]
      ensures jobs == old(jobs)[id := Fresh(command, now)]
      ensures jobs.Keys == old(jobs).Keys + {id}
    {
      var k := 0;
      id := ids[k];
      while id in jobs
        invariant 0 <= k < |ids| && id == ids[k]
        invariant forall i :: 0 <= i < k ==> ids[i] in jobs
        invariant exists i :: k <= i < |ids| && ids[i] !in jobs
        decreases |ids| - k
      {
        k := k + 1;
        id := ids[k];
      }
      ghost var first := FirstFree(ids, jobs.Keys);
      assert first == k;
      jobs := jobs[id := Job(None, Running, "", "", None, now, None)];
      jobs := jobs[id := jobs[id].(process := Some(Process(command, [])))];
    }

    /** The stdout `data` closure: `$this->jobs[$jobID]['stdout'] .= $chunk`. */
    method OnStdout(id: string, chunk: string)
      requires Valid() && id in jobs
      modifies this
      ensures Valid()
      ensures jobs == old(jobs)[id := old(jobs)[id].(stdout := old(jobs)[id].stdout + chunk)]
    {
      jobs := jobs[id := jobs[id].(stdout := jobs[id].stdout + chunk)];
    }

    /** The stderr `data` closure: `$this->jobs[$jobID]['stderr'] .= $chunk`. */
    method OnStderr(id: string, chunk: string)
      requires Valid() && id in jobs
      modifies this
      ensures Valid()
      ensures jobs == old(jobs)[id := old(jobs)[id].(stderr := old(jobs)[id].stderr + chunk)]
    {
      jobs := jobs[id := jobs[id].(stderr := jobs[id].stderr + chunk)];
    }

    /**
     * The `exit` closure, given the exit code ReactPHP reports (null when the
     * process was killed by a signal). Its first statement passes the code to
     * `doLog(String ...$message)`, which refuses null with a `TypeError`: `ok`
     * is false exactly then, and the row is left as it was.
     */
    method OnExit(id: string, code: Option<int>, now: int) returns (ok: bool)
      requires Valid() && id in jobs
      modifies this
      ensures Valid()
      ensures ok <==> code.Some?
      ensures jobs == old(jobs)[id := AfterExit(old(jobs)[id], code, now)]
    {
      if code.None? {
        return false;
      }
      var j := jobs[id];
      ExitedConsistent(j, code, now);
      j := j.(ended := Some(now));
      j := j.(process := None);
      j := j.(exitCode := code);
      j := j.(state := Ended);
      jobs := jobs[id := j];
      ok := true;
    }

    /**
     * `endJob`: for any id in the table, whatever its state, write `terminating`
     * and call `terminate()` on the handle. `ok` is false when the handle is
     * already released, where PHP raises an Error after the state is written.
     */
    method EndJob(id: string) returns (ok: bool)
      requires Valid()
      modifies this
      ensures Valid()
      ensures id !in old(jobs) ==> jobs == old(jobs) && ok
      ensures id in old(jobs) ==> jobs == old(jobs)[id := Terminated(old(jobs)[id])]
      ensures id in old(jobs) ==> ok == old(jobs)[id].process.Some?
    {
      ok := true;
      if id in jobs {
        var j := jobs[id];
        jobs := jobs[id := j.(state := Terminating)];
        match j.process {
          case Some(p) =>
            jobs := jobs[id := jobs[id].(process := Some(Signalled(p, Sigterm)))];
          case None =>
            ok := false;
        }
      }
    }

    /**
     * `shutdown`: `endJob` for every job whose state is `running`, others
     * untouched. Every row moves forward, and no id is added or removed.
     */
    method Shutdown()
      requires Valid()
      modifies this
      ensures Valid()
      ensures jobs.Keys == old(jobs).Keys
      ensures forall id :: id in jobs ==>
        jobs[id] == if old(jobs)[id].state == Running then Terminated(old(jobs)[id]) else old(jobs)[id]
      ensures forall id :: id in jobs ==> StateStep(old(jobs)[id].state, jobs[id].state)
    {
      var snapshot := jobs;
      var todo := jobs.Keys;
      while todo != {}
        invariant Valid()
        invariant todo <= snapshot.Keys && jobs.Keys == snapshot.Keys
        invariant forall id :: id in jobs ==>
          jobs[id] == if id !in todo && snapshot[id].state == Running then Terminated(snapshot[id]) else snapshot[id]
        decreases todo
      {
        var id :| id in todo;
        if snapshot[id].state == Running {
          var _ := EndJob(id);
        }
        todo := todo - {id};
      }
    }

    /**
     * The periodic timer body: collect the ids that ended before
     * `now - jobHistory`, then unset each of them.
     */
    method Sweep(now: int)
      requires Valid()
      modifies this
      ensures Valid()
      ensures jobs == Swept(old(jobs), now - history)
    {
      var cutoff := now - history;
      var remove: seq<string> := [];
      var todo := jobs.Keys;
      while todo != {}
        invariant todo <= jobs.Keys && jobs == old(jobs)
        invariant forall id :: id in remove <==> id in jobs && id !in todo && Expired(jobs[id], cutoff)
        decreases todo
      {
        var id :| id in todo;
        if Expired(jobs[id], cutoff) {
          remove := remove + [id];
        }
        todo := todo - {id};
      }
      for i := 0 to |remove|
        invariant jobs == old(jobs) - Elements(remove[..i])
      {
        assert Elements(remove[..i + 1]) == Elements(remove[..i]) + {remove[i]} by {
          assert remove[..i + 1] == remove[..i] + [remove[i]];
        }
        jobs := jobs - {remove[i]};
      }
      assert remove[..|remove|] == remove;
      assert Elements(remove) == ExpiredIds(old(jobs), cutoff);
    }

    /**
     * `$job['process']->terminate($signal)` from the HTTP `signal` command:
     * the signal reaches the process; the record, its state included, is
     * otherwise unchanged.
     */
    method SignalProcess(id: string, s: Sig)
      requires Valid() && id in jobs && jobs[id].process.Some?
      modifies this
      ensures Valid()
      ensures jobs == old(jobs)[id := old(jobs)[id].(process := Some(Signalled(old(jobs)[id].process.value, s)))]
    {
      jobs := jobs[id := jobs[id].(process := Some(Signalled(jobs[id].process.value, s)))];
    }
  }
}
