/** The snapshot pool as it runs, table by table, proved against the functions of
    `SnapshotPool`. Where the scheduler panics, a method reports a fault. */
module SnapshotPoolMachine {
  import opened Basics
  import opened Pools
  import opened SnapshotPool
  import opened SnapshotPoolRuns

  class WorkerPool {
    const workers: nat
    var busy: map<nat, Node>
    var saving: set<nat>
    var recovering: set<nat>
    var streaming: map<nat, nat>
    var pending: seq<Job>
    var nodes: map<nat, Node>
    var request: map<nat, Job>
    var running: map<nat, Job>
    var finished: map<nat, Job>

    constructor (workers: nat)
      ensures Now() == NewPool(workers)
    {
      this.workers := workers;
      busy, saving, recovering, streaming, pending, nodes := map[], {}, {}, map[], [], map[];
      request, running, finished := map[], map[], map[];
    }

    function Now(): Pool
      reads this
    {
      Pool(workers, busy, saving, recovering, streaming, pending, nodes, request, running, finished)
    }

    /** The state is what the outcome says, or the fault is. */
    ghost predicate Matches(fault: Fault<Panic>, o: Outcome)
      reads this
    {
      if fault.NoFault? then o == Fine(Now()) else o == Failed(fault.why)
    }

    method GetWorker() returns (w: nat)
      ensures w == FirstIdle(workers, busy.Keys, 0)
    {
      w := 0;
      while w < workers && w in busy
        invariant w <= workers
        invariant FirstIdle(workers, busy.Keys, 0) == FirstIdle(workers, busy.Keys, w)
        decreases workers - w
      {
        w := w + 1;
      }
    }

    /** Take a completion token and un-book what the worker was doing. */
    method Completed(w: nat) returns (fault: Fault<Panic>)
      requires w in finished
      modifies this
      ensures Matches(fault, Complete(old(Now()), w))
    {
      finished := finished - {w};
      if w !in busy { return Fault(WorkerNotBusy); }
      var count, c := 0, busy[w].cluster;
      if c in saving {
        saving := saving - {c};
        count := count + 1;
      }
      if c in recovering {
        recovering := recovering - {c};
        count := count + 1;
      }
      if c in streaming {
        var sc := streaming[c];
        if sc == 0 { return Fault(NotStreaming); }
        streaming := if sc == 1 then streaming - {c} else streaming[c := sc - 1];
        count := count + 1;
      }
      if count == 0 { return Fault(NothingCompleted); }
      if count > 1 { return Fault(ManyCompleted); }
      busy := busy - {w};
      assert old(Now()).saving - {c} == saving && old(Now()).recovering - {c} == recovering;
      return NoFault;
    }

    method StartWork(j: Job, n: Node, w: nat) returns (fault: Fault<Panic>)
      modifies this
      ensures Matches(fault, Start(old(Now()), j, n, w))
    {
      if w in busy { return Fault(BusyWorker); }
      busy := busy[w := n];
      if j.task.recover {
        if n.cluster in recovering { return Fault(RecoveringAgain); }
        recovering := recovering + {n.cluster};
      } else if j.task.save {
        if n.cluster in saving { return Fault(SavingAgain); }
        saving := saving + {n.cluster};
      } else if j.task.stream {
        streaming := streaming[n.cluster := (if n.cluster in streaming then streaming[n.cluster] else 0) + 1];
      } else {
        return Fault(UnknownTask);
      }
      return NoFault;
    }

    method ScheduleTask(j: Job, n: Node, w: nat) returns (fault: Fault<Panic>)
      modifies this
      ensures Matches(fault, Dispatch(old(Now()), j, n, w))
    {
      if n.instance != j.node.instance { return NoFault; }
      fault := StartWork(j, n, w);
      if fault.Fault? { return; }
      if w in request { return Fault(MultipleJobs); }
      request := request[w := j];
    }

    method RemoveFromPending(i: nat)
      requires i < |pending|
      modifies this`pending
      ensures Now() == Unpend(old(Now()), i)
    {
      pending := pending[..i] + pending[i + 1..];
    }

    /** One pass over the pending list; false when it could do nothing. */
    method ScheduleWorker() returns (more: bool)
      requires Inv(Now())
      modifies this
      ensures var r := SchedulePass(old(Now()));
              more == !r.Stuck? && Now() == (if r.Stuck? then old(Now()) else r.pool) && !r.Broken?
    {
      PassKeeps(Now());
      if |pending| == 0 { return false; }
      var w := GetWorker();
      if w == workers { return false; }
      var i := 0;
      while i < |pending|
        invariant 0 <= i <= |pending| && Now() == old(Now())
        invariant FirstActionable(Now(), 0) == FirstActionable(Now(), i)
      {
        var j := pending[i];
        if j.node.cluster !in nodes {
          RemoveFromPending(i);
          return true;
        }
        if CanSchedule(Now(), j) {
          DispatchFrame(Now(), j, nodes[j.node.cluster], w);
          var fault := ScheduleTask(j, nodes[j.node.cluster], w);
          RemoveFromPending(i);
          return true;
        }
        i := i + 1;
      }
      return false;
    }

    method ScheduleAll()
      requires Inv(Now())
      modifies this
      ensures Now() == Schedule(old(Now())).pool
      ensures Inv(Now()) && Exhausted(Now())
    {
      var more := true;
      while more
        invariant Inv(Now()) && Schedule(Now()).pool == Schedule(old(Now())).pool
        invariant !more ==> SchedulePass(Now()).Stuck?
        decreases |pending|, more
      {
        PassKeeps(Now());
        PassShrinks(Now());
        more := ScheduleWorker();
      }
      StuckIsExhausted(Now());
    }

    /** A worker's side of its two channels. */
    method WorkerTake(w: nat)
      requires Inv(Now()) && Enabled(Now(), Take(w))
      modifies this`request, this`running
      ensures Next(old(Now()), Take(w)) == Fine(Now()) && Inv(Now())
    {
      StepKeeps(Now(), Take(w));
      running := running[w := request[w]];
      request := request - {w};
    }

    method WorkerFinish(w: nat)
      requires Inv(Now()) && Enabled(Now(), Finish(w))
      modifies this`running, this`finished
      ensures Next(old(Now()), Finish(w)) == Fine(Now()) && Inv(Now())
    {
      StepKeeps(Now(), Finish(w));
      finished := finished[w := running[w]];
      running := running - {w};
    }
  }
}
