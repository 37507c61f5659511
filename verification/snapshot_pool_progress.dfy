/** Every job the pool picks up is started, or dropped because its node has gone or been
    restarted: pool and workers always find something to do until nothing is left. */
module SnapshotPoolProgress {
  import opened Basics
  import opened Pools
  import opened SnapshotPool
  import opened SnapshotPoolRuns

  /** Every worker is busy, or no pending job is ready, by what is in flight. */
  ghost predicate Quiet(p: Pool) {
    || (forall w :: 0 <= w < p.workers ==> w in p.busy)
    || (forall i :: 0 <= i < |p.pending| ==> !Ready(p, p.pending[i]))
  }

  lemma QuietIff(p: Pool)
    requires Inv(p)
    ensures SchedulePass(p).Stuck? <==> Quiet(p)
  {
    PassActs(p);
    if !Quiet(p) {
      var w :| 0 <= w < p.workers && w !in p.busy;
      assert Idle(p, w);
    }
  }

  /** Once the nodes are reloaded, a pass starts a job only if the table just loaded has the
      incarnation it is for, and drops one only if it does not. */
  lemma PassHeedsReload(p: Pool, nodes: map<nat, Node>)
    requires Inv(p) && Enabled(p, Reload(nodes))
    ensures Next(p, Reload(nodes)).Fine?
    ensures var r := SchedulePass(Next(p, Reload(nodes)).pool);
            && (r.Started? ==> r.job.node.cluster in nodes && nodes[r.job.node.cluster].instance == r.job.node.instance)
            && (r.Dropped? ==> r.job.node.cluster !in nodes || nodes[r.job.node.cluster].instance != r.job.node.instance)
  {
    StepKeeps(p, Reload(nodes));
    PassActs(Next(p, Reload(nodes)).pool);
  }

  // ------------------------------------------------- what a pass leaves alone

  lemma MarkParts(p: Pool, k: Kind, c: nat)
    ensures var o := MarkStarted(p, k, c);
            o.Fine? ==> o.pool == p.(saving := o.pool.saving, recovering := o.pool.recovering, streaming := o.pool.streaming)
  {}

  /** What no pass touches. */
  predicate Apart(p: Pool, q: Pool) {
    q.workers == p.workers && q.running == p.running && q.finished == p.finished
  }

  lemma DispatchParts(p: Pool, j: Job, n: Node, w: nat)
    requires Dispatch(p, j, n, w).Fine?
    ensures var q := Dispatch(p, j, n, w).pool;
            Apart(p, q) && (q.request == p.request || (w !in p.request && q.request == p.request[w := j]))
  {
    MarkParts(p.(busy := p.busy[w := n]), KindOf(j.task), n.cluster);
  }

  lemma PassParts(p: Pool)
    requires SchedulePass(p).Started? || SchedulePass(p).Dropped?
    ensures var q := SchedulePass(p).pool;
            Apart(p, q) && |q.pending| == |p.pending| - 1 && |q.request| <= |p.request| + 1
  {
    PassShrinks(p);
    var j, w := p.pending[FirstActionable(p, 0)], FirstIdle(p.workers, p.busy.Keys, 0);
    if j.node.cluster in p.nodes {
      DispatchParts(p, j, p.nodes[j.node.cluster], w);
      if w !in p.request { SizeAdd(p.request, w, j); }
    }
  }

  lemma SizeAdd(m: map<nat, Job>, w: nat, j: Job)
    requires w !in m
    ensures |m[w := j]| == |m| + 1
  {
    assert m[w := j].Keys == m.Keys + {w};
  }

  lemma SizeRemove(m: map<nat, Job>, w: nat)
    requires w in m
    ensures |m - {w}| == |m| - 1
  {
    assert (m - {w}).Keys == m.Keys - {w};
  }

  // ----------------------------------------------------- what becomes of a job

  /** How often a job is picked up along a run, */
  function PickedUp(actions: seq<Action>, j: Job): nat {
    if actions == [] then 0 else One(actions[0] == Append(j)) + PickedUp(actions[1..], j)
  }

  /** how often its passes start it, */
  ghost function StartedIn(p: Pool, actions: seq<Action>, j: Job): nat
    decreases |actions|
  {
    if actions == [] || !Enabled(p, actions[0]) || Next(p, actions[0]).Failed? then 0
    else One(Starts(p, actions[0], j)) + StartedIn(Next(p, actions[0]).pool, actions[1..], j)
  }

  /** and how often they drop it. */
  ghost function DroppedIn(p: Pool, actions: seq<Action>, j: Job): nat
    decreases |actions|
  {
    if actions == [] || !Enabled(p, actions[0]) || Next(p, actions[0]).Failed? then 0
    else One(Drops(p, actions[0], j)) + DroppedIn(Next(p, actions[0]).pool, actions[1..], j)
  }

  predicate Starts(p: Pool, a: Action, j: Job) {
    a.Pass? && SchedulePass(p).Started? && SchedulePass(p).job == j
  }

  predicate Drops(p: Pool, a: Action, j: Job) {
    a.Pass? && SchedulePass(p).Dropped? && SchedulePass(p).job == j
  }

  /** How often a job is pending. */
  function Pending(p: Pool, j: Job): nat {
    multiset(p.pending)[j]
  }

  lemma PassAccounts(p: Pool, j: Job)
    requires AfterPass(p).Fine?
    ensures Pending(p, j) == Pending(AfterPass(p).pool, j) + One(Starts(p, Pass, j)) + One(Drops(p, Pass, j))
  {
    PassShrinks(p);
  }

  lemma StepAccounts(p: Pool, a: Action, j: Job)
    requires Enabled(p, a) && Next(p, a).Fine?
    ensures Pending(p, j) + One(a == Append(j)) == Pending(Next(p, a).pool, j) + One(Starts(p, a, j)) + One(Drops(p, a, j))
  {
    if a.Pass? { PassAccounts(p, j); }
  }

  /** Over any run, a job that was pending or picked up is still pending, or was started
      or dropped, as often. */
  lemma {:induction false} RunAccounts(p: Pool, actions: seq<Action>, q: Pool, j: Job)
    requires Runs(p, actions, q)
    ensures Pending(p, j) + PickedUp(actions, j) == Pending(q, j) + StartedIn(p, actions, j) + DroppedIn(p, actions, j)
    decreases |actions|
  {
    if actions != [] {
      StepAccounts(p, actions[0], j);
      RunAccounts(Next(p, actions[0]).pool, actions[1..], q, j);
    }
  }

  // -------------------------------------------------------- there is an end

  /** How many steps the jobs in the pool have before them at most. */
  function StepsLeft(p: Pool): nat {
    4 * |p.pending| + 3 * |p.request| + 2 * |p.running| + |p.finished|
  }

  /** There is something for the pool or a worker to do. */
  ghost predicate Pressing(p: Pool, a: Action) {
    Enabled(p, a) && !a.Append? && !a.Reload? && (a.Pass? ==> !Quiet(p))
  }

  lemma PassSpends(p: Pool)
    requires Inv(p) && !Quiet(p)
    ensures AfterPass(p).Fine? && StepsLeft(AfterPass(p).pool) < StepsLeft(p)
  {
    QuietIff(p);
    PassKeeps(p);
    PassParts(p);
  }

  lemma TakeSpends(p: Pool, w: nat)
    requires w in p.request && w !in p.running
    ensures StepsLeft(Next(p, Take(w)).pool) == StepsLeft(p) - 1
  {
    SizeRemove(p.request, w);
    SizeAdd(p.running, w, p.request[w]);
  }

  lemma FinishSpends(p: Pool, w: nat)
    requires w in p.running && w !in p.finished
    ensures StepsLeft(Next(p, Finish(w)).pool) == StepsLeft(p) - 1
  {
    SizeRemove(p.running, w);
    SizeAdd(p.finished, w, p.running[w]);
  }

  lemma ReceiveSpends(p: Pool, w: nat)
    requires w in p.finished && Complete(p, w).Fine?
    ensures StepsLeft(Complete(p, w).pool) == StepsLeft(p) - 1
  {
    SizeRemove(p.finished, w);
  }

  /** Every step other than picking up a job or reloading the nodes brings the jobs closer
      to their end. */
  lemma StepSpends(p: Pool, a: Action)
    requires Inv(p) && Pressing(p, a)
    ensures Next(p, a).Fine? && StepsLeft(Next(p, a).pool) < StepsLeft(p)
  {
    match a
    case Pass => PassSpends(p);
    case Take(w) => TakeSpends(p, w);
    case Finish(w) => FinishSpends(p, w);
    case Receive(w) =>
      CompleteKeeps(p, w);
      ReceiveSpends(p, w);
  }

  lemma NobodyWorks(p: Pool)
    requires Inv(p) && forall w :: w !in p.request && w !in p.running && w !in p.finished
    ensures p.request == map[] && p.running == map[] && p.finished == map[] && Jobs(p) == map[] && p.busy.Keys == {}
  {
    assert p.request.Keys == {} && p.running.Keys == {} && p.finished.Keys == {};
    assert Jobs(p).Keys == {};
  }

  /** With nothing in flight every job is ready. */
  lemma AllReady(p: Pool, i: nat)
    requires Inv(p) && Jobs(p) == map[] && i < |p.pending|
    ensures Ready(p, p.pending[i])
  {
    assert KindOf(p.pending[i].task) != Unknown;
  }

  /** While a job is pending or in flight there is something to do. */
  lemma NothingPressingIsDone(p: Pool)
    requires Inv(p) && p.workers > 0 && forall a :: !Pressing(p, a)
    ensures p.pending == [] && Jobs(p) == map[]
  {
    forall w ensures w !in p.running { assert !Pressing(p, Finish(w)); }
    forall w ensures w !in p.request { assert !Pressing(p, Take(w)); }
    forall w ensures w !in p.finished { assert !Pressing(p, Receive(w)); }
    NobodyWorks(p);
    assert !Pressing(p, Pass);
    if p.pending != [] {
      AllReady(p, 0);
      QuietIsBusy(p);
    }
  }

  lemma QuietIsBusy(p: Pool)
    requires Quiet(p) && p.workers > 0 && p.pending != [] && Ready(p, p.pending[0])
    ensures 0 in p.busy.Keys
  {}

  /** A run in which only pool and workers act, and always find something to do. */
  ghost predicate Works(p: Pool, actions: seq<Action>, q: Pool)
    decreases |actions|
  {
    if actions == [] then p == q
    else Pressing(p, actions[0]) && Next(p, actions[0]).Fine? && Works(Next(p, actions[0]).pool, actions[1..], q)
  }

  lemma WorkerCount(p: Pool, a: Action)
    requires Enabled(p, a) && Next(p, a).Fine?
    ensures Next(p, a).pool.workers == p.workers
  {
    if a.Pass? && !SchedulePass(p).Stuck? { PassParts(p); }
  }

  lemma {:induction false} WorkIsARun(p: Pool, actions: seq<Action>, q: Pool)
    requires Inv(p) && Works(p, actions, q)
    ensures Runs(p, actions, q) && Inv(q) && StepsLeft(q) + |actions| <= StepsLeft(p) && q.workers == p.workers
    decreases |actions|
  {
    if actions != [] {
      StepSpends(p, actions[0]);
      StepKeeps(p, actions[0]);
      WorkerCount(p, actions[0]);
      WorkIsARun(Next(p, actions[0]).pool, actions[1..], q);
    }
  }

  lemma {:induction false} WorkPicksUpNothing(p: Pool, actions: seq<Action>, q: Pool, j: Job)
    requires Works(p, actions, q)
    ensures PickedUp(actions, j) == 0
    decreases |actions|
  {
    if actions != [] { WorkPicksUpNothing(Next(p, actions[0]).pool, actions[1..], q, j); }
  }

  lemma {:induction false} RunWorkers(p: Pool, actions: seq<Action>, q: Pool)
    requires Runs(p, actions, q)
    ensures q.workers == p.workers
    decreases |actions|
  {
    if actions != [] {
      WorkerCount(p, actions[0]);
      RunWorkers(Next(p, actions[0]).pool, actions[1..], q);
    }
  }

  lemma WorkEnds(p: Pool, actions: seq<Action>, q: Pool, j: Job)
    requires Inv(p) && p.workers > 0 && Works(p, actions, q)
    ensures |actions| <= StepsLeft(p)
    ensures (forall a :: !Pressing(q, a)) ==>
              q.pending == [] && Jobs(q) == map[] && Pending(p, j) == StartedIn(p, actions, j) + DroppedIn(p, actions, j)
  {
    WorkIsARun(p, actions, q);
    WorkPicksUpNothing(p, actions, q, j);
    RunAccounts(p, actions, q, j);
    if forall a :: !Pressing(q, a) { NothingPressingIsDone(q); }
  }

  /** However pool and workers take their turns after a run, they stop after a bounded
      number of steps; then nothing is pending or in flight, and every job was started or
      dropped as often as it was ever picked up. */
  lemma EveryJobIsDone(workers: nat, before: seq<Action>, p: Pool, actions: seq<Action>, q: Pool, j: Job)
    requires workers > 0 && Runs(NewPool(workers), before, p) && Works(p, actions, q)
    ensures |actions| <= StepsLeft(p)
    ensures (forall a :: !Pressing(q, a)) ==>
              && q.pending == [] && Jobs(q) == map[]
              && PickedUp(before, j) == StartedIn(NewPool(workers), before, j) + StartedIn(p, actions, j) +
                                        DroppedIn(NewPool(workers), before, j) + DroppedIn(p, actions, j)
  {
    NewPoolInv(workers);
    RunKeeps(NewPool(workers), before, p);
    RunWorkers(NewPool(workers), before, p);
    RunAccounts(NewPool(workers), before, p, j);
    WorkEnds(p, actions, q, j);
  }
}
