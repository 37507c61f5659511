/** The pool and its workers running together, in every interleaving. */
module SnapshotPoolRuns {
  import opened Basics
  import opened Pools
  import opened SnapshotPool

  datatype Action =
    | Append(job: Job)                  // the scheduler picks up a job from a ready slot
    | Reload(nodes: map<nat, Node>)     // the scheduler reloads the host's node table
    | Receive(worker: nat)              // the scheduler receives a completion token
    | Pass                              // the scheduler makes one scheduling pass
    | Take(worker: nat)                 // a worker receives its next job
    | Finish(worker: nat)               // a worker reports completion

  /** What can happen next. A worker takes a job only between jobs. */
  ghost predicate Enabled(p: Pool, a: Action) {
    match a
    case Append(j) => (j.task.recover || j.task.save || j.task.stream) && j.node.cluster in p.nodes && p.nodes[j.node.cluster] == j.node
    case Reload(nodes) => forall c :: c in nodes ==> nodes[c].cluster == c
    case Receive(w) => w in p.finished
    case Pass => true
    case Take(w) => w in p.request && w !in p.running
    case Finish(w) => w in p.running
  }

  /** A worker whose completed channel is full would block in `Finish`. */
  predicate Blocks(p: Pool, w: nat) {
    w in p.finished
  }

  function AfterPass(p: Pool): Outcome {
    match SchedulePass(p)
    case Stuck => Fine(p)
    case Dropped(_, q) => Fine(q)
    case Started(_, _, q) => Fine(q)
    case Broken(why) => Failed(why)
  }

  function Next(p: Pool, a: Action): Outcome
    requires a.Receive? ==> a.worker in p.finished
    requires a.Take? ==> a.worker in p.request
    requires a.Finish? ==> a.worker in p.running
  {
    match a
    case Append(j) => Fine(p.(pending := p.pending + [j]))
    case Reload(nodes) => Fine(p.(nodes := nodes))
    case Receive(w) => Complete(p, w)
    case Pass => AfterPass(p)
    case Take(w) => Fine(p.(request := p.request - {w}, running := p.running[w := p.request[w]]))
    case Finish(w) => Fine(p.(running := p.running - {w}, finished := p.finished[w := p.running[w]]))
  }

  lemma UnionMove(a: map<nat, Job>, b: map<nat, Job>, c: map<nat, Job>, w: nat)
    requires w in a && w !in b && w !in c
    ensures (a - {w}) + b[w := a[w]] + c == a + b + c
    ensures c + (a - {w}) + b[w := a[w]] == c + a + b
  {}

  /** Every step of every interleaving keeps the books and raises no panic. */
  lemma StepKeeps(p: Pool, a: Action)
    requires Inv(p) && Enabled(p, a)
    ensures Next(p, a).Fine? && Inv(Next(p, a).pool)
  {
    match a
    case Append(j) => SameWorkKeeps(p, Next(p, a).pool);
    case Reload(nodes) => SameWorkKeeps(p, Next(p, a).pool);
    case Receive(w) => CompleteKeeps(p, w);
    case Pass => PassKeeps(p);
    case Take(w) => TakeKeeps(p, w);
    case Finish(w) => FinishKeeps(p, w);
  }

  lemma TakeKeeps(p: Pool, w: nat)
    requires Inv(p) && w in p.request
    ensures Inv(p.(request := p.request - {w}, running := p.running[w := p.request[w]]))
  {
    var p' := p.(request := p.request - {w}, running := p.running[w := p.request[w]]);
    UnionMove(p.request, p.running, p.finished, w);
    assert Jobs(p') == Jobs(p);
    SameWorkKeeps(p, p');
  }

  lemma FinishKeeps(p: Pool, w: nat)
    requires Inv(p) && w in p.running
    ensures Inv(p.(running := p.running - {w}, finished := p.finished[w := p.running[w]]))
  {
    var p' := p.(running := p.running - {w}, finished := p.finished[w := p.running[w]]);
    UnionMove(p.running, p.finished, p.request, w);
    assert Jobs(p') == Jobs(p);
    SameWorkKeeps(p, p');
  }

  /** `p'` is reached from `p` by these steps. */
  ghost predicate Runs(p: Pool, actions: seq<Action>, p': Pool)
    decreases |actions|
  {
    if actions == [] then p == p'
    else
      && Enabled(p, actions[0])
      && Next(p, actions[0]).Fine?
      && Runs(Next(p, actions[0]).pool, actions[1..], p')
  }

  lemma {:induction false} RunKeeps(p: Pool, actions: seq<Action>, p': Pool)
    requires Inv(p) && Runs(p, actions, p')
    ensures Inv(p')
    decreases |actions|
  {
    if actions != [] {
      StepKeeps(p, actions[0]);
      RunKeeps(Next(p, actions[0]).pool, actions[1..], p');
    }
  }

  lemma NewPoolInv(workers: nat)
    ensures Inv(NewPool(workers))
  {
    var p := NewPool(workers);
    assert Jobs(p) == map[];
    forall c ensures Booked(p, Jobs(p), c) {
      assert Doing(map[], c, Save) == {} && Doing(map[], c, Recover) == {} && Doing(map[], c, Stream) == {};
    }
  }

  /** In every state the pool can reach: no enabled step panics, no worker ever
      blocks reporting completion, each worker has one job in flight if it is
      booked and none otherwise, and each cluster has at most one kind of work
      in progress, by as many workers as the tables say. */
  lemma PoolIsSafe(workers: nat, actions: seq<Action>, p: Pool)
    requires Runs(NewPool(workers), actions, p)
    ensures forall a :: Enabled(p, a) ==> Next(p, a).Fine?
    ensures forall w :: w in p.running ==> !Blocks(p, w)
    ensures forall w :: One(w in p.request) + One(w in p.running) + One(w in p.finished) == One(w in p.busy)
    ensures forall c :: One(c in p.saving) + One(c in p.recovering) + One(c in p.streaming) <= 1
    ensures forall c :: |BusyOn(p, c)| ==
              One(c in p.saving) + One(c in p.recovering) + (if c in p.streaming then p.streaming[c] else 0)
  {
    NewPoolInv(workers);
    RunKeeps(NewPool(workers), actions, p);
    forall a | Enabled(p, a) ensures Next(p, a).Fine? { StepKeeps(p, a); }
    UnionKeys(p.request, p.running, p.finished);
    forall w ensures One(w in p.request) + One(w in p.running) + One(w in p.finished) == One(w in p.busy) {
      assert w in Jobs(p).Keys <==> w in p.busy.Keys;
    }
    forall c ensures One(c in p.saving) + One(c in p.recovering) + One(c in p.streaming) <= 1 {
      assert Booked(p, Jobs(p), c);
    }
    forall c { BusyCount(p, c); }
  }

  // ---------------------------------------------------------------- schedule

  /** All passes until one is stuck: the pool at the end, the jobs started, the
      jobs dropped. */
  datatype Sweep = Sweep(pool: Pool, started: seq<Job>, dropped: seq<Job>)

  lemma RemoveOne(s: seq<Job>, i: nat)
    requires i < |s|
    ensures multiset(s) == multiset(s[..i] + s[i + 1..]) + multiset{s[i]}
  {
    assert s == s[..i] + [s[i]] + s[i + 1..];
  }

  lemma DispatchFrame(p: Pool, j: Job, n: Node, w: nat)
    ensures var o := Dispatch(p, j, n, w);
            o.Fine? ==> o.pool.pending == p.pending && o.pool.nodes == p.nodes
  {}

  lemma {:induction false} PassRemovesOne(p: Pool, i: nat)
    requires i == FirstActionable(p, 0)
    ensures var r := SchedulePass(p);
            r.Started? || r.Dropped? ==>
              && i < |p.pending|
              && r.job == p.pending[i]
              && r.pool.pending == p.pending[..i] + p.pending[i + 1..]
              && r.pool.nodes == p.nodes
              && (r.Started? <==> !Stale(p.nodes, r.job))
  {
    if i < |p.pending| && p.pending[i].node.cluster in p.nodes {
      DispatchFrame(p, p.pending[i], p.nodes[p.pending[i].node.cluster], FirstIdle(p.workers, p.busy.Keys, 0));
    }
  }

  lemma {:induction false} PassShrinks(p: Pool)
    ensures var r := SchedulePass(p);
            r.Started? || r.Dropped? ==>
              && |r.pool.pending| == |p.pending| - 1
              && r.pool.nodes == p.nodes
              && multiset(p.pending) == multiset(r.pool.pending) + multiset{r.job}
              && (r.Started? <==> !Stale(p.nodes, r.job))
  {
    var i := FirstActionable(p, 0);
    PassRemovesOne(p, i);
    if i < |p.pending| { RemoveOne(p.pending, i); }
  }

  ghost function Schedule(p: Pool): Sweep
    decreases |p.pending|
  {
    PassShrinks(p);
    match SchedulePass(p)
    case Started(j, _, q) =>
      var rest := Schedule(q);
      rest.(started := [j] + rest.started)
    case Dropped(j, q) =>
      var rest := Schedule(q);
      rest.(dropped := [j] + rest.dropped)
    case _ => Sweep(p, [], [])
  }

  /** A job whose node is gone or has been restarted. */
  predicate Stale(nodes: map<nat, Node>, j: Job) {
    j.node.cluster !in nodes || nodes[j.node.cluster].instance != j.node.instance
  }

  ghost predicate AllStale(nodes: map<nat, Node>, jobs: seq<Job>) {
    forall i :: 0 <= i < |jobs| ==> Stale(nodes, jobs[i])
  }

  ghost predicate NoneStale(nodes: map<nat, Node>, jobs: seq<Job>) {
    forall i :: 0 <= i < |jobs| ==> !Stale(nodes, jobs[i])
  }

  /** There is nothing left to do: no job, no idle worker, or no job that may run. */
  ghost predicate Exhausted(p: Pool) {
    || p.pending == []
    || (forall w :: !Idle(p, w))
    || (forall i :: 0 <= i < |p.pending| ==> !Actionable(p, p.pending[i]))
  }

  lemma StuckIsExhausted(p: Pool)
    requires SchedulePass(p).Stuck?
    ensures Exhausted(p)
  {
    if FirstIdle(p.workers, p.busy.Keys, 0) >= p.workers { assert forall v :: !Idle(p, v); }
  }

  /** `schedule` ends with nothing left to do; every job that left the list was
      started once, if its node is still the one it was for, or else dropped. */
  ghost predicate Swept(p: Pool, r: Sweep) {
    && Inv(r.pool)
    && Exhausted(r.pool)
    && r.pool.nodes == p.nodes
    && multiset(p.pending) == multiset(r.pool.pending) + multiset(r.started) + multiset(r.dropped)
    && NoneStale(p.nodes, r.started)
    && AllStale(p.nodes, r.dropped)
  }

  lemma SweptOne(p: Pool, q: Pool, j: Job, rest: Sweep)
    requires Swept(q, rest) && q.nodes == p.nodes
    requires multiset(p.pending) == multiset(q.pending) + multiset{j}
    ensures !Stale(p.nodes, j) ==> Swept(p, rest.(started := [j] + rest.started))
    ensures Stale(p.nodes, j) ==> Swept(p, rest.(dropped := [j] + rest.dropped))
  {}

  lemma {:induction false} ScheduleSweeps(p: Pool)
    requires Inv(p)
    ensures Swept(p, Schedule(p))
    decreases |p.pending|
  {
    PassKeeps(p);
    PassShrinks(p);
    var r := SchedulePass(p);
    if r.Stuck? {
      StuckIsExhausted(p);
    } else {
      ScheduleSweeps(r.pool);
      SweptOne(p, r.pool, r.job, Schedule(r.pool));
    }
  }

  // ---------------------------------------------------------- what gets started

  /** Nobody works on the cluster. */
  ghost predicate Untouched(p: Pool, c: nat) {
    forall w :: w in Jobs(p) ==> Jobs(p)[w].node.cluster != c
  }

  /** Whoever works on the cluster streams it. */
  ghost predicate OnlyStreamed(p: Pool, c: nat) {
    forall w :: w in Jobs(p) && Jobs(p)[w].node.cluster == c ==> !Jobs(p)[w].task.recover && !Jobs(p)[w].task.save
  }

  /** A job that may run beside those in flight: a recovery or save alone on its
      cluster, a stream beside other streams. */
  ghost predicate MayRun(p: Pool, j: Job) {
    if j.task.recover || j.task.save then Untouched(p, j.node.cluster)
    else j.task.stream && OnlyStreamed(p, j.node.cluster)
  }

  /** A job of a node that is gone from the table, or one that may run. */
  ghost predicate Ready(p: Pool, j: Job) {
    j.node.cluster !in p.nodes || MayRun(p, j)
  }

  lemma NobodyDoes(p: Pool, c: nat, k: Kind)
    requires Inv(p)
    ensures |Doing(Jobs(p), c, k)| == 0 <==> forall w :: w in Jobs(p) ==> !Does(Jobs(p)[w], c, k)
  {
    var doing := Doing(Jobs(p), c, k);
    if |doing| == 0 {
      forall w | w in Jobs(p) ensures !Does(Jobs(p)[w], c, k) { assert w !in doing; }
    } else {
      var w :| w in doing;
      assert Does(Jobs(p)[w], c, k);
    }
  }

  /** What the tables say about a cluster is what the jobs in flight say. */
  lemma TablesTell(p: Pool, c: nat)
    requires Inv(p)
    ensures Untouched(p, c) <==> c !in p.saving && c !in p.recovering && c !in p.streaming
    ensures OnlyStreamed(p, c) <==> c !in p.saving && c !in p.recovering
  {
    assert Booked(p, Jobs(p), c);
    NobodyDoes(p, c, Save);
    NobodyDoes(p, c, Recover);
    NobodyDoes(p, c, Stream);
    forall w | w in Jobs(p) && Jobs(p)[w].node.cluster == c
      ensures Does(Jobs(p)[w], c, Save) || Does(Jobs(p)[w], c, Recover) || Does(Jobs(p)[w], c, Stream)
    {
      assert w in p.busy.Keys;
    }
    if Untouched(p, c) { forall w | w in Jobs(p) ensures !Does(Jobs(p)[w], c, Save) && !Does(Jobs(p)[w], c, Stream) {} }
  }

  lemma ReadyIsActionable(p: Pool, j: Job)
    requires Inv(p)
    ensures Ready(p, j) <==> Actionable(p, j)
  {
    TablesTell(p, j.node.cluster);
  }

  /** The job may run, and waits in the channel of a worker that had none. */
  ghost predicate StartedBeside(p: Pool, j: Job, w: nat, q: Pool) {
    MayRun(p, j) && w !in Jobs(p) && Jobs(q) == Jobs(p)[w := j] && w in q.request
  }

  /** The job is the first that is ready, and leaves the list. */
  ghost predicate FirstReady(p: Pool, i: nat, j: Job, q: Pool) {
    && i < |p.pending| && j == p.pending[i] && Ready(p, j) && (forall k :: 0 <= k < i ==> !Ready(p, p.pending[k]))
    && q.pending == p.pending[..i] + p.pending[i + 1..]
  }

  /** A pass does something if and only if a worker is idle and some pending job is
      ready, by what is in flight. It acts on the first such job: started, if its node is
      still the one it was for, it is given to an idle worker beside what was in flight,
      and otherwise it is dropped. */
  lemma PassActs(p: Pool)
    requires Inv(p)
    ensures !SchedulePass(p).Stuck? <==> (exists w :: Idle(p, w)) && exists i :: 0 <= i < |p.pending| && Ready(p, p.pending[i])
    ensures SchedulePass(p).Started? || SchedulePass(p).Dropped? || SchedulePass(p).Stuck?
    ensures var r := SchedulePass(p);
            && (r.Started? ==> !Stale(p.nodes, r.job) && Idle(p, r.worker) && StartedBeside(p, r.job, r.worker, r.pool))
            && (r.Started? ==> forall v :: 0 <= v < r.worker ==> v in p.busy)
            && (r.Dropped? ==> Stale(p.nodes, r.job) && Jobs(r.pool) == Jobs(p))
            && (!r.Stuck? ==> exists i: nat :: FirstReady(p, i, r.job, r.pool))
  {
    PassKeeps(p);
    forall i | 0 <= i < |p.pending| ensures Ready(p, p.pending[i]) <==> Actionable(p, p.pending[i]) {
      ReadyIsActionable(p, p.pending[i]);
    }
    var w, i := FirstIdle(p.workers, p.busy.Keys, 0), FirstActionable(p, 0);
    if w >= p.workers {
      assert forall v :: !Idle(p, v);
    } else {
      assert Idle(p, w);
      if i < |p.pending| {
        PassActsOn(p, i, w);
        assert FirstReady(p, i, SchedulePass(p).job, SchedulePass(p).pool);
      }
    }
  }

  lemma PassActsOn(p: Pool, i: nat, w: nat)
    requires Inv(p) && i == FirstActionable(p, 0) < |p.pending| && w == FirstIdle(p.workers, p.busy.Keys, 0) < p.workers
    ensures var r := SchedulePass(p);
            && (r.Started? || r.Dropped?) && r.job == p.pending[i] && r.pool.pending == p.pending[..i] + p.pending[i + 1..]
            && (r.Started? ==> !Stale(p.nodes, r.job) && r.worker == w && StartedBeside(p, r.job, w, r.pool))
            && (r.Dropped? ==> Stale(p.nodes, r.job) && Jobs(r.pool) == Jobs(p))
  {
    var j := p.pending[i];
    if !Stale(p.nodes, j) { DispatchStarts(p, j, w); }
  }

  lemma DispatchStarts(p: Pool, j: Job, w: nat)
    requires Inv(p) && Idle(p, w) && !Stale(p.nodes, j) && Actionable(p, j)
    ensures p.nodes[j.node.cluster] == j.node && MayRun(p, j)
    ensures var o := Dispatch(p, j, j.node, w);
            o.Fine? && w !in Jobs(p) && Jobs(o.pool) == Jobs(p)[w := j] && w in o.pool.request && o.pool.pending == p.pending
  {
    ReadyIsActionable(p, j);
    assert w !in Jobs(p).Keys;
    DispatchKeeps(p, j, w);
  }

  /** After `schedule`, a worker is idle only if no job that is still pending is ready. */
  lemma ScheduleLeavesNothingReady(p: Pool, w: nat, i: nat)
    requires Inv(p)
    ensures var q := Schedule(p).pool;
            Inv(q) && (Idle(q, w) && i < |q.pending| ==> !Ready(q, q.pending[i]))
  {
    ScheduleSweeps(p);
    var q := Schedule(p).pool;
    if Idle(q, w) && i < |q.pending| { ReadyIsActionable(q, q.pending[i]); }
  }
}
