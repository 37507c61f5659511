/** The snapshot worker pool: a scheduler that keeps book of which worker is busy
    on which cluster, and workers that it talks to over channels of capacity
    one. Every "cannot happen" panic of the scheduler is an outcome here. */
module SnapshotPool {
  import opened Basics
  import opened Pools

  datatype Kind = Recover | Save | Stream | Unknown

  /** A snapshot task as the flags it carries. */
  datatype Task = Task(recover: bool, save: bool, stream: bool)

  datatype Job = Job(task: Task, node: Node)

  function KindOf(t: Task): Kind {
    if t.recover then Recover else if t.save then Save else if t.stream then Stream else Unknown
  }

  /** The scheduler's tables, and the channels between it and its workers. */
  datatype Pool = Pool(
    workers: nat,
    busy: map<nat, Node>,
    saving: set<nat>,
    recovering: set<nat>,
    streaming: map<nat, nat>,
    pending: seq<Job>,
    nodes: map<nat, Node>,
    request: map<nat, Job>,     // jobs waiting in a worker's request channel
    running: map<nat, Job>,     // jobs a worker is handling
    finished: map<nat, Job>)    // tokens in a worker's completed channel, with the job they are for

  datatype Panic =
    | WorkerNotBusy | BusyWorker | NotStreaming | NothingCompleted | ManyCompleted
    | SavingAgain | RecoveringAgain | UnknownTask | MultipleJobs

  datatype Outcome = Fine(pool: Pool) | Failed(why: Panic)

  function NewPool(workers: nat): Pool {
    Pool(workers, map[], {}, {}, map[], [], map[], map[], map[], map[])
  }

  predicate InProgress(p: Pool, c: nat) {
    c in p.saving || c in p.recovering || c in p.streaming
  }

  predicate CanSchedule(p: Pool, j: Job) {
    match KindOf(j.task)
    case Recover => !InProgress(p, j.node.cluster)
    case Save => !InProgress(p, j.node.cluster)
    case Stream => j.node.cluster !in p.saving && j.node.cluster !in p.recovering
    case Unknown => false
  }

  function StreamingLess(p: Pool, c: nat): map<nat, nat> {
    if c !in p.streaming then p.streaming
    else if p.streaming[c] <= 1 then p.streaming - {c}
    else p.streaming[c := p.streaming[c] - 1]
  }

  /** The scheduler takes the completion token of worker `w`. */
  function Complete(p: Pool, w: nat): Outcome
    requires w in p.finished
  {
    if w !in p.busy then Failed(WorkerNotBusy)
    else
      var c := p.busy[w].cluster;
      var count := One(c in p.saving) + One(c in p.recovering) + One(c in p.streaming);
      if c in p.streaming && p.streaming[c] == 0 then Failed(NotStreaming)
      else if count == 0 then Failed(NothingCompleted)
      else if count > 1 then Failed(ManyCompleted)
      else Fine(p.(
                saving := p.saving - {c}, recovering := p.recovering - {c}, streaming := StreamingLess(p, c),
                busy := p.busy - {w}, finished := p.finished - {w}))
  }

  function MarkStarted(p: Pool, k: Kind, c: nat): Outcome {
    match k
    case Recover => if c in p.recovering then Failed(RecoveringAgain) else Fine(p.(recovering := p.recovering + {c}))
    case Save => if c in p.saving then Failed(SavingAgain) else Fine(p.(saving := p.saving + {c}))
    case Stream => Fine(p.(streaming := p.streaming[c := (if c in p.streaming then p.streaming[c] else 0) + 1]))
    case Unknown => Failed(UnknownTask)
  }

  function Start(p: Pool, j: Job, n: Node, w: nat): Outcome {
    if w in p.busy then Failed(BusyWorker)
    else MarkStarted(p.(busy := p.busy[w := n]), KindOf(j.task), n.cluster)
  }

  /** A job for a node that has been restarted since is quietly dropped. */
  function Dispatch(p: Pool, j: Job, n: Node, w: nat): Outcome {
    if n.instance != j.node.instance then Fine(p)
    else
      var o := Start(p, j, n, w);
      if o.Failed? then o
      else if w in o.pool.request then Failed(MultipleJobs)
      else Fine(o.pool.(request := o.pool.request[w := j]))
  }

  predicate Idle(p: Pool, w: nat) {
    w < p.workers && w !in p.busy
  }

  /** A pending job the scheduler can act on: drop it or start it. */
  predicate Actionable(p: Pool, j: Job) {
    j.node.cluster !in p.nodes || CanSchedule(p, j)
  }

  function FirstActionable(p: Pool, i: nat): (r: nat)
    ensures i <= |p.pending| ==> i <= r <= |p.pending|
    ensures r < |p.pending| ==> Actionable(p, p.pending[r])
    ensures forall k :: i <= k < r && k < |p.pending| ==> !Actionable(p, p.pending[k])
    decreases |p.pending| - i
  {
    if i >= |p.pending| then |p.pending| else if Actionable(p, p.pending[i]) then i else FirstActionable(p, i + 1)
  }

  function Unpend(p: Pool, i: nat): Pool
    requires i < |p.pending|
  {
    p.(pending := p.pending[..i] + p.pending[i + 1..])
  }

  /** What one scheduling pass did. */
  datatype Pass = Stuck | Dropped(job: Job, pool: Pool) | Started(job: Job, worker: nat, pool: Pool) | Broken(why: Panic)

  function SchedulePass(p: Pool): Pass {
    var w, i := FirstIdle(p.workers, p.busy.Keys, 0), FirstActionable(p, 0);
    if w >= p.workers || i >= |p.pending| then Stuck
    else
      var j := p.pending[i];
      var c := j.node.cluster;
      if c !in p.nodes then Dropped(j, Unpend(p, i))
      else
        var o := Dispatch(p, j, p.nodes[c], w);
        if o.Failed? then Broken(o.why)
        else if p.nodes[c].instance != j.node.instance then Dropped(j, Unpend(o.pool, i))
        else Started(j, w, Unpend(o.pool, i))
  }

  // ---------------------------------------------------------------- the invariant

  /** Every job in flight, by the worker that has it. */
  ghost function Jobs(p: Pool): map<nat, Job> {
    p.request + p.running + p.finished
  }

  /** Every busy worker has one job, for the node it was booked for, in exactly
      one place: queued, being handled, or finished; idle workers have none. */
  ghost predicate Channels(p: Pool) {
    && p.request.Keys !! p.running.Keys && p.request.Keys !! p.finished.Keys && p.running.Keys !! p.finished.Keys
    && Jobs(p).Keys == p.busy.Keys
    && (forall w :: w in p.busy ==> w < p.workers && Jobs(p)[w].node == p.busy[w] && KindOf(Jobs(p)[w].task) != Unknown)
  }

  predicate Does(j: Job, c: nat, k: Kind) {
    j.node.cluster == c && KindOf(j.task) == k
  }

  /** The workers busy with one kind of work on one cluster. */
  ghost function Doing(jobs: map<nat, Job>, c: nat, k: Kind): set<nat> {
    set w | w in jobs && Does(jobs[w], c, k)
  }

  /** The tables count the workers: at most one saves or recovers a cluster, as
      many stream it as the table says, and never two kinds of work at once. */
  ghost predicate Booked(p: Pool, jobs: map<nat, Job>, c: nat) {
    && |Doing(jobs, c, Save)| == One(c in p.saving)
    && |Doing(jobs, c, Recover)| == One(c in p.recovering)
    && |Doing(jobs, c, Stream)| == (if c in p.streaming then p.streaming[c] else 0)
    && (c in p.streaming ==> p.streaming[c] > 0)
    && One(c in p.saving) + One(c in p.recovering) + One(c in p.streaming) <= 1
  }

  ghost predicate Inv(p: Pool) {
    && Channels(p)
    && (forall c :: Booked(p, Jobs(p), c))
    && (forall i :: 0 <= i < |p.pending| ==> KindOf(p.pending[i].task) != Unknown)
    && (forall c :: c in p.nodes ==> p.nodes[c].cluster == c)
  }

  /** All workers busy on a cluster. */
  ghost function BusyOn(p: Pool, c: nat): set<nat> {
    set w | w in p.busy && p.busy[w].cluster == c
  }

  /** The number of busy workers on a cluster is what the three tables add up to. */
  lemma BusyCount(p: Pool, c: nat)
    requires Inv(p)
    ensures |BusyOn(p, c)| == One(c in p.saving) + One(c in p.recovering) + (if c in p.streaming then p.streaming[c] else 0)
  {
    var jobs := Jobs(p);
    var a, b, d := Doing(jobs, c, Save), Doing(jobs, c, Recover), Doing(jobs, c, Stream);
    assert Booked(p, jobs, c);
    forall w ensures w in BusyOn(p, c) <==> w in a + b + d {
      if w in p.busy { assert jobs[w].node == p.busy[w]; }
    }
    assert BusyOn(p, c) == a + b + d;
    assert |a + b + d| == |a + b| + |d|;
  }

  lemma LessDoing(jobs: map<nat, Job>, w: nat, c: nat, k: Kind)
    requires w in jobs
    ensures |Doing(jobs - {w}, c, k)| == |Doing(jobs, c, k)| - One(Does(jobs[w], c, k))
  {
    assert Doing(jobs - {w}, c, k) == Doing(jobs, c, k) - {w};
  }

  lemma MoreDoing(jobs: map<nat, Job>, w: nat, j: Job, c: nat, k: Kind)
    requires w !in jobs
    ensures |Doing(jobs[w := j], c, k)| == |Doing(jobs, c, k)| + One(Does(j, c, k))
  {
    assert jobs[w := j] - {w} == jobs;
    LessDoing(jobs[w := j], w, c, k);
  }

  /** Worker `w` is counted under the kind of its job, and only there. */
  lemma WorkIsBooked(p: Pool, jobs: map<nat, Job>, w: nat)
    requires w in jobs && KindOf(jobs[w].task) != Unknown && Booked(p, jobs, jobs[w].node.cluster)
    ensures var c, k := jobs[w].node.cluster, KindOf(jobs[w].task);
            && (k == Save <==> c in p.saving)
            && (k == Recover <==> c in p.recovering)
            && (k == Stream <==> c in p.streaming)
  {
    assert w in Doing(jobs, jobs[w].node.cluster, KindOf(jobs[w].task));
  }

  lemma CompleteBooked(p: Pool, p': Pool, jobs: map<nat, Job>, w: nat, d: nat)
    requires w in jobs && KindOf(jobs[w].task) != Unknown
    requires Booked(p, jobs, d) && Booked(p, jobs, jobs[w].node.cluster)
    requires var c := jobs[w].node.cluster;
             p'.saving == p.saving - {c} && p'.recovering == p.recovering - {c} && p'.streaming == StreamingLess(p, c)
    ensures Booked(p', jobs - {w}, d)
  {
    WorkIsBooked(p, jobs, w);
    LessDoing(jobs, w, d, Save);
    LessDoing(jobs, w, d, Recover);
    LessDoing(jobs, w, d, Stream);
  }

  lemma CompleteChannels(p: Pool, p': Pool, w: nat)
    requires Channels(p) && w in p.finished && p'.workers == p.workers
    requires p'.busy == p.busy - {w} && p'.request == p.request && p'.running == p.running && p'.finished == p.finished - {w}
    ensures Channels(p') && Jobs(p') == Jobs(p) - {w}
  {
    assert Jobs(p') == Jobs(p) - {w};
  }

  /** A completion never panics, frees exactly that worker, and un-books exactly
      the work that worker did. */
  lemma CompleteKeeps(p: Pool, w: nat)
    requires Inv(p) && w in p.finished
    ensures Complete(p, w).Fine? && Inv(Complete(p, w).pool)
    ensures Jobs(Complete(p, w).pool) == Jobs(p) - {w}
  {
    var jobs := Jobs(p);
    assert w in jobs.Keys;
    var c := jobs[w].node.cluster;
    assert Booked(p, jobs, c);
    WorkIsBooked(p, jobs, w);
    var p' := Complete(p, w).pool;
    CompleteChannels(p, p', w);
    forall d ensures Booked(p', Jobs(p'), d) {
      assert Booked(p, jobs, d);
      CompleteBooked(p, p', jobs, w, d);
    }
  }

  lemma UnionAdd(a: map<nat, Job>, b: map<nat, Job>, c: map<nat, Job>, w: nat, j: Job)
    requires w !in b && w !in c
    ensures a[w := j] + b + c == (a + b + c)[w := j]
  {}

  lemma UnionKeys(a: map<nat, Job>, b: map<nat, Job>, c: map<nat, Job>)
    ensures forall w :: w in a + b + c <==> w in a || w in b || w in c
  {}

  lemma StartChannels(p: Pool, p': Pool, j: Job, w: nat)
    requires Channels(p) && Idle(p, w) && p'.workers == p.workers && KindOf(j.task) != Unknown
    requires p'.busy == p.busy[w := j.node] && p'.request == p.request[w := j] && p'.running == p.running && p'.finished == p.finished
    ensures Channels(p') && Jobs(p') == Jobs(p)[w := j]
  {
    StartJobs(p, p', j, w);
    forall v | v in p'.busy
      ensures v < p'.workers && v in Jobs(p') && Jobs(p')[v].node == p'.busy[v] && KindOf(Jobs(p')[v].task) != Unknown
    {
      assert v != w ==> v in p.busy && Jobs(p')[v] == Jobs(p)[v];
    }
  }

  lemma StartJobs(p: Pool, p': Pool, j: Job, w: nat)
    requires Channels(p) && Idle(p, w)
    requires p'.busy == p.busy[w := j.node] && p'.request == p.request[w := j] && p'.running == p.running && p'.finished == p.finished
    ensures w !in p.request && w !in p.running && w !in p.finished
    ensures Jobs(p') == Jobs(p)[w := j] && Jobs(p').Keys == p'.busy.Keys
  {
    UnionKeys(p.request, p.running, p.finished);
    assert w !in Jobs(p).Keys;
    UnionAdd(p.request, p.running, p.finished, w, j);
  }

  lemma StartBooked(p: Pool, p': Pool, jobs: map<nat, Job>, j: Job, w: nat, d: nat)
    requires w !in jobs && KindOf(j.task) != Unknown && CanSchedule(p, j) && Booked(p, jobs, d)
    requires MarkStarted(p, KindOf(j.task), j.node.cluster).Fine?
    requires var q := MarkStarted(p, KindOf(j.task), j.node.cluster).pool;
             p'.saving == q.saving && p'.recovering == q.recovering && p'.streaming == q.streaming
    ensures Booked(p', jobs[w := j], d)
  {
    MoreDoing(jobs, w, j, d, Save);
    MoreDoing(jobs, w, j, d, Recover);
    MoreDoing(jobs, w, j, d, Stream);
  }

  /** Starting a schedulable job on an idle worker never panics. */
  lemma DispatchKeeps(p: Pool, j: Job, w: nat)
    requires Inv(p) && Idle(p, w) && KindOf(j.task) != Unknown && CanSchedule(p, j)
    ensures Dispatch(p, j, j.node, w).Fine? && Inv(Dispatch(p, j, j.node, w).pool)
    ensures Jobs(Dispatch(p, j, j.node, w).pool) == Jobs(p)[w := j]
    ensures Dispatch(p, j, j.node, w).pool.pending == p.pending
  {
    var jobs := Jobs(p);
    assert w !in jobs.Keys;
    var p' := Dispatch(p, j, j.node, w).pool;
    StartChannels(p, p', j, w);
    forall d ensures Booked(p', Jobs(p'), d) {
      assert Booked(p, jobs, d);
      StartBooked(p, p', jobs, j, w, d);
    }
  }

  /** Steps that leave the bookings and the set of jobs alone keep the books. */
  lemma SameWorkKeeps(p: Pool, p': Pool)
    requires Inv(p) && Channels(p') && Jobs(p') == Jobs(p)
    requires p'.saving == p.saving && p'.recovering == p.recovering && p'.streaming == p.streaming
    requires forall i :: 0 <= i < |p'.pending| ==> KindOf(p'.pending[i].task) != Unknown
    requires forall c :: c in p'.nodes ==> p'.nodes[c].cluster == c
    ensures Inv(p')
  {
    forall c ensures Booked(p', Jobs(p'), c) { assert Booked(p, Jobs(p), c); }
  }

  lemma UnpendKeeps(p: Pool, i: nat)
    requires Inv(p) && i < |p.pending|
    ensures Inv(Unpend(p, i))
  {
    SameWorkKeeps(p, Unpend(p, i));
  }

  /** A scheduling pass never panics and keeps the books. */
  lemma PassKeeps(p: Pool)
    requires Inv(p)
    ensures !SchedulePass(p).Broken?
    ensures SchedulePass(p).Started? || SchedulePass(p).Dropped? ==> Inv(SchedulePass(p).pool)
  {
    var w, i := FirstIdle(p.workers, p.busy.Keys, 0), FirstActionable(p, 0);
    if w < p.workers && i < |p.pending| {
      var j := p.pending[i];
      var c := j.node.cluster;
      if c !in p.nodes || p.nodes[c].instance != j.node.instance {
        UnpendKeeps(p, i);
      } else {
        assert p.nodes[c] == j.node;
        DispatchKeeps(p, j, w);
        UnpendKeeps(Dispatch(p, j, j.node, w).pool, i);
      }
    }
  }
}
