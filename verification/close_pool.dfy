/** The pool that destroys stopped nodes: like the snapshot pool it hands jobs to
    workers over channels of capacity one, but it rotates its pending list and
    closes at most one incarnation of a cluster at a time. */
module ClosePool {
  import opened Basics
  import opened Pools

  datatype Pool = Pool(
    workers: nat,
    busy: map<nat, nat>,          // worker to the cluster it is closing
    processing: set<nat>,         // clusters being closed
    pending: seq<Node>,
    request: map<nat, Node>,      // requests waiting in a worker's channel
    running: map<nat, Node>,      // requests a worker is handling
    finished: map<nat, Node>,     // tokens in a worker's completed channel, with the node they are for
    received: multiset<Node>,     // every request the pool ever accepted
    handled: multiset<Node>)      // every request a worker ever carried out

  datatype Panic = WorkerNotBusy | NotProcessing | MultipleJobs

  datatype Outcome = Fine(pool: Pool) | Failed(why: Panic)

  function NewPool(workers: nat): Pool {
    Pool(workers, map[], {}, [], map[], map[], map[], multiset{}, multiset{})
  }

  function Submit(p: Pool, n: Node): Pool {
    p.(pending := p.pending + [n], received := p.received + multiset{n})
  }

  function Complete(p: Pool, w: nat): Outcome
    requires w in p.finished
  {
    if w !in p.busy then Failed(WorkerNotBusy)
    else if p.busy[w] !in p.processing then Failed(NotProcessing)
    else Fine(p.(processing := p.processing - {p.busy[w]}, busy := p.busy - {w}, finished := p.finished - {w}))
  }

  function Start(p: Pool, n: Node, w: nat): Outcome {
    if w in p.request then Failed(MultipleJobs)
    else Fine(p.(
              processing := p.processing + {n.cluster}, busy := p.busy[w := n.cluster],
              request := p.request[w := n]))
  }

  predicate CanSchedule(p: Pool, n: Node) {
    n.cluster !in p.processing
  }

  predicate Idle(p: Pool, w: nat) {
    w < p.workers && w !in p.busy
  }

  function FirstSchedulable(p: Pool, i: nat): (r: nat)
    ensures i <= |p.pending| ==> i <= r <= |p.pending|
    ensures r < |p.pending| ==> CanSchedule(p, p.pending[r])
    ensures forall k :: i <= k < r && k < |p.pending| ==> !CanSchedule(p, p.pending[k])
    decreases |p.pending| - i
  {
    if i >= |p.pending| then |p.pending|
    else if CanSchedule(p, p.pending[i]) then i else FirstSchedulable(p, i + 1)
  }

  datatype Pass = Stuck | Started(node: Node, worker: nat, pool: Pool) | Broken(why: Panic)

  /** One pass: the first request whose cluster is free goes to the first idle
      worker, and the requests passed over move behind the rest. */
  function SchedulePass(p: Pool): Pass {
    var w := FirstIdle(p.workers, p.busy.Keys, 0);
    if w >= p.workers then Stuck
    else
      var i := FirstSchedulable(p, 0);
      if i >= |p.pending| then Stuck
      else
        match Start(PassedOver(p, i), p.pending[i], w)
        case Fine(q) => Started(p.pending[i], w, q)
        case Failed(why) => Broken(why)
  }

  /** Request `i` taken off the list after those before it moved to the back. */
  function PassedOver(p: Pool, i: nat): Pool
    requires i < |p.pending|
  {
    p.(pending := p.pending[i + 1..] + p.pending[..i])
  }

  predicate IsIdle(p: Pool) {
    |p.busy| == 0 && |p.pending| == 0
  }

  // ------------------------------------------------------------- invariant

  /** The requests handed to a worker that has not carried them out yet. */
  function Open(p: Pool): map<nat, Node> {
    p.request + p.running
  }

  /** A worker is busy while it has a request in hand or a token out. */
  ghost predicate Channels(workers: nat, busy: map<nat, nat>, open: map<nat, Node>, finished: map<nat, Node>) {
    && open.Keys !! finished.Keys
    && busy.Keys == open.Keys + finished.Keys
    && (forall w :: w in busy ==> w < workers)
    && (forall w :: w in open ==> busy[w] == open[w].cluster)
  }

  /** `processing` is exactly the clusters of busy workers, one worker each. */
  ghost predicate OneEach(busy: map<nat, nat>, processing: set<nat>) {
    && (forall v, w :: v in busy && w in busy && busy[v] == busy[w] ==> v == w)
    && processing == busy.Values
  }

  ghost predicate Conserved(received: multiset<Node>, pending: seq<Node>, open: map<nat, Node>, handled: multiset<Node>) {
    received == multiset(pending) + multiset(open.Values) + handled
  }

  ghost predicate Inv(p: Pool) {
    && p.request.Keys !! p.running.Keys
    && Channels(p.workers, p.busy, Open(p), p.finished)
    && OneEach(p.busy, p.processing)
    && Conserved(p.received, p.pending, Open(p), p.handled)
  }

  lemma ValuesAdd<V>(m: map<nat, V>, w: nat, v: V)
    requires w !in m
    ensures m[w := v].Values == m.Values + {v}
  {
    forall x ensures x in m[w := v].Values <==> x in m.Values + {v} {
      if x in m.Values {
        var k :| k in m && m[k] == x;
        assert m[w := v][k] == x;
      }
      assert m[w := v][w] == v;
    }
  }

  lemma ValuesRemove<V>(m: map<nat, V>, w: nat)
    requires w in m && forall k :: k in m && m[k] == m[w] ==> k == w
    ensures (m - {w}).Values == m.Values - {m[w]}
  {
    forall x ensures x in (m - {w}).Values <==> x in m.Values - {m[w]} {
      if x in m.Values && x != m[w] {
        var k :| k in m && m[k] == x;
        assert (m - {w})[k] == x;
      }
    }
  }

  lemma CompleteKeeps(p: Pool, w: nat)
    requires Inv(p) && w in p.finished
    ensures Complete(p, w).Fine? && Inv(Complete(p, w).pool)
  {
    assert p.busy[w] in p.busy.Values;
    ValuesRemove(p.busy, w);
    assert Open(Complete(p, w).pool) == Open(p);
  }

  /** A request whose cluster is free is in nobody's hands. */
  lemma FreeIsNotOpen(workers: nat, busy: map<nat, nat>, processing: set<nat>, open: map<nat, Node>,
                      finished: map<nat, Node>, n: Node)
    requires Channels(workers, busy, open, finished) && OneEach(busy, processing) && n.cluster !in processing
    ensures n !in open.Values
  {
    forall w | w in open ensures open[w] != n { assert busy[w] in busy.Values; }
  }

  lemma StartOneEach(busy: map<nat, nat>, processing: set<nat>, w: nat, c: nat)
    requires OneEach(busy, processing) && w !in busy && c !in processing
    ensures OneEach(busy[w := c], processing + {c})
  {
    ValuesAdd(busy, w, c);
    forall v | v in busy ensures busy[v] in processing {}
  }

  lemma StartChannels(workers: nat, busy: map<nat, nat>, open: map<nat, Node>, finished: map<nat, Node>, w: nat, n: Node)
    requires Channels(workers, busy, open, finished) && w < workers && w !in busy
    ensures w !in open && Channels(workers, busy[w := n.cluster], open[w := n], finished)
  {}

  lemma StartConserves(received: multiset<Node>, s: seq<Node>, open: map<nat, Node>, handled: multiset<Node>, i: nat, w: nat)
    requires i < |s| && w !in open && s[i] !in open.Values && Conserved(received, s, open, handled)
    ensures Conserved(received, s[i + 1..] + s[..i], open[w := s[i]], handled)
  {
    ValuesAdd(open, w, s[i]);
    assert s == s[..i] + [s[i]] + s[i + 1..];
  }

  lemma HandOver(request: map<nat, Node>, running: map<nat, Node>, w: nat, n: Node)
    requires w !in request + running && request.Keys !! running.Keys
    ensures w !in request && request[w := n].Keys !! running.Keys
    ensures request[w := n] + running == (request + running)[w := n]
  {}

  lemma BeginKeeps(p: Pool, i: nat, w: nat)
    requires Inv(p) && i < |p.pending| && CanSchedule(p, p.pending[i]) && Idle(p, w)
    ensures var o := Start(PassedOver(p, i), p.pending[i], w); o.Fine? && Inv(o.pool)
  {
    var n := p.pending[i];
    StartChannels(p.workers, p.busy, Open(p), p.finished, w, n);
    StartOneEach(p.busy, p.processing, w, n.cluster);
    FreeIsNotOpen(p.workers, p.busy, p.processing, Open(p), p.finished, n);
    StartConserves(p.received, p.pending, Open(p), p.handled, i, w);
    HandOver(p.request, p.running, w, n);
  }

  lemma PassKeeps(p: Pool)
    requires Inv(p)
    ensures !SchedulePass(p).Broken?
    ensures SchedulePass(p).Started? ==> Inv(SchedulePass(p).pool)
  {
    var w, i := FirstIdle(p.workers, p.busy.Keys, 0), FirstSchedulable(p, 0);
    if w < p.workers && i < |p.pending| { BeginKeeps(p, i, w); }
  }

  function TakeUp(p: Pool, w: nat): Pool
    requires w in p.request
  {
    p.(request := p.request - {w}, running := p.running[w := p.request[w]])
  }

  lemma TakeKeeps(p: Pool, w: nat)
    requires Inv(p) && w in p.request
    ensures Inv(TakeUp(p, w))
  {
    assert Open(TakeUp(p, w)) == Open(p);
  }

  function Finish(p: Pool, w: nat): Pool
    requires w in p.running
  {
    p.(running := p.running - {w}, finished := p.finished[w := p.running[w]],
       handled := p.handled + multiset{p.running[w]})
  }

  lemma FinishConserves(received: multiset<Node>, s: seq<Node>, open: map<nat, Node>, handled: multiset<Node>, w: nat)
    requires w in open && Conserved(received, s, open, handled)
    requires forall v :: v in open && open[v] == open[w] ==> v == w
    ensures Conserved(received, s, open - {w}, handled + multiset{open[w]})
  {
    ValuesRemove(open, w);
    assert open[w] in open.Values;
    assert multiset(open.Values) == multiset((open - {w}).Values) + multiset{open[w]};
  }

  lemma FinishChannels(workers: nat, busy: map<nat, nat>, open: map<nat, Node>, finished: map<nat, Node>, w: nat)
    requires Channels(workers, busy, open, finished) && w in open
    ensures Channels(workers, busy, open - {w}, finished[w := open[w]])
  {}

  lemma FinishKeeps(p: Pool, w: nat)
    requires Inv(p) && w in p.running
    ensures Inv(Finish(p, w))
  {
    var open := Open(p);
    assert open[w] == p.running[w] && Open(Finish(p, w)) == open - {w};
    forall v | v in open && open[v] == open[w] ensures v == w { assert p.busy[v] == p.busy[w]; }
    FinishConserves(p.received, p.pending, open, p.handled, w);
    FinishChannels(p.workers, p.busy, open, p.finished, w);
  }

  // ------------------------------------------------------------------ runs

  datatype Action =
    | Accept(node: Node)       // the pool receives a close request
    | Receive(worker: nat)     // the pool receives a completion token
    | Schedule                 // the pool makes one scheduling pass
    | Take(worker: nat)        // a worker receives its request
    | Report(worker: nat)      // a worker has destroyed its node and reports completion

  predicate Enabled(p: Pool, a: Action) {
    match a
    case Accept(_) => true
    case Receive(w) => w in p.finished
    case Schedule => true
    case Take(w) => w in p.request && w !in p.running
    case Report(w) => w in p.running
  }

  function Next(p: Pool, a: Action): Outcome
    requires Enabled(p, a)
  {
    match a
    case Accept(n) => Fine(Submit(p, n))
    case Receive(w) => Complete(p, w)
    case Schedule =>
      (match SchedulePass(p)
       case Stuck => Fine(p)
       case Started(_, _, q) => Fine(q)
       case Broken(why) => Failed(why))
    case Take(w) => Fine(TakeUp(p, w))
    case Report(w) => Fine(Finish(p, w))
  }

  lemma StepKeeps(p: Pool, a: Action)
    requires Inv(p) && Enabled(p, a)
    ensures Next(p, a).Fine? && Inv(Next(p, a).pool)
  {
    match a
    case Accept(n) =>
      assert Open(Submit(p, n)) == Open(p);
    case Receive(w) => CompleteKeeps(p, w);
    case Schedule => PassKeeps(p);
    case Take(w) => TakeKeeps(p, w);
    case Report(w) => FinishKeeps(p, w);
  }

  ghost predicate Runs(p: Pool, actions: seq<Action>, q: Pool)
    decreases |actions|
  {
    if actions == [] then p == q
    else
      && Enabled(p, actions[0])
      && Next(p, actions[0]).Fine?
      && Runs(Next(p, actions[0]).pool, actions[1..], q)
  }

  lemma {:induction false} RunKeeps(p: Pool, actions: seq<Action>, q: Pool)
    requires Inv(p) && Runs(p, actions, q)
    ensures Inv(q)
    decreases |actions|
  {
    if actions != [] {
      StepKeeps(p, actions[0]);
      RunKeeps(Next(p, actions[0]).pool, actions[1..], q);
    }
  }

  /** In every state the pool can reach: no enabled step panics, no worker blocks
      on its completed channel, `processing` is exactly the clusters of busy
      workers, no two workers are on one cluster, and every request accepted is
      pending, in a worker's hands or carried out, as often as it was accepted. */
  lemma PoolIsSafe(workers: nat, actions: seq<Action>, p: Pool)
    requires Runs(NewPool(workers), actions, p)
    ensures forall a :: Enabled(p, a) ==> Next(p, a).Fine?
    ensures forall w :: w in p.running ==> w !in p.finished
    ensures p.processing == p.busy.Values
    ensures forall v, w :: v in p.running && w in p.running && p.running[v].cluster == p.running[w].cluster ==> v == w
    ensures p.received == multiset(p.pending) + multiset(Open(p).Values) + p.handled
    ensures IsIdle(p) ==> p.handled == p.received
  {
    assert Inv(NewPool(workers));
    RunKeeps(NewPool(workers), actions, p);
    forall a | Enabled(p, a) ensures Next(p, a).Fine? { StepKeeps(p, a); }
    forall v, w | v in p.running && w in p.running && p.running[v].cluster == p.running[w].cluster ensures v == w {
      assert Open(p)[v] == p.running[v] && Open(p)[w] == p.running[w] && p.busy[v] == p.busy[w];
    }
    if IsIdle(p) {
      assert p.busy.Keys == {};
      assert forall w :: w in Open(p) ==> w in p.busy.Keys;
      assert Open(p) == map[];
    }
  }

  // -------------------------------------------------------------- schedule

  /** Passes until one is stuck. */
  function Sweep(p: Pool): Pool
    requires Inv(p)
    decreases |p.pending|
  {
    PassKeeps(p);
    match SchedulePass(p)
    case Stuck => p
    case Started(_, _, q) => Sweep(q)
    case Broken(_) => assert false; p
  }

  /** Some worker is closing an incarnation of this cluster. */
  ghost predicate BeingClosed(p: Pool, cluster: nat) {
    exists w :: w in p.busy && p.busy[w] == cluster
  }

  /** Every worker is busy, or every pending request is for a cluster being closed. */
  ghost predicate Exhausted(p: Pool) {
    || (forall w :: 0 <= w < p.workers ==> w in p.busy)
    || (forall i :: 0 <= i < |p.pending| ==> BeingClosed(p, p.pending[i].cluster))
  }

  lemma FreeIff(busy: map<nat, nat>, processing: set<nat>, cluster: nat)
    requires OneEach(busy, processing)
    ensures cluster !in processing <==> !(exists w :: w in busy && busy[w] == cluster)
  {
    if w :| w in busy && busy[w] == cluster { assert busy[w] in busy.Values; }
  }

  lemma FirstIsFree(p: Pool, i: nat)
    requires OneEach(p.busy, p.processing) && i == FirstSchedulable(p, 0)
    ensures i <= |p.pending| && (i < |p.pending| ==> !BeingClosed(p, p.pending[i].cluster))
    ensures forall k :: 0 <= k < i ==> BeingClosed(p, p.pending[k].cluster)
  {
    forall k | 0 <= k < |p.pending| ensures CanSchedule(p, p.pending[k]) <==> !BeingClosed(p, p.pending[k].cluster) {
      FreeIff(p.busy, p.processing, p.pending[k].cluster);
    }
  }

  /** Request `i` was started: the worker with the lowest number among the idle has it in
      its channel and is on its cluster, and the requests before it moved to the back. */
  ghost predicate StartedAs(p: Pool, q: Pool, i: nat, w: nat) {
    && i < |p.pending| && w < p.workers && w !in p.busy && (forall v :: 0 <= v < w ==> v in p.busy)
    && !BeingClosed(p, p.pending[i].cluster) && (forall k :: 0 <= k < i ==> BeingClosed(p, p.pending[k].cluster))
    && q == p.(pending := p.pending[i + 1..] + p.pending[..i], request := p.request[w := p.pending[i]],
               busy := p.busy[w := p.pending[i].cluster], processing := p.processing + {p.pending[i].cluster})
  }

  /** A pass does nothing if and only if the pool is exhausted; otherwise it starts the
      first pending request whose cluster nobody is closing. */
  lemma PassActs(p: Pool)
    requires Inv(p)
    ensures SchedulePass(p).Stuck? <==> Exhausted(p)
    ensures !Exhausted(p) ==> SchedulePass(p).Started? && exists i: nat, w: nat :: StartedAs(p, SchedulePass(p).pool, i, w)
  {
    PassKeeps(p);
    PassActsAt(p, FirstSchedulable(p, 0), FirstIdle(p.workers, p.busy.Keys, 0));
  }

  lemma PassActsAt(p: Pool, i: nat, w: nat)
    requires OneEach(p.busy, p.processing) && !SchedulePass(p).Broken?
    requires i == FirstSchedulable(p, 0) && w == FirstIdle(p.workers, p.busy.Keys, 0)
    ensures SchedulePass(p).Stuck? <==> Exhausted(p)
    ensures SchedulePass(p).Started? ==> StartedAs(p, SchedulePass(p).pool, i, w)
  {
    FirstIsFree(p, i);
    if w < p.workers && i < |p.pending| {
      assert w !in p.busy && !BeingClosed(p, p.pending[i].cluster);
      assert !Exhausted(p);
    }
  }

  /** `schedule` only moves pending requests into workers' channels: whatever left
      the pending list is in the channel of a worker that was idle. */
  ghost predicate OnlyStarts(p: Pool, q: Pool) {
    && q.workers == p.workers && q.running == p.running && q.finished == p.finished
    && q.received == p.received && q.handled == p.handled
    && (forall w :: w in p.request ==> w in q.request && q.request[w] == p.request[w])
    && (forall w :: w in q.request && w !in p.request ==> w !in p.busy && q.request[w] in p.pending)
  }

  lemma PassOnlyStarts(p: Pool)
    requires SchedulePass(p).Started? && p.request.Keys <= p.busy.Keys
    ensures OnlyStarts(p, SchedulePass(p).pool)
    ensures forall n :: n in SchedulePass(p).pool.pending ==> n in p.pending
    ensures p.busy.Keys <= SchedulePass(p).pool.busy.Keys
    ensures |SchedulePass(p).pool.pending| < |p.pending|
  {}

  lemma OnlyStartsTransitive(p: Pool, q: Pool, r: Pool)
    requires OnlyStarts(p, q) && OnlyStarts(q, r)
    requires forall n :: n in q.pending ==> n in p.pending
    requires p.busy.Keys <= q.busy.Keys
    ensures OnlyStarts(p, r)
  {}

  lemma BusyWithRequest(p: Pool)
    requires Inv(p)
    ensures p.request.Keys <= p.busy.Keys
  {
    assert forall w :: w in p.request ==> w in Open(p);
  }

  lemma {:induction false} SweepKeeps(p: Pool)
    requires Inv(p)
    ensures Inv(Sweep(p)) && Exhausted(Sweep(p))
    decreases |p.pending|
  {
    PassKeeps(p);
    match SchedulePass(p)
    case Stuck => PassActs(p);
    case Started(_, _, q) => SweepKeeps(q);
  }

  lemma {:induction false} SweepOnlyStarts(p: Pool)
    requires Inv(p)
    ensures OnlyStarts(p, Sweep(p))
    decreases |p.pending|
  {
    PassKeeps(p);
    match SchedulePass(p)
    case Stuck =>
    case Started(_, _, q) =>
      BusyWithRequest(p);
      PassOnlyStarts(p);
      SweepOnlyStarts(q);
      OnlyStartsTransitive(p, q, Sweep(q));
  }

  lemma SweepIsExhaustive(p: Pool)
    requires Inv(p)
    ensures Inv(Sweep(p)) && Exhausted(Sweep(p)) && OnlyStarts(p, Sweep(p))
  {
    SweepKeeps(p);
    SweepOnlyStarts(p);
  }

  /** What `schedule` takes off the pending list it puts in workers' hands. */
  lemma SweepConserves(p: Pool)
    requires Inv(p)
    ensures multiset(p.pending) + multiset(Open(p).Values) == multiset(Sweep(p).pending) + multiset(Open(Sweep(p)).Values)
  {
    SweepIsExhaustive(p);
    Cancel(multiset(p.pending) + multiset(Open(p).Values),
           multiset(Sweep(p).pending) + multiset(Open(Sweep(p)).Values), p.handled);
  }

  lemma Cancel(a: multiset<Node>, b: multiset<Node>, c: multiset<Node>)
    requires a + c == b + c
    ensures a == b
  {
    assert a + c - c == a && b + c - c == b;
  }

  /** After `schedule`, a pool that still has something to close is waiting for a
      worker: the shutdown loop never waits for a token that cannot come. */
  lemma NeverWaitsInVain(p: Pool)
    requires Inv(p) && p.workers > 0 && !IsIdle(Sweep(p))
    ensures Sweep(p).busy.Keys != {}
  {
    SweepIsExhaustive(p);
    var q := Sweep(p);
    SweepOnlyStarts(p);
    if q.pending != [] { ExhaustedIsBusy(q); } else { assert |q.busy.Keys| > 0; }
  }

  lemma ExhaustedIsBusy(p: Pool)
    requires Exhausted(p) && p.workers > 0 && p.pending != []
    ensures p.busy.Keys != {}
  {
    if BeingClosed(p, p.pending[0].cluster) {
      var w :| w in p.busy && p.busy[w] == p.pending[0].cluster;
      assert w in p.busy.Keys;
    } else {
      assert 0 in p.busy.Keys;
    }
  }

  // ------------------------------------------------------ everything is closed

  /** The close requests the pool accepted along a run. */
  function Accepted(actions: seq<Action>): multiset<Node> {
    if actions == [] then multiset{}
    else (if actions[0].Accept? then multiset{actions[0].node} else multiset{}) + Accepted(actions[1..])
  }

  lemma {:induction false} RunReceives(p: Pool, actions: seq<Action>, q: Pool)
    requires Runs(p, actions, q)
    ensures q.received == p.received + Accepted(actions)
    decreases |actions|
  {
    if actions != [] { RunReceives(Next(p, actions[0]).pool, actions[1..], q); }
  }

  /** How many steps the requests in the pool still have before them. */
  function StepsLeft(p: Pool): nat {
    4 * |p.pending| + 3 * |p.request| + 2 * |p.running| + |p.finished|
  }

  /** There is something for the pool or a worker to do. */
  ghost predicate Pressing(p: Pool, a: Action) {
    Enabled(p, a) && !a.Accept? && (a.Schedule? ==> !Exhausted(p))
  }

  lemma SizeAdd(m: map<nat, Node>, w: nat, n: Node)
    requires w !in m
    ensures |m[w := n]| == |m| + 1
  {
    assert m[w := n].Keys == m.Keys + {w};
  }

  lemma SizeRemove(m: map<nat, Node>, w: nat)
    requires w in m
    ensures |m - {w}| == |m| - 1
  {
    assert (m - {w}).Keys == m.Keys - {w};
  }

  lemma ScheduleSpends(p: Pool)
    requires Inv(p) && !Exhausted(p)
    ensures SchedulePass(p).Started? && StepsLeft(SchedulePass(p).pool) == StepsLeft(p) - 1
  {
    PassActs(p);
    BusyWithRequest(p);
    var i: nat, w: nat :| StartedAs(p, SchedulePass(p).pool, i, w);
    SizeAdd(p.request, w, p.pending[i]);
  }

  lemma ReportSpends(p: Pool, w: nat)
    requires Inv(p) && w in p.running
    ensures StepsLeft(Finish(p, w)) == StepsLeft(p) - 1
  {
    assert w in Open(p);
    SizeRemove(p.running, w);
    SizeAdd(p.finished, w, p.running[w]);
  }

  lemma TakeSpends(p: Pool, w: nat)
    requires w in p.request && w !in p.running
    ensures StepsLeft(TakeUp(p, w)) == StepsLeft(p) - 1
  {
    SizeRemove(p.request, w);
    SizeAdd(p.running, w, p.request[w]);
  }

  lemma ReceiveSpends(p: Pool, w: nat)
    requires w in p.finished && Complete(p, w).Fine?
    ensures StepsLeft(Complete(p, w).pool) == StepsLeft(p) - 1
  {
    SizeRemove(p.finished, w);
  }

  /** Every step other than accepting a request brings the requests in the pool one step
      closer to their end. */
  lemma StepSpends(p: Pool, a: Action)
    requires Inv(p) && Pressing(p, a)
    ensures Next(p, a).Fine? && StepsLeft(Next(p, a).pool) == StepsLeft(p) - 1
  {
    StepKeeps(p, a);
    match a
    case Receive(w) => ReceiveSpends(p, w);
    case Schedule => ScheduleSpends(p);
    case Take(w) => TakeSpends(p, w);
    case Report(w) => ReportSpends(p, w);
  }

  /** While something is not closed there is something to do. */
  lemma NothingPressingIsIdle(p: Pool)
    requires Inv(p) && p.workers > 0 && forall a :: !Pressing(p, a)
    ensures IsIdle(p) && StepsLeft(p) == 0
  {
    assert !Pressing(p, Schedule);
    if p.pending != [] { ExhaustedIsBusy(p); }
    forall w ensures w !in p.running { assert !Pressing(p, Report(w)); }
    forall w ensures w !in p.request { assert !Pressing(p, Take(w)); }
    forall w ensures w !in p.finished { assert !Pressing(p, Receive(w)); }
    NobodyBusy(p);
  }

  lemma NobodyBusy(p: Pool)
    requires Inv(p) && forall w :: w !in p.request && w !in p.running && w !in p.finished
    ensures p.request == map[] && p.running == map[] && p.finished == map[] && p.busy.Keys == {} && |p.busy| == 0
  {
    assert p.request.Keys == {} && p.running.Keys == {} && p.finished.Keys == {};
    assert Open(p).Keys == {};
  }

  /** A run in which only pool and workers act, and always find something to do. */
  ghost predicate Works(p: Pool, actions: seq<Action>, q: Pool)
    decreases |actions|
  {
    if actions == [] then p == q
    else Pressing(p, actions[0]) && Next(p, actions[0]).Fine? && Works(Next(p, actions[0]).pool, actions[1..], q)
  }

  /** Pool and workers accept nothing and hire nobody. */
  lemma WorkAcceptsNothing(p: Pool, a: Action)
    requires Enabled(p, a) && !a.Accept? && Next(p, a).Fine?
    ensures Next(p, a).pool.received == p.received && Next(p, a).pool.workers == p.workers
  {}

  lemma {:induction false} WorkIsBounded(p: Pool, actions: seq<Action>, q: Pool)
    requires Inv(p) && Works(p, actions, q)
    ensures Inv(q) && StepsLeft(q) == StepsLeft(p) - |actions| && q.received == p.received && q.workers == p.workers
    decreases |actions|
  {
    if actions != [] {
      StepSpends(p, actions[0]);
      StepKeeps(p, actions[0]);
      WorkAcceptsNothing(p, actions[0]);
      WorkIsBounded(Next(p, actions[0]).pool, actions[1..], q);
    }
  }

  lemma WorkEnds(p: Pool, actions: seq<Action>, q: Pool)
    requires Inv(p) && p.workers > 0 && Works(p, actions, q)
    ensures |actions| <= StepsLeft(p)
    ensures |actions| == StepsLeft(p) <==> forall a :: !Pressing(q, a)
    ensures |actions| == StepsLeft(p) ==> IsIdle(q) && q.handled == p.received
  {
    WorkIsBounded(p, actions, q);
    if a :| Pressing(q, a) { StepSpends(q, a); } else { NothingPressingIsIdle(q); }
    if StepsLeft(q) == 0 { NothingLeft(q); }
  }

  /** However pool and workers take their turns after a run, they stop after exactly as
      many steps as the requests have before them, and then every request ever accepted
      has been carried out, as often as it was accepted. */
  lemma EverythingIsClosed(workers: nat, before: seq<Action>, p: Pool, actions: seq<Action>, q: Pool)
    requires workers > 0 && Runs(NewPool(workers), before, p) && Works(p, actions, q)
    ensures |actions| <= StepsLeft(p)
    ensures |actions| == StepsLeft(p) <==> forall a :: !Pressing(q, a)
    ensures |actions| == StepsLeft(p) ==> IsIdle(q) && q.handled == Accepted(before)
  {
    assert Inv(NewPool(workers));
    RunKeeps(NewPool(workers), before, p);
    RunReceives(NewPool(workers), before, p);
    RunWorkers(NewPool(workers), before, p);
    WorkEnds(p, actions, q);
  }

  lemma NothingLeft(p: Pool)
    requires Inv(p) && StepsLeft(p) == 0
    ensures IsIdle(p) && p.handled == p.received && forall a :: !Pressing(p, a)
  {
    assert p.request == map[] && p.running == map[] && p.finished == map[];
    assert Open(p) == map[] && p.busy.Keys == {};
    assert p.busy == map[];
  }

  lemma {:induction false} RunWorkers(p: Pool, actions: seq<Action>, q: Pool)
    requires Runs(p, actions, q)
    ensures q.workers == p.workers
    decreases |actions|
  {
    if actions != [] { RunWorkers(Next(p, actions[0]).pool, actions[1..], q); }
  }

  // ---------------------------------------------------- the pool as it runs

  class CloseWorkerPool {
    const workers: nat
    var busy: map<nat, nat>
    var processing: set<nat>
    var pending: seq<Node>
    var request: map<nat, Node>
    var running: map<nat, Node>
    var finished: map<nat, Node>
    ghost var received: multiset<Node>
    ghost var handled: multiset<Node>

    constructor (workers: nat)
      ensures Now() == NewPool(workers) && Inv(Now())
    {
      this.workers := workers;
      busy, processing, pending := map[], {}, [];
      request, running, finished := map[], map[], map[];
      received, handled := multiset{}, multiset{};
    }

    ghost function Now(): Pool
      reads this
    {
      Pool(workers, busy, processing, pending, request, running, finished, received, handled)
    }

    method Completed(w: nat) returns (fault: Fault<Panic>)
      requires w in finished
      modifies this`finished, this`processing, this`busy
      ensures if fault.NoFault? then Complete(old(Now()), w) == Fine(Now()) else Complete(old(Now()), w) == Failed(fault.why)
      ensures old(Inv(Now())) ==> fault.NoFault? && Inv(Now())
    {
      if Inv(Now()) { CompleteKeeps(Now(), w); }
      finished := finished - {w};
      if w !in busy { return Fault(WorkerNotBusy); }
      if busy[w] !in processing { return Fault(NotProcessing); }
      processing := processing - {busy[w]};
      busy := busy - {w};
      return NoFault;
    }

    method GetWorker() returns (w: nat)
      ensures w == FirstIdle(workers, busy.Keys, 0)
    {
      w := 0;
      while w < workers && w in busy
        invariant w <= workers
        invariant FirstIdle(workers, busy.Keys, 0) == FirstIdle(workers, busy.Keys, w)
        decreases workers - w
      {
        w := w + 1;
      }
    }

    method ScheduleReq(n: Node, w: nat) returns (fault: Fault<Panic>)
      modifies this`processing, this`busy, this`request
      ensures if fault.NoFault? then Start(old(Now()), n, w) == Fine(Now()) else Start(old(Now()), n, w) == Failed(fault.why)
    {
      processing := processing + {n.cluster};
      busy := busy[w := n.cluster];
      if w in request { return Fault(MultipleJobs); }
      request := request[w := n];
      return NoFault;
    }

    /** Take the first request whose cluster is free off the list, moving those before
        it to the back; a full rotation without one leaves the list as it was. */
    method Rotate() returns (found: Option<Node>)
      modifies this`pending
      ensures var i := FirstSchedulable(old(Now()), 0);
              if i < |old(pending)| then found == Some(old(pending)[i]) && Now() == PassedOver(old(Now()), i)
              else found == None && Now() == old(Now())
    {
      ghost var all := pending;
      var i := 0;
      while i < |pending|
        invariant 0 <= i <= |pending| == |all|
        invariant pending == all[i..] + all[..i]
        invariant FirstSchedulable(old(Now()), 0) == FirstSchedulable(old(Now()), i)
      {
        var n := pending[0];
        pending := pending[1..];
        assert pending == all[i + 1..] + all[..i];
        if n.cluster !in processing { return Some(n); }
        pending := pending + [n];
        i := i + 1;
      }
      return None;
    }

    /** One pass. */
    method ScheduleWorker() returns (more: bool, fault: Fault<Panic>)
      modifies this`pending, this`processing, this`busy, this`request
      ensures match SchedulePass(old(Now())) {
                case Started(_, _, q) => more && fault.NoFault? && Now() == q
                case Stuck => !more && fault.NoFault? && Now() == old(Now())
                case Broken(why) => fault == Fault(why)
              }
    {
      var w := GetWorker();
      if w == workers { return false, NoFault; }
      var found := Rotate();
      if found.None? { return false, NoFault; }
      fault := ScheduleReq(found.value, w);
      return true, fault;
    }

    method ScheduleAll()
      requires Inv(Now())
      modifies this`pending, this`processing, this`busy, this`request
      ensures Now() == Sweep(old(Now())) && Inv(Now()) && Exhausted(Now())
    {
      SweepIsExhaustive(Now());
      var more := true;
      while more
        invariant Inv(Now()) && Sweep(Now()) == Sweep(old(Now()))
        invariant !more ==> Now() == Sweep(Now())
        decreases |pending|, more
      {
        PassKeeps(Now());
        BusyWithRequest(Now());
        if SchedulePass(Now()).Started? { PassOnlyStarts(Now()); }
        var fault;
        more, fault := ScheduleWorker();
      }
    }
  }
}
