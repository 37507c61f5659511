/** Runs of the read tracker: every interleaving of clients, step worker, apply worker,
    clock and `close`. Each critical section is one step. */
module ReadIndexRuns {
  import opened Basics
  import opened ReadIndex

  datatype Action =
    | Ask(id: nat, readAt: nat, timeout: nat)
    | Empty | File(ctx: Ctx)                  // the step worker's two steps
    | Confirm(ctx: Ctx, index: nat)
    | Drop(ctx: Ctx)
    | Apply(applied: nat, walks: Walks)
    | Tick(to: nat)
    | Stop | StopQueue | Drain(walk: seq<Ctx>)   // the three steps of `close`

  /** The two loops of collection walk these batches. */
  ghost predicate Sweeps(w: Walks, keys: set<Ctx>) {
    Lists(w.expiring, keys) && Lists(w.forgetting, keys)
  }

  /** The loops of `applied` walk the batches there are when they start. */
  ghost predicate WalksOk(s: Tracker, applied: nat, w: Walks) {
    s.phase == Open && s.batches != map[] ==>
      && Lists(w.applying, s.batches.Keys)
      && var o := ApplyWalk(s, w.applying, applied);
         o.Fine? && Wrap64(o.tracker.tick - o.tracker.lastGc) >= o.tracker.gcTick ==> Sweeps(w, o.tracker.batches.Keys)
  }

  /** Identifiers and contexts are fresh, the tick never decreases, and raft confirms
      only contexts it was given. The step worker files what it took before it takes
      more. Steps that take the tracker's lock wait while `close` holds it; the queue has
      its own. */
  ghost predicate Enabled(s: Tracker, a: Action) {
    match a
    case Ask(id, readAt, timeout) => id !in s.asks && readAt <= s.tick && timeout > 0
    case Empty => s.hands == []
    case File(c) => s.hands != [] && Unlocked(s) && c !in s.used
    case Confirm(c, _) => Unlocked(s) && c in s.used
    case Drop(_) => Unlocked(s)
    case Apply(applied, w) => Unlocked(s) && WalksOk(s, applied, w)
    case Tick(to) => s.tick <= to
    case Stop => s.phase == Open
    case StopQueue => s.phase == Stopping
    case Drain(walk) => s.phase == Draining && Lists(walk, s.batches.Keys)
  }

  function Next(s: Tracker, a: Action): Outcome {
    match a
    case Ask(id, readAt, timeout) => Fine(Enqueue(s, id, Wrap64(readAt + timeout)))
    case Empty => Fine(Get(s))
    case File(c) => AddBatch(s, c)
    case Confirm(c, index) => Fine(AddReady(s, c, index))
    case Drop(c) => DropBatch(s, c)
    case Apply(applied, w) => Applied(s, applied, w)
    case Tick(to) => Fine(s.(tick := to))
    case Stop => Fine(s.(phase := Stopping))
    case StopQueue => Fine(s.(phase := Draining, queueStopped := true))
    case Drain(walk) => Terminate(s, walk)
  }

  lemma PhaseKeeps(s: Tracker, t: Tracker)
    requires Inv(s) && s.phase != Closed && t.phase != Closed && t == s.(phase := t.phase, queueStopped := t.queueStopped)
    requires t.queueStopped <==> t.phase == Draining
    ensures Inv(t)
  {
    forall k | k in t.asks ensures ReadOk(t, k) { assert ReadOk(s, k); }
    forall d | d in t.batches ensures SlotsOk(t, d, t.batches[d].slots) { assert SlotsOk(s, d, s.batches[d].slots); }
    forall k | k in t.asks && t.told[k] == [] ensures Somewhere(t, k) { assert Somewhere(s, k); }
  }

  lemma CloseKeeps(s: Tracker, a: Action)
    requires Inv(s) && Enabled(s, a) && (a.Stop? || a.StopQueue? || a.Drain?)
    ensures Good(Next(s, a))
  {
    match a
    case Stop => PhaseKeeps(s, s.(phase := Stopping));
    case StopQueue => PhaseKeeps(s, s.(phase := Draining, queueStopped := true));
    case Drain(walk) => TerminateKeeps(s, walk);
  }

  /** The steps without a loop. */
  lemma PlainKeeps(s: Tracker, a: Action)
    requires Inv(s) && Enabled(s, a) && (a.Empty? || a.Confirm? || a.Tick?)
    ensures Good(Next(s, a))
  {
    match a
    case Empty => GetKeeps(s);
    case Confirm(c, index) => ConfirmKeeps(s, c, index);
    case Tick(to) => HistoryAlike(s, s.(tick := to));
  }

  lemma AskKeeps(s: Tracker, id: nat, readAt: nat, timeout: nat)
    requires Inv(s) && id !in s.asks
    ensures Good(Next(s, Ask(id, readAt, timeout)))
  {
    EnqueueKeeps(s, id, Wrap64(readAt + timeout));
    assert Next(s, Ask(id, readAt, timeout)) == Fine(Enqueue(s, id, Wrap64(readAt + timeout)));
  }

  lemma FilingKeeps(s: Tracker, c: Ctx)
    requires Inv(s) && Enabled(s, File(c))
    ensures Good(AddBatch(s, c))
  {
    if s.phase == Open { FileKeeps(s, c); } else { LetGoKeeps(s, c); }
  }

  lemma DropKeeps(s: Tracker, c: Ctx)
    requires Inv(s) && Unlocked(s)
    ensures Good(DropBatch(s, c))
  {
    if s.phase == Open && c in s.batches { EndBatchKeeps(s, c, AsDropped); }
  }

  /** Every critical section keeps the books, and none panics. */
  lemma StepKeeps(s: Tracker, a: Action)
    requires Inv(s) && Enabled(s, a)
    ensures Good(Next(s, a))
  {
    match a
    case Ask(id, readAt, timeout) => AskKeeps(s, id, readAt, timeout);
    case File(c) => FilingKeeps(s, c);
    case Drop(c) => DropKeeps(s, c);
    case Apply(applied, w) => AppliedKeeps(s, applied, w);
    case Stop => CloseKeeps(s, a);
    case StopQueue => CloseKeeps(s, a);
    case Drain(_) => CloseKeeps(s, a);
    case _ => PlainKeeps(s, a);
  }

  ghost predicate Runs(s: Tracker, actions: seq<Action>, t: Tracker)
    decreases |actions|
  {
    if actions == [] then s == t
    else
      && Enabled(s, actions[0])
      && Next(s, actions[0]).Fine?
      && Runs(Next(s, actions[0]).tracker, actions[1..], t)
  }

  lemma {:induction false} RunKeeps(s: Tracker, actions: seq<Action>, t: Tracker)
    requires Inv(s) && Runs(s, actions, t)
    ensures Inv(t)
    decreases |actions|
  {
    if actions != [] {
      StepKeeps(s, actions[0]);
      RunKeeps(Next(s, actions[0]).tracker, actions[1..], t);
    }
  }

  ghost predicate Reachable(s: Tracker) {
    exists gcTick, size, actions :: Runs(New(gcTick, size), actions, s)
  }

  lemma ReachableInv(s: Tracker)
    requires Reachable(s)
    ensures Inv(s)
  {
    var gcTick, size, actions :| Runs(New(gcTick, size), actions, s);
    RunKeeps(New(gcTick, size), actions, s);
  }

  /** No interleaving overflows a request's channel or files a context twice. */
  lemma NeverPanics(s: Tracker, a: Action)
    requires Reachable(s) && Enabled(s, a)
    ensures Next(s, a).Fine?
  {
    ReachableInv(s);
    StepKeeps(s, a);
  }

  // ------------------------------------------------------------ exactly once

  /** A position in the queue, in the step worker's hands or in a batch. */
  datatype Spot = InQueue(i: nat) | InHands(i: nat) | InBatch(ctx: Ctx, i: nat)

  predicate Holds(s: Tracker, p: Spot, k: nat) {
    match p
    case InQueue(i) => i < |s.queue| && s.queue[i] == k
    case InHands(i) => i < |s.hands| && s.hands[i] == k
    case InBatch(c, i) => HasSlot(s, c, i) && s.batches[c].slots[i] == Some(k)
  }

  lemma HeldIsWaiting(s: Tracker, p: Spot, k: nat)
    requires Waiting(s) && Holds(s, p, k)
    ensures match p
            case InBatch(c, _) => WaitsIn(s, c, k)
            case InQueue(_) => Unfiled(s, k) && k !in s.hands
            case InHands(_) => Unfiled(s, k)
  {
    match p
    case InBatch(c, i) => SlotWaits(s, c, k);
    case InQueue(i) => QueuedWaits(s, k);
    case InHands(i) => assert Unfiled(s, s.hands[i]);
  }

  lemma HeldOnce(s: Tracker, p: Spot, q: Spot, k: nat)
    requires Waiting(s) && Holds(s, p, k) && Holds(s, q, k)
    ensures p == q
  {
    HeldIsWaiting(s, p, k);
    HeldIsWaiting(s, q, k);
    if p.InBatch? && q.InBatch? { assert SlotsOk(s, p.ctx, s.batches[p.ctx].slots); }
  }

  lemma SomewhereIsHeld(s: Tracker, k: nat)
    requires Somewhere(s, k)
    ensures exists p :: Holds(s, p, k)
  {
    if k in s.queue {
      var i :| 0 <= i < |s.queue| && s.queue[i] == k;
      assert Holds(s, InQueue(i), k);
    } else if k in s.hands {
      var i :| 0 <= i < |s.hands| && s.hands[i] == k;
      assert Holds(s, InHands(i), k);
    } else {
      var slots := s.batches[s.filed[k]].slots;
      var i :| 0 <= i < |slots| && slots[i] == Some(k);
      assert Holds(s, InBatch(s.filed[k], i), k);
    }
  }

  /** Until `close` is done, a read stands in exactly one position of the queue, the
      hands of the step worker and the slots of all batches, or it stands in none and
      has been told exactly once; in a batch it stands under its own context. No read is
      ever told twice, and `close` leaves the queue empty. */
  lemma ExactlyOnce(s: Tracker, k: nat)
    requires Reachable(s) && k in s.asks
    ensures k in s.told && |s.told[k]| <= 1
    ensures s.phase != Closed ==>
              && (s.told[k] == [] <==> exists p :: Holds(s, p, k))
              && (forall p, q :: Holds(s, p, k) && Holds(s, q, k) ==> p == q)
              && (forall c, i :: Holds(s, InBatch(c, i), k) ==> k in s.filed && s.filed[k] == c)
    ensures s.phase == Closed ==> s.queue == []
  {
    ReachableInv(s);
    assert ReadOk(s, k);
    if s.phase != Closed {
      if s.told[k] == [] { SomewhereIsHeld(s, k); }
      forall p | Holds(s, p, k) ensures s.told[k] == [] && (p.InBatch? ==> k in s.filed && s.filed[k] == p.ctx) { HeldIsWaiting(s, p, k); }
      forall p, q | Holds(s, p, k) && Holds(s, q, k) ensures p == q { HeldOnce(s, p, q, k); }
    }
  }

  /** A read completes only before its deadline, with an applied, non-zero index that
      raft confirmed for the read's own context, and confirmed after the read was
      accepted; it times out only at or after its deadline. */
  lemma ResultsAreHonest(s: Tracker, k: nat)
    requires Reachable(s) && k in s.asks && k in s.told && s.told[k] != []
    ensures match s.told[k][0]
            case Completed(now, c, index, applied) =>
              && 0 < index <= applied && now < s.asks[k].deadline && k in s.filed && s.filed[k] == c
              && (c, index) in s.confirmed && (c, index) !in s.asks[k].before
            case Timeout(now) => s.asks[k].deadline <= now
            case _ => true
  {
    ReachableInv(s);
    assert ReadOk(s, k);
  }

  // -------------------------------------------- what later steps cannot undo

  ghost predicate Grew(told: Told, more: Told) {
    forall k :: k in told ==> k in more && told[k] <= more[k]
  }

  ghost predicate Later(s: Tracker, t: Tracker) {
    && Grew(s.told, t.told)
    && (forall k :: k in s.asks ==> k in t.asks && t.asks[k] == s.asks[k])
    && (s.queueStopped ==> t.queueStopped && t.asks == s.asks)
  }

  lemma {:induction false} TellGrows(asks: map<nat, Read>, told: Told, slots: seq<Option<nat>>, v: Verdict)
    ensures var r := TellSlots(asks, told, slots, v); r.Some? ==> Grew(told, r.value)
  {
    if slots != [] { TellGrows(asks, told, slots[..|slots| - 1], v); }
  }

  /** The loops change nothing but batches and what was told. */
  ghost predicate Within(s: Tracker, o: Outcome) {
    o.Fine? ==> o.tracker == s.(told := o.tracker.told, batches := o.tracker.batches, lastGc := o.tracker.lastGc) && Grew(s.told, o.tracker.told)
  }

  lemma EndWithin(s: Tracker, c: Ctx, v: Verdict)
    requires c in s.batches
    ensures Within(s, EndBatch(s, c, v))
  {
    TellGrows(s.asks, s.told, s.batches[c].slots, v);
  }

  lemma {:induction false} ApplyWithin(s: Tracker, walk: seq<Ctx>, applied: nat)
    ensures Within(s, ApplyWalk(s, walk, applied))
  {
    if walk != [] {
      var c := walk[|walk| - 1];
      ApplyWithin(s, walk[..|walk| - 1], applied);
      var o := ApplyWalk(s, walk[..|walk| - 1], applied);
      if o.Fine? && Due(o.tracker.batches, c, applied) {
        EndWithin(o.tracker, c, AsApplied(o.tracker.tick, c, o.tracker.batches[c].index, applied));
      }
    }
  }

  lemma {:induction false} ExpireSlotsWithin(s: Tracker, c: Ctx, n: nat)
    ensures Within(s, ExpireSlots(s, c, n))
  {
    if n > 0 { ExpireSlotsWithin(s, c, n - 1); }
  }

  lemma {:induction false} ExpireWithin(s: Tracker, walk: seq<Ctx>)
    ensures Within(s, ExpireWalk(s, walk))
  {
    if walk != [] {
      var c := walk[|walk| - 1];
      ExpireWithin(s, walk[..|walk| - 1]);
      var o := ExpireWalk(s, walk[..|walk| - 1]);
      if o.Fine? && c in o.tracker.batches { ExpireSlotsWithin(o.tracker, c, |o.tracker.batches[c].slots|); }
    }
  }

  lemma {:induction false} ForgetIs(s: Tracker, walk: seq<Ctx>)
    ensures ForgetWalk(s, walk) ==
            s.(batches := map c | c in s.batches && !(c in walk && c.high < s.tick && Vacant(s.batches[c])) :: s.batches[c])
  {
    if walk != [] { ForgetIs(s, walk[..|walk| - 1]); }
  }

  lemma CollectWithin(s: Tracker, w: Walks)
    ensures Within(s, Collect(s, w))
  {
    var t := s.(lastGc := s.tick);
    ExpireWithin(t, w.expiring);
    var o := ExpireWalk(t, w.expiring);
    if o.Fine? { ForgetIs(o.tracker, w.forgetting); }
  }

  lemma AppliedWithin(s: Tracker, applied: nat, w: Walks)
    ensures Within(s, Applied(s, applied, w))
  {
    ApplyWithin(s, w.applying, applied);
    var o := ApplyWalk(s, w.applying, applied);
    if o.Fine? { CollectWithin(o.tracker, w); }
  }

  lemma {:induction false} EndWalkGrows(s: Tracker, told: Told, walk: seq<Ctx>)
    ensures EndWalk(s, told, walk).Some? ==> Grew(told, EndWalk(s, told, walk).value)
  {
    if walk != [] {
      var c := walk[|walk| - 1];
      EndWalkGrows(s, told, walk[..|walk| - 1]);
      var r := EndWalk(s, told, walk[..|walk| - 1]);
      if r.Some? && c in s.batches { TellGrows(s.asks, r.value, s.batches[c].slots, AsTerminated); }
    }
  }

  lemma TerminateIsLater(s: Tracker, walk: seq<Ctx>)
    requires Terminate(s, walk).Fine?
    ensures Later(s, Terminate(s, walk).tracker)
  {
    TellGrows(s.asks, s.told, Slots(s.queue), AsTerminated);
    var t := TellSlots(s.asks, s.told, Slots(s.queue), AsTerminated).value;
    EndWalkGrows(s, t, walk);
  }

  lemma StepIsLater(s: Tracker, a: Action)
    requires Inv(s) && Enabled(s, a) && Next(s, a).Fine?
    ensures Later(s, Next(s, a).tracker)
  {
    match a
    case Drop(c) => if c in s.batches { EndWithin(s, c, AsDropped); }
    case Apply(applied, w) => AppliedWithin(s, applied, w);
    case Drain(walk) => TerminateIsLater(s, walk);
    case _ =>
  }

  lemma {:induction false} RunIsLater(s: Tracker, actions: seq<Action>, t: Tracker)
    requires Inv(s) && Runs(s, actions, t)
    ensures Later(s, t)
    decreases |actions|
  {
    if actions != [] {
      StepKeeps(s, actions[0]);
      StepIsLater(s, actions[0]);
      RunIsLater(Next(s, actions[0]).tracker, actions[1..], t);
    }
  }

  /** A read that has been told is never told again, nor told otherwise. */
  lemma ToldOnceForAll(s: Tracker, actions: seq<Action>, t: Tracker, k: nat)
    requires Reachable(s) && Runs(s, actions, t) && k in s.told && s.told[k] != []
    ensures k in t.told && t.told[k] == s.told[k] && |t.told[k]| == 1
  {
    ReachableInv(s);
    RunKeeps(s, actions, t);
    RunIsLater(s, actions, t);
    assert ReadOk(s, k) && ReadOk(t, k);
  }

  lemma {:induction false} UntoldAfterClose(s: Tracker, actions: seq<Action>, t: Tracker)
    requires Inv(s) && s.phase == Closed && Runs(s, actions, t)
    ensures t.told == s.told
    decreases |actions|
  {
    if actions != [] {
      StepKeeps(s, actions[0]);
      UntoldAfterClose(Next(s, actions[0]).tracker, actions[1..], t);
    }
  }

  /** `close` leaves untold exactly the reads the step worker had in its hands:
      after `close` a read is told if it was not among them, and is never told if it
      was. */
  lemma OnlyTakenReadsAreLost(s: Tracker, walk: seq<Ctx>, actions: seq<Action>, t: Tracker, k: nat)
    requires Reachable(s) && Enabled(s, Drain(walk)) && k in s.asks
    requires Terminate(s, walk).Fine? && Runs(Terminate(s, walk).tracker, actions, t)
    ensures k in t.told && (t.told[k] == [] <==> k in s.hands)
  {
    ReachableInv(s);
    TerminateKeeps(s, walk);
    UntoldAfterClose(Terminate(s, walk).tracker, actions, t);
  }

  const ONE_CTX := Ctx(1, 30)

  /** One read, in the step worker's hands. */
  const TAKEN := New(1, 1).(asks := map[0 := Read(1, {})], told := map[0 := []], hands := [0])

  const CLOSED := TAKEN.(phase := Closed, queueStopped := true)
  const LOST := CLOSED.(hands := [], used := {ONE_CTX})

  lemma RunsOn(s: Tracker, a: Action, next: Tracker, rest: seq<Action>, t: Tracker)
    requires Enabled(s, a) && Next(s, a) == Fine(next) && Runs(next, rest, t)
    ensures Runs(s, [a] + rest, t)
  {
    assert ([a] + rest)[1..] == rest;
  }

  lemma TakenRun(rest: seq<Action>, t: Tracker)
    requires Runs(TAKEN, rest, t)
    ensures Runs(New(1, 1), [Ask(0, 0, 1)] + ([Empty] + rest), t)
  {
    var s := Enqueue(New(1, 1), 0, 1);
    assert s.queue == [0];
    RunsOn(s, Empty, TAKEN, rest, t);
    RunsOn(New(1, 1), Ask(0, 0, 1), s, [Empty] + rest, t);
  }

  lemma ClosedRun(rest: seq<Action>, t: Tracker)
    requires Runs(CLOSED, rest, t)
    ensures Runs(TAKEN, [Stop] + ([StopQueue] + ([Drain([])] + rest)), t)
  {
    var s, d := TAKEN.(phase := Stopping), TAKEN.(phase := Draining, queueStopped := true);
    assert Slots([]) == [];
    assert Terminate(d, []) == Fine(CLOSED);
    RunsOn(d, Drain([]), CLOSED, rest, t);
    RunsOn(s, StopQueue, d, [Drain([])] + rest, t);
    RunsOn(TAKEN, Stop, s, [StopQueue] + ([Drain([])] + rest), t);
  }

  /** A run that loses a read: it is taken off the queue, `close` comes, and the batch is
      filed too late. */
  lemma LostRead()
    ensures Runs(New(1, 1), [Ask(0, 0, 1), Empty, Stop, StopQueue, Drain([]), File(ONE_CTX)], LOST)
    ensures LOST.told[0] == [] && forall p :: !Holds(LOST, p, 0)
  {
    var last := [File(ONE_CTX)];
    var close := [Stop] + ([StopQueue] + ([Drain([])] + last));
    assert last == [File(ONE_CTX)] + [];
    RunsOn(CLOSED, File(ONE_CTX), LOST, [], LOST);
    ClosedRun(last, LOST);
    TakenRun(close, LOST);
    assert [Ask(0, 0, 1)] + ([Empty] + close) == [Ask(0, 0, 1), Empty, Stop, StopQueue, Drain([]), File(ONE_CTX)];
  }

  // ---------------------------------------------------------- when reads end

  /** A batch on the walk that is due has its reads told. */
  lemma {:induction false} ApplyTells(s: Tracker, walk: seq<Ctx>, applied: nat, c: Ctx, k: nat)
    requires Inv(s) && s.phase == Open && (forall i, j :: 0 <= i < j < |walk| ==> walk[i] != walk[j])
    requires Due(s.batches, c, applied) && Some(k) in s.batches[c].slots
    ensures Steady(ApplyWalk(s, walk, applied))
    ensures var t := ApplyWalk(s, walk, applied).tracker;
            if c in walk
            then k in t.told && t.told[k] == [ResultOf(s.asks, AsApplied(s.tick, c, s.batches[c].index, applied), k)]
            else c in t.batches && t.batches[c] == s.batches[c]
  {
    ApplyWalkKeeps(s, walk, applied);
    if walk != [] {
      var init, last := walk[..|walk| - 1], walk[|walk| - 1];
      assert walk == init + [last];
      ApplyTells(s, init, applied, c, k);
      ApplyWithin(s, init, applied);
      ApplyTellsOn(ApplyWalk(s, init, applied).tracker, last, applied, c, k);
    }
  }

  lemma ApplyTellsOn(t: Tracker, d: Ctx, applied: nat, c: Ctx, k: nat)
    requires Inv(t) && t.phase == Open && k in t.told
    ensures var o := if Due(t.batches, d, applied) then EndBatch(t, d, AsApplied(t.tick, d, t.batches[d].index, applied)) else Fine(t);
            && Good(o) && k in o.tracker.told
            && (d != c && c in t.batches ==> c in o.tracker.batches && o.tracker.batches[c] == t.batches[c])
            && (t.told[k] != [] ==> o.tracker.told[k] == t.told[k])
            && (d == c && Due(t.batches, c, applied) && Some(k) in t.batches[c].slots ==>
                  o.tracker.told[k] == [ResultOf(t.asks, AsApplied(t.tick, c, t.batches[c].index, applied), k)])
  {
    if Due(t.batches, d, applied) {
      var v := AsApplied(t.tick, d, t.batches[d].index, applied);
      EndBatchKeeps(t, d, v);
      SlotsUntold(t, d, v);
      if Some(k) in t.batches[d].slots { SlotWaits(t, d, k); }
    }
  }

  /** A read completes as soon as an index confirmed for its context is applied, if its
      deadline is still ahead, and times out then if it is not. */
  lemma ConfirmedReadCompletes(s: Tracker, c: Ctx, index: nat, applied: nat, w: Walks, k: nat)
    requires Inv(s) && s.phase == Open && c in s.batches && Some(k) in s.batches[c].slots && 0 < index <= applied
    requires Lists(w.applying, s.batches.Keys)
    ensures var o := Applied(AddReady(s, c, index), applied, w);
            && Good(o) && k in s.asks && k in o.tracker.told
            && o.tracker.told[k] == [if s.asks[k].deadline > s.tick then Completed(s.tick, c, index, applied) else Timeout(s.tick)]
  {
    SlotWaits(s, c, k);
    ConfirmKeeps(s, c, index);
    DueReadIsTold(AddReady(s, c, index), c, applied, w, k);
  }

  lemma DueReadIsTold(r: Tracker, c: Ctx, applied: nat, w: Walks, k: nat)
    requires Inv(r) && r.phase == Open && Due(r.batches, c, applied) && Some(k) in r.batches[c].slots
    requires Lists(w.applying, r.batches.Keys)
    ensures var o := Applied(r, applied, w);
            Good(o) && k in o.tracker.told && o.tracker.told[k] == [ResultOf(r.asks, AsApplied(r.tick, c, r.batches[c].index, applied), k)]
  {
    ApplyTells(r, w.applying, applied, c, k);
    var t := ApplyWalk(r, w.applying, applied).tracker;
    CollectWithin(t, w);
    CollectKeeps(t, w);
    ToldStays(t, Applied(r, applied, w), k);
  }

  lemma ToldStays(t: Tracker, o: Outcome, k: nat)
    requires Inv(t) && k in t.told && t.told[k] != [] && (o == Fine(t) || (Within(t, o) && Good(o)))
    ensures Good(o) && k in o.tracker.told && o.tracker.told[k] == t.told[k]
  {
    assert ReadOk(t, k) && ReadOk(o.tracker, k);
  }

  // -------------------------------------------------------------- collection

  function Emptied(s: Tracker, slot: Option<nat>, visited: bool): Option<nat> {
    if visited && Overdue(s, slot) then None else slot
  }

  ghost predicate SlotsExpired(s: Tracker, t: Tracker, c: Ctx, n: nat) {
    && c in s.batches && c in t.batches && |t.batches[c].slots| == |s.batches[c].slots| && t.batches[c].index == s.batches[c].index
    && forall i :: 0 <= i < |s.batches[c].slots| ==> t.batches[c].slots[i] == Emptied(s, s.batches[c].slots[i], i < n)
  }

  lemma {:induction false} ExpireSlotsIs(s: Tracker, c: Ctx, n: nat)
    requires ExpireSlots(s, c, n).Fine? && c in s.batches && n <= |s.batches[c].slots|
    ensures var t := ExpireSlots(s, c, n).tracker;
            && SlotsExpired(s, t, c, n) && t.batches.Keys == s.batches.Keys
            && forall d :: d in s.batches && d != c ==> t.batches[d] == s.batches[d]
  {
    if n > 0 {
      ExpireSlotsIs(s, c, n - 1);
      ExpireSlotsWithin(s, c, n - 1);
    }
  }

  ghost predicate Visited(s: Tracker, t: Tracker, c: Ctx, visited: bool) {
    if visited then c in s.batches && SlotsExpired(s, t, c, |s.batches[c].slots|)
    else c in s.batches && c in t.batches && t.batches[c] == s.batches[c]
  }

  lemma {:induction false} ExpireWalkIs(s: Tracker, walk: seq<Ctx>)
    requires ExpireWalk(s, walk).Fine?
    ensures var t := ExpireWalk(s, walk).tracker;
            t.batches.Keys == s.batches.Keys && forall c :: c in s.batches ==> Visited(s, t, c, c in walk)
  {
    if walk != [] {
      var init, d := walk[..|walk| - 1], walk[|walk| - 1];
      assert walk == init + [d];
      ExpireWalkIs(s, init);
      ExpireWithin(s, init);
      var m := ExpireWalk(s, init).tracker;
      if d in m.batches { VisitOn(s, m, init, d); }
    }
  }

  lemma VisitOn(s: Tracker, m: Tracker, init: seq<Ctx>, d: Ctx)
    requires m.asks == s.asks && m.tick == s.tick && m.batches.Keys == s.batches.Keys && d in m.batches
    requires forall c :: c in s.batches ==> Visited(s, m, c, c in init)
    requires ExpireSlots(m, d, |m.batches[d].slots|).Fine?
    ensures var t := ExpireSlots(m, d, |m.batches[d].slots|).tracker;
            t.batches.Keys == s.batches.Keys && forall c :: c in s.batches ==> Visited(s, t, c, c in init || c == d)
  {
    ExpireSlotsIs(m, d, |m.batches[d].slots|);
    assert Visited(s, m, d, d in init);
  }

  /** After the expiring walk, as the forgetting walk finds it. */
  ghost predicate Midway(s: Tracker, w: Walks, m: Tracker) {
    && ExpireWalk(s.(lastGc := s.tick), w.expiring) == Fine(m) && Steady(Fine(m))
    && Collect(s, w) == Fine(ForgetWalk(m, w.forgetting))
    && m.asks == s.asks && m.tick == s.tick && m.filed == s.filed && m.batches.Keys == s.batches.Keys
    && forall c :: c in s.batches ==> SlotsExpired(s, m, c, |s.batches[c].slots|)
  }

  lemma CollectMidway(s: Tracker, w: Walks) returns (m: Tracker)
    requires Inv(s) && s.phase == Open && Sweeps(w, s.batches.Keys)
    ensures Midway(s, w, m)
    ensures ForgetWalk(m, w.forgetting) ==
            m.(batches := map c | c in m.batches && !(c.high < m.tick && Vacant(m.batches[c])) :: m.batches[c])
  {
    var t := s.(lastGc := s.tick);
    HistoryAlike(s, t);
    ExpireWalkKeeps(t, w.expiring);
    ExpireWalkIs(t, w.expiring);
    ExpireWithin(t, w.expiring);
    m := ExpireWalk(t, w.expiring).tracker;
    forall c | c in s.batches ensures SlotsExpired(s, m, c, |s.batches[c].slots|) { assert Visited(t, m, c, true); }
    ForgetIs(m, w.forgetting);
  }

  /** Collection leaves nobody overdue in a batch. */
  lemma CollectLeavesNoneOverdue(s: Tracker, w: Walks, c: Ctx, i: nat)
    requires Inv(s) && s.phase == Open && Sweeps(w, s.batches.Keys)
    ensures Collect(s, w).Fine?
    ensures var t := Collect(s, w).tracker;
            HasSlot(t, c, i) && t.batches[c].slots[i].Some? ==>
              t.batches[c].slots[i].value in t.asks && t.asks[t.batches[c].slots[i].value].deadline >= s.tick
  {
    var m := CollectMidway(s, w);
    CollectKeeps(s, w);
    var t := Collect(s, w).tracker;
    if HasSlot(t, c, i) && t.batches[c].slots[i].Some? {
      SlotWaits(m, c, m.batches[c].slots[i].value);
      assert SlotsExpired(s, m, c, |s.batches[c].slots|);
    }
  }

  predicate InTime(s: Tracker, slot: Option<nat>) {
    slot.Some? && slot.value in s.asks && s.asks[slot.value].deadline >= s.tick
  }

  /** Collection keeps a batch exactly while it is recent or someone in it is not
      overdue. */
  lemma CollectKeepsExactly(s: Tracker, w: Walks, c: Ctx)
    requires Inv(s) && s.phase == Open && Sweeps(w, s.batches.Keys) && c in s.batches
    ensures Collect(s, w).Fine?
    ensures c in Collect(s, w).tracker.batches <==>
            c.high >= s.tick || exists i :: 0 <= i < |s.batches[c].slots| && InTime(s, s.batches[c].slots[i])
  {
    var m := CollectMidway(s, w);
    assert SlotsExpired(s, m, c, |s.batches[c].slots|);
    if i :| 0 <= i < |s.batches[c].slots| && InTime(s, s.batches[c].slots[i]) {
      assert m.batches[c].slots[i] == s.batches[c].slots[i];
    }
    if i :| 0 <= i < |m.batches[c].slots| && m.batches[c].slots[i] != None {
      SlotWaits(m, c, m.batches[c].slots[i].value);
      assert InTime(s, s.batches[c].slots[i]);
    }
  }

  ghost predicate OnlyTimeouts(s: Tracker, o: Outcome) {
    o.Fine? ==> o.tracker.tick == s.tick &&
                forall k :: k in s.told ==> k in o.tracker.told && (o.tracker.told[k] == s.told[k] || o.tracker.told[k] == [Timeout(s.tick)])
  }

  lemma {:induction false} SlotsTimeOut(s: Tracker, c: Ctx, n: nat)
    ensures OnlyTimeouts(s, ExpireSlots(s, c, n))
  {
    if n > 0 { SlotsTimeOut(s, c, n - 1); }
  }

  lemma {:induction false} WalkTimesOut(s: Tracker, walk: seq<Ctx>)
    ensures OnlyTimeouts(s, ExpireWalk(s, walk))
  {
    if walk != [] {
      var c := walk[|walk| - 1];
      WalkTimesOut(s, walk[..|walk| - 1]);
      var o := ExpireWalk(s, walk[..|walk| - 1]);
      if o.Fine? && c in o.tracker.batches { SlotsTimeOut(o.tracker, c, |o.tracker.batches[c].slots|); }
    }
  }

  /** Collection only forgets batches in which everyone has been told: those still
      waiting in it are told that they are overdue, and are. */
  lemma CollectForgetsOnlyTold(s: Tracker, w: Walks, c: Ctx, k: nat)
    requires Inv(s) && s.phase == Open && Sweeps(w, s.batches.Keys)
    requires c in s.batches && Some(k) in s.batches[c].slots
    ensures Good(Collect(s, w)) && k in s.asks && k in Collect(s, w).tracker.told
    ensures c !in Collect(s, w).tracker.batches ==>
              Collect(s, w).tracker.told[k] == [Timeout(s.tick)] && s.asks[k].deadline < s.tick
  {
    CollectKeeps(s, w);
    SlotWaits(s, c, k);
    var t := Collect(s, w).tracker;
    var m := CollectMidway(s, w);
    WalkTimesOut(s.(lastGc := s.tick), w.expiring);
    if c !in t.batches {
      var i :| 0 <= i < |s.batches[c].slots| && s.batches[c].slots[i] == Some(k);
      assert SlotsExpired(s, m, c, |s.batches[c].slots|);
      assert m.batches[c].slots[i] == None;
      GoneIsTold(s, t, c, k);
    }
  }

  lemma GoneIsTold(s: Tracker, t: Tracker, c: Ctx, k: nat)
    requires Waiting(s) && Waiting(t) && WaitsIn(s, c, k) && t.filed == s.filed && c !in t.batches && k in t.asks && k in t.told
    ensures t.told[k] != []
  {
    if t.told[k] == [] {
      assert Somewhere(t, k) && WaitsIn(t, c, k);
      NotInHands(t, c, k);
      if k in t.queue { QueuedWaits(t, k); }
    }
  }
}
