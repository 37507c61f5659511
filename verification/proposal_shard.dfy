/** One shard of the proposal tracker: client threads propose, the step and apply
    workers report results, the ticker collects expired requests and the node
    closes the shard, each in critical sections of its own. Every critical section
    is one step, so a run is any interleaving of them. */
module ProposalShard {

  import opened Basics

  datatype Code = Completed | Rejected | Dropped | Timeout | Terminated

  /** A result, the tick its sender had read, and whose proposal it is about. */
  datatype Result = Result(code: Code, now: nat, client: nat, series: nat)

  /** What a proposer asked for: it read tick `readAt` and allows `timeout` ticks. */
  datatype Request = Request(client: nat, series: nat, readAt: nat, timeout: nat)

  /** How far a proposer has got. */
  datatype Stage =
    | Proposing    // in the pending table, the entry not yet queued
    | Leaving      // the queue refused the entry, still in the pending table
    | Accepted     // `propose` returned the request
    | Refused      // `propose` returned an error

  datatype Entry = Entry(
    request: Request,
    stage: Stage,
    pending: bool,             // in the pending table
    hand: Option<Result>,      // taken out by a thread that will send this result
    told: seq<Result>,         // the results sent, oldest first
    late: bool)                // already behind the last collection when it was inserted

  /** `close` holds the lock over three steps. */
  datatype Phase = Open | Stopping | Draining | Closed

  datatype Shard = Shard(
    entries: map<nat, Entry>,  // every request ever made, by its key
    phase: Phase,
    queueStopped: bool,
    tick: nat,
    lastGc: nat,
    gcTick: nat)

  datatype Outcome = Fine(shard: Shard) | ChannelFull

  /** The clock is built with a collection interval of one to three ticks. */
  predicate GcTickOk(gcTick: nat) {
    0 < gcTick <= 3
  }

  function New(gcTick: nat): Shard {
    Shard(map[], Open, false, 0, 0, gcTick)
  }

  function Deadline(r: Request): nat {
    Wrap64(r.readAt + r.timeout)
  }

  predicate Unlocked(s: Shard) {
    s.phase == Open || s.phase == Closed
  }

  // -------------------------------------------------------------- the steps

  function Insert(s: Shard, key: nat, r: Request): Shard {
    s.(entries := s.entries[key := Entry(r, Proposing, true, None, [], Deadline(r) < s.lastGc)])
  }

  /** The entry queue answers; `room` is whether it had room and was not paused. */
  function Enqueue(s: Shard, key: nat, room: bool): Shard
    requires key in s.entries
  {
    s.(entries := s.entries[key := s.entries[key].(stage := if room && !s.queueStopped then Accepted else Leaving)])
  }

  function Withdraw(s: Shard, key: nat): Shard
    requires key in s.entries
  {
    s.(entries := s.entries[key := s.entries[key].(stage := Refused, pending := false)])
  }

  predicate Takeable(s: Shard, client: nat, series: nat, key: nat, now: nat) {
    && s.phase == Open
    && key in s.entries && s.entries[key].pending
    && Deadline(s.entries[key].request) >= now
    && s.entries[key].request.client == client && s.entries[key].request.series == series
  }

  /** A result arrives; a thread that had read tick `now` takes the request out. */
  function Take(s: Shard, client: nat, series: nat, key: nat, code: Code, now: nat): Shard {
    if !Takeable(s, client, series, key, now) then s
    else s.(entries := s.entries[key := s.entries[key].(pending := false, hand := Some(Result(code, now, client, series)))])
  }

  /** The request's channel holds one result. */
  function Notify(s: Shard, key: nat): Outcome
    requires key in s.entries && s.entries[key].hand.Some?
  {
    var e := s.entries[key];
    if e.told != [] then ChannelFull
    else Fine(s.(entries := s.entries[key := e.(hand := None, told := e.told + [e.hand.value])]))
  }

  /** A result arrives and is sent, undisturbed. */
  function Delivered(s: Shard, client: nat, series: nat, key: nat, code: Code, now: nat): Outcome {
    if Takeable(s, client, series, key, now) then Notify(Take(s, client, series, key, code, now), key) else Fine(s)
  }

  predicate TooSoon(s: Shard, now: nat) {
    Wrap64(now - s.lastGc) < s.gcTick
  }

  predicate Expired(e: Entry, now: nat) {
    e.pending && Deadline(e.request) < now
  }

  function Collected(e: Entry, now: nat): Entry {
    if Expired(e, now) then e.(pending := false, told := e.told + [Result(Timeout, now, e.request.client, e.request.series)]) else e
  }

  function CollectAll(entries: map<nat, Entry>, now: nat): map<nat, Entry> {
    map k | k in entries :: Collected(entries[k], now)
  }

  function Gc(s: Shard, now: nat): Outcome {
    if s.phase != Open || TooSoon(s, now) then Fine(s)
    else if exists k :: k in s.entries && Expired(s.entries[k], now) && s.entries[k].told != [] then ChannelFull
    else Fine(s.(lastGc := now, entries := CollectAll(s.entries, now)))
  }

  /** Requests left in the table are told, and stay in the table. */
  function Ended(e: Entry, now: nat): Entry {
    if e.pending then e.(told := e.told + [Result(Terminated, now, e.request.client, e.request.series)]) else e
  }

  function EndAll(entries: map<nat, Entry>, now: nat): map<nat, Entry> {
    map k | k in entries :: Ended(entries[k], now)
  }

  function Terminate(s: Shard): Outcome {
    if exists k :: k in s.entries && s.entries[k].pending && s.entries[k].told != [] then ChannelFull
    else Fine(s.(phase := Closed, entries := EndAll(s.entries, s.tick)))
  }

  // -------------------------------------------------------------- invariant

  /** A result says what is true of the request at the tick its sender had read. */
  predicate Honest(r: Request, x: Result) {
    && x.client == r.client && x.series == r.series
    && match x.code {
       case Timeout => Deadline(r) < x.now
       case Terminated => true
       case _ => Deadline(r) >= x.now
       }
  }

  ghost predicate AllHonest(e: Entry) {
    && (e.hand.Some? ==> Honest(e.request, e.hand.value))
    && (forall i :: 0 <= i < |e.told| ==> Honest(e.request, e.told[i]))
  }

  /** The places a request can be at: in the table, in a notifier's hand, told. */
  function Places(e: Entry): nat {
    One(e.pending) + One(e.hand.Some?) + |e.told|
  }

  predicate Placed(e: Entry, closed: bool) {
    && (e.stage == Refused ==> !e.pending)
    && One(e.hand.Some?) + |e.told| <= 1
    && (closed && e.stage == Accepted ==> One(e.hand.Some?) + |e.told| == 1)
    && (!closed && e.stage != Refused ==> Places(e) == 1)
  }

  predicate Fresh(e: Entry, lastGc: nat) {
    e.pending ==> e.late || Deadline(e.request) >= lastGc
  }

  /** Only `close` tells a request that it is terminated. */
  ghost predicate Ends(e: Entry, closed: bool) {
    && (e.hand.Some? ==> e.hand.value.code != Terminated)
    && (forall i :: 0 <= i < |e.told| && e.told[i].code == Terminated ==> closed)
  }

  ghost predicate EntryOk(e: Entry, closed: bool, lastGc: nat) {
    Placed(e, closed) && AllHonest(e) && Fresh(e, lastGc) && Ends(e, closed)
  }

  ghost predicate EntriesOk(entries: map<nat, Entry>, closed: bool, lastGc: nat) {
    forall k :: k in entries ==> EntryOk(entries[k], closed, lastGc)
  }

  ghost predicate Inv(s: Shard) {
    && EntriesOk(s.entries, s.phase == Closed, s.lastGc)
    && (s.phase == Draining || s.phase == Closed ==> s.queueStopped)
    && s.lastGc <= s.tick < TWO64 && GcTickOk(s.gcTick)
  }

  lemma SetOk(entries: map<nat, Entry>, closed: bool, lastGc: nat, key: nat, e: Entry)
    requires EntriesOk(entries, closed, lastGc) && EntryOk(e, closed, lastGc)
    ensures EntriesOk(entries[key := e], closed, lastGc)
  {}

  lemma CollectOk(entries: map<nat, Entry>, lastGc: nat, now: nat)
    requires EntriesOk(entries, false, lastGc)
    ensures EntriesOk(CollectAll(entries, now), false, now)
    ensures forall k :: k in entries && Expired(entries[k], now) ==> entries[k].told == []
  {
    forall k | k in entries ensures EntryOk(Collected(entries[k], now), false, now) && (Expired(entries[k], now) ==> entries[k].told == []) {
      assert EntryOk(entries[k], false, lastGc);
    }
  }

  lemma EndOk(entries: map<nat, Entry>, lastGc: nat, now: nat)
    requires EntriesOk(entries, false, lastGc)
    ensures EntriesOk(EndAll(entries, now), true, lastGc)
    ensures forall k :: k in entries && entries[k].pending ==> entries[k].told == []
  {
    forall k | k in entries ensures EntryOk(Ended(entries[k], now), true, lastGc) && (entries[k].pending ==> entries[k].told == []) {
      assert EntryOk(entries[k], false, lastGc);
    }
  }

  // ------------------------------------------------------------------- runs

  datatype Action =
    | Propose(key: nat, request: Request)
    | Add(key: nat, room: bool)
    | Remove(key: nat)
    | Report(client: nat, series: nat, taken: nat, code: Code, at: nat)
    | Send(key: nat)
    | Collect(at: nat)
    | Tick(to: nat)
    | Stop | StopQueue | Drain      // the three steps of `close`
    | OtherStops                    // another shard's `close` stops the queue they share

  /** Keys are fresh, the tick never decreases, and what a thread read is not ahead
      of it. Steps that take the lock wait while `close` holds it. */
  predicate Enabled(s: Shard, a: Action) {
    match a
    case Propose(key, r) => Unlocked(s) && key !in s.entries && r.readAt <= s.tick && r.timeout > 0
    case Add(key, _) => key in s.entries && s.entries[key].stage == Proposing
    case Remove(key) => Unlocked(s) && key in s.entries && s.entries[key].stage == Leaving
    case Report(_, _, _, code, at) => Unlocked(s) && at <= s.tick && (code == Completed || code == Rejected || code == Dropped)
    case Send(key) => key in s.entries && s.entries[key].hand.Some?
    case Collect(at) => Unlocked(s) && at <= s.tick
    case Tick(to) => s.tick <= to < TWO64
    case Stop => s.phase == Open
    case StopQueue => s.phase == Stopping
    case Drain => s.phase == Draining
    case OtherStops => true
  }

  function Next(s: Shard, a: Action): Outcome
    requires Enabled(s, a)
  {
    match a
    case Propose(key, r) => Fine(Insert(s, key, r))
    case Add(key, room) => Fine(Enqueue(s, key, room))
    case Remove(key) => Fine(Withdraw(s, key))
    case Report(client, series, key, code, at) => Fine(Take(s, client, series, key, code, at))
    case Send(key) => Notify(s, key)
    case Collect(at) => Gc(s, at)
    case Tick(to) => Fine(s.(tick := to))
    case Stop => Fine(s.(phase := Stopping))
    case StopQueue => Fine(s.(phase := Draining, queueStopped := true))
    case Drain => Terminate(s)
    case OtherStops => Fine(s.(queueStopped := true))
  }

  ghost predicate Good(o: Outcome) {
    o.Fine? && Inv(o.shard)
  }

  lemma ProposerKeeps(s: Shard, a: Action)
    requires Inv(s) && Enabled(s, a) && (a.Propose? || a.Add? || a.Remove?)
    ensures Good(Next(s, a))
  {
    var closed := s.phase == Closed;
    match a
    case Propose(key, r) => SetOk(s.entries, closed, s.lastGc, key, Insert(s, key, r).entries[key]);
    case Add(key, room) => SetOk(s.entries, closed, s.lastGc, key, Enqueue(s, key, room).entries[key]);
    case Remove(key) => SetOk(s.entries, closed, s.lastGc, key, Withdraw(s, key).entries[key]);
  }

  lemma ReporterKeeps(s: Shard, a: Action)
    requires Inv(s) && Enabled(s, a) && (a.Report? || a.Send?)
    ensures Good(Next(s, a))
  {
    var closed := s.phase == Closed;
    match a
    case Report(client, series, key, code, at) =>
      if Takeable(s, client, series, key, at) {
        SetOk(s.entries, closed, s.lastGc, key, Take(s, client, series, key, code, at).entries[key]);
      }
    case Send(key) =>
      assert EntryOk(s.entries[key], closed, s.lastGc);
      SetOk(s.entries, closed, s.lastGc, key, Notify(s, key).shard.entries[key]);
  }

  lemma StepKeeps(s: Shard, a: Action)
    requires Inv(s) && Enabled(s, a)
    ensures Good(Next(s, a))
  {
    match a
    case Propose(_, _) => ProposerKeeps(s, a);
    case Add(_, _) => ProposerKeeps(s, a);
    case Remove(_) => ProposerKeeps(s, a);
    case Report(_, _, _, _, _) => ReporterKeeps(s, a);
    case Send(_) => ReporterKeeps(s, a);
    case Collect(at) => if s.phase == Open { CollectOk(s.entries, s.lastGc, at); }
    case Tick(_) =>
    case Stop =>
    case StopQueue =>
    case Drain => EndOk(s.entries, s.lastGc, s.tick);
    case OtherStops =>
  }

  lemma DeliveredOk(s: Shard, client: nat, series: nat, key: nat, code: Code, now: nat)
    requires Inv(s) && Unlocked(s) && now <= s.tick && (code == Completed || code == Rejected || code == Dropped)
    ensures Good(Delivered(s, client, series, key, code, now))
  {
    StepKeeps(s, Report(client, series, key, code, now));
    if Takeable(s, client, series, key, now) { StepKeeps(Take(s, client, series, key, code, now), Send(key)); }
  }

  ghost predicate Runs(s: Shard, actions: seq<Action>, t: Shard)
    decreases |actions|
  {
    if actions == [] then s == t
    else
      && Enabled(s, actions[0])
      && Next(s, actions[0]).Fine?
      && Runs(Next(s, actions[0]).shard, actions[1..], t)
  }

  lemma {:induction false} RunKeeps(s: Shard, actions: seq<Action>, t: Shard)
    requires Inv(s) && Runs(s, actions, t)
    ensures Inv(t)
    decreases |actions|
  {
    if actions != [] {
      StepKeeps(s, actions[0]);
      RunKeeps(Next(s, actions[0]).shard, actions[1..], t);
    }
  }

  ghost predicate Reachable(s: Shard) {
    exists gcTick, actions :: GcTickOk(gcTick) && Runs(New(gcTick), actions, s)
  }

  lemma ReachableInv(s: Shard)
    requires Reachable(s)
    ensures Inv(s)
  {
    var gcTick, actions :| GcTickOk(gcTick) && Runs(New(gcTick), actions, s);
    RunKeeps(New(gcTick), actions, s);
  }

  /** No interleaving overflows a request's channel. */
  lemma NeverOverflows(s: Shard, a: Action)
    requires Reachable(s) && Enabled(s, a)
    ensures Next(s, a).Fine?
  {
    ReachableInv(s);
    StepKeeps(s, a);
  }

  /** A request `propose` returned is in exactly one of the pending table, the hand
      of the thread about to notify it, and told once. After `close` the table no
      longer counts: it is told once, or about to be. One that was refused is not
      waiting for anything and was told at most once. */
  lemma ExactlyOnce(s: Shard, k: nat)
    requires Reachable(s) && k in s.entries
    ensures var e := s.entries[k];
            && (e.stage == Accepted && s.phase != Closed ==> Places(e) == 1)
            && (e.stage == Accepted && s.phase == Closed ==> One(e.hand.Some?) + |e.told| == 1)
            && (e.stage == Refused ==> !e.pending && One(e.hand.Some?) + |e.told| <= 1)
  {
    ReachableInv(s);
    assert EntryOk(s.entries[k], s.phase == Closed, s.lastGc);
  }

  /** What a request was told is about it and true: a timeout only once its deadline has passed,
      any outcome of the proposal only while it had not, at the tick the sender
      had read. */
  lemma ResultsAreHonest(s: Shard, k: nat, i: nat)
    requires Reachable(s) && k in s.entries && i < |s.entries[k].told|
    ensures var r, x := s.entries[k].request, s.entries[k].told[i];
            && x.client == r.client && x.series == r.series
            && (x.code == Timeout ==> Deadline(r) < x.now)
            && (x.code == Completed || x.code == Rejected || x.code == Dropped ==> x.now <= Deadline(r))
  {
    ReachableInv(s);
    assert EntryOk(s.entries[k], s.phase == Closed, s.lastGc);
    assert Honest(s.entries[k].request, s.entries[k].told[i]);
  }

  /** A result for an open shard's pending request whose deadline has not passed, under
      its own client and series, is what it is told; any other report changes nothing. */
  lemma ReportIsDelivered(s: Shard, client: nat, series: nat, key: nat, code: Code, now: nat)
    requires Inv(s)
    ensures Delivered(s, client, series, key, code, now) ==
            if s.phase == Open && key in s.entries && s.entries[key].pending && now <= Deadline(s.entries[key].request)
               && s.entries[key].request.client == client && s.entries[key].request.series == series
            then Fine(s.(entries := s.entries[key := s.entries[key].(pending := false, told := [Result(code, now, client, series)])]))
            else Fine(s)
  {
    if s.phase == Open && key in s.entries && s.entries[key].pending {
      var e := s.entries[key];
      assert EntryOk(e, false, s.lastGc);
      var t := Take(s, client, series, key, code, now);
      var f := e.(pending := false, told := [Result(code, now, client, series)]);
      assert e.told + [Result(code, now, client, series)] == f.told;
      if t != s { assert t.entries[key].(hand := None, told := f.told) == f && t.entries[key := f] == s.entries[key := f]; }
    }
  }

  /** A request told that it is terminated was told so by `close`. */
  lemma TerminatedByClose(s: Shard, k: nat, i: nat)
    requires Reachable(s) && k in s.entries && i < |s.entries[k].told| && s.entries[k].told[i].code == Terminated
    ensures s.phase == Closed
  {
    ReachableInv(s);
    assert EntryOk(s.entries[k], s.phase == Closed, s.lastGc);
  }

  /** `close` tells exactly the pending requests, each that it is terminated. */
  lemma DrainTells(s: Shard, k: nat)
    requires Inv(s) && s.phase == Draining && k in s.entries
    ensures Terminate(s).Fine? && Terminate(s).shard.phase == Closed && k in Terminate(s).shard.entries
    ensures var e, f := s.entries[k], Terminate(s).shard.entries[k];
            if e.pending then f == e.(told := [Result(Terminated, s.tick, e.request.client, e.request.series)]) else f == e
  {
    EndOk(s.entries, s.lastGc, s.tick);
    assert EntryOk(s.entries[k], false, s.lastGc);
  }

  /** A proposal is pending from the moment it is inserted; `propose` returns it if and
      only if the queue had room and was not stopped, and otherwise takes it back. */
  lemma ProposalIsPending(s: Shard, key: nat, r: Request, room: bool)
    requires key !in s.entries
    ensures var t := Enqueue(Insert(s, key, r), key, room);
            && t == s.(entries := t.entries) && t.entries.Keys == s.entries.Keys + {key}
            && (forall k :: k in s.entries ==> t.entries[k] == s.entries[k])
            && var e := t.entries[key];
               && e.request == r && e.pending && e.told == [] && e.hand == None
               && (e.stage == Accepted <==> room && !s.queueStopped)
               && (e.stage != Accepted ==> e.stage == Leaving && !Withdraw(t, key).entries[key].pending && Withdraw(t, key).entries[key].stage == Refused)
  {}

  // -------------------------------------------- what later steps cannot undo

  /** Nobody forgets a request, changes what it asked or takes back what it was
      told; a proposer that has its answer keeps it. */
  predicate Follows(e: Entry, f: Entry) {
    && f.request == e.request && f.late == e.late
    && e.told <= f.told
    && (e.stage == Accepted || e.stage == Refused ==> f.stage == e.stage)
    && (!e.pending ==> !f.pending)
  }

  ghost predicate Later(s: Shard, t: Shard) {
    && (forall k :: k in s.entries ==> k in t.entries && Follows(s.entries[k], t.entries[k]))
    && (s.queueStopped ==> t.queueStopped)
    && (s.queueStopped ==> forall k :: k in t.entries && t.entries[k].stage == Accepted ==> k in s.entries && s.entries[k].stage == Accepted)
    && s.tick <= t.tick
  }

  lemma StepIsLater(s: Shard, a: Action)
    requires Enabled(s, a) && Next(s, a).Fine?
    ensures Later(s, Next(s, a).shard)
  {
    match a
    case Propose(key, r) =>
    case Add(key, room) =>
    case Remove(key) =>
    case Report(client, series, key, code, at) =>
    case Send(key) =>
    case Collect(at) =>
    case Tick(_) =>
    case Stop =>
    case StopQueue =>
    case Drain =>
    case OtherStops =>
  }

  lemma LaterTransitive(s: Shard, t: Shard, u: Shard)
    requires Later(s, t) && Later(t, u)
    ensures Later(s, u)
  {
    forall k | k in s.entries ensures k in u.entries && Follows(s.entries[k], u.entries[k]) {
      assert k in t.entries && Follows(t.entries[k], u.entries[k]);
    }
  }

  lemma {:induction false} RunIsLater(s: Shard, actions: seq<Action>, t: Shard)
    requires Runs(s, actions, t)
    ensures Later(s, t)
    decreases |actions|
  {
    if actions != [] {
      StepIsLater(s, actions[0]);
      RunIsLater(Next(s, actions[0]).shard, actions[1..], t);
      LaterTransitive(s, Next(s, actions[0]).shard, t);
    }
  }

  /** A request that has been told is never told again, nor told otherwise. */
  lemma ToldOnceForAll(s: Shard, actions: seq<Action>, t: Shard, k: nat)
    requires Reachable(s) && Runs(s, actions, t) && k in s.entries && s.entries[k].told != []
    ensures k in t.entries && t.entries[k].told == s.entries[k].told && |t.entries[k].told| == 1
  {
    ReachableInv(s);
    RunKeeps(s, actions, t);
    RunIsLater(s, actions, t);
    assert EntryOk(s.entries[k], s.phase == Closed, s.lastGc) && EntryOk(t.entries[k], t.phase == Closed, t.lastGc);
  }

  /** Once the queue is stopped, by this shard's `close` or another's, no proposal is ever
      accepted again. */
  lemma NothingAcceptedAfterClose(s: Shard, a: Action, actions: seq<Action>, t: Shard, k: nat)
    requires Enabled(s, a) && (a == StopQueue || a == OtherStops) && Next(s, a).Fine? && Runs(Next(s, a).shard, actions, t)
    requires k in t.entries && t.entries[k].stage == Accepted
    ensures t.queueStopped && k in s.entries && s.entries[k].stage == Accepted
  {
    RunIsLater(Next(s, a).shard, actions, t);
  }

  // ----------------------------------------------------------- timeout bound

  /** A collection of an open shard that is at least the interval after the last tells
      exactly the pending requests that are overdue that they have timed out, and takes
      them out of the table; any other changes nothing. */
  lemma CollectionIsExact(s: Shard, now: nat, k: nat)
    requires Inv(s) && Unlocked(s) && k in s.entries
    ensures Gc(s, now).Fine? && k in Gc(s, now).shard.entries
    ensures s.phase != Open || Wrap64(now - s.lastGc) < s.gcTick ==> Gc(s, now).shard == s
    ensures s.phase == Open && Wrap64(now - s.lastGc) >= s.gcTick ==>
              var e, f := s.entries[k], Gc(s, now).shard.entries[k];
              && Gc(s, now).shard == s.(lastGc := now, entries := Gc(s, now).shard.entries) && Gc(s, now).shard.entries.Keys == s.entries.Keys
              && if e.pending && Deadline(e.request) < now
                 then f == e.(pending := false, told := [Result(Timeout, now, e.request.client, e.request.series)])
                 else f == e
  {
    if s.phase == Open { CollectOk(s.entries, s.lastGc, now); }
    assert EntryOk(s.entries[k], s.phase == Closed, s.lastGc);
  }

  /** The bound on how overdue a pending request is when a collection has been skipped. */
  predicate WithinBound(s: Shard, e: Entry, now: nat) {
    Deadline(e.request) >= now - s.gcTick + 1
  }

  /** The bound holds at every tick at which the collection is skipped if and only if the
      request's deadline is not behind the last collection. (At the end of the clock the
      ticks run out before the last of those is reached.) */
  lemma GcBoundIff(s: Shard, k: nat)
    requires Inv(s) && k in s.entries
    ensures (forall now: U64 :: TooSoon(s, now) ==> WithinBound(s, s.entries[k], now)) <==>
            Deadline(s.entries[k].request) >= if s.lastGc + s.gcTick <= TWO64 then s.lastGc else TWO64 - s.gcTick
  {
    var e := s.entries[k];
    forall now: U64 | TooSoon(s, now) ensures s.lastGc <= now < s.lastGc + s.gcTick || now < s.gcTick { SkippedWhen(s, now); }
    var last: U64 := if s.lastGc + s.gcTick <= TWO64 then s.lastGc + s.gcTick - 1 else TWO64 - 1;
    SkippedAt(s, last);
  }

  lemma SkippedWhen(s: Shard, now: U64)
    requires Inv(s) && TooSoon(s, now)
    ensures s.lastGc <= now < s.lastGc + s.gcTick || now < s.gcTick
  {
    if now < s.lastGc {
      assert Wrap64(now - s.lastGc) == now - s.lastGc + TWO64;
    } else {
      assert Wrap64(now - s.lastGc) == now - s.lastGc;
    }
  }

  lemma SkippedAt(s: Shard, now: U64)
    requires Inv(s) && s.lastGc <= now < s.lastGc + s.gcTick
    ensures TooSoon(s, now)
  {
    assert Wrap64(now - s.lastGc) == now - s.lastGc;
  }

  /** After a collection at tick `now` everything still pending has a deadline of
      at least `now - gcTick + 1`, except what was inserted behind the previous
      collection; a collection that was not too soon leaves nothing overdue. */
  lemma GcBound(s: Shard, now: nat, k: nat)
    requires Inv(s) && s.phase == Open && now <= s.tick
    requires Gc(s, now).Fine? && k in Gc(s, now).shard.entries && Gc(s, now).shard.entries[k].pending
    ensures var e := Gc(s, now).shard.entries[k];
            && (!TooSoon(s, now) ==> Deadline(e.request) >= now)
            && (!e.late ==> WithinBound(s, e, now))
  {
    assert EntryOk(s.entries[k], false, s.lastGc);
    if TooSoon(s, now) { SkippedWhen(s, now); }
  }

  /** A proposer that inserts at the tick it read is never late, unless its deadline
      overflows. */
  lemma PromptIsNotLate(s: Shard, key: nat, r: Request)
    requires Inv(s) && r.readAt == s.tick
    ensures Deadline(r) == r.readAt + r.timeout <==> r.readAt + r.timeout < TWO64
    ensures r.readAt + r.timeout < TWO64 ==> !Insert(s, key, r).entries[key].late
  {}

  lemma RunsOn(s: Shard, a: Action, next: Shard, rest: seq<Action>, t: Shard)
    requires Enabled(s, a) && Next(s, a) == Fine(next) && Runs(next, rest, t)
    ensures Runs(s, [a] + rest, t)
  {
    assert ([a] + rest)[1..] == rest;
  }

  const SLOW := Request(1, 1, 0, 4)

  /** The exception is real: a proposer that read tick 0 and was overtaken by a
      collection at tick 9 has its request accepted, and pending, six ticks overdue,
      after the collection at tick 10. */
  lemma LateProposalOutlivesCollection() returns (t: Shard)
    ensures Runs(New(2), [Tick(9), Collect(9), Tick(10), Propose(7, SLOW), Add(7, true), Collect(10)], t)
    ensures 7 in t.entries && t.entries[7].stage == Accepted && t.entries[7].pending
    ensures t.tick == 10 && Deadline(t.entries[7].request) == 4 && !WithinBound(t, t.entries[7], 10)
  {
    var s1 := New(2).(tick := 9);
    var s2 := s1.(lastGc := 9);
    assert CollectAll(map[], 9) == map[];
    assert Gc(s1, 9) == Fine(s2);
    t := LateRun(s2);
    var late := [Tick(10)] + ([Propose(7, SLOW)] + ([Add(7, true)] + ([Collect(10)] + [])));
    RunsOn(s1, Collect(9), s2, late, t);
    RunsOn(New(2), Tick(9), s1, [Collect(9)] + late, t);
    assert [Tick(9)] + ([Collect(9)] + late) == [Tick(9), Collect(9), Tick(10), Propose(7, SLOW), Add(7, true), Collect(10)];
  }

  lemma LateRun(s: Shard) returns (t: Shard)
    requires s == Shard(map[], Open, false, 9, 9, 2)
    ensures Runs(s, [Tick(10)] + ([Propose(7, SLOW)] + ([Add(7, true)] + ([Collect(10)] + []))), t)
    ensures t == s.(tick := 10, entries := map[7 := Entry(SLOW, Accepted, true, None, [], true)])
  {
    var u := s.(tick := 10);
    var v := Insert(u, 7, SLOW);
    t := Enqueue(v, 7, true);
    assert TooSoon(t, 10);
    RunsOn(t, Collect(10), t, [], t);
    RunsOn(v, Add(7, true), t, [Collect(10)] + [], t);
    RunsOn(u, Propose(7, SLOW), v, [Add(7, true)] + ([Collect(10)] + []), t);
    RunsOn(s, Tick(10), u, [Propose(7, SLOW)] + ([Add(7, true)] + ([Collect(10)] + [])), t);
  }

  // ------------------------------------------------------ the shard as it runs

  datatype Answer = Proposed(key: nat) | TimeoutTooSmall | PayloadTooBig | ClusterClosed | SystemBusy

  class Tracker {
    var entries: map<nat, Entry>
    var phase: Phase
    var queueStopped: bool
    var tick: nat
    var lastGc: nat
    var expireNotified: nat
    const gcTick: nat

    constructor (gcTick: nat)
      requires GcTickOk(gcTick)
      ensures Now() == New(gcTick) && expireNotified == 0
    {
      this.gcTick := gcTick;
      entries, phase, queueStopped, tick, lastGc, expireNotified := map[], Open, false, 0, 0, 0;
    }

    ghost function Now(): Shard
      reads this
    {
      Shard(entries, phase, queueStopped, tick, lastGc, gcTick)
    }

    /** An undisturbed `propose`: insert, queue, and withdraw if the queue refuses. */
    method Propose(client: nat, series: nat, key: nat, size: nat, maxSize: nat, timeout: nat, room: bool)
      returns (answer: Answer)
      requires Inv(Now()) && Unlocked(Now()) && key !in entries
      modifies this`entries
      ensures Inv(Now())
      ensures timeout == 0 ==> answer == TimeoutTooSmall
      ensures timeout > 0 && maxSize < size ==> answer == PayloadTooBig
      ensures answer == Proposed(key) <==> timeout > 0 && size <= maxSize && room && !queueStopped
      ensures answer == ClusterClosed <==> timeout > 0 && size <= maxSize && queueStopped
      ensures answer == TimeoutTooSmall || answer == PayloadTooBig ==> unchanged(this)
      ensures answer == Proposed(key) ==>
                Now() == Enqueue(Insert(old(Now()), key, Request(client, series, tick, timeout)), key, room)
      ensures answer == ClusterClosed || answer == SystemBusy ==>
                Now() == Withdraw(Enqueue(Insert(old(Now()), key, Request(client, series, tick, timeout)), key, room), key)
    {
      if timeout == 0 { return TimeoutTooSmall; }
      if maxSize < size { return PayloadTooBig; }
      var r := Request(client, series, tick, timeout);
      StepKeeps(Now(), Action.Propose(key, r));
      entries := entries[key := Entry(r, Proposing, true, None, [], Deadline(r) < lastGc)];
      StepKeeps(Now(), Add(key, room));
      if queueStopped || !room {
        entries := entries[key := entries[key].(stage := Leaving)];
        StepKeeps(Now(), Remove(key));
        entries := entries[key := entries[key].(stage := Refused, pending := false)];
        return if queueStopped then ClusterClosed else SystemBusy;
      }
      entries := entries[key := entries[key].(stage := Accepted)];
      return Proposed(key);
    }

    /** `takeProposal` followed by the notification, undisturbed. */
    method Reply(client: nat, series: nat, key: nat, code: Code, now: nat) returns (full: bool)
      modifies this`entries
      ensures var o := Delivered(old(Now()), client, series, key, code, now);
              if full then o.ChannelFull? else o == Fine(Now())
    {
      if phase != Open { return false; }
      if key in entries && entries[key].pending && Deadline(entries[key].request) >= now {
        var e := entries[key];
        if e.request.client == client && e.request.series == series {
          entries := entries[key := e.(pending := false, hand := Some(Result(code, now, client, series)))];
          if e.told != [] { return true; }
          ghost var t := Now();
          e := entries[key];
          entries := entries[key := e.(hand := None, told := e.told + [e.hand.value])];
          assert Now() == Notify(t, key).shard;
        }
      }
      return false;
    }

    /** Time out what is overdue, one request at a time. */
    method TimeOutAll(now: nat) returns (full: bool)
      modifies this`entries
      ensures full ==> exists k :: k in old(entries) && Expired(old(entries)[k], now) && old(entries)[k].told != []
      ensures !full ==> entries == CollectAll(old(entries), now)
      ensures !full ==> forall k :: k in old(entries) && Expired(old(entries)[k], now) ==> old(entries)[k].told == []
    {
      var todo := entries.Keys;
      while todo != {}
        invariant todo <= entries.Keys == old(entries).Keys
        invariant forall k :: k in todo ==> entries[k] == old(entries)[k]
        invariant forall k :: k in entries.Keys - todo ==> entries[k] == Collected(old(entries)[k], now)
        invariant forall k :: k in entries.Keys - todo && Expired(old(entries)[k], now) ==> old(entries)[k].told == []
        decreases |todo|
      {
        var k :| k in todo;
        todo := todo - {k};
        var e := entries[k];
        if e.pending && Deadline(e.request) < now {
          if e.told != [] { return true; }
          entries := entries[k := e.(pending := false, told := e.told + [Result(Timeout, now, e.request.client, e.request.series)])];
        }
      }
      return false;
    }

    method GcAt(now: nat) returns (full: bool)
      modifies this`entries, this`lastGc
      ensures if full then Gc(old(Now()), now).ChannelFull? else Gc(old(Now()), now) == Fine(Now())
    {
      if phase != Open { return false; }
      if Wrap64(now - lastGc) < gcTick { return false; }
      lastGc := now;
      full := TimeOutAll(now);
    }

    /** Report an applied proposal; the first report at a tick also collects. */
    method Applied(client: nat, series: nat, key: nat, rejected: bool) returns (full: bool)
      requires Inv(Now()) && Unlocked(Now())
      modifies this
      ensures !full && Inv(Now()) && expireNotified == tick == old(tick)
      ensures var o := Delivered(old(Now()), client, series, key, if rejected then Rejected else Completed, tick);
              o.Fine? && if old(expireNotified) != tick then Gc(o.shard, tick) == Fine(Now()) else Now() == o.shard
    {
      var now := tick;
      var code := if rejected then Rejected else Completed;
      DeliveredOk(Now(), client, series, key, code, now);
      full := Reply(client, series, key, code, now);
      if now != expireNotified {
        StepKeeps(Now(), Collect(now));
        full := GcAt(now);
        expireNotified := now;
      }
    }

    method Close() returns (full: bool)
      requires phase == Open
      modifies this
      ensures var s := old(Now()).(phase := Draining, queueStopped := true);
              if full then Terminate(s).ChannelFull? else Terminate(s) == Fine(Now())
    {
      phase := Stopping;
      queueStopped := true;
      var todo := entries.Keys;
      while todo != {}
        invariant todo <= entries.Keys == old(entries).Keys
        invariant forall k :: k in todo ==> entries[k] == old(entries)[k]
        invariant forall k :: k in entries.Keys - todo ==>
                    entries[k] == Ended(old(entries)[k], tick) && !(old(entries)[k].pending && old(entries)[k].told != [])
        invariant tick == old(tick) && lastGc == old(lastGc) && queueStopped
        decreases |todo|
      {
        var k :| k in todo;
        todo := todo - {k};
        var e := entries[k];
        if e.pending {
          if e.told != [] { return true; }
          entries := entries[k := e.(told := [Result(Terminated, tick, e.request.client, e.request.series)])];
        }
      }
      phase := Closed;
      assert entries == EndAll(old(entries), tick);
      return false;
    }
  }
}
