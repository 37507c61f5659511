/** The replicated state of one lock shard and what one committed command does
    to it, written as functions from state to state. `LockMachine` is the
    imperative state machine proved against these. */
module LockState {
  import opened Basics
  import opened SortedStrings

  /** An election payload; plain locks carry none. */
  datatype Value = NoValue | Payload(bytes: seq<bv8>)

  datatype Waiter = Waiter(client: string, seqNo: nat, value: Value)

  /** One lock or election key. The holder "" means free. */
  datatype Lock = Lock(holder: string, token: nat, value: Value, queue: seq<Waiter>)

  /** A client's lease, with the keys it holds and the keys it waits on. */
  datatype Lease = Lease(ttl: int, expireAt: int, held: set<string>, waiting: set<string>)

  datatype State = State(
    locks: map<string, Lock>,
    leases: map<string, Lease>,
    seqNo: nat,
    revision: nat)

  const EMPTY := State(map[], map[], 0, 0)

  datatype Command =
    | AcquireLock(name: string, client: string, tryLock: bool)
    | Campaign(name: string, client: string, value: Value)
    | ReleaseLock(name: string, client: string, token: nat)
    | Resign(name: string, client: string, token: nat)
    | CancelWait(name: string, client: string)
    | Proclaim(name: string, client: string, token: nat, value: Value)
    | LeaseGrant(client: string, ttl: int, now: int)
    | LeaseKeepAlive(client: string, now: int)
    | LeaseRevoke(client: string)
    | LeaseExpire(client: string, now: int)
    | Unset

  datatype Outcome =
    | Granted | Queued | NotAcquired | Released | NotHolder | StaleToken | NoLease
    | LeaseGranted | LeaseRenewed | LeaseRevoked | LeaseExpired | ValueUpdated
    | NotFound | Noop

  datatype Result = Result(
    outcome: Outcome,
    revision: nat,
    key: string := "",
    token: nat := 0,
    position: nat := 0,
    currentHolder: string := "",
    deadline: int := 0,
    value: Value := NoValue)

  /** A command with no inner command set is log corruption and only an error. */
  datatype Reply = Ok(result: Result) | Malformed

  /** A change of ownership as published to the watch hub; holder "" is a key
      that became free. */
  datatype Event = Event(key: string, holder: string, token: nat, value: Value, revision: nat)

  /** What applying something leaves behind. */
  datatype Effect = Effect(state: State, events: seq<Event>)
  datatype Applied = Applied(state: State, reply: Reply, events: seq<Event>)

  const FREE := Lock("", 0, NoValue, [])

  const NANOS_PER_MILLI := 1_000_000

  function Deadline(now: int, ttl: int): int {
    SignedWrap64(now + SignedWrap64(ttl * NANOS_PER_MILLI))
  }

  ghost predicate IsQueued(q: seq<Waiter>, c: string) {
    exists i :: 0 <= i < |q| && q[i].client == c
  }

  /** The 1-based place of a client in a queue, 0 when it is not queued. */
  function QueuePos(q: seq<Waiter>, c: string): (r: nat)
    ensures r <= |q|
    ensures r == 0 <==> !IsQueued(q, c)
    ensures r > 0 ==> q[r - 1].client == c && forall j :: 0 <= j < r - 1 ==> q[j].client != c
  {
    if q == [] then 0
    else if q[0].client == c then 1
    else
      var rest := QueuePos(q[1..], c);
      assert forall j :: 0 < j < |q| ==> q[j] == q[1..][j - 1];
      assert rest == 0 ==> !IsQueued(q, c);
      if rest == 0 then 0 else rest + 1
  }

  /** The queue without the first entry of a client. */
  function Dequeue(q: seq<Waiter>, c: string): seq<Waiter> {
    var p := QueuePos(q, c);
    if p == 0 then q else q[..p - 1] + q[p..]
  }

  function Hold(s: State, name: string, c: string): map<string, Lease>
    requires c in s.leases
  {
    var ls := s.leases[c];
    s.leases[c := ls.(held := ls.held + {name}, waiting := ls.waiting - {name})]
  }

  function Grant(s: State, name: string, c: string, value: Value): Effect
    requires c in s.leases
  {
    var lk := if name in s.locks then s.locks[name] else FREE;
    var lk' := lk.(holder := c, token := s.seqNo + 1, value := value);
    Effect(
      s.(locks := s.locks[name := lk'], leases := Hold(s, name, c), seqNo := s.seqNo + 1),
      [Event(name, c, s.seqNo + 1, value, s.revision)])
  }

  /** Hand a released key to the next waiter that still has a lease, or drop the
      key when nobody is left. */
  function Promote(s: State, name: string): (e: Effect)
    requires name in s.locks
    ensures e.state.revision == s.revision
    decreases |s.locks[name].queue|
  {
    var lk := s.locks[name];
    if lk.queue == [] then
      Effect(s.(locks := s.locks - {name}), [Event(name, "", 0, NoValue, s.revision)])
    else
      var w := lk.queue[0];
      var rest := s.(locks := s.locks[name := lk.(queue := lk.queue[1..])]);
      if w.client !in s.leases then Promote(rest, name) else Grant(rest, name, w.client, w.value)
  }

  function Say(s: State, o: Outcome): Result {
    Result(o, s.revision)
  }

  function Unchanged(s: State, r: Result): Applied {
    Applied(s, Ok(r), [])
  }

  function Enqueue(s: State, name: string, c: string, value: Value): State
    requires name in s.locks && c in s.leases
  {
    var lk, ls := s.locks[name], s.leases[c];
    s.(locks := s.locks[name := lk.(queue := lk.queue + [Waiter(c, s.seqNo + 1, value)])],
       leases := s.leases[c := ls.(waiting := ls.waiting + {name})],
       seqNo := s.seqNo + 1)
  }

  predicate HeldBy(s: State, name: string, c: string) {
    name in s.locks && s.locks[name].holder != "" && s.locks[name].holder == c
  }

  function Acquire(s: State, name: string, c: string, value: Value, try: bool): Applied {
    if c !in s.leases then
      Unchanged(s, Say(s, NoLease).(key := name))
    else if name !in s.locks || s.locks[name].holder == "" then
      var e := Grant(s, name, c, value);
      Applied(e.state, Ok(Say(s, Granted).(key := name, token := s.seqNo + 1, value := value)), e.events)
    else
      var lk := s.locks[name];
      if lk.holder == c then
        Unchanged(s, Say(s, Granted).(key := name, token := lk.token, value := lk.value))
      else if try then
        Unchanged(s, Say(s, NotAcquired).(key := name, currentHolder := lk.holder))
      else if name in s.leases[c].waiting then
        Unchanged(s, Say(s, Queued).(key := name, position := QueuePos(lk.queue, c)))
      else
        Applied(Enqueue(s, name, c, value), Ok(Say(s, Queued).(key := name, position := |lk.queue| + 1)), [])
  }

  function Unhold(s: State, name: string, c: string): State {
    if c !in s.leases then s
    else s.(leases := s.leases[c := s.leases[c].(held := s.leases[c].held - {name})])
  }

  function Release(s: State, name: string, c: string, token: nat): Applied {
    if !HeldBy(s, name, c) then
      Unchanged(s, Say(s, NotHolder).(key := name))
    else if s.locks[name].token != token then
      Unchanged(s, Say(s, StaleToken).(key := name))
    else
      var e := Promote(Unhold(s, name, c), name);
      Applied(e.state, Ok(Say(s, Released).(key := name)), e.events)
  }

  function Unwait(s: State, name: string, c: string): State {
    if c !in s.leases then s
    else s.(leases := s.leases[c := s.leases[c].(waiting := s.leases[c].waiting - {name})])
  }

  function Cancel(s: State, name: string, c: string): Applied {
    if name !in s.locks || QueuePos(s.locks[name].queue, c) == 0 then
      Unchanged(s, Say(s, Noop).(key := name))
    else
      var lk := s.locks[name];
      var s' := s.(locks := s.locks[name := lk.(queue := Dequeue(lk.queue, c))]);
      Applied(Unwait(s', name, c), Ok(Say(s, Released).(key := name)), [])
  }

  function Publish(s: State, name: string, c: string, token: nat, value: Value): Applied {
    if !HeldBy(s, name, c) then
      Unchanged(s, Say(s, NotHolder).(key := name))
    else if s.locks[name].token != token then
      Unchanged(s, Say(s, StaleToken).(key := name))
    else
      Applied(
        s.(locks := s.locks[name := s.locks[name].(value := value)]),
        Ok(Say(s, ValueUpdated).(key := name, token := token, value := value)),
        [Event(name, c, token, value, s.revision)])
  }

  function GrantLease(s: State, c: string, ttl: int, now: int): Applied {
    var ls := if c in s.leases then s.leases[c] else Lease(0, 0, {}, {});
    var d := Deadline(now, ttl);
    Applied(s.(leases := s.leases[c := ls.(ttl := ttl, expireAt := d)]), Ok(Say(s, LeaseGranted).(deadline := d)), [])
  }

  function KeepAlive(s: State, c: string, now: int): Applied {
    if c !in s.leases then Unchanged(s, Say(s, NotFound))
    else
      var d := Deadline(now, s.leases[c].ttl);
      Applied(s.(leases := s.leases[c := s.leases[c].(expireAt := d)]), Ok(Say(s, LeaseRenewed).(deadline := d)), [])
  }

  /** Pass on every key of `names` that the client holds, in that order. */
  function ReleaseEach(s: State, c: string, names: seq<string>): (e: Effect)
    ensures e.state.revision == s.revision
    decreases |names|
  {
    if names == [] then Effect(s, [])
    else
      var name := names[0];
      if name !in s.locks || s.locks[name].holder != c then ReleaseEach(s, c, names[1..])
      else
        var e := Promote(s, name);
        var rest := ReleaseEach(e.state, c, names[1..]);
        Effect(rest.state, e.events + rest.events)
  }

  function DequeueEach(s: State, c: string, names: seq<string>): (s': State)
    ensures s'.revision == s.revision
    decreases |names|
  {
    if names == [] then s
    else
      var name := names[0];
      if name !in s.locks then DequeueEach(s, c, names[1..])
      else
        var lk := s.locks[name];
        DequeueEach(s.(locks := s.locks[name := lk.(queue := Dequeue(lk.queue, c))]), c, names[1..])
  }

  /** Release everything a lease holds, leave every queue it waits in, forget
      the lease. The keys go in sorted order, so replicas hand out equal tokens. */
  ghost function DropLease(s: State, c: string): Effect
    requires c in s.leases
  {
    var e := ReleaseEach(s, c, Sorted(s.leases[c].held));
    var waiting := if c in e.state.leases then e.state.leases[c].waiting else {};
    var s' := DequeueEach(e.state, c, Sorted(waiting));
    Effect(s'.(leases := s'.leases - {c}), e.events)
  }

  ghost function Revoke(s: State, c: string): Applied {
    if c !in s.leases then Unchanged(s, Say(s, NotFound))
    else
      var e := DropLease(s, c);
      Applied(e.state, Ok(Say(s, LeaseRevoked)), e.events)
  }

  ghost function Expire(s: State, c: string, now: int): Applied {
    if c !in s.leases then Unchanged(s, Say(s, NotFound))
    else if now < s.leases[c].expireAt then Unchanged(s, Say(s, Noop))
    else
      var e := DropLease(s, c);
      Applied(e.state, Ok(Say(s, LeaseExpired)), e.events)
  }

  /** One command, at the revision it was given. */
  ghost function Execute(s: State, cmd: Command): Applied {
    match cmd
    case AcquireLock(name, c, try) => Acquire(s, name, c, NoValue, try)
    case Campaign(name, c, value) => Acquire(s, name, c, value, false)
    case ReleaseLock(name, c, token) => Release(s, name, c, token)
    case Resign(name, c, token) => Release(s, name, c, token)
    case CancelWait(name, c) => Cancel(s, name, c)
    case Proclaim(name, c, token, value) => Publish(s, name, c, token, value)
    case LeaseGrant(c, ttl, now) => GrantLease(s, c, ttl, now)
    case LeaseKeepAlive(c, now) => KeepAlive(s, c, now)
    case LeaseRevoke(c) => Revoke(s, c)
    case LeaseExpire(c, now) => Expire(s, c, now)
    case Unset => Applied(s, Malformed, [])
  }

  function Tick(s: State): State {
    s.(revision := s.revision + 1)
  }

  /** `Apply`: the revision counts every command, then the command runs. */
  ghost function Step(s: State, cmd: Command): Applied {
    Execute(Tick(s), cmd)
  }

  /** The state after a whole log. */
  ghost function After(s: State, log: seq<Command>): State
    decreases |log|
  {
    if log == [] then s else After(Step(s, log[0]).state, log[1..])
  }

  /** The events a whole log publishes. */
  ghost function Events(s: State, log: seq<Command>): seq<Event>
    decreases |log|
  {
    if log == [] then []
    else Step(s, log[0]).events + Events(Step(s, log[0]).state, log[1..])
  }
}
