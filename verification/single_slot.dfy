/** Config change and snapshot requests: one at a time, handed to the step worker over
    a channel of capacity one. A result, the ticker and `close` compete to end the
    one that is pending. */
module SingleSlot {

  import opened Basics

  datatype Code = Completed | Rejected | Aborted | Dropped | Timeout | Terminated

  datatype Result = Result(code: Code, now: nat)

  /** A request that was accepted, and what it was told. */
  datatype Request = Request(deadline: nat, told: seq<Result>)

  datatype Slot = Slot(
    requests: map<nat, Request>,   // every request ever accepted, by its key
    pending: Option<nat>,
    channel: Option<nat>,          // the request the step worker has not picked up yet
    open: bool,
    tick: nat,
    lastGc: nat,
    gcTick: nat)

  datatype Answer = Accepted | TimeoutTooSmall | SystemBusy | ClusterClosed

  function New(gcTick: nat): Slot {
    Slot(map[], None, None, true, 0, 0, gcTick)
  }

  function Reply(s: Slot, timeout: nat): Answer {
    if timeout == 0 then TimeoutTooSmall
    else if s.pending.Some? then SystemBusy
    else if !s.open then ClusterClosed
    else if s.channel.Some? then SystemBusy
    else Accepted
  }

  function Ask(s: Slot, key: nat, timeout: nat): Slot {
    if Reply(s, timeout) != Accepted then s
    else s.(requests := s.requests[key := Request(Wrap64(s.tick + timeout), [])], pending := Some(key), channel := Some(key))
  }

  /** The channel to a pending request holds one result; a second one is a panic. */
  function Tell(s: Slot, code: Code): Option<Slot>
    requires s.pending.Some? && s.pending.value in s.requests
  {
    var r := s.requests[s.pending.value];
    if r.told != [] then None
    else Some(s.(pending := None, requests := s.requests[s.pending.value := r.(told := r.told + [Result(code, s.tick)])]))
  }

  datatype Action =
    | Submit(key: nat, timeout: nat)
    | Pick                            // the step worker picks up the request
    | Report(key: nat, code: Code)    // the request was applied, ignored, aborted or dropped
    | Gc
    | Tick(to: nat)
    | Close

  predicate Enabled(s: Slot, a: Action) {
    match a
    case Submit(key, _) => key !in s.requests
    case Pick => s.channel.Some?
    case Report(_, code) => code != Timeout && code != Terminated
    case Gc => true
    case Tick(to) => s.tick <= to < TWO64
    case Close => true
  }

  function Next(s: Slot, a: Action): Option<Slot>
    requires s.pending.Some? ==> s.pending.value in s.requests
  {
    match a
    case Submit(key, timeout) => Some(Ask(s, key, timeout))
    case Pick => Some(s.(channel := None))
    case Report(key, code) => if s.pending == Some(key) then Tell(s, code) else Some(s)
    case Gc =>
      if s.pending.None? || Wrap64(s.tick - s.lastGc) < s.gcTick then Some(s)
      else
        var t := s.(lastGc := s.tick);
        if s.requests[s.pending.value].deadline < s.tick then Tell(t, Timeout) else Some(t)
    case Tick(to) => Some(s.(tick := to))
    case Close =>
      var t := s.(open := false);
      if s.pending.Some? then Tell(t, Terminated) else Some(t)
  }

  predicate Terminates(r: Request) {
    exists i :: 0 <= i < |r.told| && r.told[i].code == Terminated
  }

  predicate Honest(r: Request) {
    forall i :: 0 <= i < |r.told| && r.told[i].code == Timeout ==> r.deadline < r.told[i].now
  }

  /** The pending request has not been told; every other one has, once, and that it is
      terminated only by `close`. */
  ghost predicate Inv(s: Slot) {
    && (s.pending.Some? ==> s.pending.value in s.requests && s.open)
    && (forall k :: k in s.requests && Terminates(s.requests[k]) ==> !s.open)
    && (forall k :: k in s.requests ==> |s.requests[k].told| == (if s.pending == Some(k) then 0 else 1) && Honest(s.requests[k]))
  }

  lemma StepKeeps(s: Slot, a: Action)
    requires Inv(s) && Enabled(s, a)
    ensures Next(s, a).Some? && Inv(Next(s, a).value)
  {}

  ghost predicate Runs(s: Slot, actions: seq<Action>, t: Slot)
    decreases |actions|
  {
    if actions == [] then s == t
    else
      && (s.pending.Some? ==> s.pending.value in s.requests)
      && Enabled(s, actions[0])
      && Next(s, actions[0]).Some?
      && Runs(Next(s, actions[0]).value, actions[1..], t)
  }

  lemma {:induction false} RunKeeps(s: Slot, actions: seq<Action>, t: Slot)
    requires Inv(s) && Runs(s, actions, t)
    ensures Inv(t)
    decreases |actions|
  {
    if actions != [] {
      StepKeeps(s, actions[0]);
      RunKeeps(Next(s, actions[0]).value, actions[1..], t);
    }
  }

  /** Over any run: at most one request is pending, every accepted request that is not
      has been told exactly once, a timeout only after its deadline; nothing is
      pending after close, and no step tells a request twice. */
  lemma EndedExactlyOnce(gcTick: nat, actions: seq<Action>, s: Slot, k: nat, a: Action)
    requires Runs(New(gcTick), actions, s) && k in s.requests && Enabled(s, a)
    ensures |s.requests[k].told| == if s.pending == Some(k) then 0 else 1
    ensures s.requests[k].told != [] && s.requests[k].told[0].code == Timeout ==> s.requests[k].deadline < s.requests[k].told[0].now
    ensures !s.open ==> s.pending == None
    ensures s.requests[k].told != [] && s.requests[k].told[0].code == Terminated ==> !s.open
    ensures (s.pending.Some? ==> s.pending.value in s.requests) && Next(s, a).Some?
  {
    RunKeeps(New(gcTick), actions, s);
    StepKeeps(s, a);
  }

  /** A request is accepted if and only if it has time, the node is open, nobody is
      pending and the step worker has picked up the last one; then it is pending and on
      its way to the step worker. Otherwise nothing changes. */
  lemma AcceptedIff(s: Slot, key: nat, timeout: nat)
    requires Inv(s) && key !in s.requests
    ensures var t := Ask(s, key, timeout);
            if timeout > 0 && s.open && s.pending == None && s.channel == None then
              && Reply(s, timeout) == Accepted
              && t == s.(pending := Some(key), channel := Some(key), requests := s.requests[key := Request(Wrap64(s.tick + timeout), [])])
            else
              && t == s
              && Reply(s, timeout) == if timeout == 0 then TimeoutTooSmall else if s.open then SystemBusy else ClusterClosed
  {}

  /** The pending request ends with the result it is given, by whoever comes first:
      its own result, a timeout once it is overdue, or `close`. A result for any other
      request, and a collection that is too soon or finds nothing overdue, tell nobody. */
  lemma EndsWithItsResult(s: Slot, key: nat, code: Code)
    requires Inv(s) && s.pending == Some(key)
    ensures EndedWith(s, Next(s, Report(key, code)), key, Result(code, s.tick))
    ensures forall k :: k != key ==> Next(s, Report(k, code)) == Some(s)
    ensures if Wrap64(s.tick - s.lastGc) < s.gcTick then Next(s, Gc) == Some(s)
            else if s.requests[key].deadline < s.tick then EndedWith(s.(lastGc := s.tick), Next(s, Gc), key, Result(Timeout, s.tick))
            else Next(s, Gc) == Some(s.(lastGc := s.tick))
    ensures EndedWith(s.(open := false), Next(s, Close), key, Result(Terminated, s.tick))
  {
    forall x: Result ensures s.requests[key].told + [x] == [x] {}
  }

  /** Nothing is pending any more, and only this request was told, and this. */
  ghost predicate EndedWith(s: Slot, t: Option<Slot>, key: nat, r: Result) {
    && key in s.requests
    && t == Some(s.(pending := None, requests := s.requests[key := s.requests[key].(told := [r])]))
  }

  // ------------------------------------------------------- the slot as it runs

  class PendingRequest {
    var requests: map<nat, Request>
    var pending: Option<nat>
    var channel: Option<nat>
    var open: bool
    var tick: nat
    var lastGc: nat
    const gcTick: nat

    constructor (gcTick: nat)
      ensures Now() == New(gcTick) && Inv(Now())
    {
      this.gcTick := gcTick;
      requests, pending, channel, open, tick, lastGc := map[], None, None, true, 0, 0;
    }

    ghost function Now(): Slot
      reads this
    {
      Slot(requests, pending, channel, open, tick, lastGc, gcTick)
    }

    method RequestNew(key: nat, timeout: nat) returns (answer: Answer)
      requires Inv(Now()) && key !in requests
      modifies this
      ensures Inv(Now()) && Now() == Ask(old(Now()), key, timeout) && answer == Reply(old(Now()), timeout)
    {
      StepKeeps(Now(), Submit(key, timeout));
      if timeout == 0 { return TimeoutTooSmall; }
      if pending.Some? { return SystemBusy; }
      if !open { return ClusterClosed; }
      if channel.Some? { return SystemBusy; }
      channel := Some(key);
      requests := requests[key := Request(Wrap64(tick + timeout), [])];
      pending := Some(key);
      return Accepted;
    }

    method Notify(code: Code) returns (full: bool)
      requires pending.Some? && pending.value in requests
      modifies this`requests, this`pending
      ensures full == Tell(old(Now()), code).None? && (!full ==> Tell(old(Now()), code) == Some(Now()))
    {
      var r := requests[pending.value];
      if r.told != [] { return true; }
      requests := requests[pending.value := r.(told := r.told + [Result(code, tick)])];
      pending := None;
      return false;
    }

    /** A result for the request with this key, if it is the one pending. */
    method Apply(key: nat, code: Code) returns (full: bool)
      requires Inv(Now()) && Enabled(Now(), Report(key, code))
      modifies this`requests, this`pending
      ensures !full && Inv(Now()) && Next(old(Now()), Report(key, code)) == Some(Now())
    {
      StepKeeps(Now(), Report(key, code));
      if pending.None? { return false; }
      if pending.value == key { full := Notify(code); } else { full := false; }
    }

    method Collect() returns (full: bool)
      requires Inv(Now())
      modifies this`requests, this`pending, this`lastGc
      ensures !full && Inv(Now()) && Next(old(Now()), Gc) == Some(Now())
    {
      StepKeeps(Now(), Gc);
      if pending.None? { return false; }
      if Wrap64(tick - lastGc) < gcTick { return false; }
      lastGc := tick;
      if requests[pending.value].deadline < tick { full := Notify(Timeout); } else { full := false; }
    }

    method CloseSlot() returns (full: bool)
      requires Inv(Now())
      modifies this`requests, this`pending, this`open
      ensures !full && Inv(Now()) && Next(old(Now()), Close) == Some(Now())
    {
      StepKeeps(Now(), Close);
      open := false;
      if pending.Some? { full := Notify(Terminated); } else { full := false; }
    }
  }
}
