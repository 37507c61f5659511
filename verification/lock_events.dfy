/** The published events are a complete record of ownership, and the counters
    behind tokens cannot run out early. */
module LockEvents {
  import opened Basics
  import opened SortedStrings
  import opened LockState
  import opened LockInvariant
  import opened LockDrop
  import opened LockRuns

  /** What an observer of a key is shown. */
  datatype Owner = Owner(holder: string, token: nat, value: Value)

  ghost function Owners(s: State): map<string, Owner> {
    map k | k in s.locks :: Owner(s.locks[k].holder, s.locks[k].token, s.locks[k].value)
  }

  ghost function Witness(m: map<string, Owner>, e: Event): map<string, Owner> {
    if e.holder == "" then m - {e.key} else m[e.key := Owner(e.holder, e.token, e.value)]
  }

  /** An observer's table after a sequence of events. */
  ghost function Replay(m: map<string, Owner>, events: seq<Event>): map<string, Owner>
    decreases |events|
  {
    if events == [] then m else Replay(Witness(m, events[0]), events[1..])
  }

  lemma {:induction false} ReplayConcat(m: map<string, Owner>, a: seq<Event>, b: seq<Event>)
    ensures Replay(m, a + b) == Replay(Replay(m, a), b)
    decreases |a|
  {
    if a == [] {
      assert a + b == b;
    } else {
      assert (a + b)[1..] == a[1..] + b;
      ReplayConcat(Witness(m, a[0]), a[1..], b);
    }
  }

  lemma ReplayOne(m: map<string, Owner>, e: Event)
    ensures Replay(m, [e]) == Witness(m, e)
  {}

  lemma {:induction false} SameOwners(s: State, s': State)
    requires s'.locks.Keys == s.locks.Keys
    requires forall k :: k in s.locks ==>
               && s'.locks[k].holder == s.locks[k].holder
               && s'.locks[k].token == s.locks[k].token
               && s'.locks[k].value == s.locks[k].value
    ensures Owners(s') == Owners(s)
  {}

  lemma GrantReplays(s: State, name: string, c: string, value: Value)
    requires c in s.leases && c != ""
    ensures var e := Grant(s, name, c, value);
            Replay(Owners(s), e.events) == Owners(e.state)
  {
    var e := Grant(s, name, c, value);
    ReplayOne(Owners(s), e.events[0]);
    assert Owners(e.state) == Owners(s)[name := Owner(c, s.seqNo + 1, value)];
  }

  lemma FreeReplays(s: State, name: string)
    ensures Replay(Owners(s), [Event(name, "", 0, NoValue, s.revision)]) == Owners(s.(locks := s.locks - {name}))
  {
    ReplayOne(Owners(s), Event(name, "", 0, NoValue, s.revision));
    assert Owners(s.(locks := s.locks - {name})) == Owners(s) - {name};
  }

  lemma {:induction false} PromoteReplays(s: State, name: string)
    requires LocksOk(s) && name in s.locks && "" !in s.leases
    ensures Replay(Owners(s), Promote(s, name).events) == Owners(Promote(s, name).state)
  {
    PromoteHead(s, name);
    var lk := s.locks[name];
    assert LockOk(s, lk);
    if lk.queue == [] {
      FreeReplays(s, name);
    } else {
      var s1 := s.(locks := s.locks[name := lk.(queue := lk.queue[1..])]);
      SameOwners(s, s1);
      GrantReplays(s1, name, lk.queue[0].client, lk.queue[0].value);
    }
  }

  lemma {:induction false} ReleaseEachReplays(s: State, c: string, names: seq<string>, held: set<string>, waiting: set<string>)
    requires Dropping(s, c, held, waiting)
    requires Distinct(names) && Elements(names) == held
    ensures Replay(Owners(s), ReleaseEach(s, c, names).events) == Owners(ReleaseEach(s, c, names).state)
    decreases |names|
  {
    if names != [] {
      var name := names[0];
      assert name in held && Holds(s, name, c);
      var p := Promote(s, name);
      PromoteReplays(s, name);
      PromoteDropping(s, c, name, held, waiting);
      TailNames(names, held);
      ReleaseEachReplays(p.state, c, names[1..], held - {name}, waiting);
      ReplayConcat(Owners(s), p.events, ReleaseEach(p.state, c, names[1..]).events);
    }
  }

  lemma {:induction false} DequeueEachOwners(s: State, c: string, names: seq<string>)
    ensures Owners(DequeueEach(s, c, names)) == Owners(s)
    decreases |names|
  {
    if names != [] {
      var name := names[0];
      if name in s.locks {
        var s1 := s.(locks := s.locks[name := s.locks[name].(queue := Dequeue(s.locks[name].queue, c))]);
        SameOwners(s, s1);
        DequeueEachOwners(s1, c, names[1..]);
      } else {
        DequeueEachOwners(s, c, names[1..]);
      }
    }
  }

  lemma DropReplays(s: State, c: string)
    requires Inv(s) && c in s.leases
    ensures Replay(Owners(s), DropLease(s, c).events) == Owners(DropLease(s, c).state)
  {
    var held, waiting := s.leases[c].held, s.leases[c].waiting;
    IndexSets(s, c);
    AscendingDistinct(Sorted(held));
    ReleaseEachReplays(s, c, Sorted(held), held, waiting);
    ReleaseEachDrops(s, c, Sorted(held), held, waiting);
    var s1 := ReleaseEach(s, c, Sorted(held)).state;
    DequeueEachOwners(s1, c, Sorted(waiting));
    SameOwners(DequeueEach(s1, c, Sorted(waiting)), DropLease(s, c).state);
  }

  lemma ReleaseReplays(s: State, name: string, c: string, token: nat)
    requires Inv(s)
    ensures Replay(Owners(s), Release(s, name, c, token).events) == Owners(Release(s, name, c, token).state)
  {
    if HeldBy(s, name, c) && s.locks[name].token == token {
      var s1 := Unhold(s, name, c);
      UnholdOk(s, name, c);
      SameOwners(s, s1);
      PromoteReplays(s1, name);
    }
  }

  lemma {:induction false} HeldReplays(s: State, r: Applied)
    requires r.events == [] && r.state.locks.Keys == s.locks.Keys
    requires forall k :: k in s.locks ==> r.state.locks[k] == s.locks[k].(queue := r.state.locks[k].queue)
    ensures Replay(Owners(s), r.events) == Owners(r.state)
  {
    SameOwners(s, r.state);
  }

  lemma {:induction false} AcquireReplays(s: State, name: string, c: string, value: Value, try: bool)
    requires Inv(s)
    ensures Replay(Owners(s), Acquire(s, name, c, value, try).events) == Owners(Acquire(s, name, c, value, try).state)
  {
    if name in s.locks { assert LockOk(s, s.locks[name]); }
    if c in s.leases && name !in s.locks {
      GrantReplays(s, name, c, value);
    } else {
      AcquireHeldShape(s, name, c, value, try);
      HeldReplays(s, Acquire(s, name, c, value, try));
    }
  }

  lemma PublishReplays(s: State, name: string, c: string, token: nat, value: Value)
    ensures Replay(Owners(s), Publish(s, name, c, token, value).events) == Owners(Publish(s, name, c, token, value).state)
  {
    var r := Publish(s, name, c, token, value);
    if r.events != [] {
      ReplayOne(Owners(s), r.events[0]);
      assert Owners(r.state) == Owners(s)[name := Owner(c, token, value)];
    }
  }

  lemma {:induction false} ExecuteReplays(s: State, cmd: Command)
    requires Inv(s)
    ensures Replay(Owners(s), Execute(s, cmd).events) == Owners(Execute(s, cmd).state)
  {
    match cmd
    case AcquireLock(name, c, try) => AcquireReplays(s, name, c, NoValue, try);
    case Campaign(name, c, value) => AcquireReplays(s, name, c, value, false);
    case ReleaseLock(name, c, token) => ReleaseReplays(s, name, c, token);
    case Resign(name, c, token) => ReleaseReplays(s, name, c, token);
    case Proclaim(name, c, token, value) => PublishReplays(s, name, c, token, value);
    case LeaseRevoke(c) => if c in s.leases { DropReplays(s, c); }
    case LeaseExpire(c, now) => if c in s.leases && now >= s.leases[c].expireAt { DropReplays(s, c); }
    case _ => HeldReplays(s, Execute(s, cmd));
  }

  /** An observer that starts from the current table and applies every event in
      order always has the current table. */
  lemma {:induction false} EventsReplayOwnership(s: State, log: seq<Command>)
    requires Inv(s) && NamesClients(log)
    ensures Replay(Owners(s), Events(s, log)) == Owners(After(s, log))
    decreases |log|
  {
    if log != [] {
      var s1 := Step(s, log[0]).state;
      Retick(s);
      SameOwners(s, Tick(s));
      ExecuteReplays(Tick(s), log[0]);
      StepKeepsInv(s, log[0]);
      EventsReplayOwnership(s1, log[1..]);
      ReplayConcat(Owners(s), Step(s, log[0]).events, Events(s1, log[1..]));
    }
  }

  // ---------------------------------------------------------------- counters

  /** All waiters of all keys. */
  ghost function Backlog(m: map<string, Lock>): nat
    decreases |m|
  {
    if m == map[] then 0
    else
      var k :| k in m;
      |m[k].queue| + Backlog(m - {k})
  }

  lemma {:induction false} BacklogSplit(m: map<string, Lock>, k: string)
    requires k in m
    ensures Backlog(m) == |m[k].queue| + Backlog(m - {k})
    decreases |m|
  {
    var j :| j in m && Backlog(m) == |m[j].queue| + Backlog(m - {j});
    if j != k {
      BacklogSplit(m - {j}, k);
      BacklogSplit(m - {k}, j);
      assert m - {j} - {k} == m - {k} - {j};
    }
  }

  lemma BacklogSet(m: map<string, Lock>, k: string, lk: Lock)
    ensures Backlog(m[k := lk]) == Backlog(m) + |lk.queue| - (if k in m then |m[k].queue| else 0)
  {
    var m' := m[k := lk];
    BacklogSplit(m', k);
    assert m' - {k} == m - {k};
    if k in m { BacklogSplit(m, k); }
    else { assert m - {k} == m; }
  }

  /** Sequence numbers handed out plus waiters still to be promoted. */
  ghost function Spent(s: State): nat {
    s.seqNo + Backlog(s.locks)
  }

  lemma PromoteSpends(s: State, name: string)
    requires LocksOk(s) && name in s.locks
    ensures Spent(Promote(s, name).state) == Spent(s)
  {
    PromoteHead(s, name);
    var lk := s.locks[name];
    assert LockOk(s, lk);
    if lk.queue == [] {
      BacklogSplit(s.locks, name);
    } else {
      var s1 := s.(locks := s.locks[name := lk.(queue := lk.queue[1..])]);
      BacklogSet(s.locks, name, s1.locks[name]);
      BacklogSet(s1.locks, name, Promote(s, name).state.locks[name]);
    }
  }

  lemma {:induction false} ReleaseEachSpends(s: State, c: string, names: seq<string>, held: set<string>, waiting: set<string>)
    requires Dropping(s, c, held, waiting)
    requires Distinct(names) && Elements(names) == held
    ensures Spent(ReleaseEach(s, c, names).state) == Spent(s)
    decreases |names|
  {
    if names != [] {
      var name := names[0];
      assert name in held && Holds(s, name, c);
      PromoteSpends(s, name);
      PromoteDropping(s, c, name, held, waiting);
      TailNames(names, held);
      ReleaseEachSpends(Promote(s, name).state, c, names[1..], held - {name}, waiting);
    }
  }

  lemma {:induction false} DequeueEachSpends(s: State, c: string, names: seq<string>)
    ensures Spent(DequeueEach(s, c, names)) <= Spent(s)
    decreases |names|
  {
    if names != [] {
      var name := names[0];
      if name in s.locks {
        var lk := s.locks[name].(queue := Dequeue(s.locks[name].queue, c));
        BacklogSet(s.locks, name, lk);
        DequeueEachSpends(s.(locks := s.locks[name := lk]), c, names[1..]);
      } else {
        DequeueEachSpends(s, c, names[1..]);
      }
    }
  }

  lemma DropSpends(s: State, c: string)
    requires Inv(s) && c in s.leases
    ensures Spent(DropLease(s, c).state) <= Spent(s)
  {
    var held, waiting := s.leases[c].held, s.leases[c].waiting;
    IndexSets(s, c);
    AscendingDistinct(Sorted(held));
    ReleaseEachSpends(s, c, Sorted(held), held, waiting);
    ReleaseEachDrops(s, c, Sorted(held), held, waiting);
    DequeueEachSpends(ReleaseEach(s, c, Sorted(held)).state, c, Sorted(waiting));
  }

  lemma {:induction false} AcquireSpends(s: State, name: string, c: string, value: Value, try: bool)
    ensures Spent(Acquire(s, name, c, value, try).state) <= Spent(s) + 2
  {
    var s' := Acquire(s, name, c, value, try).state;
    if s' != s { BacklogSet(s.locks, name, s'.locks[name]); }
  }

  lemma {:induction false} ExecuteSpends(s: State, cmd: Command)
    requires Inv(s)
    ensures Spent(Execute(s, cmd).state) <= Spent(s) + 2
  {
    var s' := Execute(s, cmd).state;
    if cmd.AcquireLock? {
      AcquireSpends(s, cmd.name, cmd.client, NoValue, cmd.tryLock);
    } else if cmd.Campaign? {
      AcquireSpends(s, cmd.name, cmd.client, cmd.value, false);
    } else if cmd.ReleaseLock? || cmd.Resign? {
      if s' != s {
        UnholdOk(s, cmd.name, cmd.client);
        PromoteSpends(Unhold(s, cmd.name, cmd.client), cmd.name);
      }
    } else if cmd.CancelWait? || cmd.Proclaim? {
      if s' != s { BacklogSet(s.locks, cmd.name, s'.locks[cmd.name]); }
    } else if (cmd.LeaseRevoke? || cmd.LeaseExpire?) && s' != s {
      DropSpends(s, cmd.client);
    }
  }

  /** However many keys a dropped lease passes on at once, the counter behind
      fencing tokens never outruns twice the number of commands, so within 2^63
      commands it stays a 64-bit number and never wraps. */
  lemma {:induction false} TokensOutlastLog(s: State, log: seq<Command>)
    requires Inv(s) && NamesClients(log)
    ensures Spent(After(s, log)) <= Spent(s) + 2 * |log|
    ensures s == EMPTY && |log| < 0x8000_0000_0000_0000 ==> After(s, log).seqNo < 0x1_0000_0000_0000_0000
    decreases |log|
  {
    if log != [] {
      Retick(s);
      ExecuteSpends(Tick(s), log[0]);
      StepKeepsInv(s, log[0]);
      TokensOutlastLog(Step(s, log[0]).state, log[1..]);
    }
  }
}
