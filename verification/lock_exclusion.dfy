/** Mutual exclusion as clients see it. A client's belief that it holds a key is
    worked out from replies and published events alone, without looking at the
    lock table; the theorem is that these beliefs are the lock table. */
module LockExclusion {
  import opened Basics
  import opened SortedStrings
  import opened LockState
  import opened LockInvariant
  import opened LockDrop
  import opened LockRuns

  /** "client believes it holds key" */
  datatype Claim = Claim(key: string, client: string)

  ghost function Holders(s: State): set<Claim> {
    set k | k in s.locks :: Claim(k, s.locks[k].holder)
  }

  /** A client learns of a promotion from the event that names it. */
  ghost function Learned(events: seq<Event>): set<Claim> {
    set e | e in events && e.holder != "" :: Claim(e.key, e.holder)
  }

  /** A client learns of a grant from the reply to its own command. */
  ghost function Told(cmd: Command, reply: Reply): set<Claim> {
    if (cmd.AcquireLock? || cmd.Campaign?) && reply.Ok? && reply.result.outcome == Granted
    then {Claim(reply.result.key, cmd.client)} else {}
  }

  /** A client stops believing when its own release is confirmed, or when its
      lease is gone. It never loses a belief because of somebody else's event. */
  ghost predicate GivesUp(cmd: Command, reply: Reply, claim: Claim) {
    reply.Ok? &&
    match cmd
    case ReleaseLock(name, c, _) => reply.result.outcome == Released && claim == Claim(name, c)
    case Resign(name, c, _) => reply.result.outcome == Released && claim == Claim(name, c)
    case LeaseRevoke(c) => reply.result.outcome == LeaseRevoked && claim.client == c
    case LeaseExpire(c, _) => reply.result.outcome == LeaseExpired && claim.client == c
    case _ => false
  }

  ghost function Retained(claims: set<Claim>, cmd: Command, reply: Reply): set<Claim> {
    set x | x in claims && !GivesUp(cmd, reply, x)
  }

  ghost function Observe(claims: set<Claim>, cmd: Command, r: Applied): set<Claim> {
    Retained(claims, cmd, r.reply) + Learned(r.events) + Told(cmd, r.reply)
  }

  /** The claims of everyone but `c`. */
  ghost function Without(claims: set<Claim>, c: string): set<Claim> {
    set x | x in claims && x.client != c
  }

  /** Everyone's beliefs after a log, starting from `claims`. */
  ghost function Believed(claims: set<Claim>, s: State, log: seq<Command>): set<Claim>
    decreases |log|
  {
    if log == [] then claims
    else Believed(Observe(claims, log[0], Step(s, log[0])), Step(s, log[0]).state, log[1..])
  }

  lemma InHolders(s: State, x: Claim)
    ensures x in Holders(s) <==> x.key in s.locks && x.client == s.locks[x.key].holder
  {}

  lemma LearnedOne(e: Event)
    ensures Learned([e]) == if e.holder == "" then {} else {Claim(e.key, e.holder)}
  {
    assert e in [e];
  }

  /** Changing the holder of one key changes the claims on that key only. */
  lemma Rehold(s: State, s': State, name: string)
    requires s'.locks - {name} == s.locks - {name}
    ensures Holders(s') ==
            (set x | x in Holders(s) && x.key != name)
            + (if name in s'.locks then {Claim(name, s'.locks[name].holder)} else {})
  {
    var want := (set x | x in Holders(s) && x.key != name)
                + (if name in s'.locks then {Claim(name, s'.locks[name].holder)} else {});
    forall x ensures x in Holders(s') <==> x in want {
      InHolders(s, x);
      InHolders(s', x);
      if x.key != name {
        assert x.key in s'.locks <==> x.key in s'.locks - {name};
        assert x.key in s.locks <==> x.key in s.locks - {name};
        if x.key in s.locks { assert s'.locks[x.key] == (s'.locks - {name})[x.key] == (s.locks - {name})[x.key]; }
      }
    }
  }

  lemma PromoteClaims(s: State, name: string)
    requires LocksOk(s) && name in s.locks && "" !in s.leases
    ensures var e := Promote(s, name);
            Holders(e.state) == Holders(s) - {Claim(name, s.locks[name].holder)} + Learned(e.events)
    ensures Foreign(Learned(Promote(s, name).events), s.locks[name].holder)
  {
    PromoteHead(s, name);
    var lk := s.locks[name];
    assert LockOk(s, lk);
    var e := Promote(s, name);
    LearnedOne(e.events[0]);
    Rehold(s, e.state, name);
    forall x ensures x in Holders(s) && x.key != name <==> x in Holders(s) - {Claim(name, lk.holder)} {
      InHolders(s, x);
    }
  }

  lemma LearnedConcat(a: seq<Event>, b: seq<Event>)
    ensures Learned(a + b) == Learned(a) + Learned(b)
  {}

  ghost predicate Foreign(claims: set<Claim>, c: string) {
    forall x :: x in claims ==> x.client != c
  }

  lemma PassOnClaims(h: set<Claim>, h1: set<Claim>, h2: set<Claim>, c: string, key: string, l1: set<Claim>, l2: set<Claim>)
    requires h1 == h - {Claim(key, c)} + l1 && Foreign(l1, c)
    requires h2 == Without(h1, c) + l2
    ensures h2 == Without(h, c) + (l1 + l2)
  {}

  /** Passing on all of a client's keys removes its claims and adds those of the
      promoted clients. */
  lemma {:induction false} ReleaseEachClaims(s: State, c: string, names: seq<string>, held: set<string>, waiting: set<string>)
    requires Dropping(s, c, held, waiting)
    requires Distinct(names) && Elements(names) == held
    ensures var e := ReleaseEach(s, c, names);
            && Holders(e.state) == Without(Holders(s), c) + Learned(e.events)
            && Foreign(Learned(e.events), c)
    decreases |names|
  {
    var e := ReleaseEach(s, c, names);
    if names == [] {
      assert held == {};
      forall x | x in Holders(s) ensures x.client != c { assert !Holds(s, x.key, c); }
      assert Learned(e.events) == {};
    } else {
      var name := names[0];
      assert name in held && Holds(s, name, c);
      var p := Promote(s, name);
      PromoteClaims(s, name);
      PromoteDropping(s, c, name, held, waiting);
      TailNames(names, held);
      ReleaseEachClaims(p.state, c, names[1..], held - {name}, waiting);
      var rest := ReleaseEach(p.state, c, names[1..]);
      LearnedConcat(p.events, rest.events);
      PassOnClaims(Holders(s), Holders(p.state), Holders(rest.state), c, name, Learned(p.events), Learned(rest.events));
      assert e == Effect(rest.state, p.events + rest.events);
    }
  }

  lemma {:induction false} SameHolders(s: State, s': State)
    requires s'.locks.Keys == s.locks.Keys
    requires forall k :: k in s.locks ==> s'.locks[k].holder == s.locks[k].holder
    ensures Holders(s') == Holders(s)
  {
    forall x ensures x in Holders(s') <==> x in Holders(s) {
      assert x in Holders(s) <==> x.key in s.locks && x.client == s.locks[x.key].holder;
      assert x in Holders(s') <==> x.key in s'.locks && x.client == s'.locks[x.key].holder;
    }
  }

  lemma {:induction false} DequeueEachHolders(s: State, c: string, names: seq<string>)
    ensures Holders(DequeueEach(s, c, names)) == Holders(s)
    decreases |names|
  {
    if names != [] {
      var name := names[0];
      if name in s.locks {
        var s1 := s.(locks := s.locks[name := s.locks[name].(queue := Dequeue(s.locks[name].queue, c))]);
        SameHolders(s, s1);
        DequeueEachHolders(s1, c, names[1..]);
      } else {
        DequeueEachHolders(s, c, names[1..]);
      }
    }
  }

  lemma DropClaims(s: State, c: string)
    requires Inv(s) && c in s.leases
    ensures var e := DropLease(s, c);
            Holders(e.state) == Without(Holders(s), c) + Learned(e.events)
  {
    var held, waiting := s.leases[c].held, s.leases[c].waiting;
    IndexSets(s, c);
    AscendingDistinct(Sorted(held));
    ReleaseEachClaims(s, c, Sorted(held), held, waiting);
    ReleaseEachDrops(s, c, Sorted(held), held, waiting);
    var s1 := ReleaseEach(s, c, Sorted(held)).state;
    var s2 := DequeueEach(s1, c, Sorted(waiting));
    DequeueEachHolders(s1, c, Sorted(waiting));
    SameHolders(s2, DropLease(s, c).state);
  }

  lemma GrantFreeClaims(s: State, name: string, c: string, value: Value)
    requires c in s.leases && name !in s.locks && c != ""
    ensures var e := Grant(s, name, c, value);
            Learned(e.events) == {Claim(name, c)} && Holders(e.state) == Holders(s) + {Claim(name, c)}
  {
    var e := Grant(s, name, c, value);
    LearnedOne(e.events[0]);
    Rehold(s, e.state, name);
    forall x | x in Holders(s) ensures x.key != name { InHolders(s, x); }
  }

  lemma {:induction false} AcquireClaims(s: State, name: string, c: string, value: Value, try: bool)
    requires Inv(s)
    ensures var r := Acquire(s, name, c, value, try);
            Holders(r.state) == Holders(s) + Learned(r.events)
            + (if r.reply.result.outcome == Granted then {Claim(r.reply.result.key, c)} else {})
  {
    if name in s.locks { assert LockOk(s, s.locks[name]); }
    if c in s.leases && name !in s.locks {
      GrantFreeClaims(s, name, c, value);
    } else {
      AcquireHeldShape(s, name, c, value, try);
      SameHolders(s, Acquire(s, name, c, value, try).state);
      InHolders(s, Claim(name, c));
    }
  }

  lemma ReleaseClaims(s: State, name: string, c: string, token: nat)
    requires Inv(s)
    ensures var r := Release(s, name, c, token);
            Holders(r.state) ==
            (if r.reply.result.outcome == Released then Holders(s) - {Claim(name, c)} else Holders(s)) + Learned(r.events)
  {
    if HeldBy(s, name, c) && s.locks[name].token == token {
      var s1 := Unhold(s, name, c);
      UnholdOk(s, name, c);
      PromoteClaims(s1, name);
      SameHolders(s, s1);
    } else {
      assert Learned(Release(s, name, c, token).events) == {};
    }
  }

  lemma PublishClaims(s: State, name: string, c: string, token: nat, value: Value)
    requires Inv(s)
    ensures var r := Publish(s, name, c, token, value);
            Holders(r.state) == Holders(s) + Learned(r.events)
  {
    var r := Publish(s, name, c, token, value);
    SameHolders(s, r.state);
    if HeldBy(s, name, c) && s.locks[name].token == token {
      InHolders(s, Claim(name, c));
      LearnedOne(r.events[0]);
    }
  }

  /** Nothing is given up by commands other than releases and lease drops. */
  lemma RetainsAll(claims: set<Claim>, cmd: Command, reply: Reply)
    requires !cmd.ReleaseLock? && !cmd.Resign? && !cmd.LeaseRevoke? && !cmd.LeaseExpire?
    ensures Retained(claims, cmd, reply) == claims
  {}

  lemma RetainsAfterRelease(claims: set<Claim>, cmd: Command, reply: Reply)
    requires (cmd.ReleaseLock? || cmd.Resign?) && reply.Ok?
    ensures Retained(claims, cmd, reply) ==
            if reply.result.outcome == Released then claims - {Claim(cmd.name, cmd.client)} else claims
  {}

  lemma RetainsAfterDrop(claims: set<Claim>, cmd: Command, reply: Reply)
    requires (cmd.LeaseRevoke? || cmd.LeaseExpire?) && reply.Ok?
    ensures reply.result.outcome == (if cmd.LeaseRevoke? then LeaseRevoked else LeaseExpired) ==>
              Retained(claims, cmd, reply) == Without(claims, cmd.client)
    ensures reply.result.outcome != (if cmd.LeaseRevoke? then LeaseRevoked else LeaseExpired) ==>
              Retained(claims, cmd, reply) == claims
  {}

  lemma ObserveDrop(s: State, cmd: Command)
    requires Inv(s) && (cmd.LeaseRevoke? || cmd.LeaseExpire?)
    ensures Observe(Holders(s), cmd, Execute(s, cmd)) == Holders(Execute(s, cmd).state)
  {
    var r := Execute(s, cmd);
    RetainsAfterDrop(Holders(s), cmd, r.reply);
    if r.reply.result.outcome == LeaseRevoked || r.reply.result.outcome == LeaseExpired {
      DropClaims(s, cmd.client);
    }
  }

  lemma {:induction false} ObserveAcquire(s: State, cmd: Command, value: Value, try: bool)
    requires Inv(s) && (cmd.AcquireLock? || cmd.Campaign?)
    requires Execute(s, cmd) == Acquire(s, cmd.name, cmd.client, value, try)
    ensures Observe(Holders(s), cmd, Execute(s, cmd)) == Holders(Execute(s, cmd).state)
  {
    RetainsAll(Holders(s), cmd, Execute(s, cmd).reply);
    AcquireClaims(s, cmd.name, cmd.client, value, try);
  }

  lemma {:induction false} ObserveRelease(s: State, cmd: Command)
    requires Inv(s) && (cmd.ReleaseLock? || cmd.Resign?)
    ensures Observe(Holders(s), cmd, Execute(s, cmd)) == Holders(Execute(s, cmd).state)
  {
    RetainsAfterRelease(Holders(s), cmd, Execute(s, cmd).reply);
    ReleaseClaims(s, cmd.name, cmd.client, cmd.token);
  }

  lemma {:induction false} ObserveOther(s: State, cmd: Command)
    requires cmd.CancelWait? || cmd.LeaseGrant? || cmd.LeaseKeepAlive? || cmd.Unset?
    ensures Observe(Holders(s), cmd, Execute(s, cmd)) == Holders(Execute(s, cmd).state)
  {
    RetainsAll(Holders(s), cmd, Execute(s, cmd).reply);
    SameHolders(s, Execute(s, cmd).state);
  }

  lemma ObserveExecute(s: State, cmd: Command)
    requires Inv(s)
    ensures Observe(Holders(s), cmd, Execute(s, cmd)) == Holders(Execute(s, cmd).state)
  {
    match cmd
    case AcquireLock(_, _, try) => ObserveAcquire(s, cmd, NoValue, try);
    case Campaign(_, _, value) => ObserveAcquire(s, cmd, value, false);
    case ReleaseLock(_, _, _) => ObserveRelease(s, cmd);
    case Resign(_, _, _) => ObserveRelease(s, cmd);
    case Proclaim(name, c, token, value) =>
      RetainsAll(Holders(s), cmd, Execute(s, cmd).reply);
      PublishClaims(s, name, c, token, value);
    case LeaseRevoke(_) => ObserveDrop(s, cmd);
    case LeaseExpire(_, _) => ObserveDrop(s, cmd);
    case _ => ObserveOther(s, cmd);
  }

  /** One command: beliefs that matched the lock table still do. */
  lemma ObserveStep(s: State, cmd: Command)
    requires Inv(s)
    ensures Observe(Holders(s), cmd, Step(s, cmd)) == Holders(Step(s, cmd).state)
  {
    Retick(s);
    SameHolders(s, Tick(s));
    ObserveExecute(Tick(s), cmd);
  }

  lemma {:induction false} BeliefIsOwnership(s: State, log: seq<Command>)
    requires Inv(s) && NamesClients(log)
    ensures Believed(Holders(s), s, log) == Holders(After(s, log))
    decreases |log|
  {
    if log != [] {
      StepKeepsInv(s, log[0]);
      ObserveStep(s, log[0]);
      BeliefIsOwnership(Step(s, log[0]).state, log[1..]);
    }
  }

  ghost predicate Exclusive(claims: set<Claim>) {
    forall x, y :: x in claims && y in claims && x.key == y.key ==> x == y
  }

  /** Mutual exclusion: after any log from an empty shard, no two clients believe
      they hold the same key. */
  lemma MutualExclusion(log: seq<Command>)
    requires NamesClients(log)
    ensures Exclusive(Believed({}, EMPTY, log))
    ensures Believed({}, EMPTY, log) == Holders(After(EMPTY, log))
  {
    assert Inv(EMPTY);
    BeliefIsOwnership(EMPTY, log);
    assert Holders(EMPTY) == {};
  }

  // ------------------------------------------------------- the client named ""

  /** Two leases, one for "", and both clients ask for the key. */
  ghost function BothAsk(k: string, b: string): seq<Command> {
    [LeaseGrant(b, 1, 0), AcquireLock(k, "", false), AcquireLock(k, b, false)]
  }

  lemma BelievedFirst(claims: set<Claim>, s: State, cmd: Command, rest: seq<Command>)
    ensures Believed(claims, s, [cmd] + rest) == Believed(Observe(claims, cmd, Step(s, cmd)), Step(s, cmd).state, rest)
  {
    assert ([cmd] + rest)[1..] == rest;
  }

  /** A lease for "" makes every key that is not held grantable to two clients: to "" and
      to anyone else, with nobody giving it up. */
  lemma EmptyClientBreaksExclusion(s: State, ttl: int, now: int, k: string, b: string)
    requires k !in s.locks && b != ""
    ensures var believed := Believed(Holders(s), s, [LeaseGrant("", ttl, now)] + BothAsk(k, b));
            Claim(k, "") in believed && Claim(k, b) in believed && !Exclusive(believed)
  {
    var grant := LeaseGrant("", ttl, now);
    var s1, c1 := Step(s, grant).state, Observe(Holders(s), grant, Step(s, grant));
    LeaseStep(s, "", ttl, now);
    BelievedFirst(Holders(s), s, grant, BothAsk(k, b));
    SecondLease(c1, s1, k, b);
  }

  lemma LeaseStep(s: State, c: string, ttl: int, now: int)
    ensures var t := Step(s, LeaseGrant(c, ttl, now)).state; t.locks == s.locks && t.leases.Keys == s.leases.Keys + {c}
  {}

  lemma SecondLease(claims: set<Claim>, s: State, k: string, b: string)
    requires "" in s.leases && k !in s.locks && b != ""
    ensures var believed := Believed(claims, s, BothAsk(k, b)); Claim(k, "") in believed && Claim(k, b) in believed
  {
    var lease, ask := LeaseGrant(b, 1, 0), [AcquireLock(k, "", false), AcquireLock(k, b, false)];
    assert BothAsk(k, b) == [lease] + ask;
    LeaseStep(s, b, 1, 0);
    BelievedFirst(claims, s, lease, ask);
    TwoGrants(Observe(claims, lease, Step(s, lease)), Step(s, lease).state, k, b);
  }

  lemma TwoGrants(claims: set<Claim>, s: State, k: string, b: string)
    requires "" in s.leases && b in s.leases && b != "" && k !in s.locks
    ensures var believed := Believed(claims, s, [AcquireLock(k, "", false), AcquireLock(k, b, false)]);
            Claim(k, "") in believed && Claim(k, b) in believed
  {
    var first, second := AcquireLock(k, "", false), AcquireLock(k, b, false);
    var r := Step(s, first);
    assert [first, second] == [first] + [second];
    BelievedFirst(claims, s, first, [second]);
    var c := Observe(claims, first, r);
    assert Claim(k, "") in Told(first, r.reply);
    assert r.state.locks[k].holder == "";
    var q := Step(r.state, second);
    BelievedFirst(c, r.state, second, []);
    assert [second] == [second] + [];
    assert Claim(k, b) in Told(second, q.reply);
    RetainsAll(c, second, q.reply);
  }

  /** A string longer than all of these. */
  lemma {:induction false} FreshKey(keys: set<string>) returns (k: string)
    ensures k !in keys && forall x :: x in keys ==> |x| < |k|
    decreases |keys|
  {
    if keys == {} {
      k := "k";
    } else {
      var x :| x in keys;
      var longer := FreshKey(keys - {x});
      k := longer + x + "k";
      forall y | y in keys ensures |y| < |k| { assert y == x || y in keys - {x}; }
    }
  }

  /** Whatever commands that name their clients follow, beliefs stay exclusive. */
  ghost predicate StaysExclusive(s: State, cmd: Command) {
    forall log :: NamesClients(log) ==> Exclusive(Believed(Holders(s), s, [cmd] + log))
  }

  /** In a good state, that is so if and only if the command does not grant a lease to
      the client named "". */
  lemma ExclusiveIffNamed(s: State, cmd: Command)
    requires Inv(s)
    ensures StaysExclusive(s, cmd) <==> NamesClient(cmd)
  {
    if NamesClient(cmd) {
      forall log | NamesClients(log) ensures Exclusive(Believed(Holders(s), s, [cmd] + log)) {
        BeliefIsOwnership(s, [cmd] + log);
      }
    } else {
      var k := FreshKey(s.locks.Keys);
      EmptyClientBreaksExclusion(s, cmd.ttl, cmd.now, k, "b");
      assert NamesClients(BothAsk(k, "b"));
    }
  }
}
