/** Theorems over every log of committed commands: mutual exclusion, fencing,
    first-come-first-served, and the events that report them. */
module LockRuns {
  import opened SortedStrings
  import opened LockState
  import opened LockInvariant
  import opened LockDrop

  /** A lease for a client named "" would make a held key look free. */
  predicate NamesClient(cmd: Command) {
    cmd.LeaseGrant? ==> cmd.client != ""
  }

  ghost predicate NamesClients(log: seq<Command>) {
    forall i :: 0 <= i < |log| ==> NamesClient(log[i])
  }

  lemma Retick(s: State)
    requires Inv(s)
    ensures Inv(Tick(s))
  {
    var s' := Tick(s);
    forall k | k in s'.locks ensures LockOk(s', s'.locks[k]) { LockStaysOk(s, s', s.locks[k]); }
    forall d | d in s'.leases ensures Indexed(s', d) {
      forall k ensures IndexedAt(s', k, d) { assert IndexedAt(s, k, d); }
    }
  }

  lemma AcquireKeeps(s: State, name: string, c: string, value: Value, try: bool)
    requires Inv(s)
    ensures Inv(Acquire(s, name, c, value, try).state)
  {
    if c in s.leases {
      if name !in s.locks {
        GrantFreeKeeps(s, name, c, value);
      } else {
        assert LockOk(s, s.locks[name]);
        if s.locks[name].holder != c && !try && name !in s.leases[c].waiting {
          EnqueueKeeps(s, name, c, value);
        }
      }
    }
  }

  lemma {:induction false} ExecuteKeeps(s: State, cmd: Command)
    requires Inv(s)
    ensures NamesClient(cmd) ==> Inv(Execute(s, cmd).state)
  {
    match cmd
    case AcquireLock(name, c, try) => AcquireKeeps(s, name, c, NoValue, try);
    case Campaign(name, c, value) => AcquireKeeps(s, name, c, value, false);
    case ReleaseLock(name, c, token) => ReleaseKeeps(s, name, c, token);
    case Resign(name, c, token) => ReleaseKeeps(s, name, c, token);
    case CancelWait(name, c) => CancelKeeps(s, name, c);
    case Proclaim(name, c, token, value) => PublishKeeps(s, name, c, token, value);
    case LeaseGrant(c, ttl, now) => if c != "" { LeaseKeeps(s, GrantLease(s, c, ttl, now).state, c); }
    case LeaseKeepAlive(c, now) => if c in s.leases { LeaseKeeps(s, KeepAlive(s, c, now).state, c); }
    case LeaseRevoke(c) => if c in s.leases { DropLeaseEffect(s, c); }
    case LeaseExpire(c, now) => if c in s.leases { DropLeaseEffect(s, c); }
    case Unset =>
  }

  /** Every command keeps the invariant, except exactly a lease for client "". */
  lemma StepKeepsInv(s: State, cmd: Command)
    requires Inv(s)
    ensures Inv(Step(s, cmd).state) <==> NamesClient(cmd)
  {
    Retick(s);
    ExecuteKeeps(Tick(s), cmd);
  }

  lemma {:induction false} RunKeepsInv(s: State, log: seq<Command>)
    requires Inv(s) && NamesClients(log)
    ensures Inv(After(s, log))
    decreases |log|
  {
    if log != [] {
      StepKeepsInv(s, log[0]);
      RunKeepsInv(Step(s, log[0]).state, log[1..]);
    }
  }

  // ---------------------------------------------------------------- ownership over time

  /** The same ownership: same holder under the same token. */
  ghost predicate SameTenure(s: State, k: string, s': State) {
    && k in s.locks && k in s'.locks
    && s'.locks[k].holder == s.locks[k].holder
    && s'.locks[k].token == s.locks[k].token
  }

  /** In the queue of `k`, a client of an older waiter than `w`. */
  ghost predicate AheadOf(s: State, k: string, w: Waiter, c: string)
    requires k in s.locks
  {
    exists v :: v in s.locks[k].queue && v.seqNo < w.seqNo && v.client == c
  }

  /** How key `k` may look in a later state: the same tenure or one with a newer
      token; only waiters that were there before or came since; and nobody who
      was behind a waiter became holder while that waiter still waits. */
  ghost predicate KeyEvolves(s: State, k: string, s': State)
    requires k in s'.locks
  {
    && (SameTenure(s, k, s') || s'.locks[k].token > s.seqNo)
    && (forall w :: w in s'.locks[k].queue ==>
          w.seqNo > s.seqNo || (k in s.locks && w in s.locks[k].queue))
    && (forall w :: k in s.locks && w in s'.locks[k].queue && w in s.locks[k].queue ==>
          s'.locks[k].holder == s.locks[k].holder || AheadOf(s, k, w, s'.locks[k].holder))
  }

  ghost predicate Evolves(s: State, s': State) {
    && s.seqNo <= s'.seqNo
    && forall k :: k in s'.locks ==> KeyEvolves(s, k, s')
  }

  lemma KeyEvolvesTransitive(s: State, t: State, u: State, k: string)
    requires Inv(s) && Inv(t) && Evolves(s, t) && Evolves(t, u) && k in u.locks
    ensures KeyEvolves(s, k, u)
  {
    assert KeyEvolves(t, k, u);
    if k in t.locks { assert KeyEvolves(s, k, t); }
    forall w | k in s.locks && w in u.locks[k].queue && w in s.locks[k].queue
      ensures u.locks[k].holder == s.locks[k].holder || AheadOf(s, k, w, u.locks[k].holder)
    {
      assert LockOk(s, s.locks[k]);
      assert w.seqNo <= s.seqNo;
      assert k in t.locks && w in t.locks[k].queue;
      if u.locks[k].holder != t.locks[k].holder {
        var v :| v in t.locks[k].queue && v.seqNo < w.seqNo && v.client == u.locks[k].holder;
        assert v in s.locks[k].queue;
      }
    }
  }

  lemma EvolvesTransitive(s: State, t: State, u: State)
    requires Inv(s) && Inv(t) && Evolves(s, t) && Evolves(t, u)
    ensures Evolves(s, u)
  {
    forall k | k in u.locks ensures KeyEvolves(s, k, u) {
      KeyEvolvesTransitive(s, t, u, k);
    }
  }

  lemma KeptEvolves(s: State, k: string, s': State)
    requires Kept(s, k, s') && k in s'.locks
    ensures KeyEvolves(s, k, s')
  {}

  lemma PassedEvolves(s: State, k: string, s': State)
    requires k in s.locks && LockOk(s, s.locks[k]) && Passed(s, k, s') && k in s'.locks
    ensures KeyEvolves(s, k, s')
  {
    var q := s.locks[k].queue;
    forall w | w in q[1..] ensures AheadOf(s, k, w, q[0].client) {
      assert q[0] in q;
    }
  }

  lemma {:induction false} DequeuedEvolves(s: State, c: string, k: string, s': State)
    requires k in s.locks && k in s'.locks
    requires s'.locks[k] == s.locks[k].(queue := Dequeue(s.locks[k].queue, c))
    ensures KeyEvolves(s, k, s')
  {
    var q := s.locks[k].queue;
    if QueuePos(q, c) > 0 { DequeueAt(q, c, QueuePos(q, c)); }
  }

  lemma PromoteEvolves(s: State, s1: State, name: string)
    requires LocksOk(s) && name in s.locks
    requires s1.locks == s.locks && s1.seqNo == s.seqNo && s1.leases.Keys == s.leases.Keys
    ensures Evolves(s, Promote(s1, name).state)
  {
    var s' := Promote(s1, name).state;
    assert LocksOk(s1) by {
      forall k | k in s1.locks ensures LockOk(s1, s1.locks[k]) { LockStaysOk(s, s1, s.locks[k]); }
    }
    PromotePasses(s1, name);
    assert LockOk(s, s.locks[name]);
    PromoteFrame(s1, name, s.locks[name].holder);
    forall k | k in s'.locks ensures KeyEvolves(s, k, s') {
      if k == name { PassedEvolves(s, k, s'); } else { KeptEvolves(s, k, s'); }
    }
  }

  lemma AcquireEvolves(s: State, name: string, c: string, value: Value, try: bool)
    requires Inv(s)
    ensures Evolves(s, Acquire(s, name, c, value, try).state)
  {
    var s' := Acquire(s, name, c, value, try).state;
    forall k | k in s'.locks ensures KeyEvolves(s, k, s') {
      if k in s.locks { assert LockOk(s, s.locks[k]); }
      if k != name || s'.locks == s.locks {
        KeptEvolves(s, k, s');
      }
    }
  }

  lemma {:induction false} DropEvolves(s: State, c: string)
    requires Inv(s) && c in s.leases
    ensures Evolves(s, DropLease(s, c).state)
  {
    var s' := DropLease(s, c).state;
    DropLeaseEffect(s, c);
    forall k | k in s'.locks ensures KeyEvolves(s, k, s') {
      assert DroppedFrom(s, c, k, s');
      if Holds(s, k, c) {
        assert LockOk(s, s.locks[k]);
        PassedEvolves(s, k, s');
      } else if Waits(s, k, c) {
        DequeuedEvolves(s, c, k, s');
      } else {
        KeptEvolves(s, k, s');
      }
    }
  }

  lemma {:induction false} CancelEvolves(s: State, name: string, c: string)
    ensures Evolves(s, Cancel(s, name, c).state)
  {
    var s' := Cancel(s, name, c).state;
    if s'.locks == s.locks {
      SameLocksEvolve(s, s');
    } else {
      forall k | k in s'.locks ensures KeyEvolves(s, k, s') {
        if k == name { DequeuedEvolves(s, c, k, s'); } else { KeptEvolves(s, k, s'); }
      }
    }
  }

  lemma PublishEvolves(s: State, name: string, c: string, token: nat, value: Value)
    ensures Evolves(s, Publish(s, name, c, token, value).state)
  {
    var s' := Publish(s, name, c, token, value).state;
    forall k | k in s'.locks && k != name ensures KeyEvolves(s, k, s') { KeptEvolves(s, k, s'); }
  }

  lemma SameLocksEvolve(s: State, s': State)
    requires s'.locks == s.locks && s.seqNo <= s'.seqNo
    ensures Evolves(s, s')
  {
    forall k | k in s'.locks ensures KeyEvolves(s, k, s') { KeptEvolves(s, k, s'); }
  }

  lemma RevokeEvolves(s: State, c: string)
    requires Inv(s)
    ensures Evolves(s, Revoke(s, c).state)
  {
    if c in s.leases { DropEvolves(s, c); } else { SameLocksEvolve(s, s); }
  }

  lemma ExpireEvolves(s: State, c: string, now: int)
    requires Inv(s)
    ensures Evolves(s, Expire(s, c, now).state)
  {
    if c in s.leases && now >= s.leases[c].expireAt { DropEvolves(s, c); } else { SameLocksEvolve(s, s); }
  }

  lemma {:induction false} ExecuteEvolves(s: State, cmd: Command)
    requires Inv(s)
    ensures Evolves(s, Execute(s, cmd).state)
  {
    match cmd
    case AcquireLock(name, c, try) => AcquireEvolves(s, name, c, NoValue, try);
    case Campaign(name, c, value) => AcquireEvolves(s, name, c, value, false);
    case ReleaseLock(name, c, token) => ReleaseEvolves(s, name, c, token);
    case Resign(name, c, token) => ReleaseEvolves(s, name, c, token);
    case CancelWait(name, c) => CancelEvolves(s, name, c);
    case Proclaim(name, c, token, value) => PublishEvolves(s, name, c, token, value);
    case LeaseGrant(c, ttl, now) => SameLocksEvolve(s, GrantLease(s, c, ttl, now).state);
    case LeaseKeepAlive(c, now) => SameLocksEvolve(s, KeepAlive(s, c, now).state);
    case LeaseRevoke(c) => RevokeEvolves(s, c);
    case LeaseExpire(c, now) => ExpireEvolves(s, c, now);
    case Unset => SameLocksEvolve(s, s);
  }

  lemma StepEvolves(s: State, cmd: Command)
    requires Inv(s)
    ensures Evolves(s, Step(s, cmd).state)
  {
    Retick(s);
    ExecuteEvolves(Tick(s), cmd);
    Reticked(s, Tick(s), Step(s, cmd).state);
  }

  lemma Reticked(s: State, t: State, s': State)
    requires t == Tick(s) && Evolves(t, s')
    ensures Evolves(s, s')
  {
    forall k | k in s'.locks ensures KeyEvolves(s, k, s') { assert KeyEvolves(t, k, s'); }
  }

  lemma ReleaseEvolves(s: State, name: string, c: string, token: nat)
    requires Inv(s)
    ensures Evolves(s, Release(s, name, c, token).state)
  {
    if HeldBy(s, name, c) && s.locks[name].token == token {
      PromoteEvolves(s, Unhold(s, name, c), name);
    } else {
      SameLocksEvolve(s, s);
    }
  }

  lemma {:induction false} RunEvolves(s: State, log: seq<Command>)
    requires Inv(s) && NamesClients(log)
    ensures Inv(After(s, log)) && Evolves(s, After(s, log))
    decreases |log|
  {
    if log == [] {
      SameLocksEvolve(s, s);
    } else {
      var t := Step(s, log[0]).state;
      StepKeepsInv(s, log[0]);
      StepEvolves(s, log[0]);
      RunEvolves(t, log[1..]);
      EvolvesTransitive(s, t, After(s, log));
    }
  }

  // ---------------------------------------------------------------- fencing

  ghost predicate HasToken(s: State, k: string, token: nat) {
    k in s.locks && s.locks[k].token == token
  }

  /** The command acts on key `k` by presenting `token`. */
  predicate Presents(cmd: Command, k: string, token: nat) {
    || (cmd.ReleaseLock? && cmd.name == k && cmd.token == token)
    || (cmd.Resign? && cmd.name == k && cmd.token == token)
    || (cmd.Proclaim? && cmd.name == k && cmd.token == token)
  }

  /** The command was turned down: nothing changed and nothing was published. */
  ghost predicate Refused(s: State, cmd: Command) {
    var r := Step(s, cmd);
    && r.reply.Ok?
    && (r.reply.result.outcome == NotHolder || r.reply.result.outcome == StaleToken)
    && r.state == Tick(s)
    && r.events == []
  }

  lemma WrongTokenRefused(s: State, cmd: Command, k: string, token: nat)
    requires Presents(cmd, k, token) && !HasToken(s, k, token)
    ensures Refused(s, cmd)
  {}

  /** Fencing. Once a key has been held under a token and no longer is, the key
      is never held under that token again, whatever is committed later, and
      every command presenting it is refused and changes nothing. */
  lemma SupersededTokenIsDead(s: State, first: seq<Command>, more: seq<Command>, k: string, token: nat)
    requires Inv(s) && NamesClients(first) && NamesClients(more)
    requires HasToken(s, k, token) && !HasToken(After(s, first), k, token)
    ensures !HasToken(After(After(s, first), more), k, token)
    ensures forall cmd :: Presents(cmd, k, token) ==> Refused(After(After(s, first), more), cmd)
  {
    var mid := After(s, first);
    var late := After(mid, more);
    RunEvolves(s, first);
    RunEvolves(mid, more);
    assert LockOk(s, s.locks[k]);
    if k in mid.locks { assert KeyEvolves(s, k, mid); }
    if k in late.locks { assert KeyEvolves(mid, k, late); }
    forall cmd | Presents(cmd, k, token) ensures Refused(late, cmd) {
      WrongTokenRefused(late, cmd, k, token);
    }
  }

  /** Tokens only grow: a key seen held twice has a larger token the second time,
      or it is still the same ownership. */
  lemma TokensIncrease(s: State, log: seq<Command>, k: string)
    requires Inv(s) && NamesClients(log)
    requires k in s.locks && k in After(s, log).locks
    ensures SameTenure(s, k, After(s, log)) || s.locks[k].token < After(s, log).locks[k].token
  {
    RunEvolves(s, log);
    assert LockOk(s, s.locks[k]);
    assert KeyEvolves(s, k, After(s, log));
  }

  // ---------------------------------------------------------------- fairness

  /** First come, first served. While a waiter stays in line, nobody who was not
      already ahead of it gets ahead, and the key is only ever held by its
      present holder or by somebody who was ahead. */
  lemma NoOvertaking(s: State, log: seq<Command>, k: string, w: Waiter)
    requires Inv(s) && NamesClients(log)
    requires k in s.locks && w in s.locks[k].queue
    requires k in After(s, log).locks && w in After(s, log).locks[k].queue
    ensures forall v :: v in After(s, log).locks[k].queue && v.seqNo < w.seqNo ==> v in s.locks[k].queue
    ensures After(s, log).locks[k].holder == s.locks[k].holder || AheadOf(s, k, w, After(s, log).locks[k].holder)
  {
    RunEvolves(s, log);
    assert LockOk(s, s.locks[k]);
    assert KeyEvolves(s, k, After(s, log));
  }
}
