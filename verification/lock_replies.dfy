/** What the replies mean. Each answer is tied to the tables before and after the
    command, and to what the client may do next. */
module LockReplies {
  import opened Basics
  import opened LockState
  import opened LockInvariant
  import opened LockDrop
  import opened LockRuns

  /** Taking a lock and campaigning are one operation. */
  predicate Asks(cmd: Command) {
    cmd.AcquireLock? || cmd.Campaign?
  }

  function ValueAsked(cmd: Command): Value
    requires Asks(cmd)
  {
    if cmd.Campaign? then cmd.value else NoValue
  }

  predicate Tries(cmd: Command)
    requires Asks(cmd)
  {
    cmd.AcquireLock? && cmd.tryLock
  }

  /** Somebody else holds the key. */
  ghost predicate Taken(s: State, k: string, c: string) {
    k in s.locks && s.locks[k].holder != c
  }

  /** Every reply is Ok and carries the revision of its command, except to no command. */
  lemma RepliesCarryRevision(s: State, cmd: Command)
    ensures var r := Step(s, cmd);
            if cmd.Unset? then r == Applied(Tick(s), Malformed, [])
            else r.reply.Ok? && r.reply.result.revision == s.revision + 1
  {}

  /** Which answer a client gets that asks for a key, in terms of the tables. */
  lemma AskAnswers(s: State, cmd: Command)
    requires Inv(s) && Asks(cmd)
    ensures var r := Step(s, cmd).reply;
            && r.Ok? && r.result.key == cmd.name
            && (r.result.outcome == NoLease <==> cmd.client !in s.leases)
            && (r.result.outcome == Granted <==> cmd.client in s.leases && !Taken(s, cmd.name, cmd.client))
            && (r.result.outcome == NotAcquired <==> cmd.client in s.leases && Taken(s, cmd.name, cmd.client) && Tries(cmd))
            && (r.result.outcome == Queued <==> cmd.client in s.leases && Taken(s, cmd.name, cmd.client) && !Tries(cmd))
            && (r.result.outcome == NotAcquired ==> r.result.currentHolder == s.locks[cmd.name].holder)
  {
    if cmd.name in s.locks { assert LockOk(s, s.locks[cmd.name]); }
  }

  /** A granted key is the client's, under the token and with the value it was told: a
      new token and the value asked for if the key was free, what it had if it was its
      own already. The token is good for a release. */
  lemma GrantedIsHeld(s: State, cmd: Command)
    requires Inv(s) && Asks(cmd) && Step(s, cmd).reply.Ok? && Step(s, cmd).reply.result.outcome == Granted
    ensures var r, t := Step(s, cmd).reply.result, Step(s, cmd).state;
            && Holds(t, cmd.name, cmd.client)
            && t.locks[cmd.name].token == r.token && t.locks[cmd.name].value == r.value
            && (cmd.name !in s.locks ==> r.token == s.seqNo + 1 && r.value == ValueAsked(cmd) && t.locks[cmd.name].queue == [])
            && (cmd.name in s.locks ==> t == Tick(s))
            && (forall k :: k != cmd.name ==> (k in t.locks <==> k in s.locks) && (k in s.locks ==> t.locks[k] == s.locks[k]))
    ensures var r, t := Step(s, cmd).reply.result, Step(s, cmd).state;
            Step(t, ReleaseLock(cmd.name, cmd.client, r.token)).reply.Ok? &&
            Step(t, ReleaseLock(cmd.name, cmd.client, r.token)).reply.result.outcome == Released
  {
    AskAnswers(s, cmd);
    if cmd.name in s.locks { assert LockOk(s, s.locks[cmd.name]); }
  }

  /** A queued client stands in the queue at the position it was told, behind those who
      were there before; asking again changes nothing. */
  lemma QueuedIsInQueue(s: State, cmd: Command)
    requires Inv(s) && Asks(cmd) && Step(s, cmd).reply.Ok? && Step(s, cmd).reply.result.outcome == Queued
    ensures var r, t := Step(s, cmd).reply.result, Step(s, cmd).state;
            && cmd.name in s.locks && cmd.name in t.locks
            && var q, q' := s.locks[cmd.name].queue, t.locks[cmd.name].queue;
               && 0 < r.position <= |q'| && q'[r.position - 1].client == cmd.client
               && (Waits(s, cmd.name, cmd.client) ==> t == Tick(s))
               && (!Waits(s, cmd.name, cmd.client) ==>
                     q' == q + [Waiter(cmd.client, s.seqNo + 1, ValueAsked(cmd))] && r.position == |q'|)
               && t.locks[cmd.name] == s.locks[cmd.name].(queue := q')
  {
    AskAnswers(s, cmd);
    assert LockOk(s, s.locks[cmd.name]);
    assert IndexedAt(s, cmd.name, cmd.client);
  }

  /** Refused or not, a client that gets nothing leaves the tables as they were. */
  lemma RefusalChangesNothing(s: State, cmd: Command)
    requires Step(s, cmd).reply.Ok?
    requires var o := Step(s, cmd).reply.result.outcome;
             o == NoLease || o == NotAcquired || o == NotHolder || o == StaleToken || o == NotFound || o == Noop
    ensures Step(s, cmd).state == Tick(s) && Step(s, cmd).events == []
  {}

  // ------------------------------------------------------------- giving it back

  predicate GivesBack(cmd: Command) {
    cmd.ReleaseLock? || cmd.Resign?
  }

  /** Which answer a client gets that gives a key back. */
  lemma ReleaseAnswers(s: State, cmd: Command)
    requires Inv(s) && GivesBack(cmd)
    ensures var r := Step(s, cmd).reply;
            && r.Ok? && r.result.key == cmd.name
            && (r.result.outcome == NotHolder <==> !Holds(s, cmd.name, cmd.client))
            && (r.result.outcome == StaleToken <==> Holds(s, cmd.name, cmd.client) && s.locks[cmd.name].token != cmd.token)
            && (r.result.outcome == Released <==> Holds(s, cmd.name, cmd.client) && s.locks[cmd.name].token == cmd.token)
  {
    if cmd.name in s.locks { assert LockOk(s, s.locks[cmd.name]); }
  }

  /** A released key goes to the head of its queue, with the value that client asked for
      and a new token, or is free; no other key changes hands. */
  lemma ReleasedGoesOn(s: State, cmd: Command)
    requires Inv(s) && GivesBack(cmd) && Step(s, cmd).reply.Ok? && Step(s, cmd).reply.result.outcome == Released
    ensures var t := Step(s, cmd).state;
            && cmd.name in s.locks
            && var q := s.locks[cmd.name].queue;
               && (q == [] ==> t.locks == s.locks - {cmd.name})
               && (q != [] ==> t.locks == s.locks[cmd.name := Lock(q[0].client, s.seqNo + 1, q[0].value, q[1..])])
  {
    ReleaseAnswers(s, cmd);
    Retick(s);
    var s1 := Unhold(Tick(s), cmd.name, cmd.client);
    UnholdOk(Tick(s), cmd.name, cmd.client);
    PromoteHead(s1, cmd.name);
  }

  /** The queue without the client's place; the others stay in order. */
  ghost predicate Without(q: seq<Waiter>, i: int, c: string, q': seq<Waiter>) {
    0 <= i < |q| && q[i].client == c && q' == q[..i] + q[i + 1..]
  }

  /** A client leaves a queue exactly if it was in it, and nobody else does. */
  lemma CancelAnswers(s: State, name: string, c: string)
    requires Inv(s)
    ensures var r, t := Step(s, CancelWait(name, c)).reply, Step(s, CancelWait(name, c)).state;
            && r.Ok? && r.result.key == name
            && (r.result.outcome == Released <==> Waits(s, name, c))
            && (r.result.outcome == Noop <==> !Waits(s, name, c))
            && t.locks.Keys == s.locks.Keys
            && (forall k :: k in s.locks ==> t.locks[k] == s.locks[k].(queue := t.locks[k].queue))
            && (forall k, w :: k in s.locks ==> (w in t.locks[k].queue <==> w in s.locks[k].queue && !(k == name && w.client == c)))
            && (Waits(s, name, c) ==> exists i :: Without(s.locks[name].queue, i, c, t.locks[name].queue))
  {
    if Waits(s, name, c) {
      assert LockOk(s, s.locks[name]);
      var q := s.locks[name].queue;
      assert Without(q, QueuePos(q, c) - 1, c, Dequeue(q, c));
      forall w ensures w in Dequeue(s.locks[name].queue, c) <==> w in s.locks[name].queue && w.client != c {
        DequeueTakesOne(s.locks[name].queue, c, w);
      }
    } else if name in s.locks {
      forall w | w in s.locks[name].queue ensures w.client != c { InQueue(s.locks[name].queue, c, w); }
    }
  }

  lemma InQueue(q: seq<Waiter>, c: string, w: Waiter)
    requires w in q && !IsQueued(q, c)
    ensures w.client != c
  {
    var i :| 0 <= i < |q| && q[i] == w;
    assert q[i].client != c;
  }

  lemma DequeueTakesOne(q: seq<Waiter>, c: string, w: Waiter)
    requires IsQueued(q, c) && forall i, j :: 0 <= i < j < |q| ==> q[i].client != q[j].client
    ensures w in Dequeue(q, c) <==> w in q && w.client != c
  {
    var p := QueuePos(q, c);
    DequeueAt(q, c, p);
    if w in q && w.client != c {
      var i :| 0 <= i < |q| && q[i] == w;
      assert Dequeue(q, c)[if i < p - 1 then i else i - 1] == w;
    }
  }

  /** A proclamation changes the value of a key held under the token given, and nothing
      else. */
  lemma ProclaimAnswers(s: State, name: string, c: string, token: nat, value: Value)
    requires Inv(s)
    ensures var r, t := Step(s, Proclaim(name, c, token, value)).reply, Step(s, Proclaim(name, c, token, value)).state;
            && r.Ok? && r.result.key == name
            && (r.result.outcome == NotHolder <==> !Holds(s, name, c))
            && (r.result.outcome == StaleToken <==> Holds(s, name, c) && s.locks[name].token != token)
            && (r.result.outcome == ValueUpdated <==> Holds(s, name, c) && s.locks[name].token == token)
            && (r.result.outcome == ValueUpdated ==>
                  && r.result.token == token && r.result.value == value
                  && t == Tick(s).(locks := s.locks[name := s.locks[name].(value := value)])
                  && Step(s, Proclaim(name, c, token, value)).events == [Event(name, c, token, value, s.revision + 1)])
  {
    if name in s.locks { assert LockOk(s, s.locks[name]); }
  }

  // ------------------------------------------------------------------- leases

  /** An expiry at or after `deadline` ends the lease, and none before does. */
  ghost predicate ExpiresAt(s: State, c: string, deadline: int) {
    forall x :: var r := Step(s, LeaseExpire(c, x)).reply;
                r.Ok? && r.result.outcome == if x < deadline then Noop else LeaseExpired
  }

  /** A lease lasts until the deadline its reply names: its time to live from now, if that
      fits 64 bits. Renewing it later gives it the same time again. */
  lemma LeaseAnswers(s: State, c: string, ttl: int, now: int)
    ensures var r, t := Step(s, LeaseGrant(c, ttl, now)).reply, Step(s, LeaseGrant(c, ttl, now)).state;
            && r.Ok? && r.result.outcome == LeaseGranted && c in t.leases && t.locks == s.locks
            && ExpiresAt(t, c, r.result.deadline)
            && (Fits(now, ttl) ==> r.result.deadline == now + ttl * NANOS_PER_MILLI)
            && t.leases[c].ttl == ttl
            && (forall d :: d != c ==> (d in t.leases <==> d in s.leases) && (d in s.leases ==> t.leases[d] == s.leases[d]))
            && t.leases[c].held == (if c in s.leases then s.leases[c].held else {})
            && t.leases[c].waiting == (if c in s.leases then s.leases[c].waiting else {})
  {
    var t := Step(s, LeaseGrant(c, ttl, now)).state;
    ExpiryObeys(t, c);
    DeadlineFits(now, ttl);
  }

  lemma RenewalAnswers(s: State, c: string, now: int)
    ensures var r, t := Step(s, LeaseKeepAlive(c, now)).reply, Step(s, LeaseKeepAlive(c, now)).state;
            && r.Ok? && (r.result.outcome == NotFound <==> c !in s.leases) && (r.result.outcome == LeaseRenewed <==> c in s.leases)
            && (c in s.leases ==>
                  && c in t.leases && ExpiresAt(t, c, r.result.deadline)
                  && (Fits(now, s.leases[c].ttl) ==> r.result.deadline == now + s.leases[c].ttl * NANOS_PER_MILLI)
                  && t == Tick(s).(leases := s.leases[c := s.leases[c].(expireAt := r.result.deadline)]))
  {
    if c in s.leases {
      ExpiryObeys(Step(s, LeaseKeepAlive(c, now)).state, c);
      DeadlineFits(now, s.leases[c].ttl);
    }
  }

  predicate Fits(now: int, ttl: int) {
    MIN64 <= ttl * NANOS_PER_MILLI < TWO63 && MIN64 <= now + ttl * NANOS_PER_MILLI < TWO63
  }

  lemma DeadlineFits(now: int, ttl: int)
    ensures Fits(now, ttl) ==> Deadline(now, ttl) == now + ttl * NANOS_PER_MILLI
  {}

  lemma ExpiryObeys(s: State, c: string)
    requires c in s.leases
    ensures ExpiresAt(s, c, s.leases[c].expireAt)
  {}

  /** Ending a lease answers whether there was one, and leaves none. */
  lemma EndAnswers(s: State, c: string, now: int)
    requires Inv(s)
    ensures var r, t := Step(s, LeaseRevoke(c)).reply, Step(s, LeaseRevoke(c)).state;
            && r.Ok? && c !in t.leases
            && (r.result.outcome == NotFound <==> c !in s.leases) && (r.result.outcome == LeaseRevoked <==> c in s.leases)
    ensures var r, t := Step(s, LeaseExpire(c, now)).reply, Step(s, LeaseExpire(c, now)).state;
            && r.Ok?
            && (r.result.outcome == NotFound <==> c !in s.leases)
            && (r.result.outcome == LeaseExpired <==> c in s.leases && s.leases[c].expireAt <= now)
            && (r.result.outcome == LeaseExpired ==> c !in t.leases)
  {
    if c in s.leases {
      Retick(s);
      DropLeaseEffect(Tick(s), c);
    }
  }
}
