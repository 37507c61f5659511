/** The state machine as it runs: one shard's tables updated in place, one
    committed command at a time. Every method leaves the state and publishes
    the events that the functions of `LockState` say. */
module LockMachine {
  import opened SortedStrings
  import opened LockState
  import opened LockSnapshot

  class Fsm {
    var locks: map<string, Lock>
    var leases: map<string, Lease>
    var seqNo: nat
    var revision: nat
    var published: seq<Event>

    constructor ()
      ensures Now() == EMPTY && published == []
    {
      locks, leases, seqNo, revision, published := map[], map[], 0, 0, [];
    }

    ghost function Now(): State
      reads this
    {
      State(locks, leases, seqNo, revision)
    }

    /** The object now shows what `e` says, and has published its events too. */
    twostate predicate Became(e: Effect)
      reads this
    {
      Now() == e.state && published == old(published) + e.events
    }

    method Emit(key: string, holder: string, token: nat, value: Value)
      modifies this`published
      ensures published == old(published) + [Event(key, holder, token, value, revision)]
    {
      published := published + [Event(key, holder, token, value, revision)];
    }

    method Position(q: seq<Waiter>, c: string) returns (p: nat)
      ensures p == QueuePos(q, c)
    {
      var i := 0;
      while i < |q|
        invariant 0 <= i <= |q|
        invariant forall j :: 0 <= j < i ==> q[j].client != c
      {
        if q[i].client == c { return i + 1; }
        i := i + 1;
      }
      return 0;
    }

    method GrantKey(name: string, c: string, value: Value)
      requires c in leases
      modifies this
      ensures Became(Grant(old(Now()), name, c, value))
    {
      if name !in locks { locks := locks[name := FREE]; }
      seqNo := seqNo + 1;
      locks := locks[name := locks[name].(holder := c, token := seqNo, value := value)];
      leases := leases[c := leases[c].(held := leases[c].held + {name}, waiting := leases[c].waiting - {name})];
      Emit(name, c, seqNo, value);
    }

    method PromoteNext(name: string)
      requires name in locks
      modifies this
      ensures Became(Promote(old(Now()), name))
    {
      while |locks[name].queue| > 0
        invariant name in locks && published == old(published)
        invariant Promote(Now(), name) == Promote(old(Now()), name)
        decreases |locks[name].queue|
      {
        var w := locks[name].queue[0];
        locks := locks[name := locks[name].(queue := locks[name].queue[1..])];
        if w.client in leases {
          GrantKey(name, w.client, w.value);
          return;
        }
      }
      locks := locks - {name};
      Emit(name, "", 0, NoValue);
    }

    method AcquireKey(name: string, c: string, value: Value, try: bool) returns (r: Result)
      modifies this
      ensures var a := Acquire(old(Now()), name, c, value, try);
              Became(Effect(a.state, a.events)) && a.reply == Ok(r)
    {
      if c !in leases { return Result(NoLease, revision, key := name); }
      if name !in locks || locks[name].holder == "" {
        GrantKey(name, c, value);
        return Result(Granted, revision, key := name, token := seqNo, value := value);
      }
      var lk := locks[name];
      if lk.holder == c { return Result(Granted, revision, key := name, token := lk.token, value := lk.value); }
      if try { return Result(NotAcquired, revision, key := name, currentHolder := lk.holder); }
      if name in leases[c].waiting {
        var p := Position(lk.queue, c);
        return Result(Queued, revision, key := name, position := p);
      }
      seqNo := seqNo + 1;
      locks := locks[name := lk.(queue := lk.queue + [Waiter(c, seqNo, value)])];
      leases := leases[c := leases[c].(waiting := leases[c].waiting + {name})];
      return Result(Queued, revision, key := name, position := |lk.queue| + 1);
    }

    method ReleaseKey(name: string, c: string, token: nat) returns (r: Result)
      modifies this
      ensures var a := Release(old(Now()), name, c, token);
              Became(Effect(a.state, a.events)) && a.reply == Ok(r)
    {
      if name !in locks || locks[name].holder == "" || locks[name].holder != c {
        return Result(NotHolder, revision, key := name);
      }
      if locks[name].token != token { return Result(StaleToken, revision, key := name); }
      if c in leases { leases := leases[c := leases[c].(held := leases[c].held - {name})]; }
      PromoteNext(name);
      return Result(Released, revision, key := name);
    }

    method CancelWaiting(name: string, c: string) returns (r: Result)
      modifies this
      ensures var a := Cancel(old(Now()), name, c);
              Became(Effect(a.state, a.events)) && a.reply == Ok(r)
    {
      if name !in locks { return Result(Noop, revision, key := name); }
      var q := locks[name].queue;
      var p := Position(q, c);
      if p == 0 { return Result(Noop, revision, key := name); }
      locks := locks[name := locks[name].(queue := q[..p - 1] + q[p..])];
      if c in leases { leases := leases[c := leases[c].(waiting := leases[c].waiting - {name})]; }
      return Result(Released, revision, key := name);
    }

    method ProclaimValue(name: string, c: string, token: nat, value: Value) returns (r: Result)
      modifies this
      ensures var a := Publish(old(Now()), name, c, token, value);
              Became(Effect(a.state, a.events)) && a.reply == Ok(r)
    {
      if name !in locks || locks[name].holder == "" || locks[name].holder != c {
        return Result(NotHolder, revision, key := name);
      }
      if locks[name].token != token { return Result(StaleToken, revision, key := name); }
      locks := locks[name := locks[name].(value := value)];
      Emit(name, c, token, value);
      return Result(ValueUpdated, revision, key := name, token := token, value := value);
    }

    method OpenLease(c: string, ttl: int, now: int) returns (r: Result)
      modifies this
      ensures var a := GrantLease(old(Now()), c, ttl, now);
              Became(Effect(a.state, a.events)) && a.reply == Ok(r)
    {
      if c !in leases { leases := leases[c := Lease(0, 0, {}, {})]; }
      leases := leases[c := leases[c].(ttl := ttl, expireAt := Deadline(now, ttl))];
      return Result(LeaseGranted, revision, deadline := leases[c].expireAt);
    }

    method RenewLease(c: string, now: int) returns (r: Result)
      modifies this
      ensures var a := KeepAlive(old(Now()), c, now);
              Became(Effect(a.state, a.events)) && a.reply == Ok(r)
    {
      if c !in leases { return Result(NotFound, revision); }
      leases := leases[c := leases[c].(expireAt := Deadline(now, leases[c].ttl))];
      return Result(LeaseRenewed, revision, deadline := leases[c].expireAt);
    }

    method PassOn(c: string, names: seq<string>)
      modifies this
      ensures Became(ReleaseEach(old(Now()), c, names))
    {
      var i := 0;
      assert names[0..] == names;
      while i < |names|
        invariant 0 <= i <= |names|
        invariant |published| >= |old(published)| && published[..|old(published)|] == old(published)
        invariant var rest := ReleaseEach(Now(), c, names[i..]);
                  ReleaseEach(old(Now()), c, names) == Effect(rest.state, published[|old(published)|..] + rest.events)
      {
        label before:
        var name := names[i];
        if name in locks && locks[name].holder == c {
          PromoteNext(name);
          assert published[|old(published)|..] ==
                 old@before(published)[|old(published)|..] + Promote(old@before(Now()), name).events;
        }
        assert names[i..][1..] == names[i + 1..];
        i := i + 1;
      }
    }

    method LeaveQueues(c: string, names: seq<string>)
      modifies this
      ensures Became(Effect(DequeueEach(old(Now()), c, names), []))
    {
      var i := 0;
      assert names[0..] == names;
      while i < |names|
        invariant 0 <= i <= |names| && published == old(published)
        invariant DequeueEach(Now(), c, names[i..]) == DequeueEach(old(Now()), c, names)
      {
        var name := names[i];
        if name in locks {
          var p := Position(locks[name].queue, c);
          var q := locks[name].queue;
          locks := locks[name := locks[name].(queue := if p == 0 then q else q[..p - 1] + q[p..])];
        }
        assert names[i..][1..] == names[i + 1..];
        i := i + 1;
      }
    }

    method Drop(c: string)
      requires c in leases
      modifies this
      ensures Became(DropLease(old(Now()), c))
    {
      var held := SortedKeys(leases[c].held);
      PassOn(c, held);
      var waiting := SortedKeys(if c in leases then leases[c].waiting else {});
      LeaveQueues(c, waiting);
      leases := leases - {c};
    }

    method RevokeLease(c: string) returns (r: Result)
      modifies this
      ensures var a := Revoke(old(Now()), c);
              Became(Effect(a.state, a.events)) && a.reply == Ok(r)
    {
      if c !in leases { return Result(NotFound, revision); }
      r := Result(LeaseRevoked, revision);
      Drop(c);
    }

    method ExpireLease(c: string, now: int) returns (r: Result)
      modifies this
      ensures var a := Expire(old(Now()), c, now);
              Became(Effect(a.state, a.events)) && a.reply == Ok(r)
    {
      if c !in leases { return Result(NotFound, revision); }
      if now < leases[c].expireAt { return Result(Noop, revision); }
      r := Result(LeaseExpired, revision);
      Drop(c);
    }

    method ApplyToKey(cmd: Command) returns (r: Result)
      requires !cmd.LeaseGrant? && !cmd.LeaseKeepAlive? && !cmd.LeaseRevoke? && !cmd.LeaseExpire? && !cmd.Unset?
      modifies this
      ensures var a := Execute(old(Now()), cmd);
              Became(Effect(a.state, a.events)) && a.reply == Ok(r)
    {
      match cmd
      case AcquireLock(name, c, try) => r := AcquireKey(name, c, NoValue, try);
      case Campaign(name, c, value) => r := AcquireKey(name, c, value, false);
      case ReleaseLock(name, c, token) => r := ReleaseKey(name, c, token);
      case Resign(name, c, token) => r := ReleaseKey(name, c, token);
      case CancelWait(name, c) => r := CancelWaiting(name, c);
      case Proclaim(name, c, token, value) => r := ProclaimValue(name, c, token, value);
    }

    method ApplyToLease(cmd: Command) returns (r: Result)
      requires cmd.LeaseGrant? || cmd.LeaseKeepAlive? || cmd.LeaseRevoke? || cmd.LeaseExpire?
      modifies this
      ensures var a := Execute(old(Now()), cmd);
              Became(Effect(a.state, a.events)) && a.reply == Ok(r)
    {
      match cmd
      case LeaseGrant(c, ttl, now) => r := OpenLease(c, ttl, now);
      case LeaseKeepAlive(c, now) => r := RenewLease(c, now);
      case LeaseRevoke(c) => r := RevokeLease(c);
      case LeaseExpire(c, now) => r := ExpireLease(c, now);
    }

    /** Apply one committed command. */
    method Apply(cmd: Command) returns (reply: Reply)
      modifies this
      ensures var a := Step(old(Now()), cmd);
              Became(Effect(a.state, a.events)) && reply == a.reply
    {
      revision := revision + 1;
      assert Now() == Tick(old(Now()));
      if cmd.Unset? { return Malformed; }
      var r: Result;
      if cmd.LeaseGrant? || cmd.LeaseKeepAlive? || cmd.LeaseRevoke? || cmd.LeaseExpire? {
        r := ApplyToLease(cmd);
      } else {
        r := ApplyToKey(cmd);
      }
      return Ok(r);
    }

    method LockTable(names: seq<string>) returns (rows: seq<LockRow>)
      requires forall k :: k in names ==> k in locks
      ensures rows == LockRows(locks, names)
    {
      rows := [];
      for i := 0 to |names|
        invariant rows == LockRows(locks, names[..i])
      {
        rows := rows + [RowOf(names[i], locks[names[i]])];
        assert names[..i + 1][..i] == names[..i];
      }
      assert names[..|names|] == names;
    }

    method LeaseTable(clients: seq<string>) returns (rows: seq<LeaseRow>)
      requires forall c :: c in clients ==> c in leases
      ensures rows == LeaseRows(leases, clients)
    {
      rows := [];
      for i := 0 to |clients|
        invariant rows == LeaseRows(leases, clients[..i])
      {
        var row := OneLease(clients[i]);
        rows := rows + [row];
        assert clients[..i + 1][..i] == clients[..i];
      }
      assert clients[..|clients|] == clients;
    }

    method OneLease(c: string) returns (row: LeaseRow)
      requires c in leases
      ensures row == LeaseRowOf(c, leases[c])
    {
      var held := SortedKeys(leases[c].held);
      return LeaseRow(c, leases[c].ttl, leases[c].expireAt, held);
    }

    /** Copy the whole shard, sorted by key. */
    method TakeSnapshot() returns (snap: Snapshot)
      ensures snap == Save(Now())
    {
      var names := SortedKeys(locks.Keys);
      assert names == Keys(locks);
      var rows := LockTable(names);
      var clients := SortedKeys(leases.Keys);
      assert clients == Keys(leases);
      var owners := LeaseTable(clients);
      return Snapshot(seqNo, revision, rows, owners);
    }

    /** Replace everything with a snapshot and rebuild the lease indexes from the
        lock table, ranging over it in any order. */
    method Restore(snap: Snapshot)
      modifies this
      ensures Now() == Load(snap) && published == old(published)
    {
      seqNo, revision, locks, leases := snap.seqNo, snap.revision, map[], map[];
      for i := 0 to |snap.leases|
        invariant Blank(leases)
        invariant leases == ReadLeases(snap.leases[..i]) && seqNo == snap.seqNo && revision == snap.revision
        invariant locks == map[] && published == old(published)
      {
        assert snap.leases[..i + 1][..i] == snap.leases[..i];
        var l := snap.leases[i];
        leases := leases[l.client := Lease(l.ttl, l.expireAt, {}, {})];
      }
      assert snap.leases[..|snap.leases|] == snap.leases;
      ghost var base := leases;
      for i := 0 to |snap.locks|
        invariant locks == ReadLocks(snap.locks[..i]) && seqNo == snap.seqNo && revision == snap.revision
        invariant leases == base && published == old(published)
      {
        assert snap.locks[..i + 1][..i] == snap.locks[..i];
        var l := snap.locks[i];
        locks := locks[l.name := Lock(l.holder, l.token, l.value, l.queue)];
      }
      assert snap.locks[..|snap.locks|] == snap.locks;
      RebuildIndexes(base);
    }

    method RebuildIndexes(ghost base: map<string, Lease>)
      requires leases == base && Blank(base)
      modifies this`leases
      ensures leases == Reindex(locks, base)
    {
      var todo := locks.Keys;
      ReindexNothing(base);
      assert locks - todo == map[];
      while todo != {}
        invariant todo <= locks.Keys
        invariant leases == Reindex(locks - todo, base)
        decreases |todo|
      {
        var k :| k in todo;
        ghost var done := locks - todo;
        IndexKey(k, done, base);
        todo := todo - {k};
        assert locks - todo == done[k := locks[k]];
      }
      assert locks - {} == locks;
    }

    method IndexKey(k: string, ghost done: map<string, Lock>, ghost base: map<string, Lease>)
      requires k in locks && k !in done && leases == Reindex(done, base)
      modifies this`leases
      ensures leases == Reindex(done[k := locks[k]], base)
    {
      var lk := locks[k];
      ReindexOne(done, base, k, lk);
      if lk.holder != "" && lk.holder in leases {
        leases := leases[lk.holder := leases[lk.holder].(held := leases[lk.holder].held + {k})];
      }
      MarkWaiters(k, lk.queue);
    }

    method MarkWaiters(k: string, q: seq<Waiter>)
      modifies this`leases
      ensures leases == Marked(old(leases), k, q)
    {
      MarkedNone(leases, k);
      assert q[..0] == [];
      for i := 0 to |q|
        invariant leases == Marked(old(leases), k, q[..i])
      {
        var c := q[i].client;
        MarkedOne(old(leases), k, q, i);
        if c in leases {
          leases := leases[c := leases[c].(waiting := leases[c].waiting + {k})];
        }
      }
      assert q[..|q|] == q;
    }
  }

  ghost predicate Blank(leases: map<string, Lease>) {
    forall c :: c in leases ==> leases[c].held == {} == leases[c].waiting
  }

  /** The leases with `k` added to what every client queued in `q` waits on. */
  ghost function Marked(leases: map<string, Lease>, k: string, q: seq<Waiter>): map<string, Lease> {
    map c | c in leases ::
      if IsQueued(q, c) then leases[c].(waiting := leases[c].waiting + {k}) else leases[c]
  }

  lemma MarkedNone(leases: map<string, Lease>, k: string)
    ensures Marked(leases, k, []) == leases
  {}

  lemma MarkedOne(leases: map<string, Lease>, k: string, q: seq<Waiter>, i: nat)
    requires i < |q|
    ensures var m, c := Marked(leases, k, q[..i]), q[i].client;
            Marked(leases, k, q[..i + 1]) == if c in m then m[c := m[c].(waiting := m[c].waiting + {k})] else m
  {
    var m, c := Marked(leases, k, q[..i]), q[i].client;
    forall d ensures IsQueued(q[..i + 1], d) <==> IsQueued(q[..i], d) || d == c { QueuedGrows(q, i, d); }
    if c in leases {
      assert m[c].waiting + {k} == leases[c].waiting + {k};
    }
  }

  lemma ReindexNothing(base: map<string, Lease>)
    requires Blank(base)
    ensures Reindex(map[], base) == base
  {
    forall c | c in base ensures Reindex(map[], base)[c] == base[c] {
      assert HeldIn(map[], c) == {} && WaitingIn(map[], c) == {};
    }
  }

  /** Adding one key to the table adds it to its holder and to its waiters. */
  lemma ReindexOne(done: map<string, Lock>, base: map<string, Lease>, k: string, lk: Lock)
    requires k !in done
    ensures var m := Reindex(done, base);
            var m' := if lk.holder != "" && lk.holder in m then m[lk.holder := m[lk.holder].(held := m[lk.holder].held + {k})] else m;
            Reindex(done[k := lk], base) == Marked(m', k, lk.queue)
  {
    var m := Reindex(done, base);
    var m' := if lk.holder != "" && lk.holder in m then m[lk.holder := m[lk.holder].(held := m[lk.holder].held + {k})] else m;
    forall c | c in base ensures Reindex(done[k := lk], base)[c] == Marked(m', k, lk.queue)[c] {
      IndexGrows(done, c, k, lk);
    }
  }

  lemma IndexGrows(done: map<string, Lock>, c: string, k: string, lk: Lock)
    requires k !in done
    ensures HeldIn(done[k := lk], c) == HeldIn(done, c) + (if lk.holder != "" && lk.holder == c then {k} else {})
    ensures WaitingIn(done[k := lk], c) == WaitingIn(done, c) + (if IsQueued(lk.queue, c) then {k} else {})
  {}

  lemma QueuedGrows(q: seq<Waiter>, i: nat, d: string)
    requires i < |q|
    ensures IsQueued(q[..i + 1], d) <==> IsQueued(q[..i], d) || d == q[i].client
  {
    assert q[..i + 1][i] == q[i];
    if IsQueued(q[..i], d) {
      var j :| 0 <= j < |q[..i]| && q[..i][j].client == d;
      assert q[..i + 1][j].client == d;
    }
    if IsQueued(q[..i + 1], d) && d != q[i].client {
      var j :| 0 <= j < |q[..i + 1]| && q[..i + 1][j].client == d;
      assert q[..i][j].client == d;
    }
  }
}
