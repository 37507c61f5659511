/** The snapshot of a shard and its restoration, and what a lease is worth. */
module LockSnapshot {
  import opened SortedStrings
  import opened Basics
  import opened LockState
  import opened LockInvariant
  import opened LockDrop
  import opened LockRuns

  datatype LockRow = LockRow(name: string, holder: string, token: nat, value: Value, queue: seq<Waiter>)
  datatype LeaseRow = LeaseRow(client: string, ttl: int, expireAt: int, heldKeys: seq<string>)
  datatype Snapshot = Snapshot(seqNo: nat, revision: nat, locks: seq<LockRow>, leases: seq<LeaseRow>)

  function RowOf(name: string, lk: Lock): LockRow {
    LockRow(name, lk.holder, lk.token, lk.value, lk.queue)
  }

  ghost function LeaseRowOf(c: string, ls: Lease): LeaseRow {
    LeaseRow(c, ls.ttl, ls.expireAt, Sorted(ls.held))
  }

  ghost function LockRows(m: map<string, Lock>, names: seq<string>): seq<LockRow>
    requires forall k :: k in names ==> k in m
  {
    seq(|names|, i requires 0 <= i < |names| => RowOf(names[i], m[names[i]]))
  }

  ghost function LeaseRows(m: map<string, Lease>, names: seq<string>): seq<LeaseRow>
    requires forall k :: k in names ==> k in m
  {
    seq(|names|, i requires 0 <= i < |names| => LeaseRowOf(names[i], m[names[i]]))
  }

  ghost function Keys<V>(m: map<string, V>): (r: seq<string>)
    ensures forall k :: k in r <==> k in m
    ensures Ascending(r)
  {
    var r := Sorted(m.Keys);
    assert forall k :: k in r <==> k in Elements(r);
    r
  }

  ghost function Save(s: State): Snapshot {
    Snapshot(s.seqNo, s.revision, LockRows(s.locks, Keys(s.locks)), LeaseRows(s.leases, Keys(s.leases)))
  }

  /** Rows read back in order; a later row for the same key wins. */
  function ReadLocks(rows: seq<LockRow>): map<string, Lock> {
    if rows == [] then map[]
    else
      var r := rows[|rows| - 1];
      ReadLocks(rows[..|rows| - 1])[r.name := Lock(r.holder, r.token, r.value, r.queue)]
  }

  function ReadLeases(rows: seq<LeaseRow>): map<string, Lease> {
    if rows == [] then map[]
    else
      var r := rows[|rows| - 1];
      ReadLeases(rows[..|rows| - 1])[r.client := Lease(r.ttl, r.expireAt, {}, {})]
  }

  /** The keys of `names` that a client holds, and those it waits on. */
  ghost function HeldIn(m: map<string, Lock>, c: string): set<string> {
    set k | k in m && m[k].holder != "" && m[k].holder == c
  }

  ghost function WaitingIn(m: map<string, Lock>, c: string): set<string> {
    set k | k in m && IsQueued(m[k].queue, c)
  }

  /** The lease indexes worked out from the lock table. */
  ghost function Reindex(locks: map<string, Lock>, leases: map<string, Lease>): map<string, Lease> {
    map c | c in leases :: leases[c].(held := HeldIn(locks, c), waiting := WaitingIn(locks, c))
  }

  ghost function Load(snap: Snapshot): State {
    var locks := ReadLocks(snap.locks);
    State(locks, Reindex(locks, ReadLeases(snap.leases)), snap.seqNo, snap.revision)
  }

  ghost predicate IndexesExact(s: State) {
    forall c :: c in s.leases ==>
      s.leases[c].held == HeldIn(s.locks, c) && s.leases[c].waiting == WaitingIn(s.locks, c)
  }

  lemma {:induction false} ReadLocksOf(m: map<string, Lock>, names: seq<string>)
    requires Distinct(names) && forall k :: k in names ==> k in m
    ensures ReadLocks(LockRows(m, names)).Keys == Elements(names)
    ensures forall k :: k in names ==> ReadLocks(LockRows(m, names))[k] == m[k]
    decreases |names|
  {
    if names != [] {
      var front := names[..|names| - 1];
      var last := names[|names| - 1];
      assert names == front + [last];
      ReadLocksOf(m, front);
      var rows := LockRows(m, names);
      assert rows[..|names| - 1] == LockRows(m, front);
      assert ReadLocks(rows) == ReadLocks(LockRows(m, front))[last := m[last]];
      assert Elements(names) == Elements(front) + {last};
    }
  }

  lemma {:induction false} ReadLeasesOf(m: map<string, Lease>, names: seq<string>)
    requires Distinct(names) && forall k :: k in names ==> k in m
    ensures ReadLeases(LeaseRows(m, names)).Keys == Elements(names)
    ensures forall k :: k in names ==> ReadLeases(LeaseRows(m, names))[k] == m[k].(held := {}, waiting := {})
    decreases |names|
  {
    if names != [] {
      var front := names[..|names| - 1];
      var last := names[|names| - 1];
      assert names == front + [last];
      ReadLeasesOf(m, front);
      var rows := LeaseRows(m, names);
      assert rows[..|names| - 1] == LeaseRows(m, front);
      assert ReadLeases(rows) == ReadLeases(LeaseRows(m, front))[last := m[last].(held := {}, waiting := {})];
      assert Elements(names) == Elements(front) + {last};
    }
  }

  lemma InvIndexesExact(s: State)
    requires Inv(s)
    ensures IndexesExact(s)
  {
    forall c | c in s.leases
      ensures s.leases[c].held == HeldIn(s.locks, c) && s.leases[c].waiting == WaitingIn(s.locks, c)
    {
      assert Indexed(s, c);
      forall k ensures k in s.leases[c].held <==> k in HeldIn(s.locks, c) { assert IndexedAt(s, k, c); }
      forall k ensures k in s.leases[c].waiting <==> k in WaitingIn(s.locks, c) { assert IndexedAt(s, k, c); }
    }
  }

  lemma ReadBack(s: State)
    ensures ReadLocks(Save(s).locks) == s.locks
    ensures ReadLeases(Save(s).leases).Keys == s.leases.Keys
    ensures forall c :: c in s.leases ==> ReadLeases(Save(s).leases)[c] == s.leases[c].(held := {}, waiting := {})
  {
    AscendingDistinct(Keys(s.locks));
    AscendingDistinct(Keys(s.leases));
    ReadLocksOf(s.locks, Keys(s.locks));
    ReadLeasesOf(s.leases, Keys(s.leases));
  }

  lemma ReindexExact(locks: map<string, Lock>, bare: map<string, Lease>, leases: map<string, Lease>)
    requires bare.Keys == leases.Keys && forall c :: c in leases ==> bare[c] == leases[c].(held := {}, waiting := {})
    ensures Reindex(locks, bare) == leases <==>
            forall c :: c in leases ==> leases[c].held == HeldIn(locks, c) && leases[c].waiting == WaitingIn(locks, c)
  {
    var r := Reindex(locks, bare);
    if forall c :: c in leases ==> leases[c].held == HeldIn(locks, c) && leases[c].waiting == WaitingIn(locks, c) {
      forall c | c in leases ensures r[c] == leases[c] {}
      assert r.Keys == leases.Keys;
    } else {
      var c :| c in leases && !(leases[c].held == HeldIn(locks, c) && leases[c].waiting == WaitingIn(locks, c));
      assert r[c] != leases[c];
    }
  }

  /** Restoring a snapshot gives back the state it was taken from, exactly when
      that state's lease indexes agreed with its lock table. */
  lemma RoundTrip(s: State)
    ensures Load(Save(s)) == s <==> IndexesExact(s)
  {
    ReadBack(s);
    ReindexExact(s.locks, ReadLeases(Save(s).leases), s.leases);
  }

  /** A replica caught up by snapshot anywhere in the log ends where a replica
      that applied the whole log does, and publishes the same events from there. */
  lemma CatchUp(log: seq<Command>, more: seq<Command>)
    requires NamesClients(log)
    ensures var behind := Load(Save(After(EMPTY, log)));
            && After(behind, more) == After(After(EMPTY, log), more)
            && Events(behind, more) == Events(After(EMPTY, log), more)
  {
    assert Inv(EMPTY);
    RunKeepsInv(EMPTY, log);
    InvIndexesExact(After(EMPTY, log));
    RoundTrip(After(EMPTY, log));
  }

  // ---------------------------------------------------------------- leases

  /** A lease that is not due is not reclaimed: an expiry stamped before the
      deadline changes nothing, one stamped at or after it frees every key the
      client held and every place it waited, and forgets the client. */
  lemma ExpiryIsExact(s: State, c: string, now: int)
    requires Inv(s) && c in s.leases
    ensures var r := Step(s, LeaseExpire(c, now));
            if now < s.leases[c].expireAt then r.state == Tick(s) && r.events == []
            else
              && c !in r.state.leases
              && (forall k :: !Holds(r.state, k, c) && !Waits(r.state, k, c))
              && (forall k :: DroppedFrom(s, c, k, r.state))
  {
    Retick(s);
    if now >= s.leases[c].expireAt {
      DropLeaseEffect(Tick(s), c);
      var s' := DropLease(Tick(s), c).state;
      forall k ensures !Holds(s', k, c) && !Waits(s', k, c) {
        if k in s'.locks { assert LockOk(s', s'.locks[k]); }
      }
      forall k ensures DroppedFrom(s, c, k, s') { assert DroppedFrom(Tick(s), c, k, s'); }
    }
  }

  lemma WrapSum(a: int, b: int)
    ensures SignedWrap64(a + SignedWrap64(b)) == SignedWrap64(a + b)
  {
    var k := (b + TWO63) / TWO64;
    assert SignedWrap64(b) == b - k * TWO64;
    ShiftMod(a + b + TWO63, -k);
  }

  lemma {:induction false} ShiftMod(x: int, k: int)
    ensures (x + k * TWO64) % TWO64 == x % TWO64
    decreases if k < 0 then -k else k
  {
    if k > 0 {
      ShiftMod(x, k - 1);
      assert x + k * TWO64 == x + (k - 1) * TWO64 + TWO64;
    } else if k < 0 {
      ShiftMod(x, k + 1);
      assert x + k * TWO64 == x + (k + 1) * TWO64 - TWO64;
    }
  }

  ghost predicate AliveUntil(s: State, c: string, from: int, deadline: int) {
    forall t :: from <= t < deadline ==> Step(s, LeaseExpire(c, t)).reply == Ok(Result(Noop, s.revision + 1))
  }

  /** A renewal protects the lease for the whole of its time to live exactly
      when the deadline fits in 64 bits; past that it wraps and falls short. */
  lemma RenewalLasts(s: State, c: string, now: int)
    requires c in s.leases && s.leases[c].ttl > 0 && MIN64 <= now < TWO63
    ensures var until := now + s.leases[c].ttl * NANOS_PER_MILLI;
            AliveUntil(Step(s, LeaseKeepAlive(c, now)).state, c, now, until) <==> until < TWO63
  {
    var until := now + s.leases[c].ttl * NANOS_PER_MILLI;
    var s' := Step(s, LeaseKeepAlive(c, now)).state;
    WrapSum(now, s.leases[c].ttl * NANOS_PER_MILLI);
    assert s'.leases[c].expireAt == SignedWrap64(until);
    if until >= TWO63 {
      var t := if now < SignedWrap64(until) then SignedWrap64(until) else now;
      assert now <= t < until;
      assert Step(s', LeaseExpire(c, t)).reply.result.outcome == LeaseExpired;
    }
  }

  /** A lease renewed for 292 years at time zero is over at time zero. */
  lemma LeaseEndsEarly()
    ensures var ttl := 9_223_372_036_855;
            var s := After(EMPTY, [LeaseGrant("a", ttl, 0), LeaseKeepAlive("a", 0)]);
            && ttl * NANOS_PER_MILLI >= TWO63
            && Step(s, LeaseExpire("a", 0)).reply == Ok(Result(LeaseExpired, s.revision + 1))
  {
    var ttl := 9_223_372_036_855;
    var log := [LeaseGrant("a", ttl, 0), LeaseKeepAlive("a", 0)];
    assert log[1..] == [LeaseKeepAlive("a", 0)] && log[1..][1..] == [];
    var s1 := Step(EMPTY, log[0]).state;
    var s2 := Step(s1, log[1]).state;
    assert After(EMPTY, log) == After(s1, log[1..]) == s2;
    assert s2.leases["a"].expireAt == SignedWrap64(SignedWrap64(ttl * NANOS_PER_MILLI)) < 0;
  }
}
