/** One round of a step worker over the nodes it serves: what is sent, pushed to the
    state machine and persisted, and in which order. Section 10.2.1 of Ongaro's Raft
    thesis allows a leader to send entries before they are on its own disk; of what
    raft asks to be sent, nothing else leaves before the state it speaks of is
    persisted. The notice that a node goes quiet does not come from raft and leaves
    while the nodes are being stepped. */
module StepTrace {
  import opened Basics

  datatype MessageType = Replicate | Ping | Quiesce | Other(code: nat)

  datatype Message = Message(kind: MessageType, from: nat, to: nat, body: nat, cluster: nat)

  datatype Update = Update(cluster: nat, fastApply: bool, snapshot: nat, committed: seq<nat>, messages: seq<Message>)

  /** A node as a round finds it. */
  datatype Node = Node(
    cluster: nat, id: nat,
    running: bool, initialized: bool,
    event: bool,            // `handleEvents` has found something to do
    newQuiesce: bool,       // the flag that the node has just gone quiet
    members: seq<nat>,      // the members, in the order the map of them is walked
    update: Option<Update>)

  datatype Event =
    | Sent(message: Message)
    | PushedSnapshot(cluster: nat, index: nat)
    | PushedEntries(cluster: nat, entries: seq<nat>)
    | Persisted(updates: seq<Update>)
    | Committed(cluster: nat)

  predicate FreeOrder(m: Message) {
    m.kind == Replicate || m.kind == Ping
  }

  /** A message as it is sent: under its cluster's id. */
  function Addressed(u: Update, m: Message): Message {
    m.(cluster := u.cluster)
  }

  /** A node that is stepped and has something to do. */
  predicate Steps(n: Node) {
    n.running && n.initialized && n.event
  }

  /** An update of a node speaks of its cluster. */
  predicate NodeOk(n: Node) {
    n.update.Some? ==> n.update.value.cluster == n.cluster
  }

  /** The node after its step: the flag has been taken down. */
  function Stepped(n: Node): Node {
    if Steps(n) then n.(newQuiesce := false) else n
  }

  function Notice(n: Node, to: nat): Event {
    Sent(Message(Quiesce, n.id, to, 0, n.cluster))
  }

  // ---------------------------------------------------------- what is meant

  /** The messages of an update that are sent before, or after, it is persisted. */
  function Part(u: Update, n: nat, free: bool): seq<Event>
    requires n <= |u.messages|
  {
    if n == 0 then []
    else if FreeOrder(u.messages[n - 1]) == free then Part(u, n - 1, free) + [Sent(Addressed(u, u.messages[n - 1]))]
    else Part(u, n - 1, free)
  }

  function Sends(u: Update, free: bool): seq<Event> {
    Part(u, |u.messages|, free)
  }

  /** What an update brings the state machine: its snapshot, then its entries. */
  function Pushes(u: Update): seq<Event> {
    (if u.snapshot == 0 then [] else [PushedSnapshot(u.cluster, u.snapshot)]) +
    (if u.committed == [] then [] else [PushedEntries(u.cluster, u.committed)])
  }

  function PushesOf(us: seq<Update>, fast: bool): seq<Event> {
    if us == [] then []
    else PushesOf(us[..|us| - 1], fast) + if us[|us| - 1].fastApply == fast then Pushes(us[|us| - 1]) else []
  }

  function FreeSends(us: seq<Update>): seq<Event> {
    if us == [] then [] else FreeSends(us[..|us| - 1]) + Sends(us[|us| - 1], true)
  }

  /** After persisting: the other messages of each update, then its commit. */
  function Rest(us: seq<Update>): seq<Event> {
    if us == [] then [] else Rest(us[..|us| - 1]) + Sends(us[|us| - 1], false) + [Committed(us[|us| - 1].cluster)]
  }

  function Before(us: seq<Update>): seq<Event> {
    PushesOf(us, true) + FreeSends(us)
  }

  function After(us: seq<Update>): seq<Event> {
    PushesOf(us, false) + Rest(us)
  }

  /** The notices to the first `k` members. */
  function NoticesTo(n: Node, k: nat): seq<Event>
    requires k <= |n.members|
  {
    if k == 0 then []
    else if n.members[k - 1] == n.id then NoticesTo(n, k - 1)
    else NoticesTo(n, k - 1) + [Notice(n, n.members[k - 1])]
  }

  /** What stepping a node sends at once. */
  function Notices(n: Node): seq<Event> {
    if Steps(n) && n.newQuiesce then NoticesTo(n, |n.members|) else []
  }

  function NoticesOf(ns: seq<Node>): seq<Event> {
    if ns == [] then [] else NoticesOf(ns[..|ns| - 1]) + Notices(ns[|ns| - 1])
  }

  /** The updates stepping the nodes yields. */
  function Updates(ns: seq<Node>): seq<Update> {
    if ns == [] then []
    else
      var n := ns[|ns| - 1];
      Updates(ns[..|ns| - 1]) + if Steps(n) && n.update.Some? then [n.update.value] else []
  }

  /** Everything that happens before the round persists. */
  function Early(ns: seq<Node>): seq<Event> {
    NoticesOf(ns) + Before(Updates(ns))
  }

  function Trace(ns: seq<Node>): seq<Event> {
    Early(ns) + [Persisted(Updates(ns))] + After(Updates(ns))
  }

  // ------------------------------------------------------------- what holds

  /** How many of the first `n` messages of an update are sent as `m`. */
  function TimesSent(u: Update, n: nat, m: Message): nat
    requires n <= |u.messages|
  {
    if n == 0 then 0 else TimesSent(u, n - 1, m) + One(u.messages[n - 1].(cluster := u.cluster) == m)
  }

  /** How often an update calls for an event: its snapshot and its entries are pushed if
      it has any, each of its messages is sent, and it is committed. */
  function Calls(u: Update, e: Event): nat {
    match e
    case PushedSnapshot(c, index) => One(index != 0 && c == u.cluster && index == u.snapshot)
    case PushedEntries(c, entries) => One(entries != [] && c == u.cluster && entries == u.committed)
    case Sent(m) => TimesSent(u, |u.messages|, m)
    case Committed(c) => One(c == u.cluster)
    case Persisted(_) => 0
  }

  /** How often a node calls for an event: not at all unless it runs, is initialized and
      has something to do. */
  function NodeCalls(n: Node, e: Event): nat {
    if n.running && n.initialized && n.event && n.update.Some? then Calls(n.update.value, e) else 0
  }

  function AllCall(ns: seq<Node>, e: Event): nat {
    if ns == [] then 0 else AllCall(ns[..|ns| - 1], e) + NodeCalls(ns[|ns| - 1], e)
  }

  /** The same, over the updates. */
  function UpdatesCall(us: seq<Update>, e: Event): nat {
    if us == [] then 0 else UpdatesCall(us[..|us| - 1], e) + Calls(us[|us| - 1], e)
  }

  lemma OneMoreCalls(us: seq<Update>, u: Update, e: Event)
    ensures UpdatesCall(us + [u], e) == UpdatesCall(us, e) + Calls(u, e)
  {
    assert (us + [u])[..|us|] == us;
  }

  lemma {:induction false} NodesCall(ns: seq<Node>, e: Event)
    ensures UpdatesCall(Updates(ns), e) == AllCall(ns, e)
  {
    if ns != [] {
      var init, n := ns[..|ns| - 1], ns[|ns| - 1];
      NodesCall(init, e);
      if Steps(n) && n.update.Some? {
        assert Updates(ns) == Updates(init) + [n.update.value];
        OneMoreCalls(Updates(init), n.update.value, e);
      } else {
        assert Updates(ns) == Updates(init);
      }
    }
  }

  /** Each update a node yields is persisted, as often as it is yielded. */
  lemma {:induction false} UpdatesOnce(ns: seq<Node>, u: Update)
    ensures multiset(Updates(ns))[u] == CountYields(ns, u)
  {
    if ns != [] { UpdatesOnce(ns[..|ns| - 1], u); }
  }

  function CountYields(ns: seq<Node>, u: Update): nat {
    if ns == [] then 0
    else
      var n := ns[|ns| - 1];
      CountYields(ns[..|ns| - 1], u) + One(n.running && n.initialized && n.event && n.update == Some(u))
  }

  /** How many of the first `n` messages of an update are sent as `m`, before persisting
      or after. */
  function SentAmong(u: Update, n: nat, free: bool, m: Message): nat
    requires n <= |u.messages|
  {
    if n == 0 then 0
    else SentAmong(u, n - 1, free, m) + One(FreeOrder(u.messages[n - 1]) == free && u.messages[n - 1].(cluster := u.cluster) == m)
  }

  lemma {:induction false} PartCount(u: Update, n: nat, free: bool, m: Message)
    requires n <= |u.messages|
    ensures multiset(Part(u, n, free))[Sent(m)] == SentAmong(u, n, free, m)
  {
    if n > 0 { PartCount(u, n - 1, free, m); }
  }

  lemma {:induction false} SendsAmong(u: Update, n: nat, m: Message)
    requires n <= |u.messages|
    ensures SentAmong(u, n, true, m) + SentAmong(u, n, false, m) == TimesSent(u, n, m)
  {
    if n > 0 { SendsAmong(u, n - 1, m); }
  }

  lemma SendsSplit(u: Update, e: Event)
    ensures multiset(Sends(u, true))[e] + multiset(Sends(u, false))[e] == if e.Sent? then TimesSent(u, |u.messages|, e.message) else 0
  {
    if e.Sent? {
      PartCount(u, |u.messages|, true, e.message);
      PartCount(u, |u.messages|, false, e.message);
      SendsAmong(u, |u.messages|, e.message);
    } else {
      if e in Sends(u, true) { PartIs(u, |u.messages|, true, e); }
      if e in Sends(u, false) { PartIs(u, |u.messages|, false, e); }
    }
  }

  lemma {:induction false} PartIsPrefix(u: Update, n: nat, k: nat, free: bool)
    requires n <= k <= |u.messages|
    ensures Part(u, n, free) <= Part(u, k, free)
  {
    if n < k { PartIsPrefix(u, n, k - 1, free); }
  }

  /** Messages are sent in the order the update gives them: whatever `n` is, those of the
      first `n` that are sent before persisting, or after, are sent first. */
  lemma SentInOrder(u: Update, n: nat, free: bool) returns (k: nat)
    requires n <= |u.messages|
    ensures k <= |Sends(u, free)| && forall m :: multiset(Sends(u, free)[..k])[Sent(m)] == SentAmong(u, n, free, m)
  {
    k := |Part(u, n, free)|;
    PartIsPrefix(u, n, |u.messages|, free);
    assert Sends(u, free)[..k] == Part(u, n, free);
    forall m ensures multiset(Part(u, n, free))[Sent(m)] == SentAmong(u, n, free, m) { PartCount(u, n, free, m); }
  }

  /** How often a node owes an event: one notice to every other member if it has just
      gone quiet. */
  function Owes(n: Node, e: Event): nat {
    if n.running && n.initialized && n.event && n.newQuiesce && e.Sent? && e.message.to != n.id &&
       e.message == Message(Quiesce, n.id, e.message.to, 0, n.cluster)
    then multiset(n.members)[e.message.to] else 0
  }

  function AllOwe(ns: seq<Node>, e: Event): nat {
    if ns == [] then 0 else AllOwe(ns[..|ns| - 1], e) + Owes(ns[|ns| - 1], e)
  }

  lemma {:induction false} NoticesToOnce(n: Node, k: nat, e: Event)
    requires k <= |n.members|
    ensures multiset(NoticesTo(n, k))[e] ==
            if e.Sent? && e == Notice(n, e.message.to) && e.message.to != n.id then multiset(n.members[..k])[e.message.to] else 0
  {
    if k > 0 {
      NoticesToOnce(n, k - 1, e);
      assert n.members[..k] == n.members[..k - 1] + [n.members[k - 1]];
    }
  }

  lemma {:induction false} NoticesOnce(ns: seq<Node>, e: Event)
    ensures multiset(NoticesOf(ns))[e] == AllOwe(ns, e)
  {
    if ns != [] {
      var n := ns[|ns| - 1];
      NoticesOnce(ns[..|ns| - 1], e);
      NoticesToOnce(n, |n.members|, e);
      assert n.members[..|n.members|] == n.members;
    }
  }

  /** The round does everything the nodes' updates call for and sends every notice owed,
      as often as it is called for, and does nothing else but persist the updates once. */
  lemma EachOnce(ns: seq<Node>, e: Event)
    ensures multiset(Trace(ns))[e] == AllOwe(ns, e) + AllCall(ns, e) + One(e == Persisted(Updates(ns)))
  {
    var us := Updates(ns);
    EachOncePart(us, e);
    NodesCall(ns, e);
    NoticesOnce(ns, e);
    Counted(NoticesOf(ns), Before(us), After(us), Persisted(us), e);
  }

  lemma Counted(a: seq<Event>, b: seq<Event>, c: seq<Event>, p: Event, e: Event)
    ensures multiset(a + b + [p] + c)[e] == multiset(a)[e] + multiset(b)[e] + multiset(c)[e] + One(e == p)
  {}

  lemma {:induction false} PushesOnce(us: seq<Update>, e: Event)
    requires e.PushedSnapshot? || e.PushedEntries?
    ensures multiset(PushesOf(us, true))[e] + multiset(PushesOf(us, false))[e] == UpdatesCall(us, e)
  {
    if us != [] {
      PushesOnce(us[..|us| - 1], e);
      PushesCount(us[|us| - 1], e);
    }
  }

  lemma {:induction false} SendsOnce(us: seq<Update>, e: Event)
    requires !e.PushedSnapshot? && !e.PushedEntries?
    ensures multiset(FreeSends(us))[e] + multiset(Rest(us))[e] == UpdatesCall(us, e)
  {
    if us != [] {
      SendsOnce(us[..|us| - 1], e);
      SendsSplit(us[|us| - 1], e);
    }
  }

  lemma EachOncePart(us: seq<Update>, e: Event)
    ensures multiset(Before(us))[e] + multiset(After(us))[e] == UpdatesCall(us, e)
  {
    if e.PushedSnapshot? || e.PushedEntries? {
      PushesOnce(us, e);
      if e in FreeSends(us) { FreeSendsAreFree(us, e); }
      if e in Rest(us) { RestIsNotFree(us, e); }
    } else {
      SendsOnce(us, e);
      if e in PushesOf(us, true) { PushesArePushes(us, true, e); }
      if e in PushesOf(us, false) { PushesArePushes(us, false, e); }
    }
  }

  lemma PushesCount(u: Update, e: Event)
    ensures multiset(Pushes(u))[e] == if e.PushedSnapshot? || e.PushedEntries? then Calls(u, e) else 0
    ensures e in Pushes(u) <==> (e.PushedSnapshot? || e.PushedEntries?) && Calls(u, e) == 1
  {}

  /** Of what the updates call for, only messages that may overtake persistence leave
      before it. */
  lemma {:induction false} OnlyFreeBefore(us: seq<Update>, e: Event)
    requires e in Before(us)
    ensures e.Sent? ==> FreeOrder(e.message)
    ensures !e.Persisted? && !e.Committed?
  {
    if e in PushesOf(us, true) { PushesArePushes(us, true, e); } else { FreeSendsAreFree(us, e); }
  }

  predicate HasPeer(n: Node) {
    exists m :: m in n.members && m != n.id
  }

  /** A node that tells its peers it has gone quiet. */
  predicate Announces(n: Node) {
    Steps(n) && n.newQuiesce && HasPeer(n)
  }

  lemma {:induction false} NoticesAreNotices(n: Node, k: nat, e: Event)
    requires k <= |n.members| && e in NoticesTo(n, k)
    ensures e.Sent? && e.message.kind == Quiesce && HasPeer(n)
  {
    if e in NoticesTo(n, k - 1) { NoticesAreNotices(n, k - 1, e); } else { assert n.members[k - 1] in n.members; }
  }

  lemma {:induction false} NoticesFromAnnouncers(ns: seq<Node>, e: Event)
    requires e in NoticesOf(ns)
    ensures e.Sent? && e.message.kind == Quiesce
    ensures exists i :: 0 <= i < |ns| && Announces(ns[i])
  {
    var last := |ns| - 1;
    if e in NoticesOf(ns[..last]) {
      NoticesFromAnnouncers(ns[..last], e);
      var i :| 0 <= i < last && Announces(ns[..last][i]);
      assert ns[i] == ns[..last][i];
    } else {
      NoticesAreNotices(ns[last], |ns[last].members|, e);
      assert Announces(ns[last]);
    }
  }

  lemma {:induction false} AllOweAtLeast(ns: seq<Node>, i: nat, e: Event)
    requires i < |ns|
    ensures AllOwe(ns, e) >= Owes(ns[i], e)
  {
    if i < |ns| - 1 { AllOweAtLeast(ns[..|ns| - 1], i, e); }
  }

  /** A message that may not overtake persistence leaves before it if and only if some
      node of the round has an event, has just gone quiet and has a peer; and such a
      message is a notice of that. */
  lemma OvertakesIffQuiet(ns: seq<Node>)
    ensures (exists e :: e in Early(ns) && e.Sent? && !FreeOrder(e.message)) <==> (exists i :: 0 <= i < |ns| && Announces(ns[i]))
    ensures forall e :: e in Early(ns) && e.Sent? && !FreeOrder(e.message) ==> e.message.kind == Quiesce
    ensures forall e :: e in Early(ns) ==> !e.Persisted? && !e.Committed?
  {
    forall e | e in Early(ns)
      ensures !e.Persisted? && !e.Committed?
      ensures e.Sent? && !FreeOrder(e.message) ==> e.message.kind == Quiesce && exists i :: 0 <= i < |ns| && Announces(ns[i])
    {
      if e in NoticesOf(ns) { NoticesFromAnnouncers(ns, e); } else { OnlyFreeBefore(Updates(ns), e); }
    }
    if i :| 0 <= i < |ns| && Announces(ns[i]) { AnnouncementOvertakes(ns, i); }
  }

  lemma AnnouncementOvertakes(ns: seq<Node>, i: nat)
    requires i < |ns| && Announces(ns[i])
    ensures exists e :: e in Early(ns) && e.Sent? && !FreeOrder(e.message)
  {
    var m :| m in ns[i].members && m != ns[i].id;
    var e := Notice(ns[i], m);
    AllOweAtLeast(ns, i, e);
    NoticesOnce(ns, e);
    assert e in Early(ns);
  }

  /** A round that persists nothing and still sends: one quiet node of two members. */
  lemma QuietNodeOvertakes()
    ensures var n := Node(7, 1, true, true, true, true, [1, 2], None);
            Trace([n]) == [Sent(Message(Quiesce, 1, 2, 0, 7)), Persisted([])] && !FreeOrder(Message(Quiesce, 1, 2, 0, 7))
  {
    var n := Node(7, 1, true, true, true, true, [1, 2], None);
    assert NoticesTo(n, 1) == NoticesTo(n, 0) == [];
    assert NoticesTo(n, 2) == [Notice(n, 2)];
    assert [n][..0] == [];
    assert NoticesOf([n]) == NoticesOf([]) + Notices(n);
    assert Updates([n]) == [];
  }

  lemma {:induction false} PushesArePushes(us: seq<Update>, fast: bool, e: Event)
    requires e in PushesOf(us, fast)
    ensures exists i :: 0 <= i < |us| && us[i].fastApply == fast && e in Pushes(us[i])
    ensures e.PushedSnapshot? || e.PushedEntries?
  {
    var last := |us| - 1;
    if e in PushesOf(us[..last], fast) {
      PushesArePushes(us[..last], fast, e);
      var i :| 0 <= i < last && us[..last][i].fastApply == fast && e in Pushes(us[..last][i]);
      assert us[i] == us[..last][i];
    } else {
      assert us[last].fastApply == fast && e in Pushes(us[last]);
    }
  }

  lemma {:induction false} PartIs(u: Update, n: nat, free: bool, e: Event)
    requires n <= |u.messages| && e in Part(u, n, free)
    ensures e.Sent? && FreeOrder(e.message) == free && e.message.cluster == u.cluster
  {
    if e in Part(u, n - 1, free) { PartIs(u, n - 1, free, e); }
  }

  lemma {:induction false} FreeSendsAreFree(us: seq<Update>, e: Event)
    requires e in FreeSends(us)
    ensures e.Sent? && FreeOrder(e.message)
  {
    var last := |us| - 1;
    if e in FreeSends(us[..last]) { FreeSendsAreFree(us[..last], e); } else { PartIs(us[last], |us[last].messages|, true, e); }
  }

  lemma {:induction false} RestIsNotFree(us: seq<Update>, e: Event)
    requires e in Rest(us)
    ensures e.Committed? || (e.Sent? && !FreeOrder(e.message))
  {
    var last := |us| - 1;
    if e in Rest(us[..last]) {
      RestIsNotFree(us[..last], e);
    } else if e in Sends(us[last], false) {
      PartIs(us[last], |us[last].messages|, false, e);
    }
  }

  /** Messages that speak of persisted state, and commits, come after it. */
  lemma OnlyOthersAfter(us: seq<Update>, e: Event)
    requires e in After(us)
    ensures e.Sent? ==> !FreeOrder(e.message)
    ensures !e.Persisted?
  {
    if e in PushesOf(us, false) { PushesArePushes(us, false, e); } else { RestIsNotFree(us, e); }
  }

  /** With one update per cluster, an update reaches the state machine before it is
      persisted exactly when it is marked for it. */
  lemma PushedEarlyIffFast(us: seq<Update>, i: nat, e: Event)
    requires i < |us| && (e.PushedSnapshot? || e.PushedEntries?) && Calls(us[i], e) == 1
    requires OnePerCluster(us)
    ensures e in Before(us) <==> us[i].fastApply
    ensures e in After(us) <==> !us[i].fastApply
  {
    PushesCount(us[i], e);
    PushedWhere(us, i, e);
    if e in Before(us) {
      if e in PushesOf(us, true) { SameUpdate(us, i, true, e); } else { FreeSendsAreFree(us, e); }
    }
    if e in After(us) {
      if e in PushesOf(us, false) { SameUpdate(us, i, false, e); } else { RestIsNotFree(us, e); }
    }
  }

  lemma SameUpdate(us: seq<Update>, i: nat, fast: bool, e: Event)
    requires i < |us| && e in Pushes(us[i]) && e in PushesOf(us, fast)
    requires OnePerCluster(us)
    ensures us[i].fastApply == fast
  {
    PushesArePushes(us, fast, e);
    var j :| 0 <= j < |us| && us[j].fastApply == fast && e in Pushes(us[j]);
    assert us[j].cluster == e.cluster == us[i].cluster;
  }

  lemma {:induction false} PushedWhere(us: seq<Update>, i: nat, e: Event)
    requires i < |us| && e in Pushes(us[i])
    ensures e in PushesOf(us, us[i].fastApply)
  {
    if i < |us| - 1 { PushedWhere(us[..|us| - 1], i, e); }
  }

  /** Where a snapshot and entries of one cluster are both pushed, the snapshot is first. */
  ghost predicate SnapshotFirst(t: seq<Event>) {
    forall p, q :: 0 <= p < |t| && 0 <= q < |t| && t[p].PushedSnapshot? && t[q].PushedEntries? && t[p].cluster == t[q].cluster ==> p < q
  }

  ghost predicate Pushed(us: seq<Update>, t: seq<Event>, fast: bool) {
    forall e :: e in t && (e.PushedSnapshot? || e.PushedEntries?) ==> exists i :: 0 <= i < |us| && us[i].cluster == e.cluster && us[i].fastApply == fast
  }

  lemma {:induction false} PushedBy(us: seq<Update>, fast: bool)
    ensures Pushed(us, PushesOf(us, fast), fast)
  {
    forall e | e in PushesOf(us, fast) && (e.PushedSnapshot? || e.PushedEntries?)
      ensures exists i :: 0 <= i < |us| && us[i].cluster == e.cluster && us[i].fastApply == fast
    {
      PushesArePushes(us, fast, e);
    }
  }

  ghost predicate OnePerCluster(us: seq<Update>) {
    forall j, k :: 0 <= j < k < |us| ==> us[j].cluster != us[k].cluster
  }

  lemma {:induction false} PushesInOrder(us: seq<Update>, fast: bool)
    requires OnePerCluster(us)
    ensures SnapshotFirst(PushesOf(us, fast))
  {
    if us != [] {
      var init := us[..|us| - 1];
      PushesInOrder(init, fast);
      PushedBy(init, fast);
    }
  }

  /** In a round with one update of a cluster, the snapshot of an update reaches the state
      machine before its entries. */
  lemma SnapshotsComeFirst(ns: seq<Node>)
    requires OnePerCluster(Updates(ns))
    ensures SnapshotFirst(Trace(ns))
  {
    var us := Updates(ns);
    forall e | e in NoticesOf(ns) ensures e.Sent? { NoticesFromAnnouncers(ns, e); }
    forall e | e in FreeSends(us) ensures e.Sent? { FreeSendsAreFree(us, e); }
    forall e | e in Rest(us) ensures e.Sent? || e.Committed? { RestIsNotFree(us, e); }
    var between := FreeSends(us) + [Persisted(us)];
    PartsInOrder(us, NoticesOf(ns), between, Rest(us));
    Reassociate(NoticesOf(ns), PushesOf(us, true), FreeSends(us), [Persisted(us)], PushesOf(us, false), Rest(us));
  }

  lemma Reassociate(a: seq<Event>, b: seq<Event>, c: seq<Event>, d: seq<Event>, e: seq<Event>, f: seq<Event>)
    ensures (a + (b + c)) + d + (e + f) == (a + b + (c + d)) + ([] + e + f)
  {}

  lemma PartsInOrder(us: seq<Update>, n: seq<Event>, f: seq<Event>, r: seq<Event>)
    requires OnePerCluster(us) && NoPushes(n) && NoPushes(f) && NoPushes(r)
    ensures SnapshotFirst((n + PushesOf(us, true) + f) + ([] + PushesOf(us, false) + r))
  {
    PushesInOrder(us, true);
    PushesInOrder(us, false);
    PushedBy(us, true);
    PushedBy(us, false);
    Around(n, PushesOf(us, true), f);
    Around([], PushesOf(us, false), r);
    BothInOrder(us, n + PushesOf(us, true) + f, [] + PushesOf(us, false) + r);
  }

  ghost predicate NoPushes(t: seq<Event>) {
    forall e :: e in t ==> !e.PushedSnapshot? && !e.PushedEntries?
  }

  lemma Around(a: seq<Event>, t: seq<Event>, b: seq<Event>)
    requires NoPushes(a) && NoPushes(b) && SnapshotFirst(t)
    ensures SnapshotFirst(a + t + b) && forall e :: e in a + t + b && (e.PushedSnapshot? || e.PushedEntries?) ==> e in t
  {
    var all := a + t + b;
    forall p, q | 0 <= p < |all| && 0 <= q < |all| && all[p].PushedSnapshot? && all[q].PushedEntries? && all[p].cluster == all[q].cluster
      ensures p < q
    {
      Within(a, t, b, p);
      Within(a, t, b, q);
    }
  }

  lemma Within(a: seq<Event>, t: seq<Event>, b: seq<Event>, p: nat)
    requires p < |a + t + b|
    ensures var e := (a + t + b)[p]; e in a || e in b || (|a| <= p < |a| + |t| && e == t[p - |a|])
  {}

  lemma BothInOrder(us: seq<Update>, a: seq<Event>, b: seq<Event>)
    requires OnePerCluster(us) && SnapshotFirst(a) && SnapshotFirst(b) && Pushed(us, a, true) && Pushed(us, b, false)
    ensures SnapshotFirst(a + b)
  {
    forall p, q | 0 <= p < |a| && 0 <= q < |b| && a[p].PushedEntries? && b[q].PushedSnapshot? ensures a[p].cluster != b[q].cluster {
      assert a[p] in a && b[q] in b;
    }
  }

  /** The cluster an event is about; persisting is about all of them. */
  predicate About(e: Event, c: nat) {
    match e
    case Sent(m) => m.cluster == c
    case PushedSnapshot(d, _) => d == c
    case PushedEntries(d, _) => d == c
    case Committed(d) => d == c
    case Persisted(_) => true
  }

  /** The commit of a cluster is the last event about it. */
  ghost predicate CommitsLast(t: seq<Event>) {
    forall p, q :: 0 <= p < q < |t| && t[p].Committed? ==> !About(t[q], t[p].cluster)
  }

  lemma {:induction false} RestIsAbout(us: seq<Update>, e: Event)
    requires e in Rest(us)
    ensures exists i :: 0 <= i < |us| && forall c :: About(e, c) <==> c == us[i].cluster
  {
    var last := |us| - 1;
    if e in Rest(us[..last]) {
      RestIsAbout(us[..last], e);
      var i :| 0 <= i < last && forall c :: About(e, c) <==> c == us[..last][i].cluster;
      assert us[i] == us[..last][i];
    } else {
      if e in Sends(us[last], false) { PartIs(us[last], |us[last].messages|, false, e); }
      assert forall c :: About(e, c) <==> c == us[last].cluster;
    }
  }

  lemma {:induction false} RestCommitsLast(us: seq<Update>)
    requires OnePerCluster(us)
    ensures CommitsLast(Rest(us))
  {
    if us != [] {
      var init, u := us[..|us| - 1], us[|us| - 1];
      RestCommitsLast(init);
      forall e | e in Rest(init) ensures !About(e, u.cluster) { RestIsAbout(init, e); }
      forall e | e in Sends(u, false) ensures e.Sent? && About(e, u.cluster) && forall c :: c != u.cluster ==> !About(e, c) {
        PartIs(u, |u.messages|, false, e);
      }
      CommitsLastMore(Rest(init), Sends(u, false), u.cluster);
    }
  }

  lemma CommitsLastMore(a: seq<Event>, b: seq<Event>, c: nat)
    requires CommitsLast(a) && (forall e :: e in a ==> !About(e, c))
    requires forall e :: e in b ==> e.Sent? && e.message.cluster == c
    ensures CommitsLast(a + b + [Committed(c)])
  {
    var t := a + b + [Committed(c)];
    forall p | |a| <= p < |t| - 1 ensures t[p].Sent? && t[p].message.cluster == c { assert t[p] == b[p - |a|]; }
    forall p | 0 <= p < |a| ensures t[p] == a[p] && !About(t[p], c) { assert a[p] in a; }
  }

  /** In a round with one update of a cluster, an update is committed after everything
      else it calls for, and after it is persisted. */
  lemma CommitsComeLast(ns: seq<Node>)
    requires OnePerCluster(Updates(ns))
    ensures CommitsLast(Trace(ns))
  {
    var us := Updates(ns);
    var before := Early(ns) + [Persisted(us)] + PushesOf(us, false);
    RestCommitsLast(us);
    forall e | e in before ensures !e.Committed? {
      if e in NoticesOf(ns) {
        NoticesFromAnnouncers(ns, e);
      } else if e in Before(us) {
        OnlyFreeBefore(us, e);
      } else if e in PushesOf(us, false) {
        PushesArePushes(us, false, e);
      }
    }
    assert Trace(ns) == before + Rest(us);
    PrefixedCommitsLast(before, Rest(us));
  }

  lemma PrefixedCommitsLast(a: seq<Event>, b: seq<Event>)
    requires CommitsLast(b) && forall e :: e in a ==> !e.Committed?
    ensures CommitsLast(a + b)
  {
    forall p | 0 <= p < |a| ensures !(a + b)[p].Committed? { assert (a + b)[p] == a[p]; }
  }

  /** A node tells its peers once: the round that does takes the flag down. */
  lemma NoticesOnlyOnce(n: Node)
    ensures Notices(Stepped(n)) == []
    ensures !Steps(n) ==> Stepped(n) == n
  {}

  lemma Glue(t: seq<Event>, n: seq<Event>, a: seq<Event>, b: seq<Event>, c: seq<Event>, d: seq<Event>, e: seq<Event>)
    ensures t + n + a + b + c + d + e == t + ((n + (a + b)) + c + (d + e))
  {}

  // ------------------------------------------------------ the round as it runs

  ghost predicate NodesOk(nodes: map<nat, Node>) {
    forall c :: c in nodes ==> nodes[c].cluster == c && NodeOk(nodes[c])
  }

  function ToVisit(nodes: map<nat, Node>, active: set<nat>): set<nat> {
    if active == {} then nodes.Keys else active
  }

  /** The nodes after those of `done` were stepped. */
  function Lowered(nodes: map<nat, Node>, done: set<nat>): map<nat, Node> {
    map c | c in nodes :: if c in done then Stepped(nodes[c]) else nodes[c]
  }

  /** `order` lists the clusters, once each. */
  ghost predicate Enumerates(order: seq<nat>, clusters: set<nat>) {
    && (forall c :: c in order <==> c in clusters)
    && (forall j, k :: 0 <= j < k < |order| ==> order[j] != order[k])
  }

  /** The nodes a round over these clusters steps; those stopped or unknown are passed
      over. */
  function NodesAt(nodes: map<nat, Node>, order: seq<nat>): seq<Node> {
    if order == [] then []
    else
      var c := order[|order| - 1];
      NodesAt(nodes, order[..|order| - 1]) + if c in nodes && nodes[c].running then [nodes[c]] else []
  }

  lemma LoweredMore(nodes: map<nat, Node>, done: set<nat>, c: nat)
    requires c !in done
    ensures c in nodes ==> Lowered(nodes, done)[c] == nodes[c] && Lowered(nodes, done + {c}) == Lowered(nodes, done)[c := Stepped(nodes[c])]
    ensures c !in nodes || !nodes[c].running ==> Lowered(nodes, done + {c}) == Lowered(nodes, done)
  {}

  lemma RoundMore(nodes: map<nat, Node>, order: seq<nat>, c: nat)
    ensures var ns, more := NodesAt(nodes, order), NodesAt(nodes, order + [c]);
            if c in nodes && nodes[c].running
            then NoticesOf(more) == NoticesOf(ns) + Notices(nodes[c]) &&
                 Updates(more) == Updates(ns) + if Steps(nodes[c]) && nodes[c].update.Some? then [nodes[c].update.value] else []
            else more == ns
  {
    var ns, more := NodesAt(nodes, order), NodesAt(nodes, order + [c]);
    assert (order + [c])[..|order|] == order;
    if c in nodes && nodes[c].running { assert more[..|ns|] == ns; }
  }

  lemma EnumeratesMore(order: seq<nat>, clusters: set<nat>, c: nat)
    requires Enumerates(order, clusters) && c !in clusters
    ensures Enumerates(order + [c], clusters + {c})
  {
    var more := order + [c];
    forall j, k | 0 <= j < k < |more| ensures more[j] != more[k] { assert order[j] in clusters; }
  }

  /** A round has at most one update of a cluster. */
  lemma {:induction false} OneUpdateEach(nodes: map<nat, Node>, order: seq<nat>)
    requires NodesOk(nodes) && forall j, k :: 0 <= j < k < |order| ==> order[j] != order[k]
    ensures var us := Updates(NodesAt(nodes, order));
            && (forall i :: 0 <= i < |us| ==> us[i].cluster in order)
            && OnePerCluster(us)
  {
    if order != [] {
      var init, c := order[..|order| - 1], order[|order| - 1];
      assert init + [c] == order;
      OneUpdateEach(nodes, init);
      RoundMore(nodes, init, c);
      assert c !in init;
    }
  }

  /** Is this the round begun with `was` and `t`, after the clusters in `order`? */
  ghost predicate Midway(nodes: map<nat, Node>, trace: seq<Event>, was: map<nat, Node>, t: seq<Event>,
                         order: seq<nat>, done: set<nat>, us: seq<Update>)
  {
    && Enumerates(order, done)
    && nodes == Lowered(was, done)
    && us == Updates(NodesAt(was, order))
    && trace == t + NoticesOf(NodesAt(was, order))
  }

  lemma MidwayAtFirst(nodes: map<nat, Node>, trace: seq<Event>)
    ensures Midway(nodes, trace, nodes, trace, [], {}, [])
  {
    assert Lowered(nodes, {}) == nodes;
    assert trace + [] == trace;
  }

  /** A round that goes on passes over what is stopped or unknown, */
  lemma MidwayPassed(nodes: map<nat, Node>, trace: seq<Event>, was: map<nat, Node>, t: seq<Event>,
                     order: seq<nat>, done: set<nat>, us: seq<Update>, c: nat)
    requires Midway(nodes, trace, was, t, order, done, us) && c !in done && !(c in nodes && nodes[c].running)
    ensures Midway(nodes, trace, was, t, order + [c], done + {c}, us)
  {
    assert c in nodes <==> c in was;
    LoweredMore(was, done, c);
    RoundMore(was, order, c);
    EnumeratesMore(order, done, c);
  }

  /** and steps a running node. */
  lemma MidwayStepped(nodes: map<nat, Node>, trace: seq<Event>, was: map<nat, Node>, t: seq<Event>,
                      order: seq<nat>, done: set<nat>, us: seq<Update>, c: nat)
    requires Midway(nodes, trace, was, t, order, done, us) && c !in done && c in nodes && nodes[c].running
    ensures var more := if Steps(nodes[c]) && nodes[c].update.Some? then [nodes[c].update.value] else [];
            Midway(nodes[c := Stepped(nodes[c])], trace + Notices(nodes[c]), was, t, order + [c], done + {c}, us + more)
  {
    LoweredMore(was, done, c);
    RoundMore(was, order, c);
    EnumeratesMore(order, done, c);
    Associate(t, NoticesOf(NodesAt(was, order)), Notices(was[c]));
  }

  lemma Associate(a: seq<Event>, b: seq<Event>, c: seq<Event>)
    ensures a + b + c == a + (b + c)
  {}

  class Engine {
    var nodes: map<nat, Node>
    var trace: seq<Event>

    constructor (nodes: map<nat, Node>)
      ensures trace == [] && this.nodes == nodes
    {
      this.nodes := nodes;
      trace := [];
    }

    /** Step one node: its notices leave at once. */
    method StepNode(c: nat) returns (update: Option<Update>)
      requires c in nodes && nodes[c].running
      modifies this
      ensures trace == old(trace) + Notices(old(nodes[c]))
      ensures nodes == old(nodes)[c := Stepped(old(nodes[c]))]
      ensures update == if Steps(old(nodes[c])) then old(nodes[c]).update else None
    {
      var n := nodes[c];
      update := None;
      if n.initialized {
        if n.event {
          nodes := nodes[c := n.(newQuiesce := false)];
          if n.newQuiesce { SendEnterQuiesceMessages(n); }
          update := n.update;
        }
      }
    }

    method SendEnterQuiesceMessages(n: Node)
      modifies this`trace
      ensures trace == old(trace) + NoticesTo(n, |n.members|)
    {
      var k := 0;
      while k < |n.members|
        invariant 0 <= k <= |n.members|
        invariant trace == old(trace) + NoticesTo(n, k)
      {
        if n.members[k] != n.id { trace := trace + [Sent(Message(Quiesce, n.id, n.members[k], 0, n.cluster))]; }
        k := k + 1;
      }
    }

    /** Visit one cluster; those stopped or unknown are passed over. */
    method VisitOne(c: nat, us: seq<Update>, ghost was: map<nat, Node>, ghost t: seq<Event>, ghost order: seq<nat>, ghost done: set<nat>)
        returns (us': seq<Update>)
      requires Midway(nodes, trace, was, t, order, done, us) && c !in done
      modifies this
      ensures Midway(nodes, trace, was, t, order + [c], done + {c}, us')
    {
      us' := us;
      if c in nodes && nodes[c].running {
        MidwayStepped(nodes, trace, was, t, order, done, us, c);
        assert us + [] == us;
        var update := StepNode(c);
        if update.Some? { us' := us + [update.value]; }
      } else {
        MidwayPassed(nodes, trace, was, t, order, done, us, c);
      }
    }

    /** Step the clusters to visit: those active, or all if none is. */
    method StepNodes(active: set<nat>) returns (us: seq<Update>, order: seq<nat>)
      modifies this
      ensures Midway(nodes, trace, old(nodes), old(trace), order, ToVisit(old(nodes), active), us)
    {
      us, order := [], [];
      ghost var was := nodes;
      var visit := if active == {} then nodes.Keys else active;
      var todo := visit;
      MidwayAtFirst(nodes, trace);
      while todo != {}
        invariant todo <= visit && Midway(nodes, trace, was, old(trace), order, visit - todo, us)
        decreases |todo|
      {
        var c :| c in todo;
        us := VisitOne(c, us, was, old(trace), order, visit - todo);
        assert visit - todo + {c} == visit - (todo - {c});
        order, todo := order + [c], todo - {c};
      }
      assert visit - {} == visit;
    }

    method SendMessages(u: Update, free: bool)
      modifies this`trace
      ensures trace == old(trace) + Sends(u, free)
    {
      var i := 0;
      while i < |u.messages|
        invariant 0 <= i <= |u.messages|
        invariant trace == old(trace) + Part(u, i, free)
      {
        if FreeOrder(u.messages[i]) == free { trace := trace + [Sent(u.messages[i].(cluster := u.cluster))]; }
        i := i + 1;
      }
    }

    method PushUpdate(u: Update)
      modifies this`trace
      ensures trace == old(trace) + Pushes(u)
    {
      if u.snapshot != 0 { trace := trace + [PushedSnapshot(u.cluster, u.snapshot)]; }
      if |u.committed| > 0 { trace := trace + [PushedEntries(u.cluster, u.committed)]; }
    }

    method ApplySnapshotAndUpdate(us: seq<Update>, fast: bool)
      modifies this`trace
      ensures trace == old(trace) + PushesOf(us, fast)
    {
      var i := 0;
      assert us[..0] == [];
      while i < |us|
        invariant 0 <= i <= |us|
        invariant trace == old(trace) + PushesOf(us[..i], fast)
      {
        var u := us[i];
        assert us[..i + 1][..i] == us[..i];
        if u.fastApply == fast { PushUpdate(u); }
        i := i + 1;
      }
      assert us[..i] == us;
    }

    method SendReplicates(us: seq<Update>)
      modifies this`trace
      ensures trace == old(trace) + FreeSends(us)
    {
      var i := 0;
      assert us[..0] == [];
      while i < |us|
        invariant 0 <= i <= |us|
        invariant trace == old(trace) + FreeSends(us[..i])
      {
        assert us[..i + 1][..i] == us[..i];
        SendMessages(us[i], true);
        i := i + 1;
      }
      assert us[..i] == us;
    }

    /** One round; without nodes it does nothing. `order` is how the map was walked. */
    method ProcessSteps(active: set<nat>) returns (order: seq<nat>)
      modifies this
      ensures old(nodes) == map[] ==> trace == old(trace) && nodes == old(nodes)
      ensures old(nodes) != map[] ==>
                && Enumerates(order, ToVisit(old(nodes), active))
                && trace == old(trace) + Trace(NodesAt(old(nodes), order))
                && nodes == Lowered(old(nodes), ToVisit(old(nodes), active))
    {
      if |nodes| == 0 { return []; }
      var us;
      us, order := StepNodes(active);
      ghost var early := NoticesOf(NodesAt(old(nodes), order));
      ApplySnapshotAndUpdate(us, true);
      SendReplicates(us);
      trace := trace + [Persisted(us)];
      ApplySnapshotAndUpdate(us, false);
      Finish(us);
      Glue(old(trace), early, PushesOf(us, true), FreeSends(us), [Persisted(us)], PushesOf(us, false), Rest(us));
    }

    method Finish(us: seq<Update>)
      modifies this`trace
      ensures trace == old(trace) + Rest(us)
    {
      var i := 0;
      assert us[..0] == [];
      while i < |us|
        invariant 0 <= i <= |us|
        invariant trace == old(trace) + Rest(us[..i])
      {
        assert us[..i + 1][..i] == us[..i];
        SendMessages(us[i], false);
        trace := trace + [Committed(us[i].cluster)];
        i := i + 1;
      }
      assert us[..i] == us;
    }
  }
}
