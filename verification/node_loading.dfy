/** Which parts of the host hold which nodes. The host has a table of running nodes
    with a version; step, commit and apply workers and the snapshot pool keep copies
    of their share of it, and every holder counts as one load of the node. */
module NodeLoading {
  import opened Basics

  /** One incarnation of a replica of a cluster. */
  datatype Node = Node(cluster: nat, replica: nat, instance: nat)

  /** A worker serves the clusters that fall into its bucket. */
  datatype WorkerId = WorkerId(kind: nat, bucket: nat, count: nat)

  type Table = map<nat, Node>

  /** A busy snapshot worker holds the node it works for. */
  datatype Holder = Host | Worker(id: WorkerId) | Pool | Busy(slot: nat)

  datatype State = State(
    history: seq<Table>,                // the host's table at every version
    held: map<Holder, Table>,           // what each holder has now
    versions: map<Holder, nat>,         // the version a copy was made at
    loads: multiset<Node>,              // calls of loaded()
    unloads: multiset<Node>,            // calls of offloaded()
    instances: nat)

  datatype Outcome = Fine(state: State) | TwoIncarnations

  function Of(held: map<Holder, Table>, h: Holder): Table {
    if h in held then held[h] else map[]
  }

  function HostTable(s: State): Table {
    Of(s.held, Host)
  }

  ghost function New(workers: set<WorkerId>): State {
    var copies := {Pool} + set w | w in workers :: Worker(w);
    State([map[]], map h | h in copies + {Host} :: map[], map h | h in copies :: 0, multiset{}, multiset{}, 0)
  }

  predicate Mine(w: WorkerId, c: nat) {
    w.count > 0 && c % w.count == w.bucket
  }

  /** What of the host's table a holder of a copy keeps: a worker its share, the pool
      all of it. */
  function Share(t: Table, h: Holder): Table {
    if h.Worker? then map c | c in t && Mine(h.id, c) :: t[c] else t
  }

  /** Does the table hold exactly this incarnation? */
  predicate Has(t: Table, n: Node) {
    n.cluster in t && t[n.cluster] == n
  }

  /** The nodes of one table whose clusters are not in the other. */
  function Missing(t: Table, other: Table): set<Node> {
    set c | c in t && c !in other :: t[c]
  }

  // ------------------------------------------------------------------ steps

  /** A holder gets a table and calls `loaded` and `offloaded` on these nodes. */
  function Hold(s: State, h: Holder, t: Table, loaded: set<Node>, offloaded: set<Node>): State {
    s.(held := s.held[h := t], loads := s.loads + multiset(loaded), unloads := s.unloads + multiset(offloaded))
  }

  /** A holder goes and calls `offloaded` on everything it holds. */
  function Release(s: State, h: Holder): State {
    s.(held := s.held - {h}, unloads := s.unloads + multiset(Missing(Of(s.held, h), map[])))
  }

  /** Does the engine hold a node of this replica? */
  ghost predicate Loaded(s: State, c: nat, replica: nat) {
    exists h :: h in s.held && h != Host && c in s.held[h] && s.held[h][c].replica == replica
  }

  ghost predicate CanStart(s: State, c: nat, replica: nat) {
    c !in HostTable(s) && !Loaded(s, c, replica)
  }

  function SetHost(s: State, t: Table, loaded: set<Node>, offloaded: set<Node>): State {
    Hold(s.(history := s.history + [t]), Host, t, loaded, offloaded)
  }

  /** The new node is loaded and filed. */
  function Started(s: State, c: nat, replica: nat): State {
    var n := Node(c, replica, s.instances);
    SetHost(s.(instances := s.instances + 1), HostTable(s)[c := n], {n}, {})
  }

  /** The node is taken out and offloaded. */
  function Stopped(s: State, c: nat): State
    requires c in HostTable(s)
  {
    SetHost(s, HostTable(s) - {c}, {}, {HostTable(s)[c]})
  }

  /** A cached node and the host's are different incarnations of one cluster. */
  predicate Clash(cached: Table, host: Table) {
    exists c :: c in cached && c in host && cached[c] != host[c]
  }

  /** The copy is made anew; nodes of clusters not in the old copy are loaded, those of
      clusters not in the new one offloaded. */
  function Refreshed(s: State, h: Holder): State
    requires s.history != []
  {
    var cached, nodes := Of(s.held, h), Share(HostTable(s), h);
    Hold(s.(versions := s.versions[h := |s.history| - 1]), h, nodes, Missing(nodes, cached), Missing(cached, nodes))
  }

  /** A worker or the pool looks at the host's version and copies its table anew. */
  function Load(s: State, h: Holder): Outcome
    requires s.history != [] && h in s.versions
  {
    if s.versions[h] == |s.history| - 1 then Fine(s)
    else if Clash(Of(s.held, h), HostTable(s)) then TwoIncarnations
    else Fine(Refreshed(s, h))
  }

  function Single(n: Node): Table {
    map[n.cluster := n]
  }

  datatype Action =
    | Start(cluster: nat, replica: nat)
    | Stop(cluster: nat)
    | Reload(holder: Holder)
    | Begin(slot: nat, cluster: nat)       // a snapshot worker starts on a node of the pool
    | End(slot: nat)
    | Leave(holder: Holder)                // a worker shuts down, or the pool, before its busy workers end

  predicate Enabled(s: State, a: Action) {
    match a
    case Start(_, _) => true
    case Stop(_) => true
    case Reload(h) => (h.Worker? || h.Pool?) && h in s.held && h in s.versions
    case Begin(k, c) => Busy(k) !in s.held && c in Of(s.held, Pool)
    case End(k) => Busy(k) in s.held
    case Leave(h) => (h.Worker? || h.Pool?) && h in s.held
  }

  /** A request that is refused changes nothing. */
  ghost function Next(s: State, a: Action): Outcome
    requires s.history != [] && Enabled(s, a)
  {
    match a
    case Start(c, replica) => Fine(if CanStart(s, c, replica) then Started(s, c, replica) else s)
    case Stop(c) => Fine(if c in HostTable(s) then Stopped(s, c) else s)
    case Reload(h) => Load(s, h)
    case Begin(k, c) => var n := s.held[Pool][c]; Fine(Hold(s, Busy(k), Single(n), {n}, {}))
    case End(k) => Fine(Release(s, Busy(k)))
    case Leave(h) => Fine(Release(s, h))
  }

  // -------------------------------------------------------------- invariant

  function Holders(held: map<Holder, Table>, n: Node): set<Holder> {
    set h | h in held && Has(held[h], n)
  }

  /** A node was loaded as often as it was offloaded and once more for each holder. */
  ghost predicate Counted(held: map<Holder, Table>, loads: multiset<Node>, unloads: multiset<Node>) {
    forall n :: loads[n] == unloads[n] + |Holders(held, n)|
  }

  /** A copy is the holder's share of the host's table at the version it remembers. */
  ghost predicate CopyOk(s: State, h: Holder) {
    && h in s.versions && s.versions[h] < |s.history|
    && Of(s.held, h) == Share(s.history[s.versions[h]], h)
  }

  ghost predicate Copied(s: State) {
    && s.history != [] && Host in s.held && s.held[Host] == s.history[|s.history| - 1]
    && (forall h :: h in s.held && (h.Worker? || h.Pool?) ==> CopyOk(s, h))
  }

  /** A table files nodes under their clusters, and they have been started. */
  predicate Aged(t: Table, instances: nat) {
    forall c :: c in t ==> t[c].cluster == c && t[c].instance < instances
  }

  ghost predicate AllAged(s: State) {
    forall h :: h in s.held ==> Aged(s.held[h], s.instances)
  }

  ghost predicate Inv(s: State) {
    Copied(s) && Counted(s.held, s.loads, s.unloads) && AllAged(s)
  }

  /** One holder more or less, and the others as they were. */
  lemma Toggle(a: set<Holder>, b: set<Holder>, h: Holder)
    requires a - {h} == b - {h}
    ensures |b| == |a| + One(h in b) - One(h in a)
  {
    if h in a { assert |a - {h}| == |a| - 1; } else { assert a - {h} == a; }
    if h in b { assert |b - {h}| == |b| - 1; } else { assert b - {h} == b; }
  }

  /** The calls made for a node say how it stands with this holder now and before. */
  ghost predicate CallsMatch(before: Table, after: Table, loaded: set<Node>, offloaded: set<Node>) {
    forall n :: One(n in loaded) + One(Has(before, n)) == One(n in offloaded) + One(Has(after, n))
  }

  lemma HoldCounted(s: State, h: Holder, t: Table, loaded: set<Node>, offloaded: set<Node>)
    requires Counted(s.held, s.loads, s.unloads) && CallsMatch(Of(s.held, h), t, loaded, offloaded)
    ensures var r := Hold(s, h, t, loaded, offloaded); Counted(r.held, r.loads, r.unloads)
  {
    var r := Hold(s, h, t, loaded, offloaded);
    forall n ensures r.loads[n] == r.unloads[n] + |Holders(r.held, n)| {
      Toggle(Holders(s.held, n), Holders(r.held, n), h);
      assert multiset(loaded)[n] == One(n in loaded) && multiset(offloaded)[n] == One(n in offloaded);
    }
  }

  lemma MissingIs(t: Table, other: Table, n: Node)
    requires forall c :: c in t ==> t[c].cluster == c
    ensures n in Missing(t, other) <==> Has(t, n) && n.cluster !in other
  {}

  /** Without a clash, calling by cluster is calling by node. */
  lemma RefreshMatches(cached: Table, host: Table, h: Holder)
    requires !Clash(cached, host)
    requires (forall c :: c in cached ==> cached[c].cluster == c) && (forall c :: c in host ==> host[c].cluster == c)
    ensures var nodes := Share(host, h); CallsMatch(cached, nodes, Missing(nodes, cached), Missing(cached, nodes))
  {
    var nodes := Share(host, h);
    forall n ensures One(n in Missing(nodes, cached)) + One(Has(cached, n)) == One(n in Missing(cached, nodes)) + One(Has(nodes, n)) {
      MissingIs(nodes, cached, n);
      MissingIs(cached, nodes, n);
    }
  }

  lemma ReleaseCounted(s: State, h: Holder)
    requires Counted(s.held, s.loads, s.unloads) && forall c :: c in Of(s.held, h) ==> Of(s.held, h)[c].cluster == c
    ensures var r := Release(s, h); Counted(r.held, r.loads, r.unloads)
  {
    var r, t := Release(s, h), Of(s.held, h);
    forall n ensures r.loads[n] == r.unloads[n] + |Holders(r.held, n)| {
      Toggle(Holders(s.held, n), Holders(r.held, n), h);
      MissingIs(t, map[], n);
      assert multiset(Missing(t, map[]))[n] == One(n in Missing(t, map[]));
    }
  }

  lemma HostKeeps(s: State, t: Table, loaded: set<Node>, offloaded: set<Node>)
    requires Inv(s) && Aged(t, s.instances) && CallsMatch(HostTable(s), t, loaded, offloaded)
    ensures Inv(SetHost(s, t, loaded, offloaded))
  {
    HoldCounted(s.(history := s.history + [t]), Host, t, loaded, offloaded);
    var s' := SetHost(s, t, loaded, offloaded);
    forall h | h in s'.held && (h.Worker? || h.Pool?) ensures CopyOk(s', h) { assert CopyOk(s, h); }
  }

  lemma StartKeeps(s: State, c: nat, replica: nat)
    requires Inv(s) && c !in HostTable(s)
    ensures Inv(Started(s, c, replica))
  {
    var n := Node(c, replica, s.instances);
    NewerKeeps(s);
    assert Aged(HostTable(s), s.instances);
    HostKeeps(s.(instances := s.instances + 1), HostTable(s)[c := n], {n}, {});
  }

  lemma StopKeeps(s: State, c: nat)
    requires Inv(s) && c in HostTable(s)
    ensures Inv(Stopped(s, c))
  {
    var host := HostTable(s);
    assert Aged(host, s.instances);
    forall n ensures One(Has(host, n)) == One(n in {host[c]}) + One(Has(host - {c}, n)) {}
    HostKeeps(s, host - {c}, {}, {host[c]});
  }

  lemma RefreshCounted(s: State, h: Holder)
    requires Inv(s) && !Clash(Of(s.held, h), HostTable(s))
    ensures var r := Refreshed(s, h); Counted(r.held, r.loads, r.unloads)
  {
    var cached, nodes := Of(s.held, h), Share(HostTable(s), h);
    assert Aged(HostTable(s), s.instances) && (h in s.held ==> Aged(s.held[h], s.instances));
    RefreshMatches(cached, HostTable(s), h);
    HoldCounted(s.(versions := s.versions[h := |s.history| - 1]), h, nodes, Missing(nodes, cached), Missing(cached, nodes));
  }

  lemma RefreshCopied(s: State, h: Holder)
    requires Inv(s) && (h.Worker? || h.Pool?)
    ensures Copied(Refreshed(s, h)) && AllAged(Refreshed(s, h))
  {
    var s' := Refreshed(s, h);
    assert Aged(HostTable(s), s.instances);
    forall g | g in s'.held && (g.Worker? || g.Pool?) ensures CopyOk(s', g) { if g != h { assert CopyOk(s, g); } }
  }

  lemma RefreshKeeps(s: State, h: Holder)
    requires Inv(s) && (h.Worker? || h.Pool?) && !Clash(Of(s.held, h), HostTable(s))
    ensures Inv(Refreshed(s, h))
  {
    RefreshCounted(s, h);
    RefreshCopied(s, h);
  }

  lemma BeginKeeps(s: State, k: nat, n: Node)
    requires Inv(s) && Busy(k) !in s.held && n.instance < s.instances
    ensures Inv(Hold(s, Busy(k), Single(n), {n}, {}))
  {
    HoldCounted(s, Busy(k), Single(n), {n}, {});
    forall h | h in s.held && (h.Worker? || h.Pool?) ensures CopyOk(Hold(s, Busy(k), Single(n), {n}, {}), h) { assert CopyOk(s, h); }
  }

  lemma ReleaseKeeps(s: State, h: Holder)
    requires Inv(s) && h != Host
    ensures Inv(Release(s, h))
  {
    assert h in s.held ==> Aged(s.held[h], s.instances);
    ReleaseCounted(s, h);
    forall g | g in s.held && g != h && (g.Worker? || g.Pool?) ensures CopyOk(Release(s, h), g) { assert CopyOk(s, g); }
  }

  lemma StepKeeps(s: State, a: Action)
    requires Inv(s) && Enabled(s, a) && Next(s, a).Fine?
    ensures Inv(Next(s, a).state)
  {
    match a
    case Start(c, replica) =>
      if CanStart(s, c, replica) { StartKeeps(s, c, replica); }
    case Stop(c) => if c in HostTable(s) { StopKeeps(s, c); }
    case Reload(h) => if s.versions[h] != |s.history| - 1 { RefreshKeeps(s, h); }
    case Begin(k, c) =>
      assert Aged(s.held[Pool], s.instances);
      BeginKeeps(s, k, s.held[Pool][c]);
    case End(k) => ReleaseKeeps(s, Busy(k));
    case Leave(h) => ReleaseKeeps(s, h);
  }

  lemma NewerKeeps(s: State)
    requires Inv(s)
    ensures Inv(s.(instances := s.instances + 1))
  {
    var s' := s.(instances := s.instances + 1);
    forall h | h in s'.held && (h.Worker? || h.Pool?) ensures CopyOk(s', h) { assert CopyOk(s, h); }
  }

  ghost predicate Runs(s: State, actions: seq<Action>, t: State)
    decreases |actions|
  {
    if actions == [] then s == t
    else
      && s.history != []
      && Enabled(s, actions[0])
      && Next(s, actions[0]).Fine?
      && Runs(Next(s, actions[0]).state, actions[1..], t)
  }

  lemma {:induction false} RunKeeps(s: State, actions: seq<Action>, t: State)
    requires Inv(s) && Runs(s, actions, t)
    ensures Inv(t)
    decreases |actions|
  {
    if actions != [] {
      StepKeeps(s, actions[0]);
      RunKeeps(Next(s, actions[0]).state, actions[1..], t);
    }
  }

  lemma NewInv(workers: set<WorkerId>)
    ensures Inv(New(workers))
  {
    var s := New(workers);
    forall n ensures |Holders(s.held, n)| == 0 { assert Holders(s.held, n) == {}; }
    forall h | h in s.held && (h.Worker? || h.Pool?) ensures CopyOk(s, h) { assert Share(map[], h) == map[]; }
  }

  /** In every reachable state: a worker's copy is its share of the host's table at
      the version it remembers, and of the host's own if the version is current; a node
      has been offloaded as often as loaded except once for each holder, so the calls
      balance exactly when nobody holds it. */
  lemma CopiesAndLoads(workers: set<WorkerId>, actions: seq<Action>, s: State)
    requires Runs(New(workers), actions, s)
    ensures forall h :: h in s.held && (h.Worker? || h.Pool?) ==> CopyOk(s, h)
    ensures forall h :: h in s.held && (h.Worker? || h.Pool?) && h in s.versions && s.versions[h] == |s.history| - 1 ==>
              s.held[h] == Share(HostTable(s), h)
    ensures forall n :: s.loads[n] == s.unloads[n] + |Holders(s.held, n)|
    ensures forall n :: s.loads[n] == s.unloads[n] <==> forall h :: h in s.held ==> !Has(s.held[h], n)
  {
    NewInv(workers);
    RunKeeps(New(workers), actions, s);
    forall n ensures s.loads[n] == s.unloads[n] <==> forall h :: h in s.held ==> !Has(s.held[h], n) {
      assert s.loads[n] == s.unloads[n] + |Holders(s.held, n)|;
      if forall h :: h in s.held ==> !Has(s.held[h], n) {
        assert Holders(s.held, n) == {};
      } else {
        var h :| h in s.held && Has(s.held[h], n);
        assert h in Holders(s.held, n);
      }
    }
  }

  /** Is this the table a copy meets with two incarnations of one cluster? */
  ghost predicate Differ(cached: Table, host: Table) {
    exists c :: c in cached && c in host && cached[c] != host[c]
  }

  /** What a holder has after a step, told from what was held before it. A start is
      refused if the host runs the cluster or anyone in the engine holds the replica. */
  ghost function Holds(s: State, a: Action, h: Holder): Table
    requires Host in s.held && Enabled(s, a)
  {
    var host := s.held[Host];
    if a.Start? && h == Host && a.cluster !in host
       && (forall g :: g in s.held && g != Host && a.cluster in s.held[g] ==> s.held[g][a.cluster].replica != a.replica)
    then host[a.cluster := Node(a.cluster, a.replica, s.instances)]
    else if a.Stop? && h == Host then host - {a.cluster}
    else if a.Reload? && h == a.holder then Share(host, h)
    else if a.Begin? && h == Busy(a.slot) then map[a.cluster := s.held[Pool][a.cluster]]
    else if (a.End? && h == Busy(a.slot)) || (a.Leave? && h == a.holder) then map[]
    else Of(s.held, h)
  }

  lemma HostHolds(s: State, a: Action, h: Holder)
    requires Host in s.held && s.history != [] && Enabled(s, a) && (a.Start? || a.Stop?)
    ensures Next(s, a).Fine? && Of(Next(s, a).state.held, h) == Holds(s, a, h)
  {
    if a.Stop? && a.cluster !in s.held[Host] { assert s.held[Host] - {a.cluster} == s.held[Host]; }
  }

  lemma SlotHolds(s: State, a: Action, h: Holder)
    requires Host in s.held && s.history != [] && Enabled(s, a) && (a.Begin? || a.End? || a.Leave?)
    requires a.Begin? ==> s.held[Pool][a.cluster].cluster == a.cluster
    ensures Next(s, a).Fine? && Of(Next(s, a).state.held, h) == Holds(s, a, h)
  {}

  lemma ReloadHolds(s: State, g: Holder, h: Holder)
    requires Copied(s) && Enabled(s, Reload(g))
    ensures Load(s, g).TwoIncarnations? <==> s.versions[g] != |s.history| - 1 && Differ(s.held[g], s.held[Host])
    ensures Load(s, g).Fine? ==>
              && Of(Load(s, g).state.held, h) == (if h == g then Share(s.held[Host], h) else Of(s.held, h))
              && Load(s, g).state.versions == s.versions[g := |s.history| - 1]
  {
    assert CopyOk(s, g);
    assert Clash(s.held[g], s.held[Host]) <==> Differ(s.held[g], s.held[Host]);
  }

  /** Who holds what after each step; a load, and nothing else, fails if the copy is not
      current and has another incarnation of a cluster than the host. */
  lemma WhoHolds(s: State, a: Action, h: Holder)
    requires Inv(s) && Enabled(s, a)
    ensures Next(s, a).TwoIncarnations? <==>
            a.Reload? && s.versions[a.holder] != |s.history| - 1 && Differ(s.held[a.holder], s.held[Host])
    ensures Next(s, a).Fine? ==> Of(Next(s, a).state.held, h) == Holds(s, a, h)
  {
    if a.Reload? {
      ReloadHolds(s, a.holder, h);
    } else if a.Start? || a.Stop? {
      HostHolds(s, a, h);
    } else {
      if a.Begin? { assert Aged(s.held[Pool], s.instances); }
      SlotHolds(s, a, h);
    }
  }

  /** Two workers of one kind never serve the same cluster. */
  lemma PartitionsAreDisjoint(v: WorkerId, w: WorkerId, c: nat)
    requires v.kind == w.kind && v.count == w.count && v != w
    ensures !(Mine(v, c) && Mine(w, c))
  {}

  /** After a full shutdown every node has been unloaded as often as it was loaded. */
  lemma ShutdownUnloadsAll(workers: set<WorkerId>, actions: seq<Action>, s: State, n: Node)
    requires Runs(New(workers), actions, s)
    requires s.held == map[Host := map[]]
    ensures s.loads[n] == s.unloads[n]
  {
    CopiesAndLoads(workers, actions, s);
    assert forall h :: h in s.held ==> !Has(s.held[h], n);
  }

  // ------------------------------------------------------- two incarnations

  ghost predicate IsCopy(s: State, h: Holder) {
    (h.Worker? || h.Pool?) && h in s.held && h in s.versions
  }

  /** After a start a copy's next load clashes exactly if the copy holds a node of the
      cluster, or clashed before. The check made by the host is weaker: it looks for the
      replica being started only. */
  lemma StartClashesIff(s: State, c: nat, replica: nat, h: Holder)
    requires Inv(s) && CanStart(s, c, replica) && IsCopy(s, h)
    ensures Load(Started(s, c, replica), h) == TwoIncarnations <==> c in s.held[h] || Clash(s.held[h], HostTable(s))
  {
    var s', cached := Started(s, c, replica), s.held[h];
    assert CopyOk(s, h) && Aged(cached, s.instances);
    assert s'.held[h] == cached && s'.versions[h] < |s'.history| - 1;
    if d :| d in cached && d in HostTable(s) && cached[d] != HostTable(s)[d] {
      assert d in HostTable(s') && cached[d] != HostTable(s')[d];
    }
  }

  /** Starting a cluster makes some load clash, where none would have, exactly when a
      worker or the pool holds a node of the cluster. */
  lemma StartIsSafeIff(s: State, c: nat, replica: nat)
    requires Inv(s) && CanStart(s, c, replica)
    requires forall h :: IsCopy(s, h) ==> !Clash(s.held[h], HostTable(s))
    ensures (exists h :: IsCopy(s, h) && Load(Started(s, c, replica), h) == TwoIncarnations) <==>
            (exists h :: IsCopy(s, h) && c in s.held[h])
  {
    forall h | IsCopy(s, h) ensures Load(Started(s, c, replica), h) == TwoIncarnations <==> c in s.held[h] {
      StartClashesIff(s, c, replica, h);
    }
  }

  /** Every start of a cluster starts the same replica of it. */
  predicate OneReplica(a: Action, replica: nat -> nat) {
    a.Start? ==> a.replica == replica(a.cluster)
  }

  /** Everything held is of the one replica, and of the host's incarnation. */
  ghost predicate Settled(s: State, replica: nat -> nat) {
    && (forall h :: h in s.held ==> Of1(s.held[h], replica))
    && (forall h :: h in s.held ==> Agrees(s.held[h], HostTable(s)))
  }

  predicate Of1(t: Table, replica: nat -> nat) {
    forall c :: c in t ==> t[c].replica == replica(c)
  }

  predicate Agrees(t: Table, host: Table) {
    forall c :: c in t && c in host ==> t[c] == host[c]
  }

  lemma StartSettles(s: State, c: nat, replica: nat -> nat)
    requires Inv(s) && Settled(s, replica) && CanStart(s, c, replica(c))
    ensures Settled(Started(s, c, replica(c)), replica)
  {
    var s' := Started(s, c, replica(c));
    forall h | h in s'.held ensures Of1(s'.held[h], replica) && Agrees(s'.held[h], HostTable(s')) {
      if h != Host {
        assert Of1(s.held[h], replica) && Agrees(s.held[h], HostTable(s));
        if c in s.held[h] { assert Loaded(s, c, replica(c)); }
      } else {
        assert Of1(HostTable(s), replica);
      }
    }
  }

  lemma StopSettles(s: State, c: nat, replica: nat -> nat)
    requires Inv(s) && Settled(s, replica)
    requires c in HostTable(s)
    ensures Settled(Stopped(s, c), replica)
  {
    assert Of1(HostTable(s), replica);
  }

  lemma ReloadSettles(s: State, h: Holder, replica: nat -> nat)
    requires Inv(s) && Settled(s, replica) && h != Host && h in s.held && h in s.versions
    ensures Load(s, h).Fine? && Settled(Load(s, h).state, replica)
  {
    assert Agrees(s.held[h], HostTable(s)) && Of1(HostTable(s), replica);
  }

  lemma StepSettles(s: State, a: Action, replica: nat -> nat)
    requires Inv(s) && Settled(s, replica) && Enabled(s, a) && OneReplica(a, replica)
    ensures Next(s, a).Fine? && Settled(Next(s, a).state, replica)
  {
    match a
    case Start(c, _) => if CanStart(s, c, replica(c)) { StartSettles(s, c, replica); }
    case Stop(c) => if c in HostTable(s) { StopSettles(s, c, replica); }
    case Reload(h) => ReloadSettles(s, h, replica);
    case Begin(k, c) => assert Of1(s.held[Pool], replica) && Agrees(s.held[Pool], HostTable(s)) && Aged(s.held[Pool], s.instances);
    case End(k) =>
    case Leave(h) =>
  }

  /** The check suffices as long as the host only ever runs one replica of a cluster:
      then no copy ever meets two incarnations. */
  lemma {:induction false} OneReplicaNeverClashes(s: State, actions: seq<Action>, t: State, a: Action, replica: nat -> nat)
    requires Inv(s) && Settled(s, replica) && Runs(s, actions, t)
    requires forall i :: 0 <= i < |actions| ==> OneReplica(actions[i], replica)
    requires t.history != [] && Enabled(t, a) && OneReplica(a, replica)
    ensures Next(t, a).Fine?
    decreases |actions|
  {
    if actions == [] {
      StepSettles(s, a, replica);
    } else {
      StepKeeps(s, actions[0]);
      StepSettles(s, actions[0], replica);
      OneReplicaNeverClashes(Next(s, actions[0]).state, actions[1..], t, a, replica);
    }
  }

  lemma NewSettled(workers: set<WorkerId>, replica: nat -> nat)
    ensures Settled(New(workers), replica)
  {}

  /** A host that only ever runs one replica of a cluster never meets two incarnations. */
  lemma OneReplicaHost(workers: set<WorkerId>, actions: seq<Action>, t: State, a: Action, replica: nat -> nat)
    requires Runs(New(workers), actions, t)
    requires forall i :: 0 <= i < |actions| ==> OneReplica(actions[i], replica)
    requires t.history != [] && Enabled(t, a) && OneReplica(a, replica)
    ensures Next(t, a).Fine?
  {
    NewInv(workers);
    NewSettled(workers, replica);
    OneReplicaNeverClashes(New(workers), actions, t, a, replica);
  }

  lemma RunsOn(s: State, a: Action, next: State, rest: seq<Action>, t: State)
    requires s.history != [] && Enabled(s, a) && Next(s, a) == Fine(next) && Runs(next, rest, t)
    ensures Runs(s, [a] + rest, t)
  {
    assert ([a] + rest)[1..] == rest;
  }

  /** A worker has loaded the first node of the cluster. */
  lemma FirstReplica(workers: set<WorkerId>, w: WorkerId, c: nat, replica: nat) returns (s: State)
    requires w in workers && Mine(w, c)
    ensures var one := map[c := Node(c, replica, 0)];
            s.history != [] && Worker(w) in s.versions && s.held == New(workers).held[Host := one][Worker(w) := one] && s.instances == 1
    ensures s.versions[Worker(w)] == |s.history| - 1
    ensures forall rest, t :: Runs(s, rest, t) ==> Runs(New(workers), [Start(c, replica)] + ([Reload(Worker(w))] + rest), t)
  {
    var s0 := New(workers);
    assert CanStart(s0, c, replica);
    var s1 := Started(s0, c, replica);
    assert HostTable(s1) == map[c := Node(c, replica, 0)];
    s := Refreshed(s1, Worker(w));
    assert s.held[Worker(w)] == map[c := Node(c, replica, 0)] && Load(s1, Worker(w)) == Fine(s);
    forall rest, t | Runs(s, rest, t) ensures Runs(s0, [Start(c, replica)] + ([Reload(Worker(w))] + rest), t) {
      RunsOn(s1, Reload(Worker(w)), s, rest, t);
      RunsOn(s0, Start(c, replica), s1, [Reload(Worker(w))] + rest, t);
    }
  }

  /** One that replaces a replica by another does, for every worker that serves the
      cluster and has not loaded in between. */
  lemma OtherReplicaClashes(workers: set<WorkerId>, w: WorkerId, c: nat, old': nat, new': nat) returns (t: State)
    requires w in workers && Mine(w, c) && old' != new'
    ensures Runs(New(workers), [Start(c, old'), Reload(Worker(w)), Stop(c), Start(c, new')], t)
    ensures t.history != [] && Enabled(t, Reload(Worker(w))) && Next(t, Reload(Worker(w))) == TwoIncarnations
  {
    var h, n := Worker(w), Node(c, old', 0);
    var s := FirstReplica(workers, w, c, old');
    t := SecondReplica(New(workers).held, s, w, n, new');
    assert [Start(c, old')] + ([Reload(h)] + ([Stop(c)] + ([Start(c, new')] + []))) ==
           [Start(c, old'), Reload(h), Stop(c), Start(c, new')];
  }

  lemma SecondReplica(held: map<Holder, Table>, s: State, w: WorkerId, n: Node, replica: nat) returns (t: State)
    requires forall h :: h in held ==> held[h] == map[]
    requires s.history != [] && s.held == held[Host := map[n.cluster := n]][Worker(w) := map[n.cluster := n]]
    requires Worker(w) in s.versions && s.versions[Worker(w)] == |s.history| - 1 && n.replica != replica
    ensures Runs(s, [Stop(n.cluster)] + ([Start(n.cluster, replica)] + []), t)
    ensures t.history != [] && Enabled(t, Reload(Worker(w))) && Next(t, Reload(Worker(w))) == TwoIncarnations
  {
    var u := Stopped(s, n.cluster);
    assert HostTable(u) == map[];
    NotLoaded(held, u, w, n, replica);
    t := Started(u, n.cluster, replica);
    assert t.held[Worker(w)][n.cluster] != HostTable(t)[n.cluster];
    StopAndStart(s, n.cluster, replica, u, t);
  }

  lemma StopAndStart(s: State, c: nat, replica: nat, u: State, t: State)
    requires s.history != [] && c in HostTable(s) && u == Stopped(s, c) && CanStart(u, c, replica) && t == Started(u, c, replica)
    ensures Runs(s, [Stop(c)] + ([Start(c, replica)] + []), t)
  {
    RunsOn(u, Start(c, replica), t, [], t);
    RunsOn(s, Stop(c), u, [Start(c, replica)] + [], t);
  }

  lemma NotLoaded(held: map<Holder, Table>, s: State, w: WorkerId, n: Node, replica: nat)
    requires forall h :: h in held ==> held[h] == map[]
    requires s.held == held[Host := map[n.cluster := n]][Worker(w) := map[n.cluster := n]][Host := map[]]
    requires n.replica != replica
    ensures !Loaded(s, n.cluster, replica)
  {}

  // ------------------------------------------------------- a load as it runs

  /** Copy the host's table anew, unless it clashes with the copy at hand. */
  method CopyTable(h: Holder, cached: Table, host: Table) returns (clash: bool, nodes: Table)
    ensures clash == Clash(cached, host)
    ensures !clash ==> nodes == Share(host, h)
  {
    nodes := map[];
    var todo := host.Keys;
    while todo != {}
      invariant todo <= host.Keys
      invariant forall c :: c in host.Keys - todo && c in cached ==> cached[c] == host[c]
      invariant nodes == map c | c in Share(host, h) && c !in todo :: host[c]
      decreases |todo|
    {
      var c :| c in todo;
      todo := todo - {c};
      if c in cached && cached[c] != host[c] { return true, nodes; }
      if !h.Worker? || Mine(h.id, c) { nodes := nodes[c := host[c]]; }
    }
    return false, nodes;
  }

  /** A load: what to keep, whom to load and whom to unload. */
  method LoadBucketNodes(h: Holder, cached: Table, host: Table)
    returns (clash: bool, nodes: Table, loaded: seq<Node>, offloaded: seq<Node>)
    requires forall c :: c in cached ==> cached[c].cluster == c
    requires forall c :: c in host ==> host[c].cluster == c
    ensures clash == Clash(cached, host)
    ensures !clash ==> nodes == Share(host, h)
    ensures !clash ==> multiset(loaded) == multiset(Missing(nodes, cached)) && multiset(offloaded) == multiset(Missing(cached, nodes))
  {
    loaded, offloaded := [], [];
    clash, nodes := CopyTable(h, cached, host);
    if !clash {
      assert forall c :: c in nodes ==> nodes[c] == host[c];
      offloaded := Unlisted(cached, nodes);
      loaded := Unlisted(nodes, cached);
    }
  }

  /** The nodes of one table whose clusters are not in the other, listed once each. */
  method Unlisted(cached: Table, nodes: Table) returns (gone: seq<Node>)
    requires forall c :: c in cached ==> cached[c].cluster == c
    ensures multiset(gone) == multiset(Missing(cached, nodes))
  {
    gone := [];
    var todo := cached.Keys;
    while todo != {}
      invariant todo <= cached.Keys
      invariant forall n :: multiset(gone)[n] == One(Has(cached, n) && n.cluster !in todo && n.cluster !in nodes)
      decreases |todo|
    {
      var c :| c in todo;
      todo := todo - {c};
      if c !in nodes { gone := gone + [cached[c]]; }
    }
    forall n ensures multiset(gone)[n] == multiset(Missing(cached, nodes))[n] { MissingIs(cached, nodes, n); }
  }

  /** A worker or the pool loads: it keeps its table unless the host's version has
      changed, and makes the calls its lists say. */
  method ReloadHolder(s: State, h: Holder) returns (o: Outcome)
    requires Inv(s) && h != Host && h in s.held && h in s.versions
    ensures o == Load(s, h)
  {
    var current := |s.history| - 1;
    if s.versions[h] == current { return Fine(s); }
    var cached, host := s.held[h], s.held[Host];
    assert Aged(cached, s.instances) && Aged(host, s.instances);
    var clash, nodes, loaded, offloaded := LoadBucketNodes(h, cached, host);
    if clash { return TwoIncarnations; }
    return Fine(s.(versions := s.versions[h := current], held := s.held[h := nodes],
                   loads := s.loads + multiset(loaded), unloads := s.unloads + multiset(offloaded)));
  }
}
