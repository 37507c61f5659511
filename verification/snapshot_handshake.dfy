/** How one node's snapshot work travels: the apply worker puts a task in a ready
    slot, the snapshot pool collects it, a snapshot worker carries it out and
    reports in a completed slot, and the apply worker takes the report and clears
    the flag it had set. A step makes at most one access to a slot or list that
    another thread uses too; the flags, and whether the node is initialized, are
    written by the apply worker only, and read in the same step. */
module SnapshotHandshake {
  import opened Basics

  datatype Kind = Save | Recover | Stream

  /** A one-slot mailbox; a recovery report says whether it was the initial one. */
  datatype Slot = Empty | Full(initial: bool)

  /** Where work of one kind is. */
  datatype Lane = Lane(
    flag: bool,          // the kind's flag
    ready: bool,         // a task waits in the ready slot
    pooled: nat,         // jobs in the pool's pending list
    working: nat,        // jobs with snapshot workers
    completed: Slot,
    dropped: nat)        // jobs the pool dropped as stale or unknown

  /** The apply worker's place in its visit to the node. */
  datatype Place =
    | AtSave | AtStream | AtRecover | AtInit | AtTask      // about to look at this
    | Clear(kind: Kind, report: Slot)                      // has taken a report
    | Put(kind: Kind)                                      // has set a flag, about to fill the ready slot

  datatype State = State(
    save: Lane, recover: Lane, stream: Lane,
    initialized: bool,
    onDisk: bool,          // an on-disk state machine
    concurrent: bool,      // saving does not stop the state machine
    place: Place)

  datatype Panic =
    | SettingTaskAgain | SettingReportAgain | RecoveringAgain | InitializedTwice | SavedUninitialized | StreamedInMemory

  datatype Outcome = Fine(state: State) | Failed(why: Panic)

  /** What the state machine hands the apply worker: at most one snapshot task. */
  datatype Found = Nothing | Found(kind: Kind, streamable: bool)

  function Of(s: State, k: Kind): Lane {
    match k case Save => s.save case Recover => s.recover case Stream => s.stream
  }

  function With(s: State, k: Kind, l: Lane): State {
    match k case Save => s.(save := l) case Recover => s.(recover := l) case Stream => s.(stream := l)
  }

  function New(onDisk: bool, concurrent: bool): State {
    var idle := Lane(false, false, 0, 0, Empty, 0);
    State(idle, idle, idle, false, onDisk, concurrent, AtSave)
  }

  // ------------------------------------------------------- the apply worker

  /** Take a report if there is one. */
  function TakeReport(s: State, k: Kind): State {
    var l := Of(s, k);
    With(s, k, l.(completed := Empty)).(place := Clear(k, l.completed))
  }

  function LookAt(s: State, k: Kind, next: Place, none: Place): State {
    if !Of(s, k).flag then s.(place := next)
    else if Of(s, k).completed.Empty? then s.(place := none)
    else TakeReport(s, k)
  }

  function ClearFlag(s: State, k: Kind, next: Place): State {
    With(s, k, Of(s, k).(flag := false)).(place := next)
  }

  /** The report has been taken: act on it and clear the flag. */
  function AfterReport(s: State, k: Kind, report: Slot): Outcome {
    match k
    case Save => if !s.initialized then Failed(SavedUninitialized) else Fine(ClearFlag(s, Save, AtStream))
    case Stream => Fine(ClearFlag(s, Stream, AtRecover))
    case Recover =>
      if report.Full? && report.initial then
        if s.initialized then Failed(InitializedTwice) else Fine(ClearFlag(s, Recover, AtInit).(initialized := true))
      else Fine(ClearFlag(s, Recover, AtInit))
  }

  function Raise(s: State, k: Kind): State {
    With(s, k, Of(s, k).(flag := true)).(place := Put(k))
  }

  function HandleTask(s: State, found: Found): Outcome {
    if found.Nothing? then Fine(s.(place := AtSave))
    else if s.recover.flag then Failed(RecoveringAgain)
    else match found.kind
      case Recover => Fine(Raise(s, Recover))
      case Save => Fine(if s.save.flag then s.(place := AtSave) else Raise(s, Save))
      case Stream => Fine(if s.stream.flag || !found.streamable then s.(place := AtSave) else Raise(s, Stream))
  }

  function FillReady(s: State, k: Kind): Outcome {
    if Of(s, k).ready then Failed(SettingTaskAgain)
    else Fine(With(s, k, Of(s, k).(ready := true)).(place := AtSave))
  }

  /** The apply worker's next atomic step; a finished visit is back at `AtSave`. */
  function Apply(s: State, found: Found): Outcome {
    match s.place
    case AtSave => Fine(LookAt(s, Save, AtStream, if s.concurrent then AtStream else AtSave))
    case AtStream =>
      if s.stream.flag && !s.onDisk then Failed(StreamedInMemory) else Fine(LookAt(s, Stream, AtRecover, AtRecover))
    case AtRecover => Fine(LookAt(s, Recover, AtInit, AtSave))
    case AtInit => Fine(if s.initialized then s.(place := AtTask) else Raise(s, Recover))
    case AtTask => HandleTask(s, found)
    case Clear(k, report) => AfterReport(s, k, report)
    case Put(k) => FillReady(s, k)
  }

  // ---------------------------------------------- the pool and its workers

  datatype Action =
    | Visit(found: Found)     // the apply worker's next step
    | Collect(kind: Kind)     // the pool empties the ready slot into its pending list
    | Start(kind: Kind)       // the pool gives a job to a worker
    | Drop(kind: Kind)        // the pool drops a job whose node has gone or been restarted
    | Report(kind: Kind)      // a worker is done and reports

  predicate Enabled(s: State, a: Action) {
    match a
    case Visit(found) => found.Found? && found.kind == Stream ==> s.onDisk
    case Collect(k) => Of(s, k).ready
    case Start(k) => Of(s, k).pooled > 0
    case Drop(k) => Of(s, k).pooled > 0
    case Report(k) => Of(s, k).working > 0
  }

  function Next(s: State, a: Action): Outcome
    requires Enabled(s, a)
  {
    match a
    case Visit(found) => Apply(s, found)
    case Collect(k) => Fine(With(s, k, Collected(Of(s, k))))
    case Start(k) => Fine(With(s, k, Started(Of(s, k))))
    case Drop(k) => Fine(With(s, k, Dropped(Of(s, k))))
    case Report(k) =>
      if Of(s, k).completed.Full? then Failed(SettingReportAgain)
      else Fine(With(s, k, Reported(Of(s, k), k == Recover && !s.initialized)))
  }

  function Collected(l: Lane): Lane {
    l.(ready := false, pooled := l.pooled + 1)
  }

  function Started(l: Lane): Lane
    requires l.pooled > 0
  {
    l.(pooled := l.pooled - 1, working := l.working + 1)
  }

  function Dropped(l: Lane): Lane
    requires l.pooled > 0
  {
    l.(pooled := l.pooled - 1, dropped := l.dropped + 1)
  }

  /** A recovery that ends before the node is initialized was the initial one. */
  function Reported(l: Lane, initial: bool): Lane
    requires l.working > 0
  {
    l.(working := l.working - 1, completed := Full(initial))
  }

  // -------------------------------------------------------------- invariant

  /** The tasks of one kind outside the apply worker's hands. */
  function Tasks(l: Lane): nat {
    One(l.ready) + l.pooled + l.working + One(l.completed.Full?)
  }

  /** The task the apply worker is just putting into, or has just taken out of, a slot. */
  function InHand(p: Place, k: Kind): nat {
    match p
    case Put(j) => if j == k then 1 else 0
    case Clear(j, _) => if j == k then 1 else 0
    case _ => 0
  }

  /** A flag is up exactly while its one task exists, or was dropped by the pool. */
  predicate Balanced(l: Lane, hand: nat) {
    Tasks(l) + hand + l.dropped == One(l.flag)
  }

  /** What the apply worker knows where it stands. */
  predicate PlaceOk(s: State) {
    match s.place
    case AtInit => !s.recover.flag
    case AtTask => !s.recover.flag && s.initialized
    case Put(k) => k != Recover ==> s.initialized
    case Clear(k, report) => report.Full? && (k == Recover ==> report.initial == !s.initialized)
    case _ => true
  }

  predicate Inv(s: State) {
    && Balanced(s.save, InHand(s.place, Save))
    && Balanced(s.recover, InHand(s.place, Recover))
    && Balanced(s.stream, InHand(s.place, Stream))
    && (s.recover.completed.Full? ==> s.recover.completed.initial == !s.initialized)
    && (s.save.flag ==> s.initialized)
    && (s.stream.flag ==> s.onDisk)
    && PlaceOk(s)
  }

  predicate Good(o: Outcome) {
    o.Fine? && Inv(o.state)
  }

  /** A change to one lane that moves its task about but neither makes nor loses any. */
  lemma LaneKeeps(s: State, k: Kind, l: Lane)
    requires Inv(s) && l.flag == Of(s, k).flag && Tasks(l) + l.dropped == Tasks(Of(s, k)) + Of(s, k).dropped
    requires k == Recover && l.completed.Full? ==> l.completed.initial == !s.initialized
    ensures Inv(With(s, k, l))
  {
    match k case Save => case Recover => case Stream =>
  }

  lemma MoveKeeps(s: State, p: Place)
    requires Inv(s) && PlaceOk(s.(place := p))
    requires forall k :: InHand(p, k) == InHand(s.place, k)
    ensures Inv(s.(place := p))
  {}

  lemma TakeKeeps(s: State, k: Kind)
    requires Inv(s) && (forall j :: InHand(s.place, j) == 0) && Of(s, k).completed.Full?
    ensures Inv(TakeReport(s, k))
  {
    match k case Save => case Recover => case Stream =>
  }

  lemma LookKeeps(s: State, k: Kind, next: Place, none: Place)
    requires Inv(s) && (forall j :: InHand(s.place, j) == 0)
    requires next == AtStream || next == AtRecover || (next == AtInit && k == Recover)
    requires none == AtSave || none == AtStream || none == AtRecover
    ensures Inv(LookAt(s, k, next, none))
  {
    if !Of(s, k).flag {
      MoveKeeps(s, next);
    } else if Of(s, k).completed.Empty? {
      MoveKeeps(s, none);
    } else {
      TakeKeeps(s, k);
    }
  }

  lemma ReportKeeps(s: State, k: Kind, report: Slot)
    requires Inv(s) && s.place == Clear(k, report)
    ensures Good(AfterReport(s, k, report))
  {
    match k case Save => case Recover => case Stream =>
  }

  lemma RaiseKeeps(s: State, k: Kind)
    requires Inv(s) && (forall j :: InHand(s.place, j) == 0) && !Of(s, k).flag
    requires k != Recover ==> s.initialized
    requires k == Stream ==> s.onDisk
    ensures Inv(Raise(s, k))
  {
    match k case Save => case Recover => case Stream =>
  }

  lemma FillKeeps(s: State, k: Kind)
    requires Inv(s) && s.place == Put(k)
    ensures Good(FillReady(s, k))
  {
    match k case Save => case Recover => case Stream =>
  }

  lemma HandleKeeps(s: State, found: Found)
    requires Inv(s) && s.place == AtTask && Enabled(s, Visit(found))
    ensures Good(HandleTask(s, found))
  {
    MoveKeeps(s, AtSave);
    if found.Found? && !Of(s, found.kind).flag { RaiseKeeps(s, found.kind); }
  }

  lemma ApplyKeeps(s: State, found: Found)
    requires Inv(s) && Enabled(s, Visit(found))
    ensures Good(Apply(s, found))
  {
    match s.place
    case AtSave => LookKeeps(s, Save, AtStream, if s.concurrent then AtStream else AtSave);
    case AtStream => LookKeeps(s, Stream, AtRecover, AtRecover);
    case AtRecover => LookKeeps(s, Recover, AtInit, AtSave);
    case AtInit => if s.initialized { MoveKeeps(s, AtTask); } else { RaiseKeeps(s, Recover); }
    case AtTask => HandleKeeps(s, found);
    case Clear(k, report) => ReportKeeps(s, k, report);
    case Put(k) => FillKeeps(s, k);
  }

  /** No step of any of the three threads panics, and each keeps the balance. */
  lemma StepKeeps(s: State, a: Action)
    requires Inv(s) && Enabled(s, a)
    ensures Good(Next(s, a))
  {
    match a
    case Visit(found) => ApplyKeeps(s, found);
    case Collect(k) => LaneKeeps(s, k, Collected(Of(s, k)));
    case Start(k) => LaneKeeps(s, k, Started(Of(s, k)));
    case Drop(k) => LaneKeeps(s, k, Dropped(Of(s, k)));
    case Report(k) =>
      AtMostOne(s, k);
      LaneKeeps(s, k, Reported(Of(s, k), k == Recover && !s.initialized));
  }

  lemma AtMostOne(s: State, k: Kind)
    requires Inv(s)
    ensures Balanced(Of(s, k), InHand(s.place, k))
  {}

  lemma NoPanic(s: State)
    requires Inv(s)
    ensures forall a :: Enabled(s, a) ==> Next(s, a).Fine?
  {
    forall a | Enabled(s, a) ensures Next(s, a).Fine? { StepKeeps(s, a); }
  }

  ghost predicate Runs(s: State, actions: seq<Action>, t: State)
    decreases |actions|
  {
    if actions == [] then s == t
    else
      && Enabled(s, actions[0])
      && Next(s, actions[0]).Fine?
      && Runs(Next(s, actions[0]).state, actions[1..], t)
  }

  lemma {:induction false} RunKeeps(s: State, actions: seq<Action>, t: State)
    requires Inv(s) && Runs(s, actions, t)
    ensures Inv(t)
    decreases |actions|
  {
    if actions != [] {
      StepKeeps(s, actions[0]);
      RunKeeps(Next(s, actions[0]).state, actions[1..], t);
    }
  }

  /** Some interleaving of the three threads leads here from a new node. */
  ghost predicate Reachable(s: State) {
    exists start, actions :: IsNew(start) && Runs(start, actions, s)
  }

  predicate IsNew(s: State) {
    s == New(s.onDisk, s.concurrent)
  }

  lemma NewInv(s: State)
    requires IsNew(s)
    ensures Inv(s)
  {
    assert s.place.AtSave?;
  }

  lemma ReachableInv(s: State)
    requires Reachable(s)
    ensures Inv(s)
  {
    var start, actions :| IsNew(start) && Runs(start, actions, s);
    NewInv(start);
    RunKeeps(start, actions, s);
  }

  /** In every interleaving of apply worker, pool and snapshot workers, whatever
      can happen next happens without a panic. */
  lemma HandshakeNeverPanics(s: State)
    requires Reachable(s)
    ensures forall a :: Enabled(s, a) ==> Next(s, a).Fine?
  {
    ReachableInv(s);
    NoPanic(s);
  }

  /** In every reachable state a kind has at most one task anywhere and none while
      its flag is down; while its flag is up it has exactly one, unless the pool
      dropped it. */
  lemma OneTaskEach(s: State, k: Kind)
    requires Reachable(s)
    ensures Tasks(Of(s, k)) + Of(s, k).dropped <= One(Of(s, k).flag)
    ensures InHand(s.place, k) == 0 && Of(s, k).dropped == 0 ==> Tasks(Of(s, k)) == One(Of(s, k).flag)
  {
    ReachableInv(s);
    AtMostOne(s, k);
  }

  /** Nothing is saved before the node is initialized, and no recovery is under
      way while the node's tasks are handled. */
  lemma PhasesExclude(s: State)
    requires Reachable(s)
    ensures !s.initialized ==> Tasks(s.save) == 0
    ensures s.place == AtTask ==> Tasks(s.recover) == 0
  {
    ReachableInv(s);
    OneTaskEach(s, Save);
    OneTaskEach(s, Recover);
  }

  /** Without the restriction on streaming to on-disk state machines the apply
      worker does panic: it accepts the request, sets the flag, and trips over it. */
  lemma StreamingInMemoryPanics(s: State)
    requires s.place == AtTask && !s.recover.flag && !s.stream.flag && !s.stream.ready && !s.onDisk
    requires !s.save.flag
    ensures var t := Apply(Apply(s, Found(Stream, true)).state, Nothing).state;
            t.place == AtSave && Apply(Apply(t, Nothing).state, Nothing) == Failed(StreamedInMemory)
  {}

  // -------------------------------------------- the apply worker as it runs

  function Ahead(p: Place): nat {
    match p
    case AtSave => 9 case AtStream => 7 case AtRecover => 5 case AtInit => 3 case AtTask => 2 case Put(_) => 1
    case Clear(k, _) => (match k case Save => 8 case Stream => 6 case Recover => 4)
  }

  /** The rest of a visit that no other thread interrupts: a visit in one go is a
      run of atomic steps. */
  function Rest(s: State, found: Found): Outcome
    decreases Ahead(s.place)
  {
    var o := Apply(s, found);
    if o.Failed? || o.state.place == AtSave then o else Rest(o.state, found)
  }

  lemma ApplyMovesOn(s: State, found: Found)
    requires Apply(s, found).Fine?
    ensures Apply(s, found).state.onDisk == s.onDisk
    ensures Apply(s, found).state.place == AtSave || Ahead(Apply(s, found).state.place) < Ahead(s.place)
  {}

  lemma {:induction false} VisitKeeps(s: State, found: Found)
    requires Inv(s) && Enabled(s, Visit(found))
    ensures Good(Rest(s, found))
    decreases Ahead(s.place)
  {
    ApplyKeeps(s, found);
    ApplyMovesOn(s, found);
    var t := Apply(s, found).state;
    if t.place != AtSave { VisitKeeps(t, found); }
  }

  // --------------------------------------------------------- what a visit does

  /** A lane whose report, if there is one, has been taken. */
  function Answered(l: Lane): Lane {
    if l.flag && l.completed.Full? then l.(flag := false, completed := Empty) else l
  }

  /** A lane that still waits for its report. */
  predicate Outstanding(l: Lane) {
    l.flag && l.completed.Empty?
  }

  /** A lane with a new task in its ready slot. */
  function Tasked(l: Lane): Lane {
    l.(flag := true, ready := true)
  }

  /** A task found is taken up, unless one of its kind is under way already or it asks for
      a stream that cannot be. */
  predicate TakesUp(s: State, found: Found) {
    found.Found? && !Of(s, found.kind).flag && (found.kind == Stream ==> found.streamable)
  }

  /** From where tasks are handled, an uninterrupted visit puts a task it takes up into the
      ready slot of its kind and raises the flag; it changes nothing else, and nothing at
      all otherwise. */
  lemma TaskIsTakenUp(s: State, found: Found)
    requires Inv(s) && s.place == AtTask && Enabled(s, Visit(found))
    ensures Rest(s, found) ==
            Fine((if TakesUp(s, found) then With(s, found.kind, Tasked(Of(s, found.kind))) else s).(place := AtSave))
    ensures TakesUp(s, found) ==>
              Tasks(Tasked(Of(s, found.kind))) == Tasks(Of(s, found.kind)) + 1
  {
    if found.Found? {
      AtMostOne(s, found.kind);
      var t := Apply(s, found).state;
      if TakesUp(s, found) {
        assert t == With(s, found.kind, Of(s, found.kind).(flag := true)).(place := Put(found.kind));
        assert Rest(t, found) == Apply(t, found);
      }
    }
  }

  /** The state after the reports that are there have been taken. */
  function AllReported(s: State): State {
    s.(save := Answered(s.save), stream := Answered(s.stream), recover := Answered(s.recover),
       initialized := s.initialized || (s.recover.flag && s.recover.completed.Full?))
  }

  /** An uninterrupted visit takes every report that is there, clearing its flag. It stops
      at a save that blocks and at a recovery under way. A node that is not initialized
      then starts its initial recovery; any other takes up what it found. */
  lemma VisitIs(s: State, found: Found)
    requires Inv(s) && s.place == AtSave && Enabled(s, Visit(found))
    ensures Outstanding(s.save) && !s.concurrent ==> Rest(s, found) == Fine(s)
    ensures !(Outstanding(s.save) && !s.concurrent) && Outstanding(s.recover) ==>
              Rest(s, found) == Fine(s.(save := Answered(s.save), stream := Answered(s.stream)))
    ensures !(Outstanding(s.save) && !s.concurrent) && !Outstanding(s.recover) ==>
              var t := AllReported(s);
              Rest(s, found) ==
              if !t.initialized then Fine(t.(recover := Tasked(t.recover)))
              else Fine(if TakesUp(t, found) then With(t, found.kind, Tasked(Of(t, found.kind))) else t)
  {
    if Outstanding(s.save) && !s.concurrent {
    } else {
      SaveSeen(s, found);
      var a := s.(save := Answered(s.save), place := AtStream);
      StreamSeen(a, found);
      RecoverSeen(a.(stream := Answered(a.stream), place := AtRecover), found);
    }
  }

  lemma SaveSeen(s: State, found: Found)
    requires Inv(s) && s.place == AtSave && Enabled(s, Visit(found)) && !(Outstanding(s.save) && !s.concurrent)
    ensures var t := s.(save := Answered(s.save), place := AtStream);
            Inv(t) && Rest(s, found) == Rest(t, found)
  {
    var t := Apply(s, found).state;
    ApplyKeeps(s, found);
    if t.place.Clear? {
      ApplyKeeps(t, found);
      assert Rest(s, found) == Rest(t, found) && Rest(t, found) == Rest(Apply(t, found).state, found);
    }
  }

  lemma StreamSeen(s: State, found: Found)
    requires Inv(s) && s.place == AtStream && Enabled(s, Visit(found))
    ensures var t := s.(stream := Answered(s.stream), place := AtRecover);
            Inv(t) && Rest(s, found) == Rest(t, found)
  {
    var t := Apply(s, found).state;
    ApplyKeeps(s, found);
    if t.place.Clear? {
      assert Rest(s, found) == Rest(t, found);
      StreamAnswered(t, found);
    }
  }

  lemma StreamAnswered(s: State, found: Found)
    requires Inv(s) && s.place.Clear? && s.place.kind == Stream && Enabled(s, Visit(found))
    ensures var t := s.(stream := s.stream.(flag := false), place := AtRecover); Inv(t) && Rest(s, found) == Rest(t, found)
  {
    ApplyKeeps(s, found);
  }

  lemma RecoverSeen(s: State, found: Found)
    requires Inv(s) && s.place == AtRecover && Enabled(s, Visit(found))
    ensures Outstanding(s.recover) ==> Rest(s, found) == Fine(s.(place := AtSave))
    ensures !Outstanding(s.recover) ==>
              var t := s.(recover := Answered(s.recover), initialized := s.initialized || (s.recover.flag && s.recover.completed.Full?), place := AtSave);
              Rest(s, found) ==
              if !t.initialized then Fine(t.(recover := Tasked(t.recover)))
              else Fine(if TakesUp(t, found) then With(t, found.kind, Tasked(Of(t, found.kind))) else t)
  {
    var t := Apply(s, found).state;
    ApplyKeeps(s, found);
    if t.place.Clear? {
      ApplyKeeps(t, found);
      assert Rest(s, found) == Rest(t, found) && Rest(t, found) == Rest(Apply(t, found).state, found);
      InitSeen(Apply(t, found).state, found);
    } else if t.place == AtInit {
      InitSeen(t, found);
    }
  }

  lemma InitSeen(s: State, found: Found)
    requires Inv(s) && s.place == AtInit && Enabled(s, Visit(found))
    ensures var t := s.(place := AtSave);
            Rest(s, found) ==
            if !t.initialized then Fine(t.(recover := Tasked(t.recover)))
            else Fine(if TakesUp(t, found) then With(t, found.kind, Tasked(Of(t, found.kind))) else t)
  {
    ApplyKeeps(s, found);
    AtMostOne(s, Recover);
    var t := Apply(s, found).state;
    if s.initialized {
      TaskIsTakenUp(t, found);
    } else {
      assert Rest(s, found) == Rest(t, found) && Rest(t, found) == Apply(t, found);
    }
  }

  // ------------------------------------------------------------ over whole runs

  /** A step fills the ready slot of this kind. */
  predicate Fills(s: State, a: Action, k: Kind)
    requires Enabled(s, a)
  {
    Next(s, a).Fine? && !Of(s, k).ready && Of(Next(s, a).state, k).ready
  }

  /** A step lowers the flag of this kind. */
  predicate Lowers(s: State, a: Action, k: Kind)
    requires Enabled(s, a)
  {
    Next(s, a).Fine? && Of(s, k).flag && !Of(Next(s, a).state, k).flag
  }

  /** Work of this kind is asked for while none is under way: a task is found, or the node
      needs its initial recovery. */
  predicate Asked(s: State, a: Action, k: Kind) {
    a.Visit? && (
      || (s.place == AtTask && TakesUp(s, a.found) && a.found.kind == k)
      || (s.place == AtInit && !s.initialized && k == Recover))
  }

  ghost function CountFilled(s: State, actions: seq<Action>, k: Kind): nat
    decreases |actions|
  {
    if actions == [] || !Enabled(s, actions[0]) || Next(s, actions[0]).Failed? then 0
    else One(Fills(s, actions[0], k)) + CountFilled(Next(s, actions[0]).state, actions[1..], k)
  }

  ghost function CountLowered(s: State, actions: seq<Action>, k: Kind): nat
    decreases |actions|
  {
    if actions == [] || !Enabled(s, actions[0]) || Next(s, actions[0]).Failed? then 0
    else One(Lowers(s, actions[0], k)) + CountLowered(Next(s, actions[0]).state, actions[1..], k)
  }

  ghost function CountAsked(s: State, actions: seq<Action>, k: Kind): nat
    decreases |actions|
  {
    if actions == [] || !Enabled(s, actions[0]) || Next(s, actions[0]).Failed? then 0
    else One(Asked(s, actions[0], k)) + CountAsked(Next(s, actions[0]).state, actions[1..], k)
  }

  function OnTheWay(s: State, k: Kind): nat {
    One(s.place == Put(k))
  }

  /** What a step from `s` to `t` does to the counts of one kind. */
  predicate Flows(s: State, t: State, k: Kind, asked: bool) {
    && One(!Of(s, k).ready && Of(t, k).ready) + OnTheWay(t, k) == One(asked) + OnTheWay(s, k)
    && One(Of(s, k).flag && !Of(t, k).flag) + One(Of(t, k).flag) == One(asked) + One(Of(s, k).flag)
  }

  /** A step that neither fills a slot nor moves a flag. */
  lemma StillFlows(s: State, t: State, k: Kind)
    requires OnTheWay(s, k) == 0 && OnTheWay(t, k) == 0
    requires Of(t, k).flag == Of(s, k).flag && Of(t, k).ready == Of(s, k).ready
    ensures Flows(s, t, k, false)
  {}

  lemma TakeLeaves(s: State, j: Kind, k: Kind)
    ensures var t := TakeReport(s, j);
            Of(t, k).flag == Of(s, k).flag && Of(t, k).ready == Of(s, k).ready && t.place.Clear?
  {
    match j case Save => case Recover => case Stream =>
  }

  lemma LookFlows(s: State, j: Kind, next: Place, none: Place, k: Kind)
    requires OnTheWay(s, k) == 0 && !next.Put? && !none.Put?
    ensures Flows(s, LookAt(s, j, next, none), k, false)
  {
    TakeLeaves(s, j, k);
    StillFlows(s, TakeReport(s, j), k);
    StillFlows(s, s.(place := next), k);
    StillFlows(s, s.(place := none), k);
  }

  lemma ReportFlows(s: State, j: Kind, report: Slot, k: Kind)
    requires Inv(s) && s.place == Clear(j, report) && AfterReport(s, j, report).Fine?
    ensures Flows(s, AfterReport(s, j, report).state, k, false)
  {
    AtMostOne(s, j);
    match j case Save => case Recover => case Stream =>
  }

  lemma FillFlows(s: State, j: Kind, k: Kind)
    requires Inv(s) && s.place == Put(j) && FillReady(s, j).Fine?
    ensures Flows(s, FillReady(s, j).state, k, false)
  {
    match j case Save => case Recover => case Stream =>
  }

  lemma RaiseFlows(s: State, j: Kind, k: Kind)
    requires OnTheWay(s, k) == 0 && !Of(s, j).flag
    ensures Flows(s, Raise(s, j), k, j == k)
  {
    match j case Save => case Recover => case Stream =>
  }

  lemma HandleFlows(s: State, found: Found, k: Kind)
    requires s.place == AtTask && HandleTask(s, found).Fine?
    ensures Flows(s, HandleTask(s, found).state, k, TakesUp(s, found) && found.kind == k)
  {
    if TakesUp(s, found) { RaiseFlows(s, found.kind, k); }
  }

  lemma ApplyFlows(s: State, found: Found, k: Kind)
    requires Inv(s) && Apply(s, found).Fine?
    ensures Flows(s, Apply(s, found).state, k, Asked(s, Visit(found), k))
  {
    match s.place
    case AtSave => LookFlows(s, Save, AtStream, if s.concurrent then AtStream else AtSave, k);
    case AtStream => LookFlows(s, Stream, AtRecover, AtRecover, k);
    case AtRecover => LookFlows(s, Recover, AtInit, AtSave, k);
    case AtInit => if !s.initialized { RaiseFlows(s, Recover, k); }
    case AtTask => HandleFlows(s, found, k);
    case Clear(j, report) => ReportFlows(s, j, report, k);
    case Put(j) => FillFlows(s, j, k);
  }

  lemma LaneFlows(s: State, j: Kind, l: Lane, k: Kind)
    requires l.flag == Of(s, j).flag && (l.ready ==> Of(s, j).ready)
    ensures Flows(s, With(s, j, l), k, false)
  {
    match j case Save => case Recover => case Stream =>
  }

  lemma StepFlows(s: State, a: Action, k: Kind)
    requires Inv(s) && Enabled(s, a) && Next(s, a).Fine?
    ensures Flows(s, Next(s, a).state, k, Asked(s, a, k))
  {
    match a
    case Visit(found) => ApplyFlows(s, found, k);
    case Collect(j) => LaneFlows(s, j, Collected(Of(s, j)), k);
    case Start(j) => LaneFlows(s, j, Started(Of(s, j)), k);
    case Drop(j) => LaneFlows(s, j, Dropped(Of(s, j)), k);
    case Report(j) => LaneFlows(s, j, Reported(Of(s, j), j == Recover && !s.initialized), k);
  }

  lemma {:induction false} RunCounts(s: State, actions: seq<Action>, t: State, k: Kind)
    requires Inv(s) && Runs(s, actions, t)
    ensures CountFilled(s, actions, k) + OnTheWay(t, k) == CountAsked(s, actions, k) + OnTheWay(s, k)
    ensures CountLowered(s, actions, k) + One(Of(t, k).flag) == CountAsked(s, actions, k) + One(Of(s, k).flag)
    decreases |actions|
  {
    if actions != [] {
      StepKeeps(s, actions[0]);
      StepFlows(s, actions[0], k);
      RunCounts(Next(s, actions[0]).state, actions[1..], t, k);
    }
  }

  /** In every interleaving from a state with no work of a kind under way, the tasks put
      into its ready slot are as many as were asked for while none was under way, less one
      that is just being put; and as many as that were reported back, less one that is
      still under way or was dropped. */
  lemma EveryRequestBecomesATask(s: State, actions: seq<Action>, t: State, k: Kind)
    requires Inv(s) && Idle(Of(s, k)) && Runs(s, actions, t)
    ensures CountFilled(s, actions, k) + OnTheWay(t, k) == CountAsked(s, actions, k)
    ensures CountLowered(s, actions, k) + One(Of(t, k).flag) == CountAsked(s, actions, k)
    ensures Balanced(Of(t, k), InHand(t.place, k))
  {
    AtMostOne(s, k);
    RunCounts(s, actions, t, k);
    RunBalanced(s, actions, t, k);
  }

  lemma RunBalanced(s: State, actions: seq<Action>, t: State, k: Kind)
    requires Inv(s) && Runs(s, actions, t)
    ensures Balanced(Of(t, k), InHand(t.place, k))
  {
    RunKeeps(s, actions, t);
    AtMostOne(t, k);
  }

  /** No work of this kind is under way. */
  predicate Idle(l: Lane) {
    !l.flag
  }

  /** A new node is such a state. */
  lemma NothingYet(onDisk: bool, concurrent: bool, k: Kind)
    ensures Idle(Of(New(onDisk, concurrent), k))
  {}

  /** How many steps of the pool and its workers the tasks of one kind have before them. */
  function StepsLeft(l: Lane): nat {
    3 * One(l.ready) + 2 * l.pooled + l.working
  }

  /** Every step of the pool or a worker brings a task of its kind closer to its report,
      or drops it, and touches no other kind. */
  lemma PoolGetsOn(s: State, a: Action, k: Kind)
    requires Enabled(s, a) && !a.Visit? && Next(s, a).Fine?
    ensures var l, m := Of(s, k), Of(Next(s, a).state, k);
            if a.kind != k then m == l
            else
              && StepsLeft(m) == StepsLeft(l) - (if a.Drop? then 2 else 1)
              && m.dropped == l.dropped + One(a.Drop?)
              && (m.completed.Full? <==> l.completed.Full? || a.Report?)
              && m.flag == l.flag
    ensures Next(s, a).state.place == s.place
  {
    match a
    case Collect(j) => OfWith(s, j, Collected(Of(s, j)), k);
    case Start(j) => OfWith(s, j, Started(Of(s, j)), k);
    case Drop(j) => OfWith(s, j, Dropped(Of(s, j)), k);
    case Report(j) => OfWith(s, j, Reported(Of(s, j), j == Recover && !s.initialized), k);
  }

  lemma OfWith(s: State, j: Kind, l: Lane, k: Kind)
    ensures Of(With(s, j, l), k) == (if j == k then l else Of(s, k)) && With(s, j, l).place == s.place
  {
    match j case Save => case Recover => case Stream =>
  }

  /** When none of those steps is left, the flag of work under way is answered: its report
      is there for the apply worker, or its task was dropped. */
  lemma PoolAnswers(s: State, k: Kind)
    requires Inv(s) && Of(s, k).flag && InHand(s.place, k) == 0 && StepsLeft(Of(s, k)) == 0
    ensures Of(s, k).completed.Full? || Of(s, k).dropped > 0
  {
    AtMostOne(s, k);
  }

  /** One node's flags, slots and jobs, as the apply worker works on them. */
  class NodeState {
    const onDisk: bool
    const concurrent: bool
    var save: Lane
    var recover: Lane
    var stream: Lane
    var initialized: bool

    constructor (onDisk: bool, concurrent: bool)
      ensures At(AtSave) == New(onDisk, concurrent)
    {
      this.onDisk, this.concurrent := onDisk, concurrent;
      var idle := Lane(false, false, 0, 0, Empty, 0);
      save, recover, stream, initialized := idle, idle, idle, false;
    }

    /** The state with the apply worker at `p`. */
    ghost function At(p: Place): State
      reads this
    {
      State(save, recover, stream, initialized, onDisk, concurrent, p)
    }

    /** What is left of a visit: stop with a fault, skip the node, or go on at `p`. */
    ghost function Left(fault: Fault<Panic>, skip: bool, p: Place, found: Found): Outcome
      reads this
    {
      if fault.Fault? then Failed(fault.why) else if skip then Fine(At(AtSave)) else Rest(At(p), found)
    }

    method ProcessSaveStatus(ghost found: Found) returns (skip: bool, fault: Fault<Panic>)
      modifies this`save
      ensures Rest(old(At(AtSave)), found) == Left(fault, skip, AtStream, found)
    {
      if save.flag {
        if save.completed.Empty? { return !concurrent, NoFault; }
        save := save.(completed := Empty);
        if !initialized { return true, Fault(SavedUninitialized); }
        save := save.(flag := false);
      }
      return false, NoFault;
    }

    method ProcessStreamStatus(ghost found: Found) returns (fault: Fault<Panic>)
      modifies this`stream
      ensures Rest(old(At(AtStream)), found) == Left(fault, false, AtRecover, found)
    {
      if stream.flag {
        if !onDisk { return Fault(StreamedInMemory); }
        if stream.completed.Empty? { return NoFault; }
        stream := stream.(completed := Empty);
        stream := stream.(flag := false);
      }
      return NoFault;
    }

    method ProcessRecoverStatus(ghost found: Found) returns (skip: bool, fault: Fault<Panic>)
      modifies this`recover, this`initialized
      ensures Rest(old(At(AtRecover)), found) == Left(fault, skip, AtInit, found)
    {
      if recover.flag {
        var report := recover.completed;
        if report.Empty? { return true, NoFault; }
        recover := recover.(completed := Empty);
        if report.initial {
          if initialized { return true, Fault(InitializedTwice); }
          initialized := true;
        }
        recover := recover.(flag := false);
      }
      return false, NoFault;
    }

    method ReportRecoverSnapshot(ghost found: Found) returns (fault: Fault<Panic>)
      modifies this`recover
      ensures Rest(Raise(old(At(AtTask)), Recover), found) == Left(fault, true, AtSave, found)
    {
      recover := recover.(flag := true);
      if recover.ready { return Fault(SettingTaskAgain); }
      recover := recover.(ready := true);
      return NoFault;
    }

    method ProcessUninitializedNodeStatus(ghost found: Found) returns (skip: bool, fault: Fault<Panic>)
      modifies this`recover
      ensures Rest(old(At(AtInit)), found) == Left(fault, skip, AtTask, found)
    {
      if !initialized {
        fault := ReportRecoverSnapshot(found);
        return true, fault;
      }
      return false, NoFault;
    }

    /** Whether to skip the node this time. */
    method ProcessStatusTransition(ghost found: Found) returns (skip: bool, fault: Fault<Panic>)
      modifies this
      ensures Rest(old(At(AtSave)), found) == Left(fault, skip, AtTask, found)
    {
      skip, fault := ProcessSaveStatus(found);
      if skip || fault.Fault? { return; }
      fault := ProcessStreamStatus(found);
      if fault.Fault? { return; }
      skip, fault := ProcessRecoverStatus(found);
      if skip || fault.Fault? { return; }
      skip, fault := ProcessUninitializedNodeStatus(found);
    }

    method HandleSnapshotTask(found: Found) returns (fault: Fault<Panic>)
      requires found.Found?
      modifies this`save, this`recover, this`stream
      ensures Rest(old(At(AtTask)), found) == Left(fault, true, AtSave, found)
    {
      if recover.flag { return Fault(RecoveringAgain); }
      match found.kind {
        case Recover => fault := ReportRecoverSnapshot(found);
        case Save =>
          if save.flag { return NoFault; }
          save := save.(flag := true);
          if save.ready { return Fault(SettingTaskAgain); }
          save := save.(ready := true);
          return NoFault;
        case Stream =>
          if stream.flag || !found.streamable { return NoFault; }
          stream := stream.(flag := true);
          if stream.ready { return Fault(SettingTaskAgain); }
          stream := stream.(ready := true);
          return NoFault;
      }
    }

    /** One visit of the apply worker, started in a state that interleavings reach. */
    method ProcessApplies(found: Found) returns (fault: Fault<Panic>)
      requires Inv(At(AtSave)) && Enabled(At(AtSave), Visit(found))
      modifies this
      ensures fault.NoFault? && Rest(old(At(AtSave)), found) == Fine(At(AtSave)) && Inv(At(AtSave))
    {
      VisitKeeps(At(AtSave), found);
      var skip;
      skip, fault := ProcessStatusTransition(found);
      if !skip && fault.NoFault? && found.Found? { fault := HandleSnapshotTask(found); }
    }
  }
}
