/** When an idle node goes quiet, and when it wakes up again. */
module Quiesce {

  import opened Basics

  datatype MessageType = Heartbeat | HeartbeatResp | Other(code: nat)

  datatype Turn = Entered(at: nat) | Exited(at: nat)

  datatype State = State(
    tick: U64, electionTick: U64, quiescedSince: U64, idleSince: U64, exitTick: U64, enabled: bool,
    turns: seq<Turn>)       // every entry and exit, oldest first

  function New(electionTick: U64, enabled: bool): State {
    State(0, electionTick, 0, 0, 0, enabled, [])
  }

  /** Ten election timeouts, in 64 bits. */
  function Threshold(electionTick: U64): U64 {
    electionTick * 10 % TWO64
  }

  function Minus(a: U64, b: U64): U64 {
    if a >= b then a - b else a + TWO64 - b
  }

  predicate Quiesced(s: State) {
    s.enabled && s.quiescedSince > 0
  }

  function Enter(s: State): State {
    s.(quiescedSince := s.tick, idleSince := s.tick, turns := s.turns + [Entered(s.tick)])
  }

  function Exit(s: State): State {
    s.(quiescedSince := 0, exitTick := s.tick, turns := s.turns + [Exited(s.tick)])
  }

  function Tick(s: State): State
    requires s.tick + 1 < TWO64
  {
    if !s.enabled then s
    else
      var t := s.(tick := s.tick + 1);
      if !Quiesced(t) && Minus(t.tick, t.idleSince) > Threshold(t.electionTick) then Enter(t) else t
  }

  predicate NewToQuiesce(s: State) {
    Quiesced(s) && Minus(s.tick, s.quiescedSince) < s.electionTick
  }

  /** Heartbeats neither keep a node awake nor wake one that has just gone quiet. */
  function Record(s: State, m: MessageType): State {
    if !s.enabled then s
    else if (m == Heartbeat || m == HeartbeatResp) && (!Quiesced(s) || NewToQuiesce(s)) then s
    else
      var t := s.(idleSince := s.tick);
      if Quiesced(t) then Exit(t) else t
  }

  predicate JustExited(s: State) {
    !Quiesced(s) && Minus(s.tick, s.exitTick) < Threshold(s.electionTick)
  }

  /** Another node of the cluster has gone quiet. */
  function TryEnter(s: State): State {
    if JustExited(s) || Quiesced(s) then s else Enter(s)
  }

  datatype Action = Ticks | Message(kind: MessageType) | QuiesceMessage

  function Next(s: State, a: Action): State
    requires s.tick + 1 < TWO64
  {
    match a
    case Ticks => Tick(s)
    case Message(m) => Record(s, m)
    case QuiesceMessage => TryEnter(s)
  }

  // -------------------------------------------------------------- invariant

  /** Entries and exits alternate, and an entry comes a threshold after the exit. */
  predicate Spaced(turns: seq<Turn>, threshold: nat) {
    && (|turns| > 0 ==> turns[0].Entered?)
    && (forall i :: 0 <= i < |turns| - 1 ==> Apart(turns[i], turns[i + 1], threshold))
  }

  predicate Apart(a: Turn, b: Turn, threshold: nat) {
    if a.Exited? then b.Entered? && a.at + threshold <= b.at else b.Exited? && a.at <= b.at
  }

  predicate Inv(s: State) {
    && s.quiescedSince <= s.tick && s.idleSince <= s.tick && s.exitTick <= s.idleSince
    && Threshold(s.electionTick) > 0
    && Spaced(s.turns, Threshold(s.electionTick))
    && (s.turns == [] ==> s.exitTick == 0)
    && (Quiesced(s) <==> s.turns != [] && s.turns[|s.turns| - 1].Entered?)
    && (s.turns != [] ==> s.turns[|s.turns| - 1].at <= s.tick)
    && (s.turns != [] && s.turns[|s.turns| - 1].Exited? ==> s.turns[|s.turns| - 1].at == s.exitTick)
    && (s.enabled && !Quiesced(s) ==> s.tick - s.idleSince <= Threshold(s.electionTick))
    && (!s.enabled ==> s.tick == 0 && s.turns == [] && s.exitTick == 0)
  }

  lemma AddTurn(turns: seq<Turn>, t: Turn, threshold: nat)
    requires Spaced(turns, threshold)
    requires if turns == [] then t.Entered? else Apart(turns[|turns| - 1], t, threshold)
    ensures Spaced(turns + [t], threshold)
  {
    var more := turns + [t];
    forall i | 0 <= i < |more| - 1 ensures Apart(more[i], more[i + 1], threshold) {
      if i < |turns| - 1 { assert Apart(turns[i], turns[i + 1], threshold); }
    }
  }

  lemma EnterKeeps(s: State)
    requires s.enabled && !Quiesced(s) && s.tick > 0 && s.exitTick + Threshold(s.electionTick) <= s.tick
    requires Inv(s) || (s.tick > 0 && Inv(s.(tick := s.tick - 1)))
    ensures Inv(Enter(s))
  {
    AddTurn(s.turns, Entered(s.tick), Threshold(s.electionTick));
  }

  lemma ExitKeeps(s: State)
    requires Inv(s) && Quiesced(s)
    ensures Inv(Exit(s.(idleSince := s.tick)))
  {
    AddTurn(s.turns, Exited(s.tick), Threshold(s.electionTick));
  }

  lemma StepKeeps(s: State, a: Action)
    requires Inv(s) && s.tick + 1 < TWO64
    ensures Inv(Next(s, a))
  {
    match a
    case Ticks =>
      var t := s.(tick := s.tick + 1);
      if s.enabled && !Quiesced(t) && Minus(t.tick, t.idleSince) > Threshold(t.electionTick) { EnterKeeps(t); }
    case Message(m) => if Quiesced(s) { ExitKeeps(s); }
    case QuiesceMessage => if !JustExited(s) && !Quiesced(s) { EnterKeeps(s); }
  }

  ghost predicate Runs(s: State, actions: seq<Action>, t: State)
    decreases |actions|
  {
    if actions == [] then s == t else s.tick + 1 < TWO64 && Runs(Next(s, actions[0]), actions[1..], t)
  }

  lemma {:induction false} RunKeeps(s: State, actions: seq<Action>, t: State)
    requires Inv(s) && Runs(s, actions, t)
    ensures Inv(t) && t.electionTick == s.electionTick && t.enabled == s.enabled
    decreases |actions|
  {
    if actions != [] {
      StepKeeps(s, actions[0]);
      RunKeeps(Next(s, actions[0]), actions[1..], t);
    }
  }

  /** Over any run: entries and exits alternate and each exit is followed by at least
      the threshold awake; a node that may not quiesce never does; and one that is awake
      has been idle for at most the threshold. */
  lemma QuietTimes(electionTick: U64, enabled: bool, actions: seq<Action>, s: State)
    requires Threshold(electionTick) > 0 && Runs(New(electionTick, enabled), actions, s)
    ensures Spaced(s.turns, Threshold(electionTick))
    ensures !enabled ==> s.turns == [] && !Quiesced(s)
    ensures enabled && !Quiesced(s) ==> s.tick - s.idleSince <= Threshold(electionTick)
  {
    RunKeeps(New(electionTick, enabled), actions, s);
  }

  // ----------------------------------------------- when the threshold has wrapped

  /** An exit is followed by at least `gap` ticks awake. */
  predicate Rested(turns: seq<Turn>, gap: nat) {
    forall i :: 0 <= i < |turns| - 1 && turns[i].Exited? ==> turns[i + 1].Entered? && turns[i].at + gap <= turns[i + 1].at
  }

  /** What holds whatever the threshold is. */
  predicate Loose(s: State, gap: nat) {
    && s.exitTick <= s.idleSince <= s.tick
    && Rested(s.turns, gap)
    && (forall i :: 0 <= i < |s.turns| ==> gap <= s.turns[i].at <= s.tick)
    && (s.turns != [] && s.turns[|s.turns| - 1].Exited? ==> s.turns[|s.turns| - 1].at == s.exitTick)
    && (Quiesced(s) ==> s.turns != [] && s.turns[|s.turns| - 1].Entered?)
  }

  lemma EnterLoose(s: State, gap: nat)
    requires Loose(s, gap) && !Quiesced(s) && s.exitTick + gap <= s.tick
    ensures Loose(Enter(s), gap)
  {
    var t := Enter(s);
    forall i | 0 <= i < |t.turns| - 1 && t.turns[i].Exited? ensures t.turns[i].at + gap <= t.turns[i + 1].at {
      if i < |s.turns| - 1 { assert s.turns[i + 1].Entered?; }
    }
  }

  lemma ExitLoose(s: State, gap: nat)
    requires Loose(s, gap) && Quiesced(s)
    ensures Loose(Exit(s.(idleSince := s.tick)), gap)
  {
    assert s.turns[|s.turns| - 1].at <= s.tick;
  }

  lemma LaterLoose(s: State, gap: nat)
    requires Loose(s, gap) && s.tick + 1 < TWO64
    ensures Loose(s.(tick := s.tick + 1), gap)
  {}

  lemma TickLoose(s: State, gap: nat)
    requires Loose(s, gap) && gap == Threshold(s.electionTick) && s.tick + 1 < TWO64
    ensures Loose(Tick(s), gap)
  {
    var t := s.(tick := s.tick + 1);
    LaterLoose(s, gap);
    if Tick(s) == Enter(t) && !Quiesced(t) && t.exitTick + gap <= t.tick { EnterLoose(t, gap); }
  }

  lemma RecordLoose(s: State, m: MessageType, gap: nat)
    requires Loose(s, gap)
    ensures Loose(Record(s, m), gap)
  {
    if Quiesced(s) { ExitLoose(s, gap); }
  }

  lemma LooseKeeps(s: State, a: Action, gap: nat)
    requires Loose(s, gap) && gap == Threshold(s.electionTick) && s.tick + 1 < TWO64
    ensures Loose(Next(s, a), gap) && Next(s, a).electionTick == s.electionTick
  {
    match a
    case Ticks => TickLoose(s, gap);
    case Message(m) => RecordLoose(s, m, gap);
    case QuiesceMessage => if !JustExited(s) && !Quiesced(s) { EnterLoose(s, gap); }
  }

  lemma {:induction false} RunLoose(s: State, actions: seq<Action>, t: State, gap: nat)
    requires Loose(s, gap) && gap == Threshold(s.electionTick) && Runs(s, actions, t)
    ensures Loose(t, gap) && t.electionTick == s.electionTick
    decreases |actions|
  {
    if actions != [] {
      LooseKeeps(s, actions[0], gap);
      RunLoose(Next(s, actions[0]), actions[1..], t, gap);
    }
  }

  ghost function Wait(n: nat): seq<Action> {
    if n == 0 then [] else [Ticks] + Wait(n - 1)
  }

  /** `n` ticks pass without the node going quiet. */
  predicate CanWait(s: State, n: nat) {
    && s.enabled && !Quiesced(s) && s.idleSince <= s.tick && s.tick + n < TWO64
    && s.tick + n - s.idleSince <= Threshold(s.electionTick)
  }

  lemma StaysAwake(s: State, n: nat)
    requires CanWait(s, n) && n > 0
    ensures Next(s, Ticks) == s.(tick := s.tick + 1) && CanWait(Next(s, Ticks), n - 1)
  {}

  lemma {:induction false} Waits(s: State, n: nat, later: State, rest: seq<Action>, t: State)
    requires CanWait(s, n) && later == s.(tick := s.tick + n) && Runs(later, rest, t)
    ensures Runs(s, Wait(n) + rest, t)
    decreases n
  {
    if n == 0 {
      assert Wait(0) + rest == rest;
    } else {
      StaysAwake(s, n);
      Waits(Next(s, Ticks), n - 1, later, rest, t);
      OneTick(s, n, rest, t);
    }
  }

  lemma OneTick(s: State, n: nat, rest: seq<Action>, t: State)
    requires n > 0 && s.tick + 1 < TWO64 && Runs(Next(s, Ticks), Wait(n - 1) + rest, t)
    ensures Runs(s, Wait(n) + rest, t)
  {
    RunsOn(s, Ticks, Wait(n - 1) + rest, t);
    assert Wait(n) + rest == [Ticks] + (Wait(n - 1) + rest);
  }

  lemma RunsOn(s: State, a: Action, rest: seq<Action>, t: State)
    requires s.tick + 1 < TWO64 && Runs(Next(s, a), rest, t)
    ensures Runs(s, [a] + rest, t)
  {
    assert ([a] + rest)[1..] == rest;
  }

  /** A node wakes and goes quiet again as soon as it may, twice the threshold in. */
  ghost function Restless(threshold: nat): seq<Action> {
    if threshold == 0 then [Ticks] + ([Message(Other(0))] + ([QuiesceMessage] + []))
    else Wait(threshold) + ([QuiesceMessage] + ([Message(Other(0))] + (Wait(threshold) + ([QuiesceMessage] + []))))
  }

  lemma RestlessRun(electionTick: U64) returns (t: State)
    requires 2 * Threshold(electionTick) < TWO64
    ensures Runs(New(electionTick, true), Restless(Threshold(electionTick)), t)
    ensures |t.turns| == 3 && t.turns[1].Exited? && t.turns[2].Entered? && t.turns[2].at - t.turns[1].at == Threshold(electionTick)
    ensures Threshold(electionTick) > 0 ==> t.turns[2].at == 2 * Threshold(electionTick)
  {
    var n, s0 := Threshold(electionTick), New(electionTick, true);
    if n == 0 {
      var s1 := Tick(s0);
      var s2 := Record(s1, Other(0));
      t := TryEnter(s2);
      RunsOn(s2, QuiesceMessage, [], t);
      RunsOn(s1, Message(Other(0)), [QuiesceMessage] + [], t);
      RunsOn(s0, Ticks, [Message(Other(0))] + ([QuiesceMessage] + []), t);
    } else {
      var s1 := s0.(tick := n);
      var s2 := TryEnter(s1);
      var s3 := Record(s2, Other(0));
      var s4 := s3.(tick := 2 * n);
      t := TryEnter(s4);
      RunsOn(s4, QuiesceMessage, [], t);
      Waits(s3, n, s4, [QuiesceMessage] + [], t);
      RunsOn(s2, Message(Other(0)), Wait(n) + ([QuiesceMessage] + []), t);
      RunsOn(s1, QuiesceMessage, [Message(Other(0))] + (Wait(n) + ([QuiesceMessage] + [])), t);
      Waits(s0, n, s1, [QuiesceMessage] + ([Message(Other(0))] + (Wait(n) + ([QuiesceMessage] + []))), t);
    }
  }

  /** Every run of an enabled node keeps ten election timeouts between an exit and the
      next entry. */
  ghost predicate AlwaysRests(electionTick: U64) {
    forall actions, s :: Runs(New(electionTick, true), actions, s) ==> Rested(s.turns, electionTick * 10)
  }

  /** It does if and only if ten election timeouts fit 64 bits, or what is left of them
      is so long that there is no time for a second entry. */
  lemma RestsIff(electionTick: U64)
    ensures AlwaysRests(electionTick) <==> electionTick * 10 < TWO64 || 2 * Threshold(electionTick) >= TWO64
  {
    var n := Threshold(electionTick);
    if electionTick * 10 >= TWO64 && 2 * n < TWO64 {
      var t := RestlessRun(electionTick);
      assert n < electionTick * 10;
      assert !Rested(t.turns, electionTick * 10);
    } else {
      forall actions, s | Runs(New(electionTick, true), actions, s) ensures Rested(s.turns, electionTick * 10) {
        RunLoose(New(electionTick, true), actions, s, n);
        if electionTick * 10 >= TWO64 { NoSecondEntry(s, n); }
      }
    }
  }

  lemma NoSecondEntry(s: State, gap: nat)
    requires Loose(s, gap) && 2 * gap >= TWO64
    ensures forall i :: 0 <= i < |s.turns| - 1 ==> !s.turns[i].Exited?
  {
    forall i | 0 <= i < |s.turns| - 1 ensures !s.turns[i].Exited? {
      assert gap <= s.turns[i].at && s.turns[i + 1].at <= s.tick;
    }
  }

  /** With this election timeout the threshold is four ticks: a node goes quiet at tick
      four, is woken, and is quiet again at tick eight. */
  lemma FourTicks() returns (t: State)
    ensures Runs(New(1844674407370955162, true), Restless(4), t)
    ensures |t.turns| == 3 && t.turns[1] == Exited(4) && t.turns[2] == Entered(8)
    ensures !AlwaysRests(1844674407370955162)
  {
    assert Threshold(1844674407370955162) == 4;
    t := RestlessRun(1844674407370955162);
    RestsIff(1844674407370955162);
  }

  ghost predicate AlwaysAlternates(electionTick: U64) {
    forall actions, s :: Runs(New(electionTick, true), actions, s) ==> Spaced(s.turns, Threshold(electionTick))
  }

  /** Entries and exits alternate in every run if and only if the threshold is not zero:
      with a threshold of zero a node enters at tick zero and does not notice. */
  lemma AlternatesIff(electionTick: U64)
    ensures AlwaysAlternates(electionTick) <==> Threshold(electionTick) > 0
  {
    if Threshold(electionTick) > 0 {
      forall actions, s | Runs(New(electionTick, true), actions, s) ensures Spaced(s.turns, Threshold(electionTick)) {
        QuietTimes(electionTick, true, actions, s);
      }
    } else {
      var one := New(electionTick, true);
      var two := TryEnter(one);
      var t := TryEnter(two);
      RunsOn(two, QuiesceMessage, [], t);
      RunsOn(one, QuiesceMessage, [QuiesceMessage] + [], t);
      assert t.turns == [Entered(0), Entered(0)];
      assert !Apart(t.turns[0], t.turns[1], 0);
      assert Runs(New(electionTick, true), [QuiesceMessage] + ([QuiesceMessage] + []), t) && !Spaced(t.turns, Threshold(electionTick));
    }
  }

  /** Only time passes and only heartbeats arrive. */
  predicate Idle(a: Action) {
    a == Ticks || a == Message(Heartbeat) || a == Message(HeartbeatResp)
  }

  ghost function TickCount(actions: seq<Action>): nat {
    if actions == [] then 0 else TickCount(actions[1..]) + if actions[0] == Ticks then 1 else 0
  }

  /** Heartbeats do not wake a node within an election timeout of its going quiet. */
  lemma {:induction false} HeartbeatsDoNotWake(s: State, actions: seq<Action>, t: State)
    requires Inv(s) && Quiesced(s) && Runs(s, actions, t)
    requires forall i :: 0 <= i < |actions| ==> Idle(actions[i])
    requires s.tick - s.quiescedSince + TickCount(actions) < s.electionTick
    ensures Quiesced(t) && t.turns == s.turns
    decreases |actions|
  {
    if actions != [] {
      StepKeeps(s, actions[0]);
      HeartbeatsDoNotWake(Next(s, actions[0]), actions[1..], t);
    }
  }

  /** A node that hears nothing but heartbeats stays awake while the threshold has not
      passed, and goes quiet once it has. */
  lemma {:induction false} IdleNodeGoesQuiet(s: State, actions: seq<Action>, t: State)
    requires Inv(s) && s.enabled && !Quiesced(s) && Runs(s, actions, t)
    requires forall i :: 0 <= i < |actions| ==> Idle(actions[i])
    ensures s.tick - s.idleSince + TickCount(actions) <= Threshold(s.electionTick) ==> !Quiesced(t)
    ensures s.tick - s.idleSince + TickCount(actions) > Threshold(s.electionTick) ==> |t.turns| > |s.turns|
    decreases |actions|
  {
    if actions != [] {
      var u := Next(s, actions[0]);
      StepKeeps(s, actions[0]);
      if Quiesced(u) {
        RunAddsTurns(u, actions[1..], t);
      } else {
        IdleNodeGoesQuiet(u, actions[1..], t);
      }
    }
  }

  lemma {:induction false} RunAddsTurns(s: State, actions: seq<Action>, t: State)
    requires Runs(s, actions, t)
    ensures |s.turns| <= |t.turns|
    decreases |actions|
  {
    if actions != [] { RunAddsTurns(Next(s, actions[0]), actions[1..], t); }
  }

  /** A message wakes a quiet node if and only if it is no heartbeat, or the node has been
      quiet for an election timeout; the node is then awake and not idle. A message that
      does not wake it changes nothing. An awake node is idle no longer if and only if the
      message is no heartbeat. */
  lemma WakesIff(s: State, m: MessageType)
    requires Inv(s) && s.enabled
    ensures Quiesced(s) ==>
              Record(s, m) == if m.Other? || s.tick - s.quiescedSince >= s.electionTick
                              then s.(quiescedSince := 0, exitTick := s.tick, idleSince := s.tick, turns := s.turns + [Exited(s.tick)]) else s
    ensures !Quiesced(s) ==> Record(s, m) == if m.Other? then s.(idleSince := s.tick) else s
  {}

  /** An awake node follows another into quiet if and only if it has been awake for the
      threshold: since its last exit, or since it started. */
  lemma FollowsIff(s: State)
    requires Inv(s) && s.enabled
    ensures TryEnter(s) ==
            if !Quiesced(s) && s.tick - (if s.turns == [] then 0 else s.turns[|s.turns| - 1].at) >= Threshold(s.electionTick)
            then s.(quiescedSince := s.tick, idleSince := s.tick, turns := s.turns + [Entered(s.tick)]) else s
  {}

  // ------------------------------------------------------ the state as it runs

  class QuiesceState {
    var currentTick: U64
    const electionTick: U64
    var quiescedSince: U64
    var idleSince: U64
    var exitQuiesceTick: U64
    const enabled: bool
    var newQuiesceState: bool
    ghost var turns: seq<Turn>

    constructor (electionTick: U64, enabled: bool)
      ensures Now() == New(electionTick, enabled) && !newQuiesceState
    {
      this.electionTick, this.enabled := electionTick, enabled;
      currentTick, quiescedSince, idleSince, exitQuiesceTick, newQuiesceState, turns := 0, 0, 0, 0, false, [];
    }

    ghost function Now(): State
      reads this
    {
      State(currentTick, electionTick, quiescedSince, idleSince, exitQuiesceTick, enabled, turns)
    }

    method EnterQuiesce()
      modifies this
      ensures Now() == Enter(old(Now())) && newQuiesceState
    {
      quiescedSince, idleSince, newQuiesceState := currentTick, currentTick, true;
      turns := turns + [Entered(currentTick)];
    }

    /** Count a tick; the flag tells the others once that the node has gone quiet. */
    method TickOnce() returns (tick: U64)
      requires currentTick + 1 < TWO64
      modifies this
      ensures Now() == Tick(old(Now())) && tick == if enabled then currentTick else 0
      ensures newQuiesceState == (old(newQuiesceState) || turns != old(turns))
    {
      if !enabled { return 0; }
      currentTick := currentTick + 1;
      if quiescedSince == 0 && Minus(currentTick, idleSince) > Threshold(electionTick) { EnterQuiesce(); }
      return currentTick;
    }

    method RecordMessage(m: MessageType)
      modifies this
      ensures Now() == Record(old(Now()), m) && newQuiesceState == old(newQuiesceState)
    {
      if !enabled { return; }
      if m == Heartbeat || m == HeartbeatResp {
        if quiescedSince == 0 { return; }
        if Minus(currentTick, quiescedSince) < electionTick { return; }
      }
      idleSince := currentTick;
      if quiescedSince > 0 {
        quiescedSince, exitQuiesceTick := 0, currentTick;
        turns := turns + [Exited(currentTick)];
      }
    }

    method TryEnterQuiesce()
      modifies this
      ensures Now() == TryEnter(old(Now()))
      ensures newQuiesceState == (old(newQuiesceState) || turns != old(turns))
    {
      var quiesced := enabled && quiescedSince > 0;
      if !quiesced && Minus(currentTick, exitQuiesceTick) < Threshold(electionTick) { return; }
      if !quiesced { EnterQuiesce(); }
    }
  }
}
