/** User callbacks: how many run, in which order they are started, and who may start them. */
module EngineBoard {
  import opened Basics
  import opened Engine
  import opened EngineLife

  // ---- counting ----

  /** Starts that still hold their slot. */
  function Unfinished(ended: seq<bool>): (r: nat) {
    if ended == [] then 0
    else Unfinished(ended[..|ended| - 1]) + if ended[|ended| - 1] then 0 else 1
  }

  function Starts(e: nat, callbacks: seq<Callback>): (r: seq<Spawn>) {
    seq(|callbacks|, j requires 0 <= j < |callbacks| => Spawn(e, callbacks[j]))
  }

  predicate SpawnedFits(event: Event) { event.spawned <= |event.callbacks| }

  /** The starts that the events account for: of each event in turn, a prefix of its callbacks. */
  function StartLog(events: seq<Event>): (r: seq<Spawn>)
    requires forall e | 0 <= e < |events| :: SpawnedFits(events[e])
  {
    if events == [] then []
    else
      var n := |events| - 1;
      assert SpawnedFits(events[n]);
      StartLog(events[..n]) + Starts(n, events[n].callbacks[..events[n].spawned])
  }

  lemma UnfinishedAppend(ended: seq<bool>, b: bool)
    ensures Unfinished(ended + [b]) == Unfinished(ended) + if b then 0 else 1
  {
    assert (ended + [b])[..|ended|] == ended;
  }

  lemma {:induction false} UnfinishedEnd(ended: seq<bool>, j: nat)
    requires j < |ended| && !ended[j]
    ensures Unfinished(ended[j := true]) == Unfinished(ended) - 1
  {
    var n := |ended| - 1;
    if j == n {
      assert ended[j := true][..n] == ended[..n];
    } else {
      assert ended[j := true][..n] == ended[..n][j := true];
      UnfinishedEnd(ended[..n], j);
    }
  }

  lemma StartLogOpen(events: seq<Event>, event: Event)
    requires forall e | 0 <= e < |events| :: SpawnedFits(events[e])
    requires event.spawned == 0
    ensures StartLog(events + [event]) == StartLog(events)
  {
    assert (events + [event])[..|events|] == events;
    assert Starts(|events|, event.callbacks[..0]) == [];
  }

  lemma StartLogNext(events: seq<Event>, event: Event)
    requires forall e | 0 <= e < |events| :: SpawnedFits(events[e])
    requires events != [] && event == events[|events| - 1] && event.spawned < |event.callbacks|
    ensures var n := |events| - 1;
            StartLog(events[n := event.(spawned := event.spawned + 1)]) ==
            StartLog(events) + [Spawn(n, event.callbacks[event.spawned])]
  {
    var n := |events| - 1;
    var more := events[n := event.(spawned := event.spawned + 1)];
    assert more[..n] == events[..n];
    assert Starts(n, event.callbacks[..event.spawned + 1]) ==
           Starts(n, event.callbacks[..event.spawned]) + [Spawn(n, event.callbacks[event.spawned])];
  }

  /** Held slots are unfinished callbacks, at most 16, and starts follow the events. */
  ghost predicate Tally(b: Board) {
    && |b.ended| == |b.spawns|
    && b.slots == Unfinished(b.ended)
    && b.slots <= CALLBACK_SLOTS
    && (forall e | 0 <= e < |b.events| :: SpawnedFits(b.events[e]))
    && b.spawns == StartLog(b.events)
  }

  // ---- who is dispatching ----

  function OwnerOf(s: State, actor: Actor): (r: nat) {
    match actor
    case TheRunner(i) => i
    case TheReader(k) => if k < |s.wires| then s.wires[k].session else 0
  }

  predicate Doing(dispatch: Option<Dispatch>, e: nat) {
    dispatch.Some? && dispatch.value.event == e
  }

  /** The newest runner or the newest reader is in the callback loop of event e. */
  predicate InProgress(s: State, e: nat) {
    || (|s.sessions| > 0 && Doing(DispatchOf(s, TheRunner(|s.sessions| - 1)), e))
    || (|s.conns| > 0 && Doing(DispatchOf(s, TheReader(|s.conns| - 1)), e))
  }

  /** A goroutine in a callback loop is in the newest event, which is its own session's, and waits on that session. */
  predicate DispatchFits(s: State, actor: Actor) {
    var dispatch := DispatchOf(s, actor);
    dispatch.Some? ==>
      var d, owner := dispatch.value, OwnerOf(s, actor);
      && d.event + 1 == |s.board.events|
      && s.board.events[d.event].session == owner
      && (d.at.Waiting? ==> d.at.ctx == Some(owner))
      && (d.at.Stopped? ==> CtxDone(s, owner))
  }

  /** An event all of whose callbacks have not been started is in progress or belongs to a canceled session. */
  predicate Covered(s: State, e: nat)
    requires e < |s.board.events|
  {
    s.board.events[e].spawned < |s.board.events[e].callbacks| ==>
      InProgress(s, e) || CtxDone(s, s.board.events[e].session)
  }

  ghost predicate Turns(s: State) {
    && Tally(s.board)
    && (forall i: nat :: DispatchFits(s, TheRunner(i)))
    && (forall k: nat :: DispatchFits(s, TheReader(k)))
    && (forall e | 0 <= e < |s.board.events| :: Covered(s, e))
  }

  lemma ActorIsNewest(s: State, a: Actor)
    requires Life(s) && DispatchOf(s, a).Some?
    ensures a.TheRunner? ==> a.session + 1 == |s.sessions| && s.session == Some(a.session)
    ensures a.TheRunner? ==> forall k | 0 <= k < |s.conns| :: s.conns[k].reader.Dead?
    ensures a.TheReader? ==>
              a.conn + 1 == |s.conns| && s.session == Some(OwnerOf(s, a)) && OwnerOf(s, a) + 1 == |s.sessions|
    ensures a.TheReader? ==> forall i: nat :: DispatchOf(s, TheRunner(i)).None?
  {
    match a
    case TheRunner(i) =>
      OpenIsCurrent(s, i);
      forall k | 0 <= k < |s.conns| ensures s.conns[k].reader.Dead? {
        if !s.conns[k].reader.Dead? {
          ReaderAlive(s, k);
        }
      }
    case TheReader(k) => ReaderAlive(s, k);
  }

  /** At most one goroutine is ever in a callback loop. */
  lemma SoleDispatcher(s: State, a: Actor, b: Actor)
    requires Life(s) && DispatchOf(s, a).Some? && DispatchOf(s, b).Some?
    ensures a == b
    ensures a.TheRunner? ==> a.session + 1 == |s.sessions| && s.session == Some(a.session)
    ensures a.TheReader? ==> a.conn + 1 == |s.conns| && s.session == Some(OwnerOf(s, a))
  {
    ActorIsNewest(s, a);
    ActorIsNewest(s, b);
  }

  /** Nobody is in a callback loop. */
  ghost predicate Silent(s: State) {
    && (forall i: nat :: DispatchOf(s, TheRunner(i)).None?)
    && (forall k: nat :: DispatchOf(s, TheReader(k)).None?)
  }

  lemma NewestDecidesSilence(s: State)
    requires Life(s)
    requires |s.sessions| > 0 ==> DispatchOf(s, TheRunner(|s.sessions| - 1)).None?
    requires |s.conns| > 0 ==> DispatchOf(s, TheReader(|s.conns| - 1)).None?
    ensures Silent(s)
  {
    forall i: nat ensures DispatchOf(s, TheRunner(i)).None? {
      if DispatchOf(s, TheRunner(i)).Some? { ActorIsNewest(s, TheRunner(i)); }
    }
    forall k: nat ensures DispatchOf(s, TheReader(k)).None? {
      if DispatchOf(s, TheReader(k)).Some? { ActorIsNewest(s, TheReader(k)); }
    }
  }

  // ---- changes that keep Turns ----

  /** Nothing about callbacks changes, except that contexts may be canceled. */
  lemma QuietKeepsTurns(s: State, t: State)
    requires Turns(s) && Tally(t.board) && t.board.events == s.board.events
    requires |t.sessions| == |s.sessions| && |t.conns| == |s.conns| && |t.wires| == |s.wires|
    requires forall i: nat :: DispatchOf(t, TheRunner(i)) == DispatchOf(s, TheRunner(i))
    requires forall k: nat :: DispatchOf(t, TheReader(k)) == DispatchOf(s, TheReader(k))
    requires forall k | 0 <= k < |s.wires| :: t.wires[k].session == s.wires[k].session
    requires forall i: nat :: CtxDone(s, i) ==> CtxDone(t, i)
    ensures Turns(t)
  {
    forall i: nat ensures DispatchFits(t, TheRunner(i)) { assert DispatchFits(s, TheRunner(i)); }
    forall k: nat ensures DispatchFits(t, TheReader(k)) { assert DispatchFits(s, TheReader(k)); }
    forall e | 0 <= e < |t.board.events| ensures Covered(t, e) { assert Covered(s, e); }
  }

  /** From silence to silence. */
  lemma SilenceKeepsTurns(s: State, t: State)
    requires Turns(s) && Silent(s) && Silent(t) && t.board == s.board
    requires forall i: nat :: CtxDone(s, i) && i < |s.sessions| ==> CtxDone(t, i)
    requires forall e | 0 <= e < |s.board.events| :: s.board.events[e].session < |s.sessions|
    ensures Turns(t)
  {
    forall e | 0 <= e < |t.board.events| ensures Covered(t, e) { assert Covered(s, e); }
  }

  /** A goroutine opens an event out of silence. */
  lemma OpenKeepsTurns(s: State, t: State, actor: Actor, event: Event)
    requires Turns(s) && Silent(s)
    requires t.board == s.board.(events := s.board.events + [event])
    requires event.spawned == 0 && event.session == OwnerOf(t, actor)
    requires DispatchOf(t, actor) == Some(NextDispatch(s))
    requires forall a: Actor :: a != actor ==> DispatchOf(t, a).None?
    requires match actor case TheRunner(i) => i + 1 == |t.sessions| case TheReader(k) => k + 1 == |t.conns|
    requires forall i: nat :: CtxDone(s, i) ==> CtxDone(t, i)
    ensures Turns(t)
  {
    StartLogOpen(s.board.events, event);
    var n := |s.board.events|;
    forall i: nat ensures DispatchFits(t, TheRunner(i)) {
      if TheRunner(i) != actor { assert DispatchOf(t, TheRunner(i)).None?; }
    }
    forall k: nat ensures DispatchFits(t, TheReader(k)) {
      if TheReader(k) != actor { assert DispatchOf(t, TheReader(k)).None?; }
    }
    forall e | 0 <= e < |t.board.events| ensures Covered(t, e) {
      if e < n { assert Covered(s, e); } else { assert InProgress(t, e); }
    }
  }

  /** The sole dispatcher leaves its loop. */
  lemma CloseKeepsTurns(s: State, t: State, actor: Actor)
    requires Turns(s) && t.board == s.board && Silent(t)
    requires DispatchOf(s, actor).Some? && DispatchOver(s, DispatchOf(s, actor).value)
    requires forall a: Actor :: a != actor ==> DispatchOf(s, a).None?
    requires forall i: nat :: CtxDone(s, i) ==> CtxDone(t, i)
    ensures Turns(t)
  {
    assert DispatchFits(s, actor) by {
      match actor
      case TheRunner(i) => assert DispatchFits(s, TheRunner(i));
      case TheReader(k) => assert DispatchFits(s, TheReader(k));
    }
    forall e | 0 <= e < |t.board.events| ensures Covered(t, e) {
      assert Covered(s, e);
      if InProgress(s, e) {
        assert DispatchOf(s, actor).value.event == e;
      }
    }
  }

  // ---- every step ----

  /** The sessions of past events exist. */
  ghost predicate EventsKnown(s: State) {
    forall e | 0 <= e < |s.board.events| :: s.board.events[e].session < |s.sessions|
  }

  lemma StartAddsSession(s: State, t: State)
    requires DoCaller(s, CallStart) == Some(t) && |t.sessions| > |s.sessions|
    ensures t == s.(sessions := s.sessions + [NewSession], session := Some(|s.sessions|))
    ensures s.session.Some? ==> s.session.value < |s.sessions| && s.sessions[s.session.value].done
  {
  }

  lemma NothingOpenIsSilent(s: State)
    requires Life(s) && (s.session.Some? ==> s.session.value < |s.sessions| && s.sessions[s.session.value].done)
    ensures Silent(s)
  {
    forall i: nat ensures DispatchOf(s, TheRunner(i)).None? {
      if DispatchOf(s, TheRunner(i)).Some? { OpenIsCurrent(s, i); }
    }
    forall k: nat ensures DispatchOf(s, TheReader(k)).None? {
      if DispatchOf(s, TheReader(k)).Some? { ReaderAlive(s, k); }
    }
  }

  lemma NewSessionIsSilent(s: State, t: State)
    requires Silent(s) && t == s.(sessions := s.sessions + [NewSession], session := t.session)
    ensures Silent(t)
  {
    forall i: nat ensures DispatchOf(t, TheRunner(i)).None? {
      if i < |s.sessions| { assert DispatchOf(s, TheRunner(i)).None?; }
    }
    forall k: nat ensures DispatchOf(t, TheReader(k)).None? { assert DispatchOf(s, TheReader(k)).None?; }
  }

  lemma StartKeepsTurns(s: State, t: State)
    requires Life(s) && Turns(s) && EventsKnown(s) && DoCaller(s, CallStart) == Some(t) && |t.sessions| > |s.sessions|
    ensures Turns(t)
  {
    StartAddsSession(s, t);
    NothingOpenIsSilent(s);
    NewSessionIsSilent(s, t);
    SilenceKeepsTurns(s, t);
  }

  lemma CallerTally(s: State, step: CallerStep, t: State)
    requires Tally(s.board) && DoCaller(s, step) == Some(t)
    ensures Tally(t.board) && t.board.events == s.board.events
  {
    match step
    case EndCallback(start) => UnfinishedEnd(s.board.ended, start);
    case CallSubscribe(_, _, _) => assert t.board == s.board;
    case _ =>
  }

  lemma CallerFrame(s: State, t: State)
    requires CallerEffect(s, t) && |t.sessions| == |s.sessions|
    ensures t.conns == s.conns && t.wires == s.wires
    ensures forall i: nat :: CtxDone(s, i) ==> CtxDone(t, i)
    ensures forall i: nat :: DispatchOf(t, TheRunner(i)) == DispatchOf(s, TheRunner(i))
  {
  }

  lemma CallerStartsOne(s: State, step: CallerStep, t: State)
    requires DoCaller(s, step) == Some(t) && !step.CallStart?
    ensures |t.sessions| == |s.sessions|
  {
  }

  lemma CallerLeavesTurns(s: State, step: CallerStep, t: State)
    requires Turns(s) && DoCaller(s, step) == Some(t) && CallerEffect(s, t) && |t.sessions| == |s.sessions|
    ensures Turns(t)
  {
    CallerTally(s, step, t);
    CallerFrame(s, t);
    QuietKeepsTurns(s, t);
  }

  lemma CallerKeepsTurns(s: State, step: CallerStep, t: State)
    requires Life(s) && Turns(s) && EventsKnown(s) && DoCaller(s, step) == Some(t)
    ensures Turns(t)
  {
    if step.CallStart? && |t.sessions| > |s.sessions| {
      StartKeepsTurns(s, t);
    } else {
      CallerHasEffect(s, step, t);
      if !step.CallStart? { CallerStartsOne(s, step, t); }
      CallerLeavesTurns(s, step, t);
    }
  }

  lemma WriterFrame(s: State, step: WriterStep, t: State)
    requires DoWriter(s, step) == Some(t)
    ensures |t.sessions| == |s.sessions| && t.conns == s.conns && t.wires == s.wires && t.board == s.board
    ensures forall i | 0 <= i < |s.sessions| :: t.sessions[i].run == s.sessions[i].run
    ensures forall i: nat :: CtxDone(s, i) ==> CtxDone(t, i)
    ensures forall i: nat :: DispatchOf(t, TheRunner(i)) == DispatchOf(s, TheRunner(i))
  {
  }

  lemma WriterKeepsTurns(s: State, step: WriterStep, t: State)
    requires Turns(s) && DoWriter(s, step) == Some(t)
    ensures Turns(t)
  {
    WriterFrame(s, step, t);
    QuietKeepsTurns(s, t);
  }

  /** A runner that is not in a callback loop and whose session is the newest implies silence unless its reader
      announces. */
  lemma RunnerSilence(s: State, i: nat)
    requires Life(s) && i < |s.sessions| && !s.sessions[i].done
    requires !HasConn(s.sessions[i].run) && DispatchOf(s, TheRunner(i)).None?
    ensures Silent(s)
  {
    OpenIsCurrent(s, i);
    NewestDecidesSilence(s) by {
      if |s.conns| > 0 && DispatchOf(s, TheReader(|s.conns| - 1)).Some? {
        ReaderAlive(s, |s.conns| - 1);
      }
    }
  }

  lemma RunnerOpens(s: State, i: nat, step: RunnerStep, t: State)
    requires step.SnapRetrievers? || step.SnapErrors?
    requires Life(s) && Turns(s) && DoRunner(s, i, step) == Some(t)
    ensures Turns(t)
  {
    RunnerSilence(s, i);
    OpenIsCurrent(s, i);
    forall a: Actor | a != TheRunner(i) ensures DispatchOf(t, a).None? {
      assert DispatchOf(s, a).None? by {
        match a
        case TheRunner(j) => assert DispatchOf(s, TheRunner(j)).None?;
        case TheReader(k) => assert DispatchOf(s, TheReader(k)).None?;
      }
    }
    OpenKeepsTurns(s, t, TheRunner(i), t.board.events[|s.board.events|]);
  }

  lemma OthersSilent(s: State, actor: Actor)
    requires Life(s) && DispatchOf(s, actor).Some?
    ensures forall a: Actor :: a != actor ==> DispatchOf(s, a).None?
  {
    forall a: Actor | a != actor ensures DispatchOf(s, a).None? {
      if DispatchOf(s, a).Some? { SoleDispatcher(s, a, actor); }
    }
  }

  lemma RunnerCloses(s: State, i: nat, step: RunnerStep, t: State)
    requires step.StartDial? || step.StartPause?
    requires Life(s) && Turns(s) && DoRunner(s, i, step) == Some(t)
    ensures Turns(t)
  {
    OthersSilent(s, TheRunner(i));
    forall j: nat ensures DispatchOf(t, TheRunner(j)).None? {
      if j != i { assert DispatchOf(s, TheRunner(j)).None?; }
    }
    forall k: nat ensures DispatchOf(t, TheReader(k)).None? { assert DispatchOf(s, TheReader(k)).None?; }
    CloseKeepsTurns(s, t, TheRunner(i));
  }

  lemma EndDialKeepsTurns(s: State, i: nat, result: DialResult, t: State)
    requires Life(s) && Turns(s) && EventsKnown(s) && DoRunner(s, i, EndDial(result)) == Some(t)
    ensures Turns(t)
  {
    RunnerSilence(s, i);
    forall j: nat ensures DispatchOf(t, TheRunner(j)).None? { assert DispatchOf(s, TheRunner(j)).None?; }
    forall k: nat ensures DispatchOf(t, TheReader(k)).None? { assert DispatchOf(s, TheReader(k)).None?; }
    SilenceKeepsTurns(s, t);
  }

  lemma RunnerFrame(s: State, i: nat, step: RunnerStep, t: State)
    requires DoRunner(s, i, step) == Some(t)
    requires !step.SnapRetrievers? && !step.SnapErrors? && !step.StartDial? && !step.StartPause? && !step.EndDial?
    ensures |t.sessions| == |s.sessions| && |t.conns| == |s.conns| && t.wires == s.wires && t.board == s.board
    ensures forall j: nat :: CtxDone(s, j) ==> CtxDone(t, j)
    ensures forall j: nat :: DispatchOf(t, TheRunner(j)) == DispatchOf(s, TheRunner(j))
    ensures forall k: nat :: DispatchOf(t, TheReader(k)) == DispatchOf(s, TheReader(k))
  {
  }

  lemma RunnerKeepsTurns(s: State, i: nat, step: RunnerStep, t: State)
    requires Life(s) && Turns(s) && DoRunner(s, i, step) == Some(t)
    requires step.EndDial? ==> EventsKnown(s)
    ensures Turns(t)
  {
    match step
    case SnapRetrievers => RunnerOpens(s, i, step, t);
    case SnapErrors => RunnerOpens(s, i, step, t);
    case StartDial => RunnerCloses(s, i, step, t);
    case StartPause => RunnerCloses(s, i, step, t);
    case EndDial(result) => EndDialKeepsTurns(s, i, result, t);
    case _ =>
      RunnerFrame(s, i, step, t);
      QuietKeepsTurns(s, t);
  }

  lemma ServeFrame(s: State, i: nat, t: State)
    requires ServeEffect(s, i, t)
    ensures |t.sessions| == |s.sessions| && |t.conns| == |s.conns| && |t.wires| == |s.wires| && t.board == s.board
    ensures forall j: nat :: CtxDone(s, j) ==> CtxDone(t, j)
    ensures forall j: nat :: DispatchOf(t, TheRunner(j)) == DispatchOf(s, TheRunner(j))
    ensures forall k: nat :: DispatchOf(t, TheReader(k)) == DispatchOf(s, TheReader(k))
  {
  }

  lemma ServeKeepsTurns(s: State, i: nat, step: ServeStep, t: State)
    requires Turns(s) && DoServe(s, i, step) == Some(t)
    ensures Turns(t)
  {
    ServeHasEffect(s, i, step, t);
    ServeFrame(s, i, t);
    QuietKeepsTurns(s, t);
  }

  lemma ReaderAnnounces(s: State, k: nat, t: State)
    requires DoReader(s, k, Announce) == Some(t)
    ensures |t.board.events| == |s.board.events| + 1
    ensures var event := t.board.events[|s.board.events|];
            && t.board == s.board.(events := s.board.events + [event])
            && event.spawned == 0 && event.session == OwnerOf(t, TheReader(k))
    ensures DispatchOf(t, TheReader(k)) == Some(NextDispatch(s))
    ensures forall a: Actor :: a != TheReader(k) ==> DispatchOf(t, a) == DispatchOf(s, a)
    ensures t.sessions == s.sessions && |t.conns| == |s.conns| && t.canceled == s.canceled
  {
  }

  lemma ReaderOpens(s: State, k: nat, t: State)
    requires Life(s) && Turns(s) && DoReader(s, k, Announce) == Some(t)
    ensures Turns(t)
  {
    ReaderAlive(s, k);
    NewestDecidesSilence(s);
    ReaderAnnounces(s, k, t);
    forall a: Actor | a != TheReader(k) ensures DispatchOf(t, a).None? {
      assert DispatchOf(s, a).None? by {
        match a
        case TheRunner(j) => assert DispatchOf(s, TheRunner(j)).None?;
        case TheReader(j) => assert DispatchOf(s, TheReader(j)).None?;
      }
    }
    OpenKeepsTurns(s, t, TheReader(k), t.board.events[|s.board.events|]);
  }

  lemma ReaderEnds(s: State, k: nat, t: State)
    requires DoReader(s, k, EndAnnounce) == Some(t)
    ensures t.board == s.board && DispatchOf(s, TheReader(k)).Some? && DispatchOf(t, TheReader(k)).None?
    ensures DispatchOver(s, DispatchOf(s, TheReader(k)).value)
    ensures forall a: Actor :: a != TheReader(k) ==> DispatchOf(t, a) == DispatchOf(s, a)
    ensures forall i: nat :: CtxDone(s, i) ==> CtxDone(t, i)
  {
  }

  lemma ReaderCloses(s: State, k: nat, t: State)
    requires Life(s) && Turns(s) && DoReader(s, k, EndAnnounce) == Some(t)
    ensures Turns(t)
  {
    ReaderEnds(s, k, t);
    OthersSilent(s, TheReader(k));
    forall i: nat ensures DispatchOf(t, TheRunner(i)).None? { assert DispatchOf(s, TheRunner(i)).None?; }
    forall j: nat ensures DispatchOf(t, TheReader(j)).None? {
      if j != k { assert DispatchOf(s, TheReader(j)).None?; }
    }
    CloseKeepsTurns(s, t, TheReader(k));
  }

  lemma ReaderFrame(s: State, k: nat, step: ReaderStep, t: State)
    requires DoReader(s, k, step) == Some(t) && !step.Announce? && !step.EndAnnounce?
    ensures t.sessions == s.sessions && |t.conns| == |s.conns| && t.wires == s.wires && t.board == s.board
    ensures t.canceled == s.canceled
    ensures forall i: nat :: DispatchOf(t, TheRunner(i)) == DispatchOf(s, TheRunner(i))
    ensures forall j: nat :: DispatchOf(t, TheReader(j)) == DispatchOf(s, TheReader(j))
  {
  }

  lemma ReaderKeepsTurns(s: State, k: nat, step: ReaderStep, t: State)
    requires Life(s) && Turns(s) && DoReader(s, k, step) == Some(t)
    ensures Turns(t)
  {
    match step
    case Announce => ReaderOpens(s, k, t);
    case EndAnnounce => ReaderCloses(s, k, t);
    case _ =>
      ReaderFrame(s, k, step, t);
      QuietKeepsTurns(s, t);
  }

  lemma DispatchTally(s: State, actor: Actor, step: DispatchStep, t: State)
    requires Tally(s.board) && DispatchFits(s, actor) && DoDispatch(s, actor, step) == Some(t)
    ensures Tally(t.board) && |t.board.events| == |s.board.events|
    ensures forall e | 0 <= e < |s.board.events| ::
              t.board.events[e] == s.board.events[e].(spawned := t.board.events[e].spawned)
    ensures forall e | 0 <= e < |s.board.events| - 1 :: t.board.events[e] == s.board.events[e]
  {
    if step.StartCallback? {
      var d := DispatchOf(s, actor).value;
      StartLogNext(s.board.events, s.board.events[d.event]);
      UnfinishedAppend(s.board.ended, false);
    }
  }

  /** Only the acting goroutine's place changes. */
  lemma DispatchFrame(s: State, actor: Actor, step: DispatchStep, t: State)
    requires DoDispatch(s, actor, step) == Some(t)
    ensures |t.sessions| == |s.sessions| && |t.conns| == |s.conns| && t.wires == s.wires && t.canceled == s.canceled
    ensures forall i | 0 <= i < |s.sessions| :: t.sessions[i].canceled == s.sessions[i].canceled
    ensures forall a: Actor :: a != actor ==> DispatchOf(t, a) == DispatchOf(s, a)
  {
  }

  lemma DispatchMoves(s: State, actor: Actor, step: DispatchStep, t: State)
    requires DispatchFits(s, actor) && DoDispatch(s, actor, step) == Some(t)
    requires s.session == Some(OwnerOf(s, actor))
    ensures var d := DispatchOf(t, actor);
            && d.Some? && d.value.event == DispatchOf(s, actor).value.event
            && (d.value.at.Waiting? ==> d.value.at.ctx == Some(OwnerOf(s, actor)))
            && (d.value.at.Stopped? ==> CtxDone(s, OwnerOf(s, actor)))
  {
  }

  lemma TurnKeepsTurns(s: State, actor: Actor, t: State)
    requires Turns(s) && Tally(t.board) && |t.board.events| == |s.board.events|
    requires DispatchFits(s, actor) && DispatchOf(s, actor).Some?
    requires forall e | 0 <= e < |s.board.events| ::
               t.board.events[e] == s.board.events[e].(spawned := t.board.events[e].spawned)
    requires forall e | 0 <= e < |s.board.events| - 1 :: t.board.events[e] == s.board.events[e]
    requires |t.sessions| == |s.sessions| && |t.conns| == |s.conns| && t.wires == s.wires && t.canceled == s.canceled
    requires forall i | 0 <= i < |s.sessions| :: t.sessions[i].canceled == s.sessions[i].canceled
    requires forall a: Actor :: a != actor ==> DispatchOf(t, a) == DispatchOf(s, a) == None
    requires DispatchOf(t, actor).Some? && DispatchOf(t, actor).value.event == DispatchOf(s, actor).value.event
    requires DispatchOf(t, actor).value.at.Waiting? ==> DispatchOf(t, actor).value.at.ctx == Some(OwnerOf(s, actor))
    requires DispatchOf(t, actor).value.at.Stopped? ==> CtxDone(s, OwnerOf(s, actor))
    requires match actor case TheRunner(i) => i + 1 == |s.sessions| case TheReader(k) => k + 1 == |s.conns|
    ensures Turns(t)
  {
    forall i: nat ensures DispatchFits(t, TheRunner(i)) {
      if TheRunner(i) != actor { assert DispatchOf(t, TheRunner(i)).None?; }
    }
    forall k: nat ensures DispatchFits(t, TheReader(k)) {
      if TheReader(k) != actor { assert DispatchOf(t, TheReader(k)).None?; }
    }
    var n := |s.board.events| - 1;
    assert InProgress(t, n);
    forall e | 0 <= e < |t.board.events| ensures Covered(t, e) {
      if e < n {
        assert Covered(s, e);
        assert !InProgress(s, e);
      }
    }
  }

  lemma DispatchKeepsTurns(s: State, actor: Actor, step: DispatchStep, t: State)
    requires Life(s) && Turns(s) && DoDispatch(s, actor, step) == Some(t)
    ensures Turns(t)
  {
    OthersSilent(s, actor);
    ActorIsNewest(s, actor);
    assert DispatchFits(s, actor) by {
      match actor
      case TheRunner(i) => assert DispatchFits(s, TheRunner(i));
      case TheReader(k) => assert DispatchFits(s, TheReader(k));
    }
    DispatchTally(s, actor, step, t);
    DispatchFrame(s, actor, step, t);
    DispatchMoves(s, actor, step, t);
    TurnKeepsTurns(s, actor, t);
  }
}
