/** What follows the end of a connection: which error the runner gets, when the session ends and when it is dialed
    again, and that a callback loop can start all its callbacks. */
module EngineRecovery {
  import opened Basics
  import opened Reconnect
  import opened Engine
  import opened EngineLife
  import opened EngineBoard
  import opened EngineOrder
  import opened EngineInvariant
  import opened EngineTheorems
  import opened EngineConverge
  import opened EngineCalls
  import opened EngineProgress

  // ---- a callback loop runs through ----

  /** Only the acting goroutine's place, the slots and what has been started differ. */
  ghost predicate LoopedOn(s: State, actor: Actor, t: State) {
    && DispatchOf(s, actor).Some? && DispatchOf(t, actor).Some?
    && DispatchOf(t, actor).value.event == DispatchOf(s, actor).value.event
    && t == SetDispatch(s, actor, DispatchOf(t, actor).value).(board := t.board)
    && t.board.listen == s.board.listen && t.board.error == s.board.error && t.board.retrieve == s.board.retrieve
    && SameEvents(s.board.events, t.board.events)
  }

  lemma LoopedOnSelf(s: State, actor: Actor)
    requires DispatchOf(s, actor).Some?
    ensures LoopedOn(s, actor, s)
  {
    match actor
    case TheRunner(i) => assert s.sessions[i := s.sessions[i].(run := s.sessions[i].run)] == s.sessions;
    case TheReader(k) => assert s.conns[k := s.conns[k].(reader := s.conns[k].reader)] == s.conns;
  }

  lemma LoopedOnTwice(s: State, actor: Actor, n: State, t: State)
    requires LoopedOn(s, actor, n) && LoopedOn(n, actor, t)
    ensures LoopedOn(s, actor, t)
  {
  }

  lemma {:induction false} SomeUnfinished(ended: seq<bool>) returns (j: nat)
    requires Unfinished(ended) > 0
    ensures j < |ended| && !ended[j]
  {
    if !ended[|ended| - 1] {
      j := |ended| - 1;
    } else {
      j := SomeUnfinished(ended[..|ended| - 1]);
    }
  }

  lemma FreeSlot(s: State, actor: Actor) returns (t: State)
    requires Reachable(s) && DispatchOf(s, actor).Some?
    ensures Leads(s, t) && t == s.(board := s.board.(ended := t.board.ended, slots := t.board.slots))
    ensures t.board.slots < CALLBACK_SLOTS
  {
    CallbackBoundsAndOrder(s);
    if s.board.slots < CALLBACK_SLOTS {
      t := s;
      LeadsSelf(s);
    } else {
      var j := SomeUnfinished(s.board.ended);
      t := DoCaller(s, EndCallback(j)).value;
      LeadsOne(s, Caller(EndCallback(j)), t);
    }
  }

  lemma LoopIsInNewest(s: State, actor: Actor)
    requires Reachable(s) && DispatchOf(s, actor).Some?
    ensures var d := DispatchOf(s, actor).value;
            d.event < |s.board.events| && s.board.events[d.event].spawned <= |s.board.events[d.event].callbacks|
  {
    ReachableInv(s);
    match actor
    case TheRunner(i) => assert DispatchFits(s, TheRunner(i));
    case TheReader(k) => assert DispatchFits(s, TheReader(k));
    assert SpawnedFits(s.board.events[DispatchOf(s, actor).value.event]);
  }

  lemma LoopHoldsOff(s: State, actor: Actor)
    requires Reachable(s) && DispatchOf(s, actor).Some?
    ensures s.draining.None?
  {
    match actor
    case TheReader(k) => ReaderNotDraining(s, k);
    case TheRunner(i) =>
      if s.sessions[i].done { DoneBarrier(s, i); }
      OpenIsClosable(s, i);
  }

  lemma LoopFacts(s: State, actor: Actor)
    requires Reachable(s) && DispatchOf(s, actor).Some?
    ensures s.draining.None?
    ensures var d := DispatchOf(s, actor).value;
            d.event < |s.board.events| && s.board.events[d.event].spawned <= |s.board.events[d.event].callbacks|
  {
    LoopIsInNewest(s, actor);
    LoopHoldsOff(s, actor);
  }

  lemma Captures(s: State, actor: Actor) returns (t: State)
    requires DispatchOf(s, actor).Some? && DispatchOf(s, actor).value.at.Ready? && s.draining.None?
    requires var d := DispatchOf(s, actor).value;
             d.event < |s.board.events| && s.board.events[d.event].spawned < |s.board.events[d.event].callbacks|
    ensures DoDispatch(s, actor, Capture) == Some(t)
    ensures t == SetDispatch(s, actor, Dispatch(DispatchOf(s, actor).value.event, Waiting(s.session)))
    ensures DispatchOf(t, actor) == Some(Dispatch(DispatchOf(s, actor).value.event, Waiting(s.session)))
  {
    t := DoDispatch(s, actor, Capture).value;
  }

  lemma Starts(s: State, actor: Actor, a: State, b: State) returns (t: State)
    requires DispatchOf(s, actor).Some?
    requires var d := DispatchOf(s, actor).value;
             && d.event < |s.board.events| && s.board.events[d.event].spawned < |s.board.events[d.event].callbacks|
             && a == SetDispatch(s, actor, Dispatch(d.event, Waiting(s.session)))
    requires b == a.(board := a.board.(ended := b.board.ended, slots := b.board.slots))
    requires b.board.slots < CALLBACK_SLOTS
    ensures DoDispatch(b, actor, StartCallback) == Some(t)
    ensures LoopedOn(s, actor, t) && DispatchOf(t, actor).value.at.Ready?
    ensures var e := DispatchOf(s, actor).value.event;
            t.board.events == s.board.events[e := s.board.events[e].(spawned := s.board.events[e].spawned + 1)]
  {
    t := DoDispatch(b, actor, StartCallback).value;
  }

  /** One callback more: the goroutine captures its context, waits for a slot, and starts the next callback. */
  lemma StartsNext(s: State, actor: Actor) returns (t: State)
    requires Reachable(s) && DispatchOf(s, actor).Some? && DispatchOf(s, actor).value.at.Ready?
    requires var d := DispatchOf(s, actor).value;
             d.event < |s.board.events| && s.board.events[d.event].spawned < |s.board.events[d.event].callbacks|
    ensures Reachable(t) && Leads(s, t) && LoopedOn(s, actor, t) && DispatchOf(t, actor).value.at.Ready?
    ensures var e := DispatchOf(s, actor).value.event;
            && |t.board.events| == |s.board.events|
            && t.board.events == s.board.events[e := s.board.events[e].(spawned := s.board.events[e].spawned + 1)]
  {
    LoopFacts(s, actor);
    var a := Captures(s, actor);
    TakeStep(s, Dispatches(actor, Capture), a);
    var b := FreeSlot(a, actor);
    LeadsReaches(a, b);
    t := Starts(s, actor, a, b);
    TakeStep(b, Dispatches(actor, StartCallback), t);
    LeadsOne(b, Dispatches(actor, StartCallback), t);
    LeadsOn(a, b, t);
    LeadsStep(s, Dispatches(actor, Capture), a, t);
  }

  /** From its beginning a callback loop can start every callback of its event, whatever slots are taken at first. */
  lemma {:induction false} LoopCanFinish(s: State, actor: Actor) returns (t: State)
    requires Reachable(s) && DispatchOf(s, actor).Some? && DispatchOf(s, actor).value.at.Ready?
    ensures Reachable(t) && Leads(s, t) && LoopedOn(s, actor, t) && DispatchOf(t, actor).value.at.Ready?
    ensures var e := DispatchOf(s, actor).value.event;
            && e < |s.board.events| && |t.board.events| == |s.board.events|
            && t.board.events[e].spawned == |t.board.events[e].callbacks|
            && DispatchOver(t, DispatchOf(t, actor).value)
            && forall f | 0 <= f < |s.board.events| && f != e :: t.board.events[f] == s.board.events[f]
    decreases var e := DispatchOf(s, actor).value.event;
              if e < |s.board.events| then |s.board.events[e].callbacks| - s.board.events[e].spawned else 0
  {
    LoopFacts(s, actor);
    var e := DispatchOf(s, actor).value.event;
    if s.board.events[e].spawned == |s.board.events[e].callbacks| {
      t := s;
      LeadsSelf(s);
      LoopedOnSelf(s, actor);
    } else {
      var n := StartsNext(s, actor);
      t := LoopCanFinish(n, actor);
      LoopedOnTwice(s, actor, n, t);
      LeadsOn(s, n, t);
    }
  }

  // ---- how a connection ends ----

  /** The loop waits at its select on connection k, whose reader still reads. */
  predicate AtSelectReading(s: State, i: nat, k: nat) {
    AtSelect(s, i, k) && k < |s.conns| && s.conns[k].reader.Reading?
  }

  /** The error that the reader gets goes through the completion channel to the serve loop, is put back for the join,
      and reaches the runner as it was. */
  function ReaderFailure(i: nat, k: nat, err: ConnError): (steps: seq<Step>) {
    [Reads(k, FailRead(err)), Reads(k, Signal)] +
    ([Serves(i, SelectReader), Serves(i, ResendToken)] + [Running(i, EndServe), Running(i, CheckOutcome)])
  }

  lemma ReadingHasNoToken(s: State, k: nat)
    requires Reachable(s) && k < |s.conns| && s.conns[k].reader.Reading?
    ensures s.conns[k].token.None? && k < |s.wires|
  {
    ReachableInv(s);
    ReaderAlive(s, k);
  }

  lemma RunTwo(s: State, a: Step, n: State, b: Step, t: State)
    requires Do(s, a) == Some(n) && Do(n, b) == Some(t)
    ensures Runs(s, [a, b], t)
  {
    assert Runs(t, [], t);
    assert [b] + [] == [b] && [a] + [b] == [a, b];
    RunCons(n, b, t, [], t);
    RunCons(s, a, n, [b], t);
  }

  lemma ReaderGivesUp(s: State, i: nat, k: nat, err: ConnError) returns (t: State)
    requires AtSelectReading(s, i, k) && k < |s.wires| && s.conns[k].token.None?
    ensures Runs(s, [Reads(k, FailRead(err)), Reads(k, Signal)], t)
    ensures AtSelect(t, i, k) && k < |t.conns| && t.conns[k].reader.Dead? && t.conns[k].token == Some(err)
    ensures t.canceled == s.canceled && t.sessions == s.sessions
  {
    var n := DoReader(s, k, FailRead(err)).value;
    t := DoReader(n, k, Signal).value;
    RunTwo(s, Reads(k, FailRead(err)), n, Reads(k, Signal), t);
  }

  lemma LoopTakesToken(s: State, i: nat, k: nat, err: ConnError) returns (t: State)
    requires AtSelect(s, i, k) && k < |s.conns| && s.conns[k].token == Some(err)
    ensures Runs(s, [Serves(i, SelectReader), Serves(i, ResendToken)], t)
    ensures |t.sessions| == |s.sessions| && t.sessions[i] == s.sessions[i].(run := Joining(k, err))
    ensures t.canceled == s.canceled && k < |t.conns| && t.conns[k].token == Some(err)
  {
    var n := DoServe(s, i, SelectReader).value;
    t := DoServe(n, i, ResendToken).value;
    RunTwo(s, Serves(i, SelectReader), n, Serves(i, ResendToken), t);
  }

  lemma RunnerJoins(s: State, i: nat, k: nat, err: ConnError) returns (t: State)
    requires i < |s.sessions| && s.sessions[i].run == Joining(k, err) && k < |s.conns| && s.conns[k].token.Some?
    ensures Runs(s, [Running(i, EndServe), Running(i, CheckOutcome)], t) && i < |t.sessions|
    ensures t.sessions[i].run ==
            if Canceled(s, i) || err == CloseFrame(1000) || err == CloseFrame(1008) then Exiting else Report(err)
  {
    TerminalCodes(err);
    var n := DoRunner(s, i, EndServe).value;
    t := DoRunner(n, i, CheckOutcome).value;
    RunTwo(s, Running(i, EndServe), n, Running(i, CheckOutcome), t);
  }

  lemma RunSplit(s: State, steps: seq<Step>, t: State) returns (n: State)
    requires steps != [] && Runs(s, steps, t)
    ensures Do(s, steps[0]) == Some(n) && Runs(n, steps[1..], t)
  {
    n := Do(s, steps[0]).value;
  }

  lemma RunTwoThen(s: State, a: Step, b: Step, n: State, rest: seq<Step>, t: State)
    requires Runs(s, [a, b], n) && Runs(n, rest, t)
    ensures Runs(s, [a, b] + rest, t)
  {
    var u := RunSplit(s, [a, b], n);
    assert [a, b][1..] == [b] && [b][1..] == [];
    var v := RunSplit(u, [b], n);
    RunCons(u, b, n, rest, t);
    RunCons(s, a, u, [b] + rest, t);
    assert [a] + ([b] + rest) == [a, b] + rest;
  }

  /** Close codes 1000 and 1008, like a done context, end the session; every other error is reported. */
  lemma CloseFrameDecides(s: State, i: nat, k: nat, err: ConnError) returns (t: State)
    requires Reachable(s) && AtSelectReading(s, i, k)
    ensures Runs(s, ReaderFailure(i, k, err), t) && i < |t.sessions|
    ensures t.sessions[i].run ==
            if Canceled(s, i) || err == CloseFrame(1000) || err == CloseFrame(1008) then Exiting else Report(err)
  {
    ReadingHasNoToken(s, k);
    var a := ReaderGivesUp(s, i, k, err);
    var b := LoopTakesToken(a, i, k, err);
    t := RunnerJoins(b, i, k, err);
    var rest := [Running(i, EndServe), Running(i, CheckOutcome)];
    RunTwoThen(a, Serves(i, SelectReader), Serves(i, ResendToken), b, rest, t);
    RunTwoThen(s, Reads(k, FailRead(err)), Reads(k, Signal), a,
               [Serves(i, SelectReader), Serves(i, ResendToken)] + rest, t);
  }

  /** The other ways out of the select: a done context, a failed ping, a failed write (QueuedMessageIsWritten). */
  lemma SelectGivesUp(s: State, i: nat, k: nat)
    requires Reachable(s) && AtSelect(s, i, k)
    ensures DoServe(s, i, SelectPing(false)) == Some(RunTo(s, i, Joining(k, IOFailure)))
    ensures DoServe(s, i, SelectPing(true)) == Some(RunTo(s, i, Serving(k, s.sessions[i].run.loc, Top)))
    ensures Canceled(s, i) ==> DoServe(s, i, SelectDone) == Some(RunTo(s, i, Joining(k, ContextCanceled)))
    ensures !Canceled(s, i) ==> DoServe(s, i, SelectDone).None?
  {
    ServingHasWire(s, i);
  }

  // ---- a session ends only for cause ----

  /** The runner turns to its end only when its context is done, or right after a connection closed with 1000 or 1008.
      */
  lemma RunnerEndsForCause(s: State, i: nat, step: RunnerStep, t: State)
    requires DoRunner(s, i, step) == Some(t) && t.sessions[i].run.Exiting?
    ensures || Canceled(s, i)
            || s.sessions[i].run == Checking(CloseFrame(1000)) || s.sessions[i].run == Checking(CloseFrame(1008))
  {
    if s.sessions[i].run.Checking? {
      TerminalCodes(s.sessions[i].run.err);
    }
  }

  lemma CallerCancels(s: State, step: CallerStep, t: State, i: nat)
    requires DoCaller(s, step) == Some(t) && i < |s.sessions| && !s.sessions[i].canceled
    ensures i < |t.sessions| && (t.sessions[i].canceled ==> step == CallStop && s.session == Some(i))
  {
  }

  lemma RunnerCancels(s: State, j: nat, step: RunnerStep, t: State, i: nat)
    requires DoRunner(s, j, step) == Some(t) && i < |s.sessions| && !s.sessions[i].canceled
    ensures i < |t.sessions| && (t.sessions[i].canceled ==> j == i && s.sessions[i].run.Exiting?)
  {
  }

  lemma ReaderCancels(s: State, k: nat, step: ReaderStep, t: State, i: nat)
    requires Reachable(s) && DoReader(s, k, step) == Some(t) && i < |s.sessions| && !s.sessions[i].canceled
    ensures i < |t.sessions|
    ensures t.sessions[i].canceled ==>
              && step == EndAnnounce && s.wires[k].session == i && s.conns[k].received != []
              && LastReaction(s.conns[k]).RejectAndCancel?
  {
    if step.EndAnnounce? {
      RejectionCancelsOwnSession(s, k, t);
    }
  }

  /** A session is canceled by a call of Stop, by a rejected listen reply on its own connection, or by its own end,
      and by nothing else. */
  lemma CanceledForCause(s: State, step: Step, t: State, i: nat)
    requires Reachable(s) && Do(s, step) == Some(t) && i < |s.sessions| && !s.sessions[i].canceled
    ensures i < |t.sessions|
    ensures t.sessions[i].canceled ==>
              || (step == Caller(CallStop) && s.session == Some(i))
              || (step.Running? && s.sessions[i].run.Exiting?)
              || (step.Reads? && step.conn < |s.conns| && step.conn < |s.wires| && s.wires[step.conn].session == i
                  && s.conns[step.conn].received != [] && LastReaction(s.conns[step.conn]).RejectAndCancel?)
  {
    match step
    case Caller(c) => CallerCancels(s, c, t, i);
    case Writing(w) => WriterHasEffect(s, w, t);
    case Running(j, r) => RunnerCancels(s, j, r, t, i);
    case Serves(j, v) => ServeHasEffect(s, j, v, t);
    case Reads(k, r) => ReaderCancels(s, k, r, t, i);
    case Dispatches(a, d) => DispatchHasEffect(s, a, d, t);
  }

  // ---- and otherwise it is dialed again ----

  /** Session i is current, open and not canceled. */
  ghost predicate LiveAt(s: State, i: nat) {
    Reachable(s) && i < |s.sessions| && s.session == Some(i) && !s.canceled && !s.sessions[i].canceled
  }

  lemma OpensReport(s: State, i: nat) returns (t: State)
    requires i < |s.sessions| && s.sessions[i].run.Report? && s.draining.None?
    ensures DoRunner(s, i, SnapErrors) == Some(t)
    ensures t == RunTo(s, i, Reporting(NextDispatch(s))).(board := s.board.(events := s.board.events +
              [Event(i, FromRunner(s.sessions[i].run.err), s.board.error, 0)]))
  {
    t := DoRunner(s, i, SnapErrors).value;
  }

  /** From an error to report to the wait: all error callbacks registered by then are started, in order. */
  lemma ReportsAll(s: State, i: nat) returns (t: State)
    requires LiveAt(s, i) && s.sessions[i].run.Report?
    ensures Leads(s, t) && LiveAt(t, i) && |t.sessions| == |s.sessions|
    ensures t.sessions[i] == s.sessions[i].(run := Pausing)
    ensures var n := |s.board.events|;
            && |t.board.events| == n + 1 && t.board.events[..n] == s.board.events
            && t.board.events[n] ==
               Event(i, FromRunner(s.sessions[i].run.err), s.board.error, |s.board.error|)
    ensures t.board.retrieve == s.board.retrieve
  {
    OpenWhenLive(s, i);
    var a := OpensReport(s, i);
    TakeStep(s, Running(i, SnapErrors), a);
    var b := LoopCanFinish(a, TheRunner(i));
    t := RunTo(b, i, Pausing);
    assert DoRunner(b, i, StartPause) == Some(t);
    TakeStep(b, Running(i, StartPause), t);
    LeadsOne(b, Running(i, StartPause), t);
    LeadsOn(a, b, t);
    LeadsStep(s, Running(i, SnapErrors), a, t);
  }

  /** The wait is the current delay, and the next one is twice as long, up to 25 seconds. */
  lemma WaitsOut(s: State, i: nat) returns (t: State)
    requires LiveAt(s, i) && s.sessions[i].run.Pausing?
    ensures Runs(s, [Running(i, EndPause(true)), Running(i, CheckContext)], t) && LiveAt(t, i)
    ensures var pace := s.sessions[i].pace;
            t == With(s, i, s.sessions[i].(run := Retrieve, pace := pace.(pauses := pace.pauses + [pace.delay],
              delay := if 2 * pace.delay > 25_000 && pace.delay < 25_000 then 25_000
                       else if pace.delay < 25_000 then 2 * pace.delay else pace.delay)))
  {
    var n := DoRunner(s, i, EndPause(true)).value;
    t := DoRunner(n, i, CheckContext).value;
    RunTwo(s, Running(i, EndPause(true)), n, Running(i, CheckContext), t);
    TakeStep(s, Running(i, EndPause(true)), n);
    TakeStep(n, Running(i, CheckContext), t);
  }

  lemma OpensRetrieve(s: State, i: nat) returns (t: State)
    requires i < |s.sessions| && s.sessions[i].run.Retrieve? && s.draining.None?
    ensures DoRunner(s, i, SnapRetrievers) == Some(t)
    ensures t == RunTo(s, i, Retrieving(NextDispatch(s))).(board := s.board.(events := s.board.events +
              [Event(i, Retrievers, s.board.retrieve, 0)]))
  {
    t := DoRunner(s, i, SnapRetrievers).value;
  }

  lemma DialsAfter(s: State, i: nat) returns (t: State)
    requires i < |s.sessions| && s.sessions[i].run.Retrieving? && DispatchOver(s, s.sessions[i].run.d)
    requires s.draining.None? && !Canceled(s, i)
    ensures DoRunner(s, i, StartDial) == Some(t) && t == RunTo(s, i, Dialing)
  {
    t := DoRunner(s, i, StartDial).value;
  }

  /** Before each dial all retrievers registered by then are started, in order. */
  lemma RetrievesAndDials(s: State, i: nat) returns (t: State)
    requires LiveAt(s, i) && s.sessions[i].run.Retrieve?
    ensures Leads(s, t) && LiveAt(t, i) && |t.sessions| == |s.sessions|
    ensures t.sessions[i] == s.sessions[i].(run := Dialing)
    ensures var n := |s.board.events|;
            && |t.board.events| == n + 1 && t.board.events[..n] == s.board.events
            && t.board.events[n] == Event(i, Retrievers, s.board.retrieve, |s.board.retrieve|)
  {
    OpenWhenLive(s, i);
    var a := OpensRetrieve(s, i);
    TakeStep(s, Running(i, SnapRetrievers), a);
    var b := LoopCanFinish(a, TheRunner(i));
    LoopFacts(b, TheRunner(i));
    t := DialsAfter(b, i);
    TakeStep(b, Running(i, StartDial), t);
    LeadsOne(b, Running(i, StartDial), t);
    LeadsOn(a, b, t);
    LeadsStep(s, Running(i, SnapRetrievers), a, t);
  }

  /** After any error that is not a goodbye, a live session can go on: it reports the error to every error callback,
      waits the current delay, calls every retriever and dials again. */
  lemma DialsAgain(s: State, i: nat) returns (t: State)
    requires LiveAt(s, i) && s.sessions[i].run.Report?
    ensures Leads(s, t) && LiveAt(t, i) && |t.sessions| == |s.sessions| && t.sessions[i].run.Dialing?
    ensures t.sessions[i].pace.pauses == s.sessions[i].pace.pauses + [s.sessions[i].pace.delay]
    ensures t.sessions[i].pace.dials == s.sessions[i].pace.dials && t.sessions[i].mail == s.sessions[i].mail
    ensures t.board.events == s.board.events
              + [Event(i, FromRunner(s.sessions[i].run.err), s.board.error, |s.board.error|),
                 Event(i, Retrievers, s.board.retrieve, |s.board.retrieve|)]
  {
    var a := ReportsAll(s, i);
    var b := WaitsOut(a, i);
    t := RetrievesAndDials(b, i);
    assert Leads(a, b);
    LeadsOn(s, a, b);
    LeadsOn(s, b, t);
    var n := |s.board.events|;
    assert t.board.events[..n + 1] == a.board.events;
    assert t.board.events == t.board.events[..n + 1] + [t.board.events[n + 1]];
  }

  /** What a dial leads to: a fresh connection served from an empty memory, or the check of its error; only a dial that
      connected resets the delay to 100 ms. */
  lemma DialOutcome(s: State, i: nat, result: DialResult) returns (t: State)
    requires i < |s.sessions| && s.sessions[i].run.Dialing?
    ensures DoRunner(s, i, EndDial(result)) == Some(t) && |t.sessions| == |s.sessions|
    ensures result == DialFailed ==>
              && t.sessions[i].run == Checking(IOFailure) && t.sessions[i].pace.delay == s.sessions[i].pace.delay
              && t.sessions[i].pace.dials == s.sessions[i].pace.dials + [false]
    ensures result != DialFailed ==>
              t.sessions[i].pace.delay == 100 && t.sessions[i].pace.dials == s.sessions[i].pace.dials + [true]
    ensures result == DeadlineFailed ==> t.sessions[i].run == Checking(IOFailure)
    ensures result == Connected ==>
              && t.conns == s.conns + [Conn(Reading, None, [])] && t.wires == s.wires + [Wire(i, [], [])]
              && t.sessions[i].run == Serving(|s.conns|, Locals([], false, 0, true), Top)
  {
    t := DoRunner(s, i, EndDial(result)).value;
  }
}
