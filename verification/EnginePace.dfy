/** Reconnect pacing, dials after cancellation, and the subscription state the callers leave. */
module EnginePace {
  import opened Basics
  import opened Reconnect
  import opened Engine
  import Subs = Subscription

  predicate BeforeDial(run: Run) { run.Retrieve? || run.Retrieving? }

  /** The turn has not dialed yet. */
  predicate TurnAhead(run: Run) { run.LoopHead? || BeforeDial(run) || run.Dialing? }

  /** The turn has dialed and has not waited yet. */
  predicate InTurn(run: Run) {
    run.Serving? || run.Joining? || run.Checking? || run.Report? || run.Reporting? || run.Pausing?
  }

  /** The delay is the one that the dials so far give, at this point of the turn. */
  predicate DelayFits(run: Run, pace: Pace) {
    && |pace.pauses| <= |pace.dials| <= |pace.pauses| + 1
    && (TurnAhead(run) ==> |pace.dials| == |pace.pauses| && pace.delay == DelayAfter(pace.dials))
    && (InTurn(run) ==>
          |pace.dials| == |pace.pauses| + 1 && pace.delay == Delay(WaitsBefore(pace.dials, |pace.dials| - 1)))
  }

  /** Every wait had the length its distance from the last successful dial gives, and at most one dial starts after
      cancellation. */
  ghost predicate PaceFits(s: State, i: nat)
    requires i < |s.sessions|
  {
    var sess := s.sessions[i];
    && PausesFollow(sess.pace.dials, sess.pace.pauses)
    && DelayFits(sess.run, sess.pace)
    && sess.pace.lateDials <= 1
    && (sess.pace.lateDials > 0 ==> CtxDone(s, i) && !BeforeDial(sess.run))
  }

  ghost predicate Paces(s: State) {
    && (forall i | 0 <= i < |s.sessions| :: PaceFits(s, i))
    && Subs.WellFormed(s.desired)
    && (s.session.None? ==> Subs.Empty(s.desired))
  }

  /** The run stays on its side of the dial. */
  predicate SameTurn(run: Run, next: Run) {
    (TurnAhead(next) ==> TurnAhead(run)) && (InTurn(next) ==> InTurn(run)) && (BeforeDial(next) ==> BeforeDial(run))
  }

  lemma QuietKeepsPaces(s: State, t: State)
    requires Paces(s) && |t.sessions| == |s.sessions| && t.desired == s.desired && t.session == s.session
    requires forall i | 0 <= i < |s.sessions| ::
               && t.sessions[i].pace == s.sessions[i].pace
               && (CtxDone(s, i) ==> CtxDone(t, i))
               && SameTurn(s.sessions[i].run, t.sessions[i].run)
    ensures Paces(t)
  {
    forall i | 0 <= i < |t.sessions| ensures PaceFits(t, i) { assert PaceFits(s, i); }
  }

  lemma FreshPace()
    ensures DelayFits(LoopHead, Pace(FIRST_DELAY, [], [], 0)) && PausesFollow([], [])
  {
  }

  lemma CallerKeepsDesired(s: State, step: CallerStep, t: State)
    requires Subs.WellFormed(s.desired) && (s.session.None? ==> Subs.Empty(s.desired))
    requires DoCaller(s, step) == Some(t)
    ensures Subs.WellFormed(t.desired) && (t.session.None? ==> Subs.Empty(t.desired))
  {
    if step.CallSubscribe? && t.desired != s.desired {
      Subs.SubscribeKeepsWellFormed(s.desired, Status(s), step.addresses, step.signatures, step.types);
    }
  }

  lemma CallerKeepsPaces(s: State, step: CallerStep, t: State)
    requires Paces(s) && DoCaller(s, step) == Some(t)
    ensures Paces(t)
  {
    FreshPace();
    CallerKeepsDesired(s, step, t);
    CallerHasEffect(s, step, t);
    forall i | 0 <= i < |t.sessions| ensures PaceFits(t, i) {
      if i < |s.sessions| { assert PaceFits(s, i) && SameWork(s.sessions[i], t.sessions[i]); }
    }
  }

  /** No dial, no wait, and every run stays on its side of the dial. */
  lemma MovedKeepsPaces(s: State, t: State)
    requires Paces(s) && t.desired == s.desired && t.session == s.session && t.canceled == s.canceled
    requires |t.sessions| == |s.sessions|
    requires forall i | 0 <= i < |s.sessions| ::
               && t.sessions[i] == s.sessions[i].(run := t.sessions[i].run, mail := t.sessions[i].mail)
               && SameTurn(s.sessions[i].run, t.sessions[i].run)
    ensures Paces(t)
  {
    QuietKeepsPaces(s, t);
  }

  lemma WriterKeepsPaces(s: State, step: WriterStep, t: State)
    requires Paces(s) && DoWriter(s, step) == Some(t)
    ensures Paces(t)
  {
    WriterHasEffect(s, step, t);
    MovedKeepsPaces(s, t);
  }

  /** Only the session's own entry changes. */
  ghost predicate OnlyAt(s: State, i: nat, t: State) {
    && i < |s.sessions| && |t.sessions| == |s.sessions|
    && t.sessions == s.sessions[i := t.sessions[i]] && t.desired == s.desired && t.session == s.session
    && t.canceled == s.canceled
  }

  lemma EndDialPaceFits(s: State, i: nat, result: DialResult, t: State)
    requires DoRunner(s, i, EndDial(result)) == Some(t) && PaceFits(s, i)
    ensures OnlyAt(s, i, t) && PaceFits(t, i)
  {
    var pace := s.sessions[i].pace;
    DialKeepsPauses(pace.dials, !result.DialFailed?, pace.pauses);
  }

  lemma EndPausePaceFits(s: State, i: nat, timer: bool, t: State)
    requires DoRunner(s, i, EndPause(timer)) == Some(t) && PaceFits(s, i)
    ensures OnlyAt(s, i, t) && PaceFits(t, i)
  {
    var pace := s.sessions[i].pace;
    LongerIsNextDelay(WaitsBefore(pace.dials, |pace.dials| - 1));
  }

  lemma StartDialPaceFits(s: State, i: nat, t: State)
    requires DoRunner(s, i, StartDial) == Some(t) && PaceFits(s, i)
    ensures OnlyAt(s, i, t) && PaceFits(t, i)
  {
  }

  lemma CheckContextPaceFits(s: State, i: nat, t: State)
    requires DoRunner(s, i, CheckContext) == Some(t) && PaceFits(s, i)
    ensures OnlyAt(s, i, t) && PaceFits(t, i)
  {
  }

  /** The steps after the context check or the wait has sent the runner away. */
  predicate Ending(step: RunnerStep) {
    step.CancelSelf? || step.LockForDrain? || step.DrainOne? || step.CloseDone?
  }

  lemma EndingKeepsTurn(s: State, i: nat, step: RunnerStep, t: State)
    requires Ending(step) && DoRunner(s, i, step) == Some(t)
    ensures OnlyAt(s, i, t) && (s.sessions[i].canceled ==> t.sessions[i].canceled)
    ensures t.sessions[i].pace == s.sessions[i].pace && SameTurn(s.sessions[i].run, t.sessions[i].run)
  {
  }

  lemma RunnerKeepsTurn(s: State, i: nat, step: RunnerStep, t: State)
    requires !step.EndDial? && !step.EndPause? && !step.StartDial? && !step.CheckContext? && !Ending(step)
    requires DoRunner(s, i, step) == Some(t)
    ensures OnlyAt(s, i, t) && t.sessions[i] == s.sessions[i].(run := t.sessions[i].run)
    ensures SameTurn(s.sessions[i].run, t.sessions[i].run)
  {
  }

  lemma RunnerSamePace(s: State, i: nat, step: RunnerStep, t: State)
    requires !step.EndDial? && !step.EndPause? && !step.StartDial? && !step.CheckContext?
    requires DoRunner(s, i, step) == Some(t) && PaceFits(s, i)
    ensures OnlyAt(s, i, t) && PaceFits(t, i)
  {
    if Ending(step) {
      EndingKeepsTurn(s, i, step, t);
    } else {
      RunnerKeepsTurn(s, i, step, t);
    }
  }

  lemma RunnerPaceFits(s: State, i: nat, step: RunnerStep, t: State)
    requires DoRunner(s, i, step) == Some(t) && PaceFits(s, i)
    ensures OnlyAt(s, i, t) && PaceFits(t, i)
  {
    match step
    case EndDial(result) => EndDialPaceFits(s, i, result, t);
    case EndPause(timer) => EndPausePaceFits(s, i, timer, t);
    case StartDial => StartDialPaceFits(s, i, t);
    case CheckContext => CheckContextPaceFits(s, i, t);
    case _ => RunnerSamePace(s, i, step, t);
  }

  lemma RunnerKeepsPaces(s: State, i: nat, step: RunnerStep, t: State)
    requires Paces(s) && DoRunner(s, i, step) == Some(t)
    ensures Paces(t)
  {
    RunnerPaceFits(s, i, step, t);
    forall j | 0 <= j < |t.sessions| ensures PaceFits(t, j) { assert PaceFits(s, j); }
  }

  lemma ServeKeepsPaces(s: State, i: nat, step: ServeStep, t: State)
    requires Paces(s) && DoServe(s, i, step) == Some(t)
    ensures Paces(t)
  {
    ServeHasEffect(s, i, step, t);
    QuietKeepsPaces(s, t);
  }

  lemma ReaderKeepsPaces(s: State, k: nat, step: ReaderStep, t: State)
    requires Paces(s) && DoReader(s, k, step) == Some(t)
    ensures Paces(t)
  {
    ReaderHasEffect(s, k, step, t);
    QuietKeepsPaces(s, t);
  }

  lemma DispatchKeepsPaces(s: State, actor: Actor, step: DispatchStep, t: State)
    requires Paces(s) && DoDispatch(s, actor, step) == Some(t)
    ensures Paces(t)
  {
    DispatchHasEffect(s, actor, step, t);
    MovedKeepsPaces(s, t);
  }
}
