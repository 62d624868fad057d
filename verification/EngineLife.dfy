/** Who is alive: at most one session whose done is open, at most one unjoined reader, and who holds the mutex. */
module EngineLife {
  import opened Basics
  import opened Reconnect
  import opened Engine
  import Subs = Subscription

  predicate HasConn(run: Run) { run.Serving? || run.Joining? }

  /** Reader gone, completion token consumed. */
  predicate Quiet(c: Conn) { c.reader.Dead? && c.token.None? }

  predicate SessionOk(sess: Session) {
    && (sess.done <==> sess.run.Finished?)
    && (sess.run.WaitingLock? || sess.run.Draining? || sess.run.Finished? ==> sess.canceled)
  }

  /** Only the newest session can be open, and then it is c.session. */
  ghost predicate SingleLive(s: State) {
    && (forall i | 0 <= i < |s.sessions| :: SessionOk(s.sessions[i]))
    && (forall i | 0 <= i < |s.sessions| - 1 :: s.sessions[i].done)
    && (s.session.Some? ==> s.session.value + 1 == |s.sessions|)
    && (s.session.None? && |s.sessions| > 0 ==> s.sessions[|s.sessions| - 1].done)
    && (s.stopping.Some? ==> s.stopping == s.session && s.sessions[s.stopping.value].canceled)
  }

  /** The write lock is held exactly by a drain; a Write in progress excludes it and keeps its session open. */
  ghost predicate Locking(s: State) {
    && (s.draining.Some? ==> s.draining.value < |s.sessions|)
    && (forall i | 0 <= i < |s.sessions| :: s.sessions[i].run.Draining? <==> s.draining == Some(i))
    && (forall w | 0 <= w < |s.writers| && Active(s.writers[w]) ::
          s.draining.None? && s.session == Some(s.writers[w].at.session) &&
          s.writers[w].at.session < |s.sessions| && !s.sessions[s.writers[w].at.session].done)
  }

  /** One of: the reader runs, or its completion token waits in the slot (or is in the hands of the serve loop). */
  predicate JoinPending(run: Run, c: Conn) {
    if run.Serving? && run.at.Resend? then c.reader.Dead? && c.token.None?
    else c.reader.Dead? <==> c.token.Some?
  }

  /** Every connection but the newest is quiet, and that one belongs to the runner that serves or joins it. */
  ghost predicate Joins(s: State) {
    && |s.conns| == |s.wires|
    && (forall k | 0 <= k < |s.wires| :: s.wires[k].session < |s.sessions|)
    && (forall k | 0 <= k < |s.conns| && !Quiet(s.conns[k]) ::
          HasConn(s.sessions[s.wires[k].session].run) && s.sessions[s.wires[k].session].run.conn == k)
    && (forall i | 0 <= i < |s.sessions| && HasConn(s.sessions[i].run) ::
          && s.sessions[i].run.conn + 1 == |s.conns|
          && s.wires[s.sessions[i].run.conn].session == i
          && JoinPending(s.sessions[i].run, s.conns[s.sessions[i].run.conn]))
  }

  ghost predicate Life(s: State) {
    SingleLive(s) && Locking(s) && Joins(s)
  }

  /** A session that is still open is the newest one and is c.session. */
  lemma OpenIsCurrent(s: State, i: nat)
    requires SingleLive(s) && i < |s.sessions| && !s.sessions[i].done
    ensures i + 1 == |s.sessions| && s.session == Some(i)
  {
  }

  // ---- how single changes keep it ----

  /** The run moves on without changing who holds what. */
  predicate SameRole(s: State, run: Run, next: Run) {
    && next.Draining? == run.Draining?
    && HasConn(next) == HasConn(run)
    && (HasConn(run) ==> next.conn == run.conn && (run.conn < |s.conns| ==> JoinPending(next, s.conns[run.conn])))
  }

  lemma WithKeepsLife(s: State, i: nat, sess: Session)
    requires Life(s) && i < |s.sessions|
    requires SessionOk(sess) && sess.done == s.sessions[i].done && (s.sessions[i].canceled ==> sess.canceled)
    requires SameRole(s, s.sessions[i].run, sess.run)
    ensures Life(With(s, i, sess))
  {
  }

  lemma SameRoleReflexive(s: State, i: nat)
    requires Life(s) && i < |s.sessions|
    ensures SameRole(s, s.sessions[i].run, s.sessions[i].run)
  {
  }

  lemma FieldsKeepLife(s: State, t: State)
    requires Life(s)
    requires t == s.(canceled := t.canceled, desired := t.desired, board := t.board)
    ensures Life(t)
  {
  }

  lemma LogKeepsLife(s: State, k: nat, wire: Wire)
    requires Life(s) && k < |s.wires| && wire.session == s.wires[k].session
    ensures Life(s.(wires := s.wires[k := wire]))
  {
  }

  lemma ConnKeepsLife(s: State, k: nat, conn: Conn)
    requires Life(s) && k < |s.conns|
    requires !s.conns[k].reader.Dead? && !(conn.reader.Dead? && conn.token.None?)
    requires conn.reader.Dead? <==> conn.token.Some?
    ensures Life(s.(conns := s.conns[k := conn]))
  {
  }

  lemma ReaderAlive(s: State, k: nat)
    requires Life(s) && k < |s.conns| && !s.conns[k].reader.Dead?
    ensures s.conns[k].token.None? && k + 1 == |s.conns|
    ensures s.wires[k].session + 1 == |s.sessions| && s.session == Some(s.wires[k].session)
    ensures HasConn(s.sessions[s.wires[k].session].run) && s.sessions[s.wires[k].session].run.conn == k
  {
    var i := s.wires[k].session;
    assert !Quiet(s.conns[k]);
    OpenIsCurrent(s, i);
  }

  lemma CancelKeepsLife(s: State, i: nat)
    requires Life(s)
    ensures Life(Cancel(s, i))
  {
    if i < |s.sessions| {
      SameRoleReflexive(s, i);
      WithKeepsLife(s, i, s.sessions[i].(canceled := true));
    }
  }

  lemma NotifyKeepsLife(s: State)
    requires Life(s)
    ensures Life(Notify(s))
  {
    if s.session.Some? {
      SameRoleReflexive(s, s.session.value);
      WithKeepsLife(s, s.session.value, s.sessions[s.session.value].(wake := true));
    }
  }

  lemma MailKeepsLife(s: State, i: nat, mail: Mail)
    requires Life(s) && i < |s.sessions|
    ensures Life(MailTo(s, i, mail))
  {
    SameRoleReflexive(s, i);
    WithKeepsLife(s, i, s.sessions[i].(mail := mail));
  }

  lemma WriterToKeepsLife(s: State, w: nat, at: WriterAt)
    requires Life(s) && w < |s.writers| && Active(s.writers[w])
    requires !at.Returned? ==> at.session == s.writers[w].at.session
    ensures Life(WriterTo(s, w, at))
  {
  }

  // ---- every step keeps it ----

  lemma StartKeepsLife(s: State, t: State)
    requires Life(s) && DoCaller(s, CallStart) == Some(t)
    ensures Life(t)
  {
  }

  lemma StopKeepsLife(s: State, t: State)
    requires Life(s) && DoCaller(s, CallStop) == Some(t)
    ensures Life(t)
  {
    if s.session.Some? {
      CancelKeepsLife(s, s.session.value);
    }
  }

  lemma FinishStopKeepsLife(s: State, t: State)
    requires Life(s) && DoCaller(s, FinishStop) == Some(t)
    ensures Life(t)
  {
  }

  lemma DesiredKeepsLife(s: State, d: Subs.Desired)
    requires Life(s)
    ensures Life(Notify(s.(desired := d)))
  {
    FieldsKeepLife(s, s.(desired := d));
    NotifyKeepsLife(s.(desired := d));
  }

  lemma CallerKeepsLife(s: State, step: CallerStep, t: State)
    requires Life(s) && DoCaller(s, step) == Some(t)
    ensures Life(t)
  {
    match step
    case CallStart => StartKeepsLife(s, t);
    case CallStop => StopKeepsLife(s, t);
    case FinishStop => FinishStopKeepsLife(s, t);
    case CallSubscribe(addresses, signatures, types) =>
      DesiredKeepsLife(s, Subs.Subscribed(s.desired, addresses, signatures, types));
    case CallUnsubscribe => DesiredKeepsLife(s, Subs.Cleared(s.desired));
    case CallWithMode(mode) => DesiredKeepsLife(s, Subs.WithMode(s.desired, mode));
    case _ => FieldsKeepLife(s, t);
  }

  lemma CallWriteKeepsLife(s: State, payload: Bytes, t: State)
    requires Life(s) && DoCallWrite(s, payload) == Some(t)
    ensures Life(t)
  {
  }

  /** A call of Write under way changes its own record, in the same session, and perhaps that session's mail. */
  lemma WriterShape(s: State, step: WriterStep, t: State)
    requires DoWriter(s, step) == Some(t) && !step.CallWrite?
    ensures var w, i := step.w, s.writers[step.w].at.session;
            && w < |t.writers| && |t.sessions| == |s.sessions|
            && (!t.writers[w].at.Returned? ==> t.writers[w].at.session == i)
            && (t == WriterTo(s, w, t.writers[w].at)
                || t == MailTo(WriterTo(s, w, t.writers[w].at), i, t.sessions[i].mail))
  {
  }

  lemma WriterKeepsLife(s: State, step: WriterStep, t: State)
    requires Life(s) && DoWriter(s, step) == Some(t)
    ensures Life(t)
  {
    if step.CallWrite? {
      CallWriteKeepsLife(s, step.payload, t);
    } else {
      WriterShape(s, step, t);
      WriterToKeepsLife(s, step.w, t.writers[step.w].at);
      MailKeepsLife(WriterTo(s, step.w, t.writers[step.w].at), s.writers[step.w].at.session,
                    t.sessions[s.writers[step.w].at.session].mail);
    }
  }

  lemma EndDialKeepsLife(s: State, i: nat, result: DialResult, t: State)
    requires Life(s) && DoRunner(s, i, EndDial(result)) == Some(t)
    ensures Life(t)
  {
    if result.Connected? {
      OpenIsCurrent(s, i);
      forall k | 0 <= k < |s.conns| ensures Quiet(s.conns[k]) {
        if !Quiet(s.conns[k]) {
          OpenIsCurrent(s, s.wires[k].session);
        }
      }
    } else {
      WithKeepsLife(s, i, t.sessions[i]);
    }
  }

  /** The join consumes the completion token, and the runner leaves the connection behind. */
  lemma JoinKeepsLife(s: State, i: nat, err: ConnError)
    requires Life(s) && i < |s.sessions| && s.sessions[i].run.Joining? && s.sessions[i].run.conn < |s.conns|
    requires s.conns[s.sessions[i].run.conn].token.Some?
    ensures Life(TokenTo(RunTo(s, i, Checking(err)), s.sessions[i].run.conn, None))
  {
    var k := s.sessions[i].run.conn;
    assert s.conns[k].reader.Dead? && s.wires[k].session == i;
  }

  lemma EndServeKeepsLife(s: State, i: nat, t: State)
    requires Life(s) && DoRunner(s, i, EndServe) == Some(t)
    ensures Life(t)
  {
    JoinKeepsLife(s, i, s.sessions[i].run.err);
  }

  lemma LockKeepsLife(s: State, i: nat, t: State)
    requires Life(s) && DoRunner(s, i, LockForDrain) == Some(t)
    ensures Life(t)
  {
  }

  lemma CloseDoneKeepsLife(s: State, i: nat, t: State)
    requires Life(s) && DoRunner(s, i, CloseDone) == Some(t)
    ensures Life(t)
  {
  }

  /** The steps that only move the run on, or open an event. */
  predicate OnlyMoves(step: RunnerStep) {
    || step.CheckContext? || step.SnapRetrievers? || step.CheckOutcome? || step.SnapErrors? || step.StartPause?
  }

  lemma RunnerMovesInRole(s: State, i: nat, step: RunnerStep, t: State)
    requires OnlyMoves(step) && DoRunner(s, i, step) == Some(t) && SessionOk(s.sessions[i])
    ensures t == With(s, i, t.sessions[i]).(board := t.board)
    ensures SessionOk(t.sessions[i]) && t.sessions[i] == s.sessions[i].(run := t.sessions[i].run)
    ensures SameRole(s, s.sessions[i].run, t.sessions[i].run)
  {
  }

  lemma RunnerStaysInRole(s: State, i: nat, step: RunnerStep, t: State)
    requires !step.EndDial? && !step.EndServe? && !step.LockForDrain? && !step.CloseDone? && !OnlyMoves(step)
    requires DoRunner(s, i, step) == Some(t) && SessionOk(s.sessions[i])
    ensures t == With(s, i, t.sessions[i])
    ensures SessionOk(t.sessions[i]) && t.sessions[i].done == s.sessions[i].done
    ensures s.sessions[i].canceled ==> t.sessions[i].canceled
    ensures SameRole(s, s.sessions[i].run, t.sessions[i].run)
  {
  }

  lemma RunnerKeepsLife(s: State, i: nat, step: RunnerStep, t: State)
    requires Life(s) && DoRunner(s, i, step) == Some(t)
    ensures Life(t)
  {
    match step
    case EndDial(result) => EndDialKeepsLife(s, i, result, t);
    case EndServe => EndServeKeepsLife(s, i, t);
    case LockForDrain => LockKeepsLife(s, i, t);
    case CloseDone => CloseDoneKeepsLife(s, i, t);
    case _ =>
      if OnlyMoves(step) {
        RunnerMovesInRole(s, i, step, t);
      } else {
        RunnerStaysInRole(s, i, step, t);
      }
      WithKeepsLife(s, i, t.sessions[i]);
      FieldsKeepLife(With(s, i, t.sessions[i]), t);
  }

  lemma TokenMoveKeepsLife(s: State, i: nat, step: ServeStep, t: State)
    requires step.SelectReader? || step.ResendToken?
    requires Life(s) && DoServe(s, i, step) == Some(t)
    ensures Life(t)
  {
  }

  lemma LoggedKeepsLife(s: State, i: nat, sess: Session, k: nat, wire: Wire)
    requires Life(s) && i < |s.sessions| && k < |s.wires| && wire.session == s.wires[k].session
    requires SessionOk(sess) && sess.done == s.sessions[i].done && (s.sessions[i].canceled ==> sess.canceled)
    requires SameRole(s, s.sessions[i].run, sess.run)
    ensures Life(With(s, i, sess).(wires := s.wires[k := wire]))
  {
    WithKeepsLife(s, i, sess);
    LogKeepsLife(With(s, i, sess), k, wire);
  }

  lemma SendKeepsLife(s: State, i: nat, step: ServeStep, t: State)
    requires step.SelectSend? || step.SendUser? || step.Account?
    requires Life(s) && DoServe(s, i, step) == Some(t)
    ensures Life(t)
  {
    var k := s.sessions[i].run.conn;
    if step.Account? {
      WithKeepsLife(s, i, t.sessions[i]);
    } else {
      LoggedKeepsLife(s, i, t.sessions[i], k, t.wires[k]);
    }
  }

  lemma SyncKeepsLife(s: State, i: nat, step: ServeStep, t: State)
    requires step.ReadRevision? || step.TakeSnapshot? || step.SendUnsubscribe? || step.SendUpdate?
    requires Life(s) && DoServe(s, i, step) == Some(t)
    ensures Life(t)
  {
    if step.ReadRevision? || step.TakeSnapshot? {
      WithKeepsLife(s, i, t.sessions[i]);
    } else {
      var k := s.sessions[i].run.conn;
      LoggedKeepsLife(s, i, t.sessions[i], k, t.wires[k]);
    }
  }

  lemma ServeKeepsLife(s: State, i: nat, step: ServeStep, t: State)
    requires Life(s) && DoServe(s, i, step) == Some(t)
    ensures Life(t)
  {
    if step.SelectReader? || step.ResendToken? {
      TokenMoveKeepsLife(s, i, step, t);
    } else if step.SelectDone? || step.SelectWake? || step.SelectPing? {
      WithKeepsLife(s, i, t.sessions[i]);
    } else if step.SelectSend? || step.SendUser? || step.Account? {
      SendKeepsLife(s, i, step, t);
    } else {
      SyncKeepsLife(s, i, step, t);
    }
  }

  lemma ReaderMoves(s: State, k: nat, step: ReaderStep, t: State)
    requires DoReader(s, k, step) == Some(t)
    ensures k < |s.conns| && k < |t.conns| && !s.conns[k].reader.Dead?
    ensures s.conns[k].token.None? ==> (t.conns[k].reader.Dead? <==> t.conns[k].token.Some?)
    ensures var u := s.(conns := s.conns[k := t.conns[k]]);
            if step.EndAnnounce? && s.conns[k].reader.Announcing? && s.conns[k].reader.target.Some?
            then t == Cancel(u, s.conns[k].reader.target.value)
            else t == u.(board := t.board)
    ensures step.EndAnnounce? ==> s.conns[k].reader.Announcing?
  {
  }

  lemma ReaderKeepsLife(s: State, k: nat, step: ReaderStep, t: State)
    requires Life(s) && DoReader(s, k, step) == Some(t)
    ensures Life(t)
  {
    ReaderMoves(s, k, step, t);
    ReaderAlive(s, k);
    var u := s.(conns := s.conns[k := t.conns[k]]);
    ConnKeepsLife(s, k, t.conns[k]);
    if step.EndAnnounce? && s.conns[k].reader.target.Some? {
      CancelKeepsLife(u, s.conns[k].reader.target.value);
    } else {
      FieldsKeepLife(u, t);
    }
  }

  lemma RunnerDispatchKeepsLife(s: State, i: nat, step: DispatchStep, t: State)
    requires Life(s) && DoDispatch(s, TheRunner(i), step) == Some(t)
    ensures Life(t)
  {
    WithKeepsLife(s, i, t.sessions[i]);
    FieldsKeepLife(With(s, i, t.sessions[i]), t);
  }

  lemma ReaderDispatchKeepsLife(s: State, k: nat, step: DispatchStep, t: State)
    requires Life(s) && DoDispatch(s, TheReader(k), step) == Some(t)
    ensures Life(t)
  {
    ReaderAlive(s, k);
    ConnKeepsLife(s, k, t.conns[k]);
    FieldsKeepLife(s.(conns := s.conns[k := t.conns[k]]), t);
  }

  lemma DispatchKeepsLife(s: State, actor: Actor, step: DispatchStep, t: State)
    requires Life(s) && DoDispatch(s, actor, step) == Some(t)
    ensures Life(t)
  {
    match actor
    case TheRunner(i) => RunnerDispatchKeepsLife(s, i, step, t);
    case TheReader(k) => ReaderDispatchKeepsLife(s, k, step, t);
  }
}
