/** What the invariant gives for every reachable state of the engine. */
module EngineTheorems {
  import opened Basics
  import opened Reconnect
  import opened Engine
  import opened EngineLife
  import opened EngineMail
  import opened EngineSync
  import opened EngineBoard
  import opened EngineOrder
  import opened EnginePace
  import opened EngineInvariant
  import In = Incoming
  import Subs = Subscription

  // ---- the situations the theorems speak of do arise ----

  lemma {:induction false} RunAppend(r: State, steps: seq<Step>, s: State, step: Step, t: State)
    requires Runs(r, steps, s) && Do(s, step) == Some(t)
    ensures Runs(r, steps + [step], t)
    decreases |steps|
  {
    if steps == [] {
      assert [step][1..] == [];
      assert steps + [step] == [step];
    } else {
      assert (steps + [step])[1..] == steps[1..] + [step];
      RunAppend(Do(r, steps[0]).value, steps[1..], s, step, t);
    }
  }

  lemma TakeStep(s: State, step: Step, t: State)
    requires Reachable(s) && Do(s, step) == Some(t)
    ensures Reachable(t)
  {
    var id, steps :| Runs(Initial(id), steps, s);
    RunAppend(Initial(id), steps, s, step, t);
  }

  lemma StartIsReachable(id: string) returns (s: State)
    ensures Reachable(s)
    ensures s == Initial(id).(sessions := [NewSession], session := Some(0))
  {
    var initial := Initial(id);
    assert Runs(initial, [], initial);
    s := DoCaller(initial, CallStart).value;
    TakeStep(initial, Caller(CallStart), s);
  }

  /** The initial state but for sessions, connections and callbacks. */
  function StartedBy(id: string, s: State): (r: State) {
    Initial(id).(session := Some(0), sessions := s.sessions, conns := s.conns, wires := s.wires, board := s.board)
  }

  lemma DialIsReachable(id: string) returns (s: State)
    ensures Reachable(s)
    ensures |s.sessions| == 1 && s.sessions[0] == NewSession.(run := Dialing)
    ensures s == StartedBy(id, s)
    ensures s.conns == [] && s.wires == []
  {
    var a := StartIsReachable(id);
    var b := DoRunner(a, 0, CheckContext).value;
    TakeStep(a, Running(0, CheckContext), b);
    var c := DoRunner(b, 0, SnapRetrievers).value;
    TakeStep(b, Running(0, SnapRetrievers), c);
    s := DoRunner(c, 0, StartDial).value;
    TakeStep(c, Running(0, StartDial), s);
  }

  lemma ConnectionIsReachable(id: string) returns (s: State)
    ensures Reachable(s)
    ensures |s.sessions| == 1
    ensures s.sessions[0] == NewSession.(run := Serving(0, Locals([], false, 0, true), Sync(0)),
                                         pace := Pace(FIRST_DELAY, [true], [], 0))
    ensures s == StartedBy(id, s)
    ensures s.conns == [Conn(Reading, None, [])] && s.wires == [Wire(0, [], [])]
  {
    var a := DialIsReachable(id);
    var b := DoRunner(a, 0, EndDial(Connected)).value;
    TakeStep(a, Running(0, EndDial(Connected)), b);
    s := DoServe(b, 0, ReadRevision).value;
    TakeStep(b, Serves(0, ReadRevision), s);
  }

  lemma FirstSyncEnds(d: State) returns (s: State)
    requires Reachable(d) && |d.sessions| == 1 && |d.wires| == 1 && |d.conns| == 1 && !d.sessions[0].wake
    requires d.sessions[0].run.Serving? && d.sessions[0].run.conn == 0 && d.sessions[0].run.at.Unsub?
    ensures Reachable(s) && AtSelect(s, 0, 0) && !s.sessions[0].wake
  {
    var e := DoServe(d, 0, SendUnsubscribe(WriteOk)).value;
    TakeStep(d, Serves(0, SendUnsubscribe(WriteOk)), e);
    s := DoServe(e, 0, SendUpdate(WriteOk)).value;
    TakeStep(e, Serves(0, SendUpdate(WriteOk)), s);
  }

  /** A quiescent state with an established connection is reached. */
  lemma QuiescenceIsReachable(id: string) returns (s: State)
    ensures Reachable(s) && AtSelect(s, 0, 0) && !s.sessions[0].wake
  {
    var c := ConnectionIsReachable(id);
    Subs.NoElements([]);
    assert Subs.DesiredSignatures(c.desired).Keys == {};
    var d := DoServe(c, 0, TakeSnapshot([])).value;
    TakeStep(c, Serves(0, TakeSnapshot([])), d);
    s := FirstSyncEnds(d);
  }

  // ---- subscriptions ----

  /** The serve loop of session i waits at its select on connection k. */
  predicate AtSelect(s: State, i: nat, k: nat) {
    i < |s.sessions| && k < |s.wires|
    && s.sessions[i].run.Serving? && s.sessions[i].run.conn == k && s.sessions[i].run.at.Select?
  }

  /** With no wake-up token pending, the server's view is exactly the one the client now wants. */
  lemma QuiescentAgreement(s: State, i: nat, k: nat)
    requires Reachable(s) && AtSelect(s, i, k) && !s.sessions[i].wake
    ensures Subs.Agrees(Replay(s.wires[k].log), s.desired)
  {
    ReachableInv(s);
    assert ServeFits(s, i);
  }

  /** At the select the loop is up to date or a token waits; and being up to date by revision is being up to date. */
  lemma NoLostWakeup(s: State, i: nat, k: nat)
    requires Reachable(s) && AtSelect(s, i, k)
    ensures s.session == Some(i)
    ensures s.sessions[i].run.loc.revision == s.desired.revision || s.sessions[i].wake
    ensures s.sessions[i].run.loc.revision == s.desired.revision ==> Subs.Agrees(Replay(s.wires[k].log), s.desired)
  {
    ReachableInv(s);
    assert ServeFits(s, i);
    OpenIsCurrent(s, i);
  }

  /** While a synchronisation is between its two frames, every address both views share is still subscribed. */
  lemma NoGapWhileSynchronising(s: State, i: nat, a: string)
    requires Reachable(s) && i < |s.sessions| && s.sessions[i].run.Serving? && s.sessions[i].run.at.Update?
    requires a in s.sessions[i].run.loc.previous && a in s.sessions[i].run.at.snap.msg.signedAddrs
    ensures s.sessions[i].run.conn < |s.wires| && a in Replay(s.wires[s.sessions[i].run.conn].log).signed
  {
    ReachableInv(s);
    assert ServeFits(s, i);
    assert a in Subs.Elements(s.sessions[i].run.loc.previous);
  }

  /** No user frame reaches the wire before a synchronisation at least as recent as the revision its iteration read. */
  lemma EveryUserFrameIsSynced(s: State, k: nat, j: nat)
    requires Reachable(s) && k < |s.wires| && j < |s.wires[k].log| && s.wires[k].log[j].User?
    ensures exists i | 0 <= i < j :: s.wires[k].log[i].Synced? && s.wires[k].log[j].cur <= s.wires[k].log[i].revision
  {
    ReachableInv(s);
    assert SyncedBefore(s.wires[k].log, j, s.wires[k].log[j].cur);
  }

  /** In every reachable state the unsubscribe frame about to be sent removes addresses or leaves listening, never both:
      a loop that listened remembers no address. */
  lemma UnsubscribeFrameHasOnePurpose(s: State, i: nat)
    requires Reachable(s) && i < |s.sessions| && s.sessions[i].run.Serving? && s.sessions[i].run.at.Unsub?
    ensures var loc, snap := s.sessions[i].run.loc, s.sessions[i].run.at.snap;
            && (loc.wasListening ==> loc.previous == [])
            && (snap.listening ==> snap.msg.addrs == [])
            && (Subs.NeedsUnsubscribe(loc.previous, loc.wasListening, snap) ==>
                  (|Subs.UnsubscribeOf(loc.previous, snap).addrs| > 0) != (loc.wasListening && !snap.listening))
  {
    ReachableInv(s);
    assert ServeFits(s, i);
    var loc, snap := s.sessions[i].run.loc, s.sessions[i].run.at.snap;
    if Subs.NeedsUnsubscribe(loc.previous, loc.wasListening, snap) {
      Subs.UnsubscribeHasOnePurpose(loc.previous, loc.wasListening, snap);
    }
  }

  lemma SubscriptionStateIsWellFormed(s: State)
    requires Reachable(s)
    ensures Subs.WellFormed(s.desired)
    ensures s.session.None? ==> Subs.Empty(s.desired)
  {
    ReachableInv(s);
  }

  // ---- the send queue ----

  lemma LossIsBounded(wire: Wire)
    requires LosesAtMostLast(wire)
    ensures UserMessages(wire.log) <= wire.taken && |wire.taken| <= |UserMessages(wire.log)| + 1
  {
  }

  /** Accepted messages are those dequeued, then those drained, then those queued, in order and across reconnects; each
      connection wrote what it dequeued, in order, but for at most the last one. */
  lemma FifoWithBoundedLoss(s: State, i: nat, k: nat)
    requires Reachable(s) && i < |s.sessions| && k < |s.wires|
    ensures s.sessions[i].mail.accepted ==
            Taken(s.wires, i) + s.sessions[i].mail.drained + s.sessions[i].mail.queue
    ensures !s.sessions[i].run.Draining? && !s.sessions[i].done ==> s.sessions[i].mail.drained == []
    ensures UserMessages(s.wires[k].log) <= s.wires[k].taken
    ensures |s.wires[k].taken| <= |UserMessages(s.wires[k].log)| + 1
  {
    ReachableInv(s);
    assert Balanced(s, i) && MailFits(s.sessions[i]);
    LossIsBounded(s.wires[k]);
  }

  /** A connection on which the loop waits again has written everything it dequeued. */
  lemma NothingLostWhileServing(s: State, i: nat, k: nat)
    requires Reachable(s) && AtSelect(s, i, k)
    ensures UserMessages(s.wires[k].log) == s.wires[k].taken
  {
    ReachableInv(s);
    assert ServeFits(s, i);
  }

  /** The byte counter is exact and bounded at every moment, for any number of concurrent writers. */
  lemma ByteBudgetIsConserved(s: State, i: nat)
    requires Reachable(s) && i < |s.sessions|
    ensures var mail := s.sessions[i].mail;
            && mail.queuedBytes == Size(mail.queue) + Reservations(s.writers, i) + InFlight(mail)
            && 0 <= mail.queuedBytes <= 16_777_216 && |mail.queue| <= 64
    ensures (forall w | 0 <= w < |s.writers| :: !Active(s.writers[w])) ==>
            s.sessions[i].mail.queuedBytes == Size(s.sessions[i].mail.queue) + InFlight(s.sessions[i].mail)
  {
    ReachableInv(s);
    assert Balanced(s, i);
    if forall w | 0 <= w < |s.writers| :: !Active(s.writers[w]) {
      NoReservations(s.writers, i);
    }
  }

  // ---- the life of a session ----

  /** At most one session is open, and it is c.session. */
  lemma SingleLiveSession(s: State, i: nat, j: nat)
    requires Reachable(s) && i < |s.sessions| && j < |s.sessions| && !s.sessions[i].done && !s.sessions[j].done
    ensures i == j && s.session == Some(i)
  {
    ReachableInv(s);
    OpenIsCurrent(s, i);
    OpenIsCurrent(s, j);
  }

  /** Once done is closed: nothing queued, nothing counted, no reader, no serve loop and no Write of that session. */
  lemma DoneBarrier(s: State, i: nat)
    requires Reachable(s) && i < |s.sessions| && s.sessions[i].done
    ensures s.sessions[i].run == Finished && s.sessions[i].canceled
    ensures s.sessions[i].mail.queue == [] && s.sessions[i].mail.queuedBytes == 0
    ensures forall k | 0 <= k < |s.wires| && s.wires[k].session == i :: k < |s.conns| && Quiet(s.conns[k])
    ensures forall w | 0 <= w < |s.writers| && Active(s.writers[w]) :: s.writers[w].at.session != i
  {
    ReachableInv(s);
    assert Balanced(s, i) && MailFits(s.sessions[i]) && SessionOk(s.sessions[i]);
    NoReservations(s.writers, i);
  }

  lemma CallerLeavesDone(s: State, step: CallerStep, t: State, i: nat)
    requires DoCaller(s, step) == Some(t) && i < |s.sessions| && s.sessions[i].canceled
    ensures i < |t.sessions| && t.sessions[i] == s.sessions[i].(wake := t.sessions[i].wake)
  {
    CallerHasEffect(s, step, t);
    assert SameWork(s.sessions[i], t.sessions[i]);
  }

  lemma WriterLeavesDone(s: State, step: WriterStep, t: State, i: nat)
    requires DoWriter(s, step) == Some(t) && i < |s.sessions|
    requires forall w | 0 <= w < |s.writers| && Active(s.writers[w]) :: s.writers[w].at.session != i
    ensures i < |t.sessions| && t.sessions[i] == s.sessions[i]
  {
  }

  lemma RunnerLeavesOthers(s: State, j: nat, step: RunnerStep, t: State, i: nat)
    requires DoRunner(s, j, step) == Some(t) && i < |s.sessions| && (j != i || s.sessions[i].run.Finished?)
    ensures j != i && i < |t.sessions| && t.sessions[i] == s.sessions[i]
  {
  }

  lemma ServeLeavesOthers(s: State, j: nat, step: ServeStep, t: State, i: nat)
    requires DoServe(s, j, step) == Some(t) && i < |s.sessions| && (j != i || !s.sessions[i].run.Serving?)
    ensures j != i && i < |t.sessions| && t.sessions[i] == s.sessions[i]
  {
  }

  lemma ReaderLeavesCanceled(s: State, k: nat, step: ReaderStep, t: State, i: nat)
    requires DoReader(s, k, step) == Some(t) && i < |s.sessions|
    ensures |t.sessions| == |s.sessions| && t.sessions[i] == s.sessions[i].(canceled := t.sessions[i].canceled)
    ensures s.sessions[i].canceled ==> t.sessions[i].canceled
  {
  }

  lemma DispatchLeavesOthers(s: State, actor: Actor, step: DispatchStep, t: State, i: nat)
    requires DoDispatch(s, actor, step) == Some(t) && i < |s.sessions|
    requires actor != TheRunner(i) || s.sessions[i].run.Finished?
    ensures actor != TheRunner(i) && |t.sessions| == |s.sessions| && t.sessions[i] == s.sessions[i]
  {
  }

  lemma OthersLeaveDone(s: State, step: Step, t: State, i: nat)
    requires !step.Caller? && !step.Writing?
    requires Do(s, step) == Some(t) && i < |s.sessions| && s.sessions[i].run.Finished? && s.sessions[i].canceled
    ensures i < |t.sessions| && t.sessions[i] == s.sessions[i]
  {
    match step
    case Running(j, r) => RunnerLeavesOthers(s, j, r, t, i);
    case Serves(j, v) => ServeLeavesOthers(s, j, v, t, i);
    case Reads(k, r) => ReaderLeavesCanceled(s, k, r, t, i);
    case Dispatches(a, d) => DispatchLeavesOthers(s, a, d, t, i);
  }

  /** No later step enqueues to a session that is done, or revives any part of it, over any continuation. */
  lemma {:induction false} DoneIsFinal(s: State, steps: seq<Step>, t: State, i: nat)
    requires Reachable(s) && Runs(s, steps, t) && i < |s.sessions| && s.sessions[i].done
    ensures i < |t.sessions| && t.sessions[i] == s.sessions[i].(wake := t.sessions[i].wake)
    decreases |steps|
  {
    if steps != [] {
      var step := steps[0];
      var next := Do(s, step).value;
      DoneBarrier(s, i);
      match step {
        case Caller(c) => CallerLeavesDone(s, c, next, i);
        case Writing(w) => WriterLeavesDone(s, w, next, i);
        case _ => OthersLeaveDone(s, step, next, i);
      }
      TakeStep(s, step, next);
      DoneIsFinal(next, steps[1..], t, i);
    }
  }

  // ---- the reader ----

  /** A session that is open but neither serves nor joins has no reader left: it can dial, report or finish. */
  lemma ReaderIsGone(s: State, i: nat, k: nat)
    requires Reachable(s) && i < |s.sessions| && !HasConn(s.sessions[i].run)
    requires k < |s.wires| && s.wires[k].session == i
    ensures k < |s.conns| && Quiet(s.conns[k])
  {
    ReachableInv(s);
  }

  lemma ConnectionState(s: State, i: nat)
    requires Joins(s) && i < |s.sessions| && HasConn(s.sessions[i].run)
    ensures s.sessions[i].run.conn < |s.conns| == |s.wires|
    ensures JoinPending(s.sessions[i].run, s.conns[s.sessions[i].run.conn])
  {
  }

  /** The join finds one token or a running reader, never both and never neither. */
  lemma JoinGetsOneToken(s: State, i: nat)
    requires Reachable(s) && i < |s.sessions| && s.sessions[i].run.Joining?
    ensures var k := s.sessions[i].run.conn;
            k < |s.conns| && (s.conns[k].reader.Dead? <==> s.conns[k].token.Some?)
  {
    ReachableInv(s);
    ConnectionState(s, i);
  }

  lemma EmptySlotTakesToken(s: State, i: nat)
    requires i < |s.sessions| && s.sessions[i].run.Serving? && s.sessions[i].run.at.Resend?
    requires s.sessions[i].run.conn < |s.conns| == |s.wires| && s.conns[s.sessions[i].run.conn].token.None?
    ensures DoServe(s, i, ResendToken).Some?
  {
  }

  /** The serve loop's re-send of the completion token never blocks: the slot is empty. */
  lemma ResendNeverBlocks(s: State, i: nat)
    requires Reachable(s) && i < |s.sessions| && s.sessions[i].run.Serving? && s.sessions[i].run.at.Resend?
    ensures DoServe(s, i, ResendToken).Some?
  {
    ReachableInv(s);
    ConnectionState(s, i);
    EmptySlotTakesToken(s, i);
  }

  lemma FreeSlotTakesSignal(s: State, k: nat)
    requires k < |s.conns| && k < |s.wires| && s.conns[k].reader.Closing? && s.conns[k].token.None?
    ensures DoReader(s, k, Signal).Some?
  {
  }

  /** Neither does the reader's own send. */
  lemma SignalNeverBlocks(s: State, k: nat)
    requires Reachable(s) && k < |s.conns| && s.conns[k].reader.Closing?
    ensures DoReader(s, k, Signal).Some?
  {
    ReachableInv(s);
    ReaderAlive(s, k);
    FreeSlotTakesSignal(s, k);
  }

  /** At most one goroutine is ever in a callback loop, and it waits only on its own session's context. */
  lemma OneDispatcher(s: State, a: Actor, b: Actor)
    requires Reachable(s) && DispatchOf(s, a).Some? && DispatchOf(s, b).Some?
    ensures a == b && s.session == Some(OwnerOf(s, a))
    ensures DispatchOf(s, a).value.at.Waiting? ==> DispatchOf(s, a).value.at.ctx == Some(OwnerOf(s, a))
  {
    ReachableInv(s);
    SoleDispatcher(s, a, b);
    match a
    case TheRunner(i) => assert DispatchFits(s, TheRunner(i));
    case TheReader(k) => assert DispatchFits(s, TheReader(k));
  }

  lemma AnnouncedTarget(s: State, k: nat, t: State)
    requires DoReader(s, k, EndAnnounce) == Some(t) && ReaderTrue(s.conns[k], s.wires[k].session)
    requires s.wires[k].session < |s.sessions|
    ensures s.conns[k].received != []
    ensures var own := s.wires[k].session;
            t.sessions == if LastReaction(s.conns[k]).RejectAndCancel?
                          then s.sessions[own := s.sessions[own].(canceled := true)] else s.sessions
  {
  }

  /** A running reader belongs to the current session and tells the truth about its last message. */
  lemma AliveReader(s: State, k: nat)
    requires Reachable(s) && k < |s.conns| && !s.conns[k].reader.Dead?
    ensures k < |s.wires| && s.wires[k].session < |s.sessions| && s.session == Some(s.wires[k].session)
    ensures ReaderTrue(s.conns[k], s.wires[k].session)
  {
    ReachableInv(s);
    ReaderAlive(s, k);
  }

  /** Once the reader has announced a message, it cancels its own session if the message is a rejected listen reply, and
      no session otherwise. */
  lemma RejectionCancelsOwnSession(s: State, k: nat, t: State)
    requires Reachable(s) && DoReader(s, k, EndAnnounce) == Some(t)
    ensures s.conns[k].received != [] && s.wires[k].session < |s.sessions|
    ensures s.session == Some(s.wires[k].session)
    ensures var own := s.wires[k].session;
            t.sessions == if LastReaction(s.conns[k]).RejectAndCancel?
                          then s.sessions[own := s.sessions[own].(canceled := true)] else s.sessions
  {
    AliveReader(s, k);
    AnnouncedTarget(s, k, t);
  }

  // ---- callbacks ----

  /** Held slots are unfinished callbacks, at most 16; starts are, event by event, a prefix of the event's callbacks,
      and all of them unless the event is still in progress or its session is canceled. */
  lemma CallbackBoundsAndOrder(s: State)
    requires Reachable(s)
    ensures s.board.slots == Unfinished(s.board.ended) && s.board.slots <= 16
    ensures forall e | 0 <= e < |s.board.events| :: SpawnedFits(s.board.events[e])
    ensures s.board.spawns == StartLog(s.board.events)
    ensures forall e | 0 <= e < |s.board.events| && s.board.events[e].spawned < |s.board.events[e].callbacks| ::
              InProgress(s, e) || CtxDone(s, s.board.events[e].session)
  {
    ReachableInv(s);
    forall e | 0 <= e < |s.board.events| && s.board.events[e].spawned < |s.board.events[e].callbacks|
      ensures InProgress(s, e) || CtxDone(s, s.board.events[e].session)
    {
      assert Covered(s, e);
    }
  }

  /** Events stand in wire order, across reconnects too, and no message that calls for one is skipped. */
  lemma EventsFollowTheWire(s: State, k: nat, a: nat)
    requires Reachable(s) && k < |s.conns| && a < |s.conns[k].received|
    ensures WireOrder(s.board.events)
    ensures var reaction := In.ParseIncoming(s.conns[k].received[a]);
            || reaction.Nothing?
            || (Pending(s.conns[k].reader) && a + 1 == |s.conns[k].received|)
            || Reported(s.board.events, FromWire(k, a, reaction))
  {
    ReachableInv(s);
    assert NoneSkipped(s.conns[k], k, s.board.events);
  }

  /** Every event of the log is genuine: it calls callbacks of the right list, a listen event carries one well-formed
      payload, and the runner never reports an error after which it gives up. */
  lemma EventsAreGenuine(s: State, e: nat)
    requires Reachable(s) && e < |s.board.events|
    ensures var source := s.board.events[e].source;
            && (source.FromWire? ==>
                  && source.conn < |s.conns| && source.index < |s.conns[source.conn].received|
                  && source.reaction == In.ParseIncoming(s.conns[source.conn].received[source.index])
                  && (source.reaction.NotifyListen? ==>
                        && In.WellFormedEvent(source.reaction)
                        && In.IsPayloadOf(source.reaction, s.conns[source.conn].received[source.index])))
            && (source.FromRunner? ==> source.err != CloseFrame(1000) && source.err != CloseFrame(1008))
            && forall cb | cb in s.board.events[e].callbacks :: cb.kind == KindOf(source)
  {
    ReachableInv(s);
    assert EventTrue(s, s.board.events[e]);
  }

  // ---- pacing and winding down ----

  /** Over every run of a session: the i-th wait is min(100 ms * 2^k, 25 s) for the k waits since the last successful
      dial, as in RunLoop, those waits add up to the closed form, and after cancellation at most one dial starts. */
  lemma PacingIsBounded(s: State, i: nat, j: nat)
    requires Reachable(s) && i < |s.sessions| && j < |s.sessions[i].pace.pauses|
    ensures PausesFollow(s.sessions[i].pace.dials, s.sessions[i].pace.pauses)
    ensures Paced(s.sessions[i].pace.dials, s.sessions[i].pace.pauses, j)
  {
    ReachableInv(s);
    assert PaceFits(s, i);
    FollowingIsPaced(s.sessions[i].pace.dials, s.sessions[i].pace.pauses, j);
  }

  /** After cancellation at most one further dial starts. */
  lemma AtMostOneLateDial(s: State, i: nat)
    requires Reachable(s) && i < |s.sessions|
    ensures s.sessions[i].pace.lateDials <= 1
    ensures |s.sessions[i].pace.pauses| <= |s.sessions[i].pace.dials| <= |s.sessions[i].pace.pauses| + 1
  {
    ReachableInv(s);
    assert PaceFits(s, i);
  }

  /** The runner has observed that it must end. */
  predicate WindingDown(s: State, i: nat) {
    i < |s.sessions| &&
    match s.sessions[i].run
    case Joining(_, err) => CtxDone(s, i) || Terminal(err)
    case Checking(err) => CtxDone(s, i) || Terminal(err)
    case Exiting => true
    case WaitingLock => true
    case Draining => true
    case Finished => true
    case _ => false
  }

  /** How far it still has to go. */
  function Rank(s: State, i: nat): (r: nat)
    requires i < |s.sessions|
  {
    match s.sessions[i].run
    case Finished => 0
    case Draining => 1 + |s.sessions[i].mail.queue|
    case WaitingLock => QUEUE_SLOTS + 2
    case Exiting => QUEUE_SLOTS + 3
    case Checking(_) => QUEUE_SLOTS + 4
    case _ => QUEUE_SLOTS + 5
  }

  /** A step of the session's own runner or serve loop. */
  predicate Own(step: Step, i: nat) {
    match step
    case Running(j, _) => j == i
    case Serves(j, _) => j == i
    case Dispatches(actor, _) => actor == TheRunner(i)
    case _ => false
  }

  lemma CallerLeavesRun(s: State, t: State, i: nat)
    requires CallerEffect(s, t) && i < |s.sessions|
    ensures i < |t.sessions| && t.sessions[i].run == s.sessions[i].run && t.sessions[i].mail == s.sessions[i].mail
    ensures CtxDone(s, i) ==> CtxDone(t, i)
  {
    assert SameWork(s.sessions[i], t.sessions[i]);
  }

  lemma WriterLeavesRun(s: State, step: WriterStep, t: State, i: nat)
    requires DoWriter(s, step) == Some(t) && i < |s.sessions|
    ensures i < |t.sessions| && t.sessions[i].run == s.sessions[i].run
    ensures CtxDone(s, i) ==> CtxDone(t, i)
    ensures (forall w | 0 <= w < |s.writers| :: !Active(s.writers[w])) ==> t.sessions[i].mail == s.sessions[i].mail
  {
  }

  lemma LeavingWindsDown(s: State, i: nat, step: RunnerStep, t: State)
    requires step.EndServe? || step.CheckOutcome? || step.CancelSelf? || step.LockForDrain?
    requires DoRunner(s, i, step) == Some(t) && WindingDown(s, i) && |s.sessions[i].mail.queue| <= QUEUE_SLOTS
    ensures WindingDown(t, i) && Rank(t, i) < Rank(s, i)
  {
  }

  lemma DrainWindsDown(s: State, i: nat, step: RunnerStep, t: State)
    requires step.DrainOne? || step.CloseDone?
    requires DoRunner(s, i, step) == Some(t)
    ensures WindingDown(t, i) && Rank(t, i) < Rank(s, i)
  {
  }

  lemma WindingDownSteps(s: State, i: nat, step: RunnerStep, t: State)
    requires DoRunner(s, i, step) == Some(t) && WindingDown(s, i)
    ensures step.EndServe? || step.CheckOutcome? || step.CancelSelf? || step.LockForDrain? || step.DrainOne?
            || step.CloseDone?
  {
  }

  lemma RunnerWindsDown(s: State, i: nat, step: RunnerStep, t: State)
    requires DoRunner(s, i, step) == Some(t) && WindingDown(s, i) && |s.sessions[i].mail.queue| <= QUEUE_SLOTS
    ensures WindingDown(t, i) && Rank(t, i) < Rank(s, i)
  {
    WindingDownSteps(s, i, step, t);
    if step.DrainOne? || step.CloseDone? {
      DrainWindsDown(s, i, step, t);
    } else {
      LeavingWindsDown(s, i, step, t);
    }
  }

  lemma RunnerKeepsContext(s: State, j: nat, step: RunnerStep, t: State)
    requires DoRunner(s, j, step) == Some(t)
    ensures t.canceled == s.canceled
  {
  }

  lemma ServeKeepsContext(s: State, j: nat, step: ServeStep, t: State)
    requires DoServe(s, j, step) == Some(t)
    ensures t.canceled == s.canceled
  {
  }

  lemma ReaderKeepsContext(s: State, k: nat, step: ReaderStep, t: State)
    requires DoReader(s, k, step) == Some(t)
    ensures t.canceled == s.canceled
  {
  }

  lemma DispatchLeavesWindingDown(s: State, actor: Actor, step: DispatchStep, t: State, i: nat)
    requires DoDispatch(s, actor, step) == Some(t) && WindingDown(s, i)
    ensures actor != TheRunner(i) && WindingDown(t, i) && Rank(t, i) == Rank(s, i)
  {
  }

  lemma StepWindsDown(s: State, step: Step, t: State, i: nat)
    requires Do(s, step) == Some(t) && WindingDown(s, i) && |s.sessions[i].mail.queue| <= QUEUE_SLOTS
    requires s.sessions[i].run.Draining? ==> forall w | 0 <= w < |s.writers| :: !Active(s.writers[w])
    ensures WindingDown(t, i)
    ensures Rank(t, i) <= Rank(s, i)
    ensures Own(step, i) ==> Rank(t, i) < Rank(s, i)
  {
    match step
    case Caller(c) =>
      CallerHasEffect(s, c, t);
      CallerLeavesRun(s, t, i);
    case Writing(w) => WriterLeavesRun(s, w, t, i);
    case Running(j, r) =>
      if j == i {
        RunnerWindsDown(s, i, r, t);
      } else {
        RunnerLeavesOthers(s, j, r, t, i);
        RunnerKeepsContext(s, j, r, t);
      }
    case Serves(j, v) =>
      ServeLeavesOthers(s, j, v, t, i);
      ServeKeepsContext(s, j, v, t);
    case Reads(k, r) =>
      ReaderLeavesCanceled(s, k, r, t, i);
      ReaderKeepsContext(s, k, r, t);
    case Dispatches(a, d) => DispatchLeavesWindingDown(s, a, d, t, i);
  }

  /** Each step of the session's own goroutine comes strictly closer to done; no other step sets it back. */
  lemma WindDownProgress(s: State, step: Step, t: State, i: nat)
    requires Reachable(s) && Do(s, step) == Some(t) && WindingDown(s, i)
    ensures WindingDown(t, i)
    ensures Rank(t, i) <= Rank(s, i)
    ensures Own(step, i) ==> Rank(t, i) < Rank(s, i)
  {
    assert |s.sessions[i].mail.queue| <= QUEUE_SLOTS by { ByteBudgetIsConserved(s, i); }
    assert s.sessions[i].run.Draining? ==> forall w | 0 <= w < |s.writers| :: !Active(s.writers[w]) by {
      ReachableInv(s);
      assert s.sessions[i].run.Draining? ==> s.draining == Some(i);
    }
    StepWindsDown(s, step, t, i);
  }

  function OwnSteps(steps: seq<Step>, i: nat): (r: nat) {
    if steps == [] then 0 else (if Own(steps[0], i) then 1 else 0) + OwnSteps(steps[1..], i)
  }

  /** Over any continuation, the session's own goroutine takes at most as many steps as its rank, whatever others do. */
  lemma {:induction false} BoundedWindDown(s: State, steps: seq<Step>, t: State, i: nat)
    requires Reachable(s) && Runs(s, steps, t) && WindingDown(s, i)
    ensures WindingDown(t, i) && OwnSteps(steps, i) + Rank(t, i) <= Rank(s, i) <= QUEUE_SLOTS + 5
    decreases |steps|
  {
    ByteBudgetIsConserved(s, i);
    if steps != [] {
      var next := Do(s, steps[0]).value;
      WindDownProgress(s, steps[0], next, i);
      TakeStep(s, steps[0], next);
      BoundedWindDown(next, steps[1..], t, i);
    }
  }

  lemma WindDownStep(s: State, i: nat)
    requires WindingDown(s, i) && !s.sessions[i].run.Finished? && !s.sessions[i].run.Joining?
    requires s.sessions[i].run.WaitingLock? ==> s.draining.None?
    ensures || (exists step: RunnerStep :: DoRunner(s, i, step).Some?)
            || (s.sessions[i].run.WaitingLock? && exists w | 0 <= w < |s.writers| :: Active(s.writers[w]))
  {
    match s.sessions[i].run
    case Checking(_) => assert DoRunner(s, i, CheckOutcome).Some?;
    case Exiting => assert DoRunner(s, i, CancelSelf).Some?;
    case WaitingLock => if MutFree(s) { assert DoRunner(s, i, LockForDrain).Some?; }
    case Draining =>
      if s.sessions[i].mail.queue == [] { assert DoRunner(s, i, CloseDone).Some?; }
      else { assert DoRunner(s, i, DrainOne).Some?; }
  }

  lemma LifeIsNotStuck(s: State, i: nat)
    requires Life(s) && WindingDown(s, i) && !s.sessions[i].done
    ensures || (exists step: RunnerStep :: DoRunner(s, i, step).Some?)
            || (s.sessions[i].run.Joining? && s.sessions[i].run.conn < |s.conns| &&
                !s.conns[s.sessions[i].run.conn].reader.Dead?)
            || (s.sessions[i].run.WaitingLock? && exists w | 0 <= w < |s.writers| :: Active(s.writers[w]))
  {
    OpenIsCurrent(s, i);
    assert SessionOk(s.sessions[i]);
    assert s.draining.Some? ==> s.sessions[s.draining.value].run.Draining? && !s.sessions[s.draining.value].done;
    if s.sessions[i].run.Joining? {
      ConnectionState(s, i);
      if s.conns[s.sessions[i].run.conn].token.Some? { assert DoRunner(s, i, EndServe).Some?; }
    } else {
      WindDownStep(s, i);
    }
  }

  /** And it is never stuck: it has a step of its own unless it joins a reader that still runs or waits for a Write. */
  lemma WindDownIsNotStuck(s: State, i: nat)
    requires Reachable(s) && WindingDown(s, i) && !s.sessions[i].done
    ensures || (exists step: RunnerStep :: DoRunner(s, i, step).Some?)
            || (s.sessions[i].run.Joining? && s.sessions[i].run.conn < |s.conns| &&
                !s.conns[s.sessions[i].run.conn].reader.Dead?)
            || (s.sessions[i].run.WaitingLock? && exists w | 0 <= w < |s.writers| :: Active(s.writers[w]))
  {
    ReachableInv(s);
    LifeIsNotStuck(s, i);
  }

  // ---- writes after cancellation ----

  /** A call of Write that has nothing to do with session i and was not accepted by it. */
  predicate Refused(w: Writer, i: nat) {
    if w.at.Returned? then w.at.result != Accepted(i)
    else w.at.session != i && (w.at.Aborting? ==> !w.at.why.Accepted?)
  }

  lemma WriterStaysRefused(s: State, step: WriterStep, t: State, i: nat, v: nat)
    requires DoWriter(s, step) == Some(t) && CtxDone(s, i)
    requires v < |s.writers| ==> Refused(s.writers[v], i)
    ensures v < |t.writers| ==> Refused(t.writers[v], i)
  {
  }

  lemma RunnerKeepsCanceled(s: State, j: nat, step: RunnerStep, t: State, i: nat)
    requires DoRunner(s, j, step) == Some(t) && CtxDone(s, i) && i < |s.sessions|
    ensures CtxDone(t, i) && |t.sessions| == |s.sessions| && t.writers == s.writers
  {
  }

  lemma ServeKeepsCanceled(s: State, j: nat, step: ServeStep, t: State, i: nat)
    requires DoServe(s, j, step) == Some(t) && CtxDone(s, i) && i < |s.sessions|
    ensures CtxDone(t, i) && |t.sessions| == |s.sessions| && t.writers == s.writers
  {
  }

  lemma DispatchKeepsCanceled(s: State, actor: Actor, step: DispatchStep, t: State, i: nat)
    requires DoDispatch(s, actor, step) == Some(t) && CtxDone(s, i) && i < |s.sessions|
    ensures CtxDone(t, i) && |t.sessions| == |s.sessions| && t.writers == s.writers
  {
  }

  lemma ContextStaysDone(s: State, step: Step, t: State, i: nat)
    requires Do(s, step) == Some(t) && CtxDone(s, i) && i < |s.sessions|
    ensures CtxDone(t, i) && i < |t.sessions|
    ensures !step.Writing? ==> t.writers == s.writers
  {
    match step
    case Caller(c) => CallerHasEffect(s, c, t); CallerLeavesRun(s, t, i);
    case Writing(w) => WriterLeavesRun(s, w, t, i);
    case Running(j, r) => RunnerKeepsCanceled(s, j, r, t, i);
    case Serves(j, v) => ServeKeepsCanceled(s, j, v, t, i);
    case Reads(k, r) => ReaderLeavesCanceled(s, k, r, t, i); ReaderKeepsContext(s, k, r, t);
    case Dispatches(a, d) => DispatchKeepsCanceled(s, a, d, t, i);
  }

  /** A Write that begins after a session is canceled is never accepted by it, over any continuation. */
  lemma {:induction false} LateWritesAreRefused(s: State, steps: seq<Step>, t: State, i: nat, v: nat)
    requires Runs(s, steps, t) && i < |s.sessions| && (s.canceled || s.sessions[i].canceled)
    requires v < |s.writers| ==> Refused(s.writers[v], i)
    ensures v < |t.writers| ==> Refused(t.writers[v], i)
    decreases |steps|
  {
    if steps != [] {
      var step := steps[0];
      var next := Do(s, step).value;
      ContextStaysDone(s, step, next, i);
      if step.Writing? { WriterStaysRefused(s, step.writer, next, i, v); }
      LateWritesAreRefused(next, steps[1..], t, i, v);
    }
  }
}
