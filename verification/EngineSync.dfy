/** The serve loop and the server: what the server's view is, when it is the desired one, and what precedes a user
    frame. */
module EngineSync {
  import opened Basics
  import opened Engine
  import opened EngineLife
  import opened EngineMail
  import opened Subs = Subscription

  /** The view a server holds after what a connection has carried. User frames are opaque to it. */
  function Replay(log: seq<WireEvent>): (r: View) {
    if log == [] then EmptyView
    else
      var view, last := Replay(log[..|log| - 1]), log[|log| - 1];
      if last.Control? then Deliver(view, last.msg) else view
  }

  lemma ReplayAppend(log: seq<WireEvent>, event: WireEvent)
    ensures Replay(log + [event]) == if event.Control? then Deliver(Replay(log), event.msg) else Replay(log)
  {
    assert (log + [event])[..|log|] == log;
  }

  /** A completed synchronisation at `cur` or later stands before position j. */
  ghost predicate SyncedBefore(log: seq<WireEvent>, j: nat, cur: nat)
    requires j <= |log|
  {
    exists i | 0 <= i < j :: log[i].Synced? && cur <= log[i].revision
  }

  /** Every user frame is preceded by a synchronisation no older than the revision its iteration began with. */
  ghost predicate SyncBeforeSend(log: seq<WireEvent>) {
    forall j | 0 <= j < |log| && log[j].User? :: SyncedBefore(log, j, log[j].cur)
  }

  lemma SyncBeforeSendAppend(log: seq<WireEvent>, event: WireEvent)
    requires SyncBeforeSend(log)
    requires event.User? ==> SyncedBefore(log, |log|, event.cur)
    ensures SyncBeforeSend(log + [event])
  {
    var more := log + [event];
    forall j | 0 <= j < |more| && more[j].User? ensures SyncedBefore(more, j, more[j].cur) {
      assert SyncedBefore(log, j, more[j].cur);
      var i :| 0 <= i < j && log[i].Synced? && more[j].cur <= log[i].revision;
      assert more[i].Synced? && more[j].cur <= more[i].revision;
    }
  }

  /** All dequeued messages were written, except possibly the last one. */
  predicate LosesAtMostLast(wire: Wire) {
    || UserMessages(wire.log) == wire.taken
    || (wire.taken != [] && UserMessages(wire.log) == wire.taken[..|wire.taken| - 1])
  }

  /** What the loop's variables say of the view. */
  ghost predicate LocalsFit(loc: Locals, log: seq<WireEvent>, desired: Desired) {
    && Remembers(Replay(log), loc.previous, loc.wasListening)
    && (loc.wasListening ==> loc.previous == [])
    && (!loc.first ==>
          && loc.revision <= desired.revision
          && Synced(loc.revision) in log
          && (loc.revision == desired.revision ==> Agrees(Replay(log), desired)))
  }

  /** A snapshot in use: current, or a token will bring the loop back. */
  ghost predicate SnapshotFits(snap: Snapshot, desired: Desired, id: string, wake: bool) {
    && Shaped(snap)
    && snap.revision <= desired.revision
    && (snap.revision == desired.revision ==> IsSnapshot(snap, desired, id))
    && (snap.revision == desired.revision || wake)
  }

  /** What holds at each point of the serve loop. */
  ghost predicate PointFits(loc: Locals, at: Serve, log: seq<WireEvent>, desired: Desired, id: string, wake: bool) {
    match at
    case Top => LocalsFit(loc, log, desired)
    case Sync(cur) => LocalsFit(loc, log, desired) && cur <= desired.revision
    case Unsub(cur, snap) =>
      && Remembers(Replay(log), loc.previous, loc.wasListening)
      && (loc.wasListening ==> loc.previous == [])
      && SnapshotFits(snap, desired, id, wake) && cur <= snap.revision
    case Update(cur, snap) =>
      HalfWay(Replay(log), loc.previous, snap) && SnapshotFits(snap, desired, id, wake) && cur <= snap.revision
    case Select(cur) =>
      LocalsFit(loc, log, desired) && !loc.first && cur <= loc.revision && (loc.revision == desired.revision || wake)
    case Sending(cur) => LocalsFit(loc, log, desired) && !loc.first && cur <= loc.revision
    case Sent(cur, ok) => LocalsFit(loc, log, desired) && !loc.first && cur <= loc.revision
    case Resend(_) => true
  }

  /** What has been dequeued and what has been written, at each point. */
  predicate DeliveryFits(at: Serve, wire: Wire, inflight: Option<Bytes>) {
    var n := |wire.taken|;
    match at
    case Sending(_) =>
      n > 0 && UserMessages(wire.log) == wire.taken[..n - 1] && inflight == Some(wire.taken[n - 1])
    case Sent(_, ok) => n > 0 && (ok ==> UserMessages(wire.log) == wire.taken)
    case _ => UserMessages(wire.log) == wire.taken
  }

  ghost predicate ServeFits(s: State, i: nat)
    requires i < |s.sessions|
  {
    var sess := s.sessions[i];
    sess.run.Serving? && sess.run.conn < |s.wires| ==>
      && PointFits(sess.run.loc, sess.run.at, s.wires[sess.run.conn].log, s.desired, s.instanceID, sess.wake)
      && DeliveryFits(sess.run.at, s.wires[sess.run.conn], sess.mail.inflight)
  }

  ghost predicate Syncs(s: State) {
    && (forall k | 0 <= k < |s.wires| :: SyncBeforeSend(s.wires[k].log) && LosesAtMostLast(s.wires[k]))
    && (forall i | 0 <= i < |s.sessions| :: ServeFits(s, i))
  }

  // ---- the points of the loop, one step at a time ----

  lemma ChangeKeepsPoint(loc: Locals, at: Serve, log: seq<WireEvent>, d: Desired, e: Desired, id: string, wake: bool)
    requires PointFits(loc, at, log, d, id, wake) && e.revision > d.revision
    ensures PointFits(loc, at, log, e, id, true)
  {
  }

  lemma SnapshotStep(loc: Locals, cur: nat, log: seq<WireEvent>, d: Desired, id: string, wake: bool, addrs: seq<string>)
    requires PointFits(loc, Sync(cur), log, d, id, wake)
    requires Lists(addrs, DesiredSignatures(d).Keys)
    ensures PointFits(loc, Unsub(cur, SnapshotOf(d, addrs, id)), log, d, id, wake)
  {
    SnapshotIsShaped(SnapshotOf(d, addrs, id), d, id);
  }

  lemma UnsubscribeStep(loc: Locals, cur: nat, snap: Snapshot, log: seq<WireEvent>, d: Desired, id: string, wake: bool)
    requires PointFits(loc, Unsub(cur, snap), log, d, id, wake)
    ensures var sent := if NeedsUnsubscribe(loc.previous, loc.wasListening, snap)
                        then [Control(UnsubscribeOf(loc.previous, snap))] else [];
            PointFits(loc, Update(cur, snap), log + sent, d, id, wake)
  {
    UnsubscribeReachesHalfWay(Replay(log), loc.previous, loc.wasListening, snap);
    ReplayAppend(log, Control(UnsubscribeOf(loc.previous, snap)));
    assert log + [] == log;
  }

  lemma UpdateStep(loc: Locals, cur: nat, snap: Snapshot, log: seq<WireEvent>, d: Desired, id: string, wake: bool)
    requires PointFits(loc, Update(cur, snap), log, d, id, wake)
    ensures var sent := if NeedsUpdate(snap) then [Control(snap.msg)] else [];
            PointFits(Locals(snap.msg.addrs, snap.listening, snap.revision, false), Select(cur),
                      log + (sent + [Synced(snap.revision)]), d, id, wake)
  {
    var sent := if NeedsUpdate(snap) then [Control(snap.msg)] else [];
    UpdateIsRemembered(Replay(log), loc.previous, snap);
    if snap.revision == d.revision {
      UpdateReachesDesired(Replay(log), loc.previous, snap, d, id);
    }
    ReplayAppend(log, Control(snap.msg));
    assert log + [] == log;
    ReplayAppend(log + sent, Synced(snap.revision));
    assert log + (sent + [Synced(snap.revision)]) == (log + sent) + [Synced(snap.revision)];
  }

  lemma UserStep(loc: Locals, cur: nat, ok: bool, log: seq<WireEvent>, events: seq<WireEvent>, payload: Bytes,
                 d: Desired, id: string, wake: bool)
    requires PointFits(loc, Sending(cur), log, d, id, wake)
    requires events == [] || events == [User(payload, cur)]
    ensures PointFits(loc, Sent(cur, ok), log + events, d, id, wake)
  {
    ReplayAppend(log, User(payload, cur));
    assert log + [] == log;
  }

  lemma {:induction false} ControlKeepsOrder(log: seq<WireEvent>, events: seq<WireEvent>)
    requires SyncBeforeSend(log) && forall e | e in events :: !e.User?
    ensures SyncBeforeSend(log + events)
  {
    if events == [] {
      assert log + events == log;
    } else {
      var n := |events| - 1;
      assert log + events == (log + events[..n]) + [events[n]];
      ControlKeepsOrder(log, events[..n]);
      SyncBeforeSendAppend(log + events[..n], events[n]);
    }
  }

  lemma ControlKeepsWire(wire: Wire, events: seq<WireEvent>)
    requires SyncBeforeSend(wire.log) && LosesAtMostLast(wire)
    requires forall e | e in events :: !e.User?
    ensures SyncBeforeSend(wire.log + events) && LosesAtMostLast(wire.(log := wire.log + events))
    ensures UserMessages(wire.log + events) == UserMessages(wire.log)
  {
    UserMessagesControl(wire.log, events);
    ControlKeepsOrder(wire.log, events);
  }

  lemma UserKeepsWire(wire: Wire, events: seq<WireEvent>, loc: Locals, cur: nat, ok: bool, payload: Bytes, d: Desired)
    requires SyncBeforeSend(wire.log)
    requires LocalsFit(loc, wire.log, d) && !loc.first && cur <= loc.revision
    requires DeliveryFits(Sending(cur), wire, Some(payload))
    requires events == [User(payload, cur)] || (events == [] && !ok)
    ensures SyncBeforeSend(wire.log + events) && LosesAtMostLast(wire.(log := wire.log + events))
    ensures DeliveryFits(Sent(cur, ok), wire.(log := wire.log + events), Some(payload))
  {
    var n := |wire.taken|;
    assert wire.taken == wire.taken[..n - 1] + [wire.taken[n - 1]];
    if events == [] {
      assert wire.log + events == wire.log;
    } else {
      UserMessagesAppend(wire.log, events[0]);
      var i :| 0 <= i < |wire.log| && wire.log[i] == Synced(loc.revision);
      assert SyncedBefore(wire.log, |wire.log|, cur);
      SyncBeforeSendAppend(wire.log, events[0]);
    }
  }

  // ---- every step of the engine keeps it ----

  /** Steps that leave the loop's variables, the wires and the desired state alone. */
  lemma QuietStepKeepsSyncs(s: State, t: State)
    requires Syncs(s) && |t.sessions| == |s.sessions|
    requires t.wires == s.wires && t.desired == s.desired && t.instanceID == s.instanceID
    requires forall i | 0 <= i < |s.sessions| :: t.sessions[i].run.Serving? ==>
               t.sessions[i].run == s.sessions[i].run && t.sessions[i].wake == s.sessions[i].wake
               && t.sessions[i].mail.inflight == s.sessions[i].mail.inflight
    ensures Syncs(t)
  {
    forall i | 0 <= i < |t.sessions| ensures ServeFits(t, i) {
      assert ServeFits(s, i);
    }
  }

  /** A change of the desired state that bumps the revision and wakes the serving session. */
  lemma DesiredKeepsSyncs(s: State, d: Desired, t: State)
    requires Syncs(s) && SingleLive(s)
    requires d.revision > s.desired.revision && t == Notify(s.(desired := d))
    ensures Syncs(t)
  {
    forall i | 0 <= i < |t.sessions| ensures ServeFits(t, i) {
      assert ServeFits(s, i);
      if s.sessions[i].run.Serving? && s.sessions[i].run.conn < |s.wires| {
        OpenIsCurrent(s, i);
        var sess := s.sessions[i];
        ChangeKeepsPoint(sess.run.loc, sess.run.at, s.wires[sess.run.conn].log, s.desired, d, s.instanceID, sess.wake);
      }
    }
  }

  lemma CallerLeavesTokens(s: State, step: CallerStep, t: State)
    requires DoCaller(s, step) == Some(t) && t.desired == s.desired && !step.CallStart?
    ensures t.wires == s.wires && t.instanceID == s.instanceID && |t.sessions| == |s.sessions|
    ensures forall i | 0 <= i < |s.sessions| :: t.sessions[i] == s.sessions[i].(canceled := t.sessions[i].canceled)
  {
  }

  lemma UnchangedDesired(s: State, step: CallerStep, t: State)
    requires Syncs(s) && DoCaller(s, step) == Some(t) && t.desired == s.desired
    ensures Syncs(t)
  {
    if step.CallStart? {
      forall i | 0 <= i < |t.sessions| ensures ServeFits(t, i) {
        if i < |s.sessions| {
          assert ServeFits(s, i);
        }
      }
    } else {
      CallerLeavesTokens(s, step, t);
      QuietStepKeepsSyncs(s, t);
    }
  }

  lemma FinishStopKeepsSyncs(s: State, t: State)
    requires Syncs(s) && SingleLive(s) && DoCaller(s, FinishStop) == Some(t)
    ensures Syncs(t)
  {
    forall i | 0 <= i < |t.sessions| ensures ServeFits(t, i) {
      assert s.sessions[i].done && !s.sessions[i].run.Serving?;
    }
  }

  lemma CallerKeepsSyncs(s: State, step: CallerStep, t: State)
    requires Syncs(s) && SingleLive(s) && DoCaller(s, step) == Some(t)
    ensures Syncs(t)
  {
    if t.desired == s.desired {
      UnchangedDesired(s, step, t);
    } else if step.FinishStop? {
      FinishStopKeepsSyncs(s, t);
    } else {
      DesiredKeepsSyncs(s, t.desired, t);
    }
  }

  lemma WriterKeepsSyncs(s: State, step: WriterStep, t: State)
    requires Syncs(s) && DoWriter(s, step) == Some(t)
    ensures Syncs(t)
  {
    QuietStepKeepsSyncs(s, t);
  }

  lemma ConnectKeepsSyncs(s: State, i: nat, t: State)
    requires Syncs(s) && DoRunner(s, i, EndDial(Connected)) == Some(t)
    requires forall j | 0 <= j < |s.sessions| && HasConn(s.sessions[j].run) :: s.sessions[j].run.conn < |s.wires|
    requires |s.conns| == |s.wires|
    ensures Syncs(t)
  {
    NoElements([]);
    forall j | 0 <= j < |t.sessions| ensures ServeFits(t, j) {
      assert ServeFits(s, j);
    }
  }

  lemma RunnerLeavesServing(s: State, i: nat, step: RunnerStep, t: State)
    requires DoRunner(s, i, step) == Some(t) && !(step.EndDial? && step.result.Connected?)
    ensures t.sessions == s.sessions[i := t.sessions[i]] && !t.sessions[i].run.Serving?
    ensures t.wires == s.wires && t.desired == s.desired && t.instanceID == s.instanceID
  {
  }

  lemma RunnerKeepsSyncs(s: State, i: nat, step: RunnerStep, t: State)
    requires Syncs(s) && DoRunner(s, i, step) == Some(t)
    requires forall j | 0 <= j < |s.sessions| && HasConn(s.sessions[j].run) :: s.sessions[j].run.conn < |s.wires|
    requires |s.conns| == |s.wires|
    ensures Syncs(t)
  {
    if step.EndDial? && step.result.Connected? {
      ConnectKeepsSyncs(s, i, t);
    } else {
      RunnerLeavesServing(s, i, step, t);
      QuietStepKeepsSyncs(s, t);
    }
  }

  /** One serve step of session i on the newest connection, in terms of what it changes. */
  lemma ServeStepKeepsSyncs(s: State, i: nat, sess: Session, k: nat, wire: Wire)
    requires Syncs(s) && i < |s.sessions| && k < |s.wires|
    requires forall j | 0 <= j < |s.sessions| && j != i && HasConn(s.sessions[j].run) :: s.sessions[j].run.conn != k
    requires SyncBeforeSend(wire.log) && LosesAtMostLast(wire)
    requires sess.run.Serving? ==>
               && sess.run.conn == k
               && PointFits(sess.run.loc, sess.run.at, wire.log, s.desired, s.instanceID, sess.wake)
               && DeliveryFits(sess.run.at, wire, sess.mail.inflight)
    ensures Syncs(With(s, i, sess).(wires := s.wires[k := wire]))
  {
    var t := With(s, i, sess).(wires := s.wires[k := wire]);
    forall j | 0 <= j < |t.sessions| ensures ServeFits(t, j) {
      assert ServeFits(s, j);
    }
  }

  /** The serving session is the only one with a connection. */
  ghost predicate SoleServer(s: State, i: nat) {
    i < |s.sessions| && s.sessions[i].run.Serving? ==>
      && s.sessions[i].run.conn < |s.wires|
      && forall j | 0 <= j < |s.sessions| && j != i && HasConn(s.sessions[j].run) ::
           s.sessions[j].run.conn != s.sessions[i].run.conn
  }

  lemma SameWires(s: State, k: nat)
    requires k < |s.wires|
    ensures s.wires[k := s.wires[k]] == s.wires
  {
  }

  lemma ReadRevisionKeepsSyncs(s: State, i: nat, t: State)
    requires Syncs(s) && SoleServer(s, i) && DoServe(s, i, ReadRevision) == Some(t)
    ensures Syncs(t)
  {
    var k := s.sessions[i].run.conn;
    assert ServeFits(s, i);
    ServeStepKeepsSyncs(s, i, t.sessions[i], k, s.wires[k]);
    SameWires(s, k);
  }

  lemma TakeSnapshotKeepsSyncs(s: State, i: nat, addrs: seq<string>, t: State)
    requires Syncs(s) && SoleServer(s, i) && DoServe(s, i, TakeSnapshot(addrs)) == Some(t)
    ensures Syncs(t)
  {
    var sess := s.sessions[i];
    var k := sess.run.conn;
    assert ServeFits(s, i);
    SnapshotStep(sess.run.loc, sess.run.at.cur, s.wires[k].log, s.desired, s.instanceID, sess.wake, addrs);
    ServeStepKeepsSyncs(s, i, t.sessions[i], k, s.wires[k]);
    SameWires(s, k);
  }

  lemma SendUnsubscribeKeepsSyncs(s: State, i: nat, res: WriteOutcome, t: State)
    requires Syncs(s) && SoleServer(s, i) && DoServe(s, i, SendUnsubscribe(res)) == Some(t)
    ensures Syncs(t)
  {
    var sess := s.sessions[i];
    var k, at := sess.run.conn, sess.run.at;
    var wire := s.wires[k];
    assert ServeFits(s, i);
    UnsubscribeStep(sess.run.loc, at.cur, at.snap, wire.log, s.desired, s.instanceID, sess.wake);
    ControlKeepsWire(wire, t.wires[k].log[|wire.log|..]);
    ServeStepKeepsSyncs(s, i, t.sessions[i], k, t.wires[k]);
  }

  lemma SendUpdateKeepsSyncs(s: State, i: nat, res: WriteOutcome, t: State)
    requires Syncs(s) && SoleServer(s, i) && DoServe(s, i, SendUpdate(res)) == Some(t)
    ensures Syncs(t)
  {
    var sess := s.sessions[i];
    var k, at := sess.run.conn, sess.run.at;
    var wire := s.wires[k];
    assert ServeFits(s, i);
    UpdateStep(sess.run.loc, at.cur, at.snap, wire.log, s.desired, s.instanceID, sess.wake);
    ControlKeepsWire(wire, t.wires[k].log[|wire.log|..]);
    ServeStepKeepsSyncs(s, i, t.sessions[i], k, t.wires[k]);
  }

  lemma SyncStepKeepsSyncs(s: State, i: nat, step: ServeStep, t: State)
    requires step.SendUnsubscribe? || step.SendUpdate? || step.ReadRevision? || step.TakeSnapshot?
    requires Syncs(s) && SoleServer(s, i) && DoServe(s, i, step) == Some(t)
    ensures Syncs(t)
  {
    match step
    case ReadRevision => ReadRevisionKeepsSyncs(s, i, t);
    case TakeSnapshot(addrs) => TakeSnapshotKeepsSyncs(s, i, addrs, t);
    case SendUnsubscribe(res) => SendUnsubscribeKeepsSyncs(s, i, res, t);
    case SendUpdate(res) => SendUpdateKeepsSyncs(s, i, res, t);
  }

  lemma SelectSendKeepsSyncs(s: State, i: nat, t: State)
    requires Syncs(s) && SoleServer(s, i) && DoServe(s, i, SelectSend) == Some(t)
    ensures Syncs(t)
  {
    var k := s.sessions[i].run.conn;
    assert ServeFits(s, i);
    assert t.wires[k].taken[..|s.wires[k].taken|] == s.wires[k].taken;
    ServeStepKeepsSyncs(s, i, t.sessions[i], k, t.wires[k]);
  }

  lemma SendUserKeepsSyncs(s: State, i: nat, res: WriteOutcome, t: State)
    requires Syncs(s) && SoleServer(s, i) && DoServe(s, i, SendUser(res)) == Some(t)
    ensures Syncs(t)
  {
    var sess := s.sessions[i];
    var k := sess.run.conn;
    var wire := s.wires[k];
    assert ServeFits(s, i);
    var b, cur := sess.mail.inflight.value, sess.run.at.cur;
    var events := Delivered(res, User(b, cur));
    UserKeepsWire(wire, events, sess.run.loc, cur, res.WriteOk?, b, s.desired);
    UserStep(sess.run.loc, cur, res.WriteOk?, wire.log, events, b, s.desired, s.instanceID, sess.wake);
    ServeStepKeepsSyncs(s, i, t.sessions[i], k, t.wires[k]);
  }

  lemma AccountKeepsSyncs(s: State, i: nat, t: State)
    requires Syncs(s) && SoleServer(s, i) && DoServe(s, i, Account) == Some(t)
    ensures Syncs(t)
  {
    var k := s.sessions[i].run.conn;
    assert ServeFits(s, i);
    ServeStepKeepsSyncs(s, i, t.sessions[i], k, s.wires[k]);
    SameWires(s, k);
  }

  lemma SendStepKeepsSyncs(s: State, i: nat, step: ServeStep, t: State)
    requires step.SelectSend? || step.SendUser? || step.Account?
    requires Syncs(s) && SoleServer(s, i) && DoServe(s, i, step) == Some(t)
    ensures Syncs(t)
  {
    match step
    case SelectSend => SelectSendKeepsSyncs(s, i, t);
    case SendUser(res) => SendUserKeepsSyncs(s, i, res, t);
    case Account => AccountKeepsSyncs(s, i, t);
  }

  lemma SelectStepKeepsSyncs(s: State, i: nat, step: ServeStep, t: State)
    requires step.SelectDone? || step.SelectReader? || step.ResendToken? || step.SelectWake? || step.SelectPing?
    requires Syncs(s) && SoleServer(s, i) && DoServe(s, i, step) == Some(t)
    ensures Syncs(t)
  {
    assert ServeFits(s, i);
    forall j | 0 <= j < |t.sessions| ensures ServeFits(t, j) {
      assert ServeFits(s, j);
    }
  }

  lemma ServeKeepsSyncs(s: State, i: nat, step: ServeStep, t: State)
    requires Syncs(s) && SoleServer(s, i) && DoServe(s, i, step) == Some(t)
    ensures Syncs(t)
  {
    if step.SendUnsubscribe? || step.SendUpdate? || step.ReadRevision? || step.TakeSnapshot? {
      SyncStepKeepsSyncs(s, i, step, t);
    } else if step.SelectSend? || step.SendUser? || step.Account? {
      SendStepKeepsSyncs(s, i, step, t);
    } else {
      SelectStepKeepsSyncs(s, i, step, t);
    }
  }

  lemma ReaderKeepsSyncs(s: State, k: nat, step: ReaderStep, t: State)
    requires Syncs(s) && DoReader(s, k, step) == Some(t)
    ensures Syncs(t)
  {
    QuietStepKeepsSyncs(s, t);
  }

  lemma DispatchKeepsSyncs(s: State, actor: Actor, step: DispatchStep, t: State)
    requires Syncs(s) && DoDispatch(s, actor, step) == Some(t)
    ensures Syncs(t)
  {
    QuietStepKeepsSyncs(s, t);
  }
}
