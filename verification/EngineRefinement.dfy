/** The engine's steps, taken one after another without interruption, do what the methods of module Client do in one
    go. */
module EngineRefinement {
  import opened Basics
  import opened Reconnect
  import opened Engine
  import Client
  import Subs = Subscription

  /** The frames of a log as control events. */
  function Controls(frames: seq<Subs.Message>): (r: seq<WireEvent>) {
    seq(|frames|, j requires 0 <= j < |frames| => Control(frames[j]))
  }

  /** How the n-th write from now ends. */
  function Nth(n: nat, healthy: nat, delivered: bool): (res: WriteOutcome) {
    if n < healthy then WriteOk else WriteFailed(delivered)
  }

  /** The steps of one synchronisation on a connection with `healthy` further writes; `delivered` says whether the write
      that fails still reached the server. */
  function SyncSteps(i: nat, previous: seq<string>, wasListening: bool, snap: Subs.Snapshot, healthy: nat,
                     delivered: bool): (steps: seq<Step>)
  {
    var first := if Subs.NeedsUnsubscribe(previous, wasListening, snap) then 1 else 0;
    [Serves(i, TakeSnapshot(snap.msg.addrs)), Serves(i, SendUnsubscribe(Nth(0, healthy, delivered)))] +
    if healthy < first then [] else [Serves(i, SendUpdate(Nth(first, healthy, delivered)))]
  }

  lemma RunOne(s: State, a: Step, rest: seq<Step>, t: State)
    requires Runs(s, [a] + rest, t)
    ensures Do(s, a).Some? && Runs(Do(s, a).value, rest, t)
  {
    assert ([a] + rest)[1..] == rest;
  }

  lemma RunTwo(s: State, b: Step, c: Step, t: State)
    requires Runs(s, [b, c], t)
    ensures Do(s, b).Some? && Do(Do(s, b).value, c) == Some(t)
  {
    assert [b, c] == [b] + [c] && [c] == [c] + [];
    RunOne(s, b, [c], t);
    RunOne(Do(s, b).value, c, [], t);
  }

  lemma RunThree(s: State, a: Step, b: Step, c: Step, t: State)
    requires Runs(s, [a, b, c], t)
    ensures Do(s, a).Some? && Do(Do(s, a).value, b).Some? && Do(Do(Do(s, a).value, b).value, c) == Some(t)
  {
    assert [a, b, c] == [a] + [b, c];
    RunOne(s, a, [b, c], t);
    RunTwo(Do(s, a).value, b, c, t);
  }

  /** The frames on the wire after a synchronisation on a connection with `healthy` further writes. */
  function SentFrames(frames: seq<Subs.Message>, healthy: nat, delivered: bool): (sent: seq<Subs.Message>) {
    if healthy >= |frames| then frames else if delivered then frames[..healthy + 1] else frames[..healthy]
  }

  lemma SnapshotTaken(s: State, i: nat, addrs: seq<string>, t: State)
    requires DoServe(s, i, TakeSnapshot(addrs)) == Some(t)
    ensures var run := s.sessions[i].run;
            var snap := Subs.SnapshotOf(s.desired, addrs, s.instanceID);
            && Subs.IsSnapshot(snap, s.desired, s.instanceID) && run.at.Sync?
            && t == RunTo(s, i, Serving(run.conn, run.loc, Unsub(run.at.cur, snap)))
  {
  }

  lemma UnsubscribeSent(s: State, i: nat, res: WriteOutcome, t: State)
    requires DoServe(s, i, SendUnsubscribe(res)) == Some(t)
    ensures var run := s.sessions[i].run;
            && run.at.Unsub?
            && var needed := Subs.NeedsUnsubscribe(run.loc.previous, run.loc.wasListening, run.at.snap);
               t == Log(RunTo(s, i, if needed && res.WriteFailed? then Joining(run.conn, IOFailure)
                                    else Serving(run.conn, run.loc, Update(run.at.cur, run.at.snap))), run.conn,
                        if needed then Delivered(res, Control(Subs.UnsubscribeOf(run.loc.previous, run.at.snap)))
                        else [])
  {
  }

  lemma StopsAtUnsubscribe(s: State, i: nat, snap: Subs.Snapshot, delivered: bool, t: State)
    requires i < |s.sessions| && s.sessions[i].run.Serving? && s.sessions[i].run.conn < |s.wires|
    requires Subs.IsSnapshot(snap, s.desired, s.instanceID)
    requires Subs.NeedsUnsubscribe(s.sessions[i].run.loc.previous, s.sessions[i].run.loc.wasListening, snap)
    requires Runs(s, [Serves(i, TakeSnapshot(snap.msg.addrs)), Serves(i, SendUnsubscribe(WriteFailed(delivered)))], t)
    ensures var run := s.sessions[i].run;
            && |t.sessions| == |s.sessions| && |t.wires| == |s.wires| && t.desired == s.desired
            && t.wires[run.conn].log == s.wires[run.conn].log
                 + Delivered(WriteFailed(delivered), Control(Subs.UnsubscribeOf(run.loc.previous, snap)))
            && t.sessions[i].run == Joining(run.conn, IOFailure)
  {
    var take, unsub := Serves(i, TakeSnapshot(snap.msg.addrs)), Serves(i, SendUnsubscribe(WriteFailed(delivered)));
    RunTwo(s, take, unsub, t);
    SnapshotTaken(s, i, snap.msg.addrs, Do(s, take).value);
    UnsubscribeSent(Do(s, take).value, i, WriteFailed(delivered), t);
  }

  /** The log after a failed unsubscribe frame. */
  lemma StoppedFrames(previous: seq<string>, wasListening: bool, snap: Subs.Snapshot, delivered: bool,
                      log: seq<WireEvent>)
    requires Subs.NeedsUnsubscribe(previous, wasListening, snap)
    ensures var frames := Subs.Frames(previous, wasListening, snap);
            && |frames| > 0
            && log + Delivered(WriteFailed(delivered), Control(Subs.UnsubscribeOf(previous, snap))) ==
               log + Controls(SentFrames(frames, 0, delivered)) + []
  {
    assert Controls(SentFrames(Subs.Frames(previous, wasListening, snap), 0, delivered)) ==
           Delivered(WriteFailed(delivered), Control(Subs.UnsubscribeOf(previous, snap)));
  }

  lemma UpdateSent(s: State, i: nat, res: WriteOutcome, t: State)
    requires DoServe(s, i, SendUpdate(res)) == Some(t)
    ensures var run := s.sessions[i].run;
            && run.at.Update?
            && var snap, needed := run.at.snap, Subs.NeedsUpdate(run.at.snap);
               t == Log(RunTo(s, i, if needed && res.WriteFailed? then Joining(run.conn, IOFailure)
                                    else Serving(run.conn, Locals(snap.msg.addrs, snap.listening, snap.revision, false),
                                                 Select(run.at.cur))), run.conn,
                        (if needed then Delivered(res, Control(snap.msg)) else [])
                        + (if needed && res.WriteFailed? then [] else [Synced(snap.revision)]))
  {
  }

  lemma GoesOnToUpdate(s: State, i: nat, snap: Subs.Snapshot, a: WriteOutcome, b: WriteOutcome, t: State)
    requires i < |s.sessions| && s.sessions[i].run.Serving? && s.sessions[i].run.conn < |s.wires|
    requires Subs.IsSnapshot(snap, s.desired, s.instanceID)
    requires Subs.NeedsUnsubscribe(s.sessions[i].run.loc.previous, s.sessions[i].run.loc.wasListening, snap) ==>
               a.WriteOk?
    requires Runs(s, [Serves(i, TakeSnapshot(snap.msg.addrs)), Serves(i, SendUnsubscribe(a)),
                      Serves(i, SendUpdate(b))], t)
    ensures var run := s.sessions[i].run;
            var ok := !(Subs.NeedsUpdate(snap) && b.WriteFailed?);
            && |t.sessions| == |s.sessions| && |t.wires| == |s.wires| && t.desired == s.desired
            && t.wires[run.conn].log == s.wires[run.conn].log
                 + (if Subs.NeedsUnsubscribe(run.loc.previous, run.loc.wasListening, snap)
                    then Delivered(a, Control(Subs.UnsubscribeOf(run.loc.previous, snap))) else [])
                 + ((if Subs.NeedsUpdate(snap) then Delivered(b, Control(snap.msg)) else [])
                    + (if ok then [Synced(snap.revision)] else []))
            && (if ok then
                  && t.sessions[i].run.Serving? && t.sessions[i].run.conn == run.conn
                  && t.sessions[i].run.loc == Locals(snap.msg.addrs, snap.listening, snap.revision, false)
                else t.sessions[i].run == Joining(run.conn, IOFailure))
  {
    var take, unsub := Serves(i, TakeSnapshot(snap.msg.addrs)), Serves(i, SendUnsubscribe(a));
    RunThree(s, take, unsub, Serves(i, SendUpdate(b)), t);
    var one := Do(s, take).value;
    SnapshotTaken(s, i, snap.msg.addrs, one);
    UnsubscribeSent(one, i, a, Do(one, unsub).value);
    UpdateSent(Do(one, unsub).value, i, b, t);
  }

  /** The log after both write steps. */
  lemma WrittenFrames(previous: seq<string>, wasListening: bool, snap: Subs.Snapshot, healthy: nat, delivered: bool,
                      log: seq<WireEvent>)
    requires Subs.NeedsUnsubscribe(previous, wasListening, snap) ==> healthy > 0
    ensures var first := Subs.NeedsUnsubscribe(previous, wasListening, snap);
            var frames := Subs.Frames(previous, wasListening, snap);
            var n := if first then 1 else 0;
            var ok := !(Subs.NeedsUpdate(snap) && Nth(n, healthy, delivered).WriteFailed?);
            && ok == (healthy >= |frames|)
            && log + (if first then Delivered(Nth(0, healthy, delivered), Control(Subs.UnsubscribeOf(previous, snap)))
                      else [])
                 + ((if Subs.NeedsUpdate(snap) then Delivered(Nth(n, healthy, delivered), Control(snap.msg)) else [])
                    + (if ok then [Synced(snap.revision)] else [])) ==
               log + Controls(SentFrames(frames, healthy, delivered)) + (if ok then [Synced(snap.revision)] else [])
  {
    var first := Subs.NeedsUnsubscribe(previous, wasListening, snap);
    var frames := Subs.Frames(previous, wasListening, snap);
    var a := if first then [Control(Subs.UnsubscribeOf(previous, snap))] else [];
    var b := if Subs.NeedsUpdate(snap)
             then Delivered(Nth(if first then 1 else 0, healthy, delivered), Control(snap.msg)) else [];
    assert Controls(SentFrames(frames, healthy, delivered)) == a + b;
  }

  /** The synchronisation steps put exactly the frames of the diff on the wire, up to the first write that fails, as
      SyncSubscription does, and leave the loop with what SyncSubscription returns or the connection given up. */
  lemma SyncStepsSendFrames(s: State, i: nat, snap: Subs.Snapshot, healthy: nat, delivered: bool, t: State)
    requires i < |s.sessions| && s.sessions[i].run.Serving? && s.sessions[i].run.conn < |s.wires|
    requires Subs.IsSnapshot(snap, s.desired, s.instanceID)
    requires var loc := s.sessions[i].run.loc;
             Runs(s, SyncSteps(i, loc.previous, loc.wasListening, snap, healthy, delivered), t)
    ensures var run := s.sessions[i].run;
            var frames := Subs.Frames(run.loc.previous, run.loc.wasListening, snap);
            var ok := healthy >= |frames|;
            && |t.sessions| == |s.sessions| && |t.wires| == |s.wires| && t.desired == s.desired
            && t.wires[run.conn].log == s.wires[run.conn].log + Controls(SentFrames(frames, healthy, delivered))
                                        + (if ok then [Synced(snap.revision)] else [])
            && (if ok then
                  && t.sessions[i].run.Serving? && t.sessions[i].run.conn == run.conn
                  && t.sessions[i].run.loc == Locals(snap.msg.addrs, snap.listening, snap.revision, false)
                else t.sessions[i].run == Joining(run.conn, IOFailure))
  {
    var loc := s.sessions[i].run.loc;
    var log := s.wires[s.sessions[i].run.conn].log;
    var n := if Subs.NeedsUnsubscribe(loc.previous, loc.wasListening, snap) then 1 else 0;
    var steps := SyncSteps(i, loc.previous, loc.wasListening, snap, healthy, delivered);
    if healthy < n {
      assert steps == [Serves(i, TakeSnapshot(snap.msg.addrs)), Serves(i, SendUnsubscribe(WriteFailed(delivered)))];
      StopsAtUnsubscribe(s, i, snap, delivered, t);
      StoppedFrames(loc.previous, loc.wasListening, snap, delivered, log);
    } else {
      var a, b := Nth(0, healthy, delivered), Nth(n, healthy, delivered);
      assert steps ==
             [Serves(i, TakeSnapshot(snap.msg.addrs)), Serves(i, SendUnsubscribe(a)), Serves(i, SendUpdate(b))];
      GoesOnToUpdate(s, i, snap, a, b, t);
      WrittenFrames(loc.previous, loc.wasListening, snap, healthy, delivered, log);
    }
  }

  /** The drain as steps: one for each queued message, then the close. */
  function DrainSteps(i: nat, n: nat): (r: seq<Step>) {
    if n == 0 then [Running(i, CloseDone)] else [Running(i, DrainOne)] + DrainSteps(i, n - 1)
  }

  /** What Session.Drain leaves, and what became of the queue. */
  function DrainedMail(mail: Mail): (left: Mail) {
    var rest := Emptied(mail.queue, mail.queuedBytes);
    mail.(queue := rest.0, queuedBytes := rest.1, drained := mail.drained + mail.queue)
  }

  /** What the drain leads to is the same after one message of it. */
  lemma OneDrained(s: State, i: nat, t: State)
    requires DoRunner(s, i, DrainOne) == Some(t)
    ensures |t.sessions| == |s.sessions| && t.sessions[i].run.Draining?
    ensures s.sessions[i].mail.queue != [] && t.sessions[i].mail.queue == s.sessions[i].mail.queue[1..]
    ensures DrainedMail(t.sessions[i].mail) == DrainedMail(s.sessions[i].mail)
    ensures var end := s.sessions[i].(done := true, run := Finished, mail := DrainedMail(s.sessions[i].mail));
            && t.sessions[i].(done := true, run := Finished, mail := DrainedMail(s.sessions[i].mail)) == end
            && With(t, i, end) == With(s, i, end)
  {
    var mail := s.sessions[i].mail;
    assert mail.drained + [mail.queue[0]] + mail.queue[1..] == mail.drained + mail.queue;
  }

  /** Once runSession holds the lock, its steps run through without waiting and leave what Drain leaves. */
  lemma {:induction false} DrainStepsRefineDrain(s: State, i: nat)
    requires i < |s.sessions| && s.sessions[i].run.Draining?
    ensures var n := |s.sessions[i].mail.queue|;
            Runs(s, DrainSteps(i, n),
                 With(s, i, s.sessions[i].(done := true, run := Finished, mail := DrainedMail(s.sessions[i].mail)))
                 .(draining := None))
    decreases |s.sessions[i].mail.queue|
  {
    var sess := s.sessions[i];
    var mail := sess.mail;
    if mail.queue == [] {
      assert DrainedMail(mail) == mail;
      assert DrainSteps(i, 0)[1..] == [];
    } else {
      var next := DoRunner(s, i, DrainOne).value;
      OneDrained(s, i, next);
      DrainStepsRefineDrain(next, i);
      assert DrainSteps(i, |mail.queue|)[1..] == DrainSteps(i, |mail.queue| - 1);
    }
  }

  /** From equal queues and counters, Session.Drain and the steps of the drain end in equal ones. */
  method DrainMatchesSteps(session: Client.Session, s: State, i: nat)
    requires i < |s.sessions| && s.sessions[i].run.Draining? && s.sessions[i].canceled
    requires session.send == s.sessions[i].mail.queue && session.queuedBytes == s.sessions[i].mail.queuedBytes
    modifies session
    ensures exists t :: Runs(s, DrainSteps(i, |s.sessions[i].mail.queue|), t) && i < |t.sessions|
              && session.send == t.sessions[i].mail.queue && session.queuedBytes == t.sessions[i].mail.queuedBytes
              && session.canceled == t.sessions[i].canceled && session.done == t.sessions[i].done
  {
    DrainStepsRefineDrain(s, i);
    session.Drain();
  }

  /** From equal desired states, SyncSubscription and the synchronisation steps put the same frames on the wire,
      whichever write fails. */
  method SyncMatchesSteps(client: Client.Client, conn: Client.Connection, s: State, i: nat,
                          ghost snap: Subs.Snapshot, ghost t: State) returns (ok: bool)
    requires client.Desired() == s.desired && client.clientInstanceID == s.instanceID
    requires i < |s.sessions| && s.sessions[i].run.Serving? && s.sessions[i].run.conn < |s.wires|
    requires Subs.IsSnapshot(snap, s.desired, s.instanceID)
    requires var loc := s.sessions[i].run.loc;
             Runs(s, SyncSteps(i, loc.previous, loc.wasListening, snap, conn.healthy, false), t)
    modifies conn
    ensures var run := s.sessions[i].run;
            && |t.sessions| == |s.sessions| && |t.wires| == |s.wires| && old(conn.sent) <= conn.sent
            && t.wires[run.conn].log == s.wires[run.conn].log + Controls(conn.sent[|old(conn.sent)|..])
                                        + (if ok then [Synced(snap.revision)] else [])
            && ok == t.sessions[i].run.Serving?
  {
    SyncStepsSendFrames(s, i, snap, conn.healthy, false, t);
    var addrs, listening, revision;
    ghost var taken;
    addrs, listening, revision, ok, taken :=
      client.SyncSubscription(conn, s.sessions[i].run.loc.previous, s.sessions[i].run.loc.wasListening);
    Subs.ListingIsUnique(taken.msg.addrs, snap.msg.addrs, Subs.DesiredSignatures(s.desired).Keys);
  }
}
