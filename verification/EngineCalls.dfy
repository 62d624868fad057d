/** What a call of the client achieves: how each call is answered in every state, and what reaches the server, the send
    queue and the callbacks because of it. */
module EngineCalls {
  import opened Basics
  import opened Reconnect
  import opened Engine
  import opened EngineLife
  import opened EngineMail
  import opened EngineSync
  import opened EngineInvariant
  import opened EngineTheorems
  import opened EngineConverge
  import In = Incoming
  import Subs = Subscription

  /** The context of session i is done. */
  predicate Canceled(s: State, i: nat) {
    s.canceled || (i < |s.sessions| && s.sessions[i].canceled)
  }

  lemma OpenWhenLive(s: State, i: nat)
    requires Reachable(s) && s.session == Some(i) && i < |s.sessions| && !Canceled(s, i)
    ensures !s.sessions[i].done && s.draining.None?
  {
    ReachableInv(s);
    assert SessionOk(s.sessions[i]);
    OpenIsCurrent(s, i);
    if s.draining.Some? {
      assert s.sessions[s.draining.value].run.Draining?;
      assert !s.sessions[s.draining.value].done;
      OpenIsCurrent(s, s.draining.value);
      assert false;
    }
  }

  lemma CurrentExists(s: State)
    requires Reachable(s)
    ensures s.session.Some? ==> s.session.value < |s.sessions|
    ensures s.stopping.Some? ==> s.stopping == s.session
  {
    ReachableInv(s);
  }

  /** A new client: Subscription mode, nothing subscribed, no session, no callbacks. */
  lemma NewClientIsEmpty(id: string)
    ensures Initial(id).desired == Subs.Desired(0, {}, map[], [], 0)
    ensures !Initial(id).canceled && Initial(id).session.None?
    ensures Initial(id).sessions == [] && Initial(id).writers == []
    ensures Initial(id).board == Board([], [], [], 0, [], [], [])
  {
  }

  /** A caller waits for nothing but the client mutex, and Start and Stop for a call of Stop under way as well; a
      caller's own context can be done at any time. */
  lemma CallersProceed(s: State, addresses: seq<string>, signatures: map<string, string>, types: seq<Subs.TxType>,
                       mode: int, r: Registration)
    ensures var free := s.draining.None? && forall w | 0 <= w < |s.writers| :: s.writers[w].at.Returned?;
            && (DoCaller(s, CallSubscribe(addresses, signatures, types)).Some? <==> free)
            && (DoCaller(s, CallUnsubscribe).Some? <==> free)
            && (DoCaller(s, CallWithMode(mode)).Some? <==> free)
            && (DoCaller(s, Register(r)).Some? <==> free)
            && (DoCaller(s, CallStart).Some? <==> free && s.stopping.None?)
            && (DoCaller(s, CallStop).Some? <==> free && s.stopping.None?)
    ensures DoCaller(s, CancelRoot) == Some(s.(canceled := true))
  {
  }

  // ---- Write ----

  /** How a call of Write is answered at once, in every reachable state, and that it touches no session. */
  lemma WriteAnswers(s: State, payload: Bytes, t: State)
    requires Reachable(s) && DoWriter(s, CallWrite(payload)) == Some(t)
    ensures |t.writers| == |s.writers| + 1 && t == s.(writers := s.writers + [t.writers[|s.writers|]])
    ensures var at := t.writers[|s.writers|].at;
            && t.writers[|s.writers|].payload == payload
            && (at == Returned(TooLarge) <==> |payload| > 16_777_216)
            && (at == Returned(NotStarted) <==> |payload| <= 16_777_216 && s.session.None?)
            && (at == Returned(ContextDone) <==>
                  |payload| <= 16_777_216 && s.session.Some? && Canceled(s, s.session.value))
            && (forall i: nat :: at == Checked(i) <==>
                  |payload| <= 16_777_216 && s.session == Some(i) && !Canceled(s, i))
            && (at.Checked? || at.Returned?)
  {
    CurrentExists(s);
  }

  /** The budget decides after the counter has been read, and refusal touches no session. */
  lemma LoadAnswers(s: State, w: nat, t: State)
    requires DoWriter(s, Load(w)) == Some(t)
    ensures w < |s.writers| && s.writers[w].at.Checked? && s.writers[w].at.session < |s.sessions|
    ensures t.sessions == s.sessions && |t.writers| == |s.writers|
    ensures var mail := s.sessions[s.writers[w].at.session].mail;
            t.writers[w].at == if mail.queuedBytes + |s.writers[w].payload| > 16_777_216 then Returned(BudgetExceeded)
                               else Loaded(s.writers[w].at.session, mail.queuedBytes)
  {
  }

  /** A reserved message can be sent exactly while the queue has room, and given up exactly after the timeout or when
      the session's context is done; the two have their own answers. */
  lemma ReservedAnswers(s: State, w: nat)
    requires w < |s.writers| && s.writers[w].at.Reserved? && s.writers[w].at.session < |s.sessions|
    ensures var i := s.writers[w].at.session;
            && (DoWriter(s, Enqueue(w)).Some? <==> |s.sessions[i].mail.queue| < 64)
            && DoWriter(s, GiveUp(w, true)) == Some(WriterTo(s, w, Aborting(i, QueueFull)))
            && (DoWriter(s, GiveUp(w, false)).Some? <==> Canceled(s, i))
            && (Canceled(s, i) ==> DoWriter(s, GiveUp(w, false)) == Some(WriterTo(s, w, Aborting(i, ContextDone))))
  {
  }

  // ---- short runs ----

  lemma RunCons(s: State, a: Step, n: State, rest: seq<Step>, t: State)
    requires Do(s, a) == Some(n) && Runs(n, rest, t)
    ensures Runs(s, [a] + rest, t)
  {
    assert ([a] + rest)[1..] == rest;
  }

  lemma RunThree(s: State, a: Step, b: Step, c: Step, s1: State, s2: State, t: State)
    requires Do(s, a) == Some(s1) && Do(s1, b) == Some(s2) && Do(s2, c) == Some(t)
    ensures Runs(s, [a, b, c], t)
  {
    assert Runs(t, [], t);
    RunCons(s2, c, t, [], t);
    assert [c] + [] == [c] && [b] + [c] == [b, c] && [a] + [b, c] == [a, b, c];
    RunCons(s1, b, s2, [c], t);
    RunCons(s, a, s1, [b, c], t);
  }

  lemma RunFour(s: State, a: Step, b: Step, c: Step, d: Step, s1: State, s2: State, s3: State, t: State)
    requires Do(s, a) == Some(s1) && Do(s1, b) == Some(s2) && Do(s2, c) == Some(s3) && Do(s3, d) == Some(t)
    ensures Runs(s, [a, b, c, d], t)
  {
    RunThree(s1, b, c, d, s2, s3, t);
    assert [a] + [b, c, d] == [a, b, c, d];
    RunCons(s, a, s1, [b, c, d], t);
  }

  // ---- an accepted Write ----

  /** The four steps of an accepted Write on an idle client path. */
  function AcceptedWrite(payload: Bytes, w: nat): (steps: seq<Step>) {
    [Writing(CallWrite(payload)), Writing(Load(w)), Writing(Swap(w)), Writing(Enqueue(w))]
  }

  function Queued(mail: Mail, payload: Bytes): (r: Mail) {
    mail.(queuedBytes := mail.queuedBytes + |payload|, queue := mail.queue + [payload],
          accepted := mail.accepted + [payload])
  }

  lemma AppendedWriterTo(s: State, writer: Writer, at: WriterAt)
    ensures WriterTo(s.(writers := s.writers + [writer]), |s.writers|, at) ==
            s.(writers := s.writers + [writer.(at := at)])
  {
  }

  lemma LoadStep(s: State, w: nat, i: nat)
    requires w < |s.writers| && s.writers[w].at == Checked(i) && i < |s.sessions|
    requires s.sessions[i].mail.queuedBytes + |s.writers[w].payload| <= 16_777_216
    ensures DoWriter(s, Load(w)) == Some(WriterTo(s, w, Loaded(i, s.sessions[i].mail.queuedBytes)))
  {
  }

  lemma SwapStep(s: State, w: nat, i: nat)
    requires w < |s.writers| && i < |s.sessions| && s.writers[w].at == Loaded(i, s.sessions[i].mail.queuedBytes)
    ensures var mail := s.sessions[i].mail;
            DoWriter(s, Swap(w)) == Some(MailTo(WriterTo(s, w, Reserved(i)), i,
              mail.(queuedBytes := mail.queuedBytes + |s.writers[w].payload|)))
  {
  }

  lemma EnqueueStep(s: State, w: nat, i: nat)
    requires w < |s.writers| && i < |s.sessions| && s.writers[w].at == Reserved(i) && |s.sessions[i].mail.queue| < 64
    ensures var mail, b := s.sessions[i].mail, s.writers[w].payload;
            DoWriter(s, Enqueue(w)) == Some(MailTo(WriterTo(s, w, Returned(Accepted(i))), i,
              mail.(queue := mail.queue + [b], accepted := mail.accepted + [b])))
  {
  }

  lemma CallWriteStep(s: State, i: nat, payload: Bytes)
    requires s.session == Some(i) && i < |s.sessions| && !Canceled(s, i) && s.draining.None?
    requires |payload| <= 16_777_216
    ensures DoWriter(s, CallWrite(payload)) == Some(s.(writers := s.writers + [Writer(payload, Checked(i))]))
  {
  }

  lemma SwappedThenEnqueued(s: State, i: nat, payload: Bytes)
    requires i < |s.sessions|
    ensures var w, mail := |s.writers|, s.sessions[i].mail;
            var s2 := s.(writers := s.writers + [Writer(payload, Loaded(i, mail.queuedBytes))]);
            var reserved := mail.(queuedBytes := mail.queuedBytes + |payload|);
            var s3 := MailTo(WriterTo(s2, w, Reserved(i)), i, reserved);
            && w < |s3.writers| && s3.writers[w] == Writer(payload, Reserved(i)) && s3.sessions[i].mail == reserved
            && MailTo(WriterTo(s3, w, Returned(Accepted(i))), i,
                      reserved.(queue := reserved.queue + [payload], accepted := reserved.accepted + [payload])) ==
               s.(writers := s.writers + [Writer(payload, Returned(Accepted(i)))],
                  sessions := s.sessions[i := s.sessions[i].(mail := Queued(mail, payload))])
  {
  }

  lemma CallThenLoad(s: State, i: nat, payload: Bytes) returns (s1: State)
    requires s.session == Some(i) && i < |s.sessions| && !Canceled(s, i) && s.draining.None?
    requires 0 <= s.sessions[i].mail.queuedBytes && s.sessions[i].mail.queuedBytes + |payload| <= 16_777_216
    ensures Do(s, Writing(CallWrite(payload))) == Some(s1)
    ensures Do(s1, Writing(Load(|s.writers|))) ==
            Some(s.(writers := s.writers + [Writer(payload, Loaded(i, s.sessions[i].mail.queuedBytes))]))
  {
    s1 := s.(writers := s.writers + [Writer(payload, Checked(i))]);
    CallWriteStep(s, i, payload);
    LoadStep(s1, |s.writers|, i);
    AppendedWriterTo(s, Writer(payload, Checked(i)), Loaded(i, s.sessions[i].mail.queuedBytes));
  }

  lemma SwapThenEnqueue(s: State, i: nat, payload: Bytes, s2: State) returns (s3: State)
    requires i < |s.sessions| && |s.sessions[i].mail.queue| < 64
    requires s2 == s.(writers := s.writers + [Writer(payload, Loaded(i, s.sessions[i].mail.queuedBytes))])
    ensures Do(s2, Writing(Swap(|s.writers|))) == Some(s3)
    ensures Do(s3, Writing(Enqueue(|s.writers|))) ==
            Some(s.(writers := s.writers + [Writer(payload, Returned(Accepted(i)))],
                    sessions := s.sessions[i := s.sessions[i].(mail := Queued(s.sessions[i].mail, payload))]))
  {
    SwapStep(s2, |s.writers|, i);
    s3 := DoWriter(s2, Swap(|s.writers|)).value;
    SwappedThenEnqueued(s, i, payload);
    EnqueueStep(s3, |s.writers|, i);
  }

  /** With a live session, room in the budget and room in the queue, Write goes through and queues the message last. */
  lemma WriteIsAccepted(s: State, i: nat, payload: Bytes)
    requires Reachable(s) && s.session == Some(i) && i < |s.sessions| && !Canceled(s, i)
    requires s.sessions[i].mail.queuedBytes + |payload| <= 16_777_216 && |s.sessions[i].mail.queue| < 64
    ensures Runs(s, AcceptedWrite(payload, |s.writers|),
                 s.(writers := s.writers + [Writer(payload, Returned(Accepted(i)))],
                    sessions := s.sessions[i := s.sessions[i].(mail := Queued(s.sessions[i].mail, payload))]))
  {
    OpenWhenLive(s, i);
    ByteBudgetIsConserved(s, i);
    var w := |s.writers|;
    var s1 := CallThenLoad(s, i, payload);
    var s2 := s.(writers := s.writers + [Writer(payload, Loaded(i, s.sessions[i].mail.queuedBytes))]);
    var s3 := SwapThenEnqueue(s, i, payload, s2);
    RunFour(s, Writing(CallWrite(payload)), Writing(Load(w)), Writing(Swap(w)), Writing(Enqueue(w)), s1, s2, s3,
            DoWriter(s3, Enqueue(w)).value);
  }

  lemma GiveUpStep(s: State, w: nat, i: nat, why: WriteResult)
    requires w < |s.writers| && i < |s.sessions| && s.writers[w].at == Reserved(i)
    requires why == QueueFull || (why == ContextDone && Canceled(s, i))
    ensures DoWriter(s, GiveUp(w, why == QueueFull)) == Some(WriterTo(s, w, Aborting(i, why)))
  {
  }

  lemma ReleaseStep(s: State, w: nat, i: nat, why: WriteResult)
    requires w < |s.writers| && i < |s.sessions| && s.writers[w].at == Aborting(i, why)
    ensures var mail := s.sessions[i].mail;
            DoWriter(s, Release(w)) == Some(MailTo(WriterTo(s, w, Returned(why)), i,
              mail.(queuedBytes := mail.queuedBytes - |s.writers[w].payload|)))
  {
  }

  lemma SwappedThenReleased(s: State, w: nat, i: nat, size: nat, why: WriteResult)
    requires w < |s.writers| && i < |s.sessions|
    ensures var mail := s.sessions[i].mail;
            var s1 := MailTo(WriterTo(s, w, Reserved(i)), i, mail.(queuedBytes := mail.queuedBytes + size));
            var s2 := WriterTo(s1, w, Aborting(i, why));
            && s1.writers[w] == s.writers[w].(at := Reserved(i))
            && s2.writers[w] == s.writers[w].(at := Aborting(i, why))
            && s2.sessions[i].mail == mail.(queuedBytes := mail.queuedBytes + size)
            && MailTo(WriterTo(s2, w, Returned(why)), i, mail) ==
               s.(writers := s.writers[w := s.writers[w].(at := Returned(why))])
  {
    NothingPut(s, i);
  }

  lemma RefusedSteps(s: State, w: nat, i: nat, why: WriteResult) returns (s1: State, s2: State)
    requires w < |s.writers| && i < |s.sessions| && s.writers[w].at == Loaded(i, s.sessions[i].mail.queuedBytes)
    requires why == QueueFull || (why == ContextDone && Canceled(s, i))
    ensures DoWriter(s, Swap(w)) == Some(s1) && DoWriter(s1, GiveUp(w, why == QueueFull)) == Some(s2)
    ensures DoWriter(s2, Release(w)) == Some(s.(writers := s.writers[w := s.writers[w].(at := Returned(why))]))
  {
    var mail, size := s.sessions[i].mail, |s.writers[w].payload|;
    SwapStep(s, w, i);
    SwappedThenReleased(s, w, i, size, why);
    s1 := MailTo(WriterTo(s, w, Reserved(i)), i, mail.(queuedBytes := mail.queuedBytes + size));
    GiveUpStep(s1, w, i, why);
    s2 := WriterTo(s1, w, Aborting(i, why));
    ReleaseStep(s2, w, i, why);
  }

  /** A Write given up after its reservation, because the queue stays full or the context is done, leaves its session
      as it was. */
  lemma RefusedWriteLeavesNoTrace(s: State, w: nat, i: nat, why: WriteResult)
    requires w < |s.writers| && i < |s.sessions| && s.writers[w].at == Loaded(i, s.sessions[i].mail.queuedBytes)
    requires why == QueueFull || (why == ContextDone && Canceled(s, i))
    ensures Runs(s, [Writing(Swap(w)), Writing(GiveUp(w, why == QueueFull)), Writing(Release(w))],
                 s.(writers := s.writers[w := s.writers[w].(at := Returned(why))]))
  {
    var s1, s2 := RefusedSteps(s, w, i, why);
    RunThree(s, Writing(Swap(w)), Writing(GiveUp(w, why == QueueFull)), Writing(Release(w)), s1, s2,
             s.(writers := s.writers[w := s.writers[w].(at := Returned(why))]));
  }

  // ---- from the queue to the wire ----

  lemma TakeStepAtSelect(s: State, i: nat, k: nat)
    requires AtSelect(s, i, k) && s.sessions[i].mail.queue != [] && k < |s.conns|
    ensures var sess, b := s.sessions[i], s.sessions[i].mail.queue[0];
            DoServe(s, i, SelectSend) ==
            Some(With(s, i, sess.(run := Serving(k, sess.run.loc, Sending(sess.run.at.cur)),
                                  mail := sess.mail.(queue := sess.mail.queue[1..], inflight := Some(b))))
                 .(wires := s.wires[k := s.wires[k].(taken := s.wires[k].taken + [b])]))
  {
  }

  lemma SendUserStep(s: State, i: nat, k: nat, loc: Locals, cur: nat, b: Bytes, res: WriteOutcome)
    requires i < |s.sessions| && k < |s.wires| && k < |s.conns|
    requires s.sessions[i].run == Serving(k, loc, Sending(cur)) && s.sessions[i].mail.inflight == Some(b)
    ensures DoServe(s, i, SendUser(res)) ==
            Some(Log(RunTo(s, i, Serving(k, loc, Sent(cur, res.WriteOk?))), k, Delivered(res, User(b, cur))))
  {
  }

  lemma AccountStep(s: State, i: nat, k: nat, loc: Locals, cur: nat, ok: bool, b: Bytes)
    requires i < |s.sessions| && k < |s.wires| && k < |s.conns|
    requires s.sessions[i].run == Serving(k, loc, Sent(cur, ok)) && s.sessions[i].mail.inflight == Some(b)
    ensures var sess := s.sessions[i];
            DoServe(s, i, Account) ==
            Some(With(s, i, sess.(run := if ok then Serving(k, loc, Top) else Joining(k, IOFailure),
                                  mail := sess.mail.(queuedBytes := sess.mail.queuedBytes - |b|, inflight := None))))
  {
  }

  lemma MessageWritten(s: State, i: nat, k: nat, res: WriteOutcome) returns (t: State)
    requires AtSelect(s, i, k) && s.sessions[i].mail.queue != [] && k < |s.conns|
    ensures Runs(s, [Serves(i, SelectSend), Serves(i, SendUser(res)), Serves(i, Account)], t)
    ensures |t.sessions| == |s.sessions| && k < |t.wires|
    ensures t.sessions[i].mail.queue == s.sessions[i].mail.queue[1..]
    ensures t.sessions[i].mail.queuedBytes == s.sessions[i].mail.queuedBytes - |s.sessions[i].mail.queue[0]|
    ensures t.wires[k].log ==
            s.wires[k].log + Delivered(res, User(s.sessions[i].mail.queue[0], s.sessions[i].run.at.cur))
    ensures t.sessions[i].run == if res.WriteOk? then Serving(k, s.sessions[i].run.loc, Top) else Joining(k, IOFailure)
  {
    var loc, cur, b := s.sessions[i].run.loc, s.sessions[i].run.at.cur, s.sessions[i].mail.queue[0];
    TakeStepAtSelect(s, i, k);
    var s1 := DoServe(s, i, SelectSend).value;
    SendUserStep(s1, i, k, loc, cur, b, res);
    var s2 := DoServe(s1, i, SendUser(res)).value;
    AccountStep(s2, i, k, loc, cur, res.WriteOk?, b);
    t := DoServe(s2, i, Account).value;
    RunThree(s, Serves(i, SelectSend), Serves(i, SendUser(res)), Serves(i, Account), s1, s2, t);
  }

  lemma LogOneMessage(log: seq<WireEvent>, res: WriteOutcome, b: Bytes, cur: nat)
    ensures UserMessages(log + Delivered(res, User(b, cur))) ==
            UserMessages(log) + (if res.WriteOk? || res.delivered then [b] else [])
  {
    UserMessagesAppend(log, User(b, cur));
    assert log + [] == log;
  }

  /** At the select a queued message can be taken, and a write that succeeds puts exactly it on the wire, gives its
      bytes back and returns to the top; a write that fails ends the connection. */
  lemma QueuedMessageIsWritten(s: State, i: nat, k: nat, res: WriteOutcome)
    requires Reachable(s) && AtSelect(s, i, k) && s.sessions[i].mail.queue != []
    ensures exists t ::
              && Runs(s, [Serves(i, SelectSend), Serves(i, SendUser(res)), Serves(i, Account)], t)
              && |t.sessions| == |s.sessions| && k < |t.wires|
              && t.sessions[i].mail.queue == s.sessions[i].mail.queue[1..]
              && t.sessions[i].mail.queuedBytes == s.sessions[i].mail.queuedBytes - |s.sessions[i].mail.queue[0]|
              && UserMessages(t.wires[k].log) == UserMessages(s.wires[k].log)
                   + (if res.WriteOk? || res.delivered then [s.sessions[i].mail.queue[0]] else [])
              && t.sessions[i].run == if res.WriteOk? then Serving(k, s.sessions[i].run.loc, Top)
                                      else Joining(k, IOFailure)
  {
    ServingHasWire(s, i);
    var t := MessageWritten(s, i, k, res);
    LogOneMessage(s.wires[k].log, res, s.sessions[i].mail.queue[0], s.sessions[i].run.at.cur);
  }

  // ---- the subscription state and the server ----

  /** The loop waits at its select, and no token is pending. */
  predicate Settled(s: State, i: nat, k: nat) {
    AtSelect(s, i, k) && !s.sessions[i].wake
  }

  /** What the server holds then, by mode: every address with its signature in Subscription mode, listening in Listen
      mode, nothing in any other; and the type filter wherever a frame could carry it. */
  lemma SettledView(s: State, i: nat, k: nat)
    requires Reachable(s) && Settled(s, i, k)
    ensures var view := Replay(s.wires[k].log);
            && view.signed == (if s.desired.mode == 0 then s.desired.signed else map[])
            && view.listening == (s.desired.mode == 1)
            && (s.desired.mode == 1 || (s.desired.mode == 0 && s.desired.addresses != {}) ==>
                  view.types == s.desired.types)
  {
    QuiescentAgreement(s, i, k);
    SubscriptionStateIsWellFormed(s);
    Subs.WantedSignatures(s.desired);
    if s.desired.addresses != {} {
      var a :| a in s.desired.addresses;
      assert a in s.desired.signed;
    }
  }

  /** Left alone after a call, the desired state at a settled loop is the one the call left. */
  lemma LeftAlone(n: State, steps: seq<Step>, t: State, i: nat, k: nat)
    requires Reachable(n) && Runs(n, steps, t) && t.desired.revision == n.desired.revision && Settled(t, i, k)
    ensures Reachable(t) && t.desired == n.desired
  {
    RunAges(n, steps, t);
    RunReaches(n, steps, t);
  }

  /** The answer of Subscribe decides what the step does. */
  lemma SubscribeStep(s: State, addresses: seq<string>, signatures: map<string, string>, types: seq<Subs.TxType>,
                      t: State)
    requires Reachable(s) && DoCaller(s, CallSubscribe(addresses, signatures, types)) == Some(t)
    ensures var accepted := && Subs.GoodRequest(addresses, signatures, types)
                            && s.session.Some? && !Canceled(s, s.session.value)
                            && |s.desired.addresses + Subs.Elements(addresses)| <= 251;
            && (!accepted ==> t == s)
            && (accepted ==>
                  && t.desired == Subs.Subscribed(s.desired, addresses, signatures, types)
                  && s.session.value < |t.sessions| && t.sessions[s.session.value].wake)
  {
    CurrentExists(s);
    Subs.SubscribeAnswers(s.desired, Status(s), addresses, signatures, types);
  }

  /** Subscribe: once the loop has settled, with no other call in between, the server holds every requested address
      with the signature given, beside every address it was asked for before, and the filter of a request that had
      one. */
  lemma SubscribeReachesServer(s: State, addresses: seq<string>, signatures: map<string, string>,
                               types: seq<Subs.TxType>, n: State, steps: seq<Step>, t: State, i: nat, k: nat)
    requires Reachable(s) && DoCaller(s, CallSubscribe(addresses, signatures, types)) == Some(n)
    requires n.desired != s.desired
    requires Runs(n, steps, t) && t.desired.revision == n.desired.revision && Settled(t, i, k) && s.desired.mode == 0
    ensures var view := Replay(t.wires[k].log);
            && (forall a | a in addresses :: a in signatures && a in view.signed && view.signed[a] == signatures[a])
            && (forall a | a in s.desired.signed && a !in addresses ::
                  a in view.signed && view.signed[a] == s.desired.signed[a])
            && (forall a :: a in view.signed <==> a in addresses || a in s.desired.signed)
            && view.types == (if types != [] then types else s.desired.types)
  {
    SubscribeStep(s, addresses, signatures, types, n);
    TakeStep(s, Caller(CallSubscribe(addresses, signatures, types)), n);
    LeftAlone(n, steps, t, i, k);
    SettledView(t, i, k);
    Subs.SubscribedMerges(s.desired, addresses, signatures, types);
    assert addresses[0] in t.desired.addresses;
  }

  /** Unsubscribe takes effect exactly on a live session with something to leave. */
  lemma UnsubscribeStep(s: State, t: State)
    requires Reachable(s) && DoCaller(s, CallUnsubscribe) == Some(t)
    ensures var accepted := s.session.Some? && !Canceled(s, s.session.value) && s.desired.addresses != {};
            && (!accepted ==> t == s)
            && (accepted ==>
                  && Subs.Empty(t.desired) && t.desired.mode == s.desired.mode
                  && t.desired.revision > s.desired.revision
                  && s.session.value < |t.sessions| && t.sessions[s.session.value].wake)
  {
    CurrentExists(s);
    Subs.UnsubscribeAnswers(s.desired, Status(s));
    Subs.ClearedIsEmpty(s.desired);
  }

  /** Unsubscribe: once the loop has settled the server holds no address, in whatever mode. */
  lemma UnsubscribeReachesServer(s: State, n: State, steps: seq<Step>, t: State, i: nat, k: nat)
    requires Reachable(s) && DoCaller(s, CallUnsubscribe) == Some(n)
    requires s.session.Some? && !Canceled(s, s.session.value)
    requires Runs(n, steps, t) && t.desired.revision == n.desired.revision && Settled(t, i, k)
    ensures Replay(t.wires[k].log).signed == map[]
    ensures s.desired.addresses != {} ==> n.desired.revision > s.desired.revision
  {
    CurrentExists(s);
    SubscriptionStateIsWellFormed(s);
    Subs.UnsubscribeAnswers(s.desired, Status(s));
    Subs.ClearedIsEmpty(s.desired);
    TakeStep(s, Caller(CallUnsubscribe), n);
    LeftAlone(n, steps, t, i, k);
    SettledView(t, i, k);
    assert n.desired.signed == map[];
  }

  /** WithMode: the mode is the one given, with or without a session, nothing else of the desired state changes, and a
      session is woken. */
  lemma WithModeStep(s: State, mode: int, t: State)
    requires Reachable(s) && DoCaller(s, CallWithMode(mode)) == Some(t)
    ensures t.desired == s.desired.(mode := mode, revision := t.desired.revision)
    ensures t.desired.revision > s.desired.revision
    ensures t.session == s.session && (s.session.Some? ==>
              s.session.value < |t.sessions| && t.sessions[s.session.value].wake)
  {
    CurrentExists(s);
    Subs.WithModeSetsMode(s.desired, mode);
  }

  /** Once the loop has settled the server listens exactly in Listen mode, and holds the addresses exactly in
      Subscription mode. */
  lemma WithModeReachesServer(s: State, mode: int, n: State, steps: seq<Step>, t: State, i: nat, k: nat)
    requires Reachable(s) && DoCaller(s, CallWithMode(mode)) == Some(n)
    requires Runs(n, steps, t) && t.desired.revision == n.desired.revision && Settled(t, i, k)
    ensures Replay(t.wires[k].log).listening == (mode == 1)
    ensures Replay(t.wires[k].log).signed == if mode == 0 then s.desired.signed else map[]
  {
    WithModeStep(s, mode, n);
    TakeStep(s, Caller(CallWithMode(mode)), n);
    LeftAlone(n, steps, t, i, k);
    SettledView(t, i, k);
  }

  // ---- Start, Stop and the setters ----

  /** Start: a fresh session, unless the current one is open or the client's own context is done. */
  lemma StartStep(s: State, t: State)
    requires Reachable(s) && DoCaller(s, CallStart) == Some(t)
    ensures var refused := s.canceled || (s.session.Some? && s.session.value < |s.sessions|
                                          && !s.sessions[s.session.value].done);
            && (refused ==> t == s)
            && (!refused ==>
                  && |t.sessions| == |s.sessions| + 1 && t.session == Some(|s.sessions|)
                  && t == s.(session := t.session, sessions := s.sessions + [t.sessions[|s.sessions|]])
                  && var added := t.sessions[|s.sessions|];
                     && !added.canceled && !added.done && !added.wake && added.run == LoopHead
                     && added.mail == Mail([], 0, None, [], []) && added.pace == Pace(100, [], [], 0))
  {
    CurrentExists(s);
  }

  /** Stop: cancels the current session and nothing else, then waits for it. */
  lemma StopStep(s: State, t: State)
    requires Reachable(s) && DoCaller(s, CallStop) == Some(t)
    ensures s.session.None? ==> t == s
    ensures s.session.Some? ==>
            var i := s.session.value;
            && i < |s.sessions| && t.stopping == Some(i)
            && t == s.(stopping := Some(i), sessions := s.sessions[i := s.sessions[i].(canceled := true)])
  {
    CurrentExists(s);
  }

  /** Stop returns only after done, with no session and nothing subscribed, in the same mode. */
  lemma FinishStopStep(s: State, t: State)
    requires Reachable(s) && DoCaller(s, FinishStop) == Some(t)
    ensures s.session.Some? && s.session.value < |s.sessions| && s.sessions[s.session.value].done
    ensures t == s.(session := None, stopping := None, desired := t.desired)
    ensures Subs.Empty(t.desired) && t.desired.mode == s.desired.mode && t.desired.revision > s.desired.revision
  {
    CurrentExists(s);
    Subs.ClearedIsEmpty(s.desired);
  }

  /** The setters: add to the end of their own list, or replace the listen list; the other lists stay. */
  lemma RegisterStep(s: State, r: Registration, t: State)
    requires DoCaller(s, Register(r)) == Some(t)
    ensures t == s.(board := s.board.(listen := t.board.listen, error := t.board.error, retrieve := t.board.retrieve))
    ensures match r
            case AddListen(id) =>
              && t.board.listen == s.board.listen + [Callback(ListenKind, id)]
              && t.board.error == s.board.error && t.board.retrieve == s.board.retrieve
            case SetListen(only) =>
              && (only.None? ==> t.board.listen == [])
              && (only.Some? ==> t.board.listen == [Callback(ListenKind, only.value)])
              && t.board.error == s.board.error && t.board.retrieve == s.board.retrieve
            case AddError(id) =>
              && t.board.error == s.board.error + [Callback(ErrorKind, id)]
              && t.board.listen == s.board.listen && t.board.retrieve == s.board.retrieve
            case AddRetrieve(id) =>
              && t.board.retrieve == s.board.retrieve + [Callback(RetrieveKind, id)]
              && t.board.listen == s.board.listen && t.board.error == s.board.error
  {
  }

  // ---- from a message to its callbacks ----

  /** A message that calls for nothing is read and leaves everything else as it was. */
  lemma QuietMessageIsRead(s: State, k: nat, raw: In.Raw)
    requires k < |s.conns| && k < |s.wires| && s.conns[k].reader.Reading? && In.ParseIncoming(raw).Nothing?
    ensures DoReader(s, k, Receive(raw)) ==
            Some(s.(conns := s.conns[k := s.conns[k].(received := s.conns[k].received + [raw])]))
  {
  }

  /** A waiting dispatch starts its callback exactly when one of the 16 slots is free, and gives up exactly when the
      context it captured is done: its session's, or the client's when there was none. */
  lemma DispatchDecides(s: State, actor: Actor)
    requires DispatchOf(s, actor).Some? && DispatchOf(s, actor).value.at.Waiting?
    requires var e := DispatchOf(s, actor).value.event;
             e < |s.board.events| && s.board.events[e].spawned < |s.board.events[e].callbacks|
    ensures DoDispatch(s, actor, StartCallback).Some? <==> s.board.slots < 16
    ensures DoDispatch(s, actor, Abort).Some? <==>
            var ctx := DispatchOf(s, actor).value.at.ctx;
            s.canceled || (ctx.Some? && Canceled(s, ctx.value))
  {
  }

  lemma ReaderNotDraining(s: State, k: nat)
    requires Reachable(s) && k < |s.conns| && !s.conns[k].reader.Dead?
    ensures s.draining.None?
  {
    ReachableInv(s);
    ReaderAlive(s, k);
    if s.draining.Some? {
      assert !s.sessions[s.draining.value].done;
      OpenIsCurrent(s, s.draining.value);
      assert false;
    }
  }

  lemma RejectionAnnounced(s: State, k: nat, raw: In.Raw) returns (t: State)
    requires k < |s.conns| && k < |s.wires| && s.conns[k].reader.Reading? && s.draining.None?
    requires In.ParseIncoming(raw).RejectAndCancel?
    ensures var event :=
              Event(s.wires[k].session, FromWire(k, |s.conns[k].received|, In.RejectAndCancel), s.board.error, 0);
            && Runs(s, [Reads(k, Receive(raw))] + [Reads(k, CaptureSession)] + [Reads(k, Announce)], t)
            && t.board == s.board.(events := s.board.events + [event])
            && |t.conns| == |s.conns| && t.conns[k].received == s.conns[k].received + [raw]
  {
    var a, b, c := Reads(k, Receive(raw)), Reads(k, CaptureSession), Reads(k, Announce);
    var s1 := Do(s, a).value;
    var s2 := Do(s1, b).value;
    t := Do(s2, c).value;
    assert [a] + [b] + [c] == [a, b, c] && [a, b, c][1..] == [b, c] && [b, c][1..] == [c] && [c][1..] == [];
    assert Runs(s2, [c], t);
    assert Runs(s1, [b, c], t);
  }

  lemma Announced(s: State, k: nat, raw: In.Raw) returns (t: State)
    requires k < |s.conns| && k < |s.wires| && s.conns[k].reader.Reading? && s.draining.None?
    requires !In.ParseIncoming(raw).Nothing? && !In.ParseIncoming(raw).RejectAndCancel?
    ensures var reaction := In.ParseIncoming(raw);
            var event := Event(s.wires[k].session, FromWire(k, |s.conns[k].received|, reaction),
                               if reaction.NotifyListen? then s.board.listen else s.board.error, 0);
            && Runs(s, [Reads(k, Receive(raw))] + [] + [Reads(k, Announce)], t)
            && t.board == s.board.(events := s.board.events + [event])
            && |t.conns| == |s.conns| && t.conns[k].received == s.conns[k].received + [raw]
  {
    var a, b := Reads(k, Receive(raw)), Reads(k, Announce);
    var s1 := Do(s, a).value;
    t := Do(s1, b).value;
    assert [a] + [] + [b] == [a, b] && [a, b][1..] == [b] && [b][1..] == [];
    assert Runs(s1, [b], t);
  }

  /** A message that calls for callbacks opens one event with the whole list registered at that moment: the listen
      callbacks for a block or a transaction, the error callbacks for anything else. */
  lemma MessageOpensEvent(s: State, k: nat, raw: In.Raw)
    requires Reachable(s) && k < |s.conns| && s.conns[k].reader.Reading?
    requires !In.ParseIncoming(raw).Nothing?
    ensures var reaction := In.ParseIncoming(raw);
            var steps := [Reads(k, Receive(raw))]
                         + (if reaction.RejectAndCancel? then [Reads(k, CaptureSession)] else [])
                         + [Reads(k, Announce)];
            k < |s.wires| &&
            var event := Event(s.wires[k].session, FromWire(k, |s.conns[k].received|, reaction),
                               if reaction.NotifyListen? then s.board.listen else s.board.error, 0);
            exists t :: && Runs(s, steps, t) && t.board == s.board.(events := s.board.events + [event])
                        && |t.conns| == |s.conns| && t.conns[k].received == s.conns[k].received + [raw]
  {
    AliveReader(s, k);
    assert s.draining.None? by { ReaderNotDraining(s, k); }
    var reaction := In.ParseIncoming(raw);
    if reaction.RejectAndCancel? { var t := RejectionAnnounced(s, k, raw); } else { var t := Announced(s, k, raw); }
  }
}
