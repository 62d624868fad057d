/** The send queue: byte budget, order, and what a broken connection can lose. */
module EngineMail {
  import opened Basics
  import opened Engine
  import opened EngineLife

  // ---- sums and histories ----

  /** What a call of Write holds of the byte budget of session i. */
  function Holds(w: Writer, i: nat): (r: nat) {
    if (w.at.Reserved? || w.at.Aborting?) && w.at.session == i then |w.payload| else 0
  }

  function Reservations(writers: seq<Writer>, i: nat): (r: nat) {
    if writers == [] then 0
    else Reservations(writers[..|writers| - 1], i) + Holds(writers[|writers| - 1], i)
  }

  function InFlight(mail: Mail): (r: nat) {
    match mail.inflight case Some(b) => |b| case None => 0
  }

  /** The messages dequeued for session i, connection after connection. */
  function Taken(wires: seq<Wire>, i: nat): (r: seq<Bytes>) {
    if wires == [] then []
    else
      var last := wires[|wires| - 1];
      Taken(wires[..|wires| - 1], i) + if last.session == i then last.taken else []
  }

  /** The user messages a connection delivered, in order. */
  function UserMessages(log: seq<WireEvent>): (r: seq<Bytes>) {
    if log == [] then []
    else
      var last := log[|log| - 1];
      UserMessages(log[..|log| - 1]) + if last.User? then [last.payload] else []
  }

  lemma ReservationsAppend(writers: seq<Writer>, w: Writer, i: nat)
    ensures Reservations(writers + [w], i) == Reservations(writers, i) + Holds(w, i)
  {
    assert (writers + [w])[..|writers|] == writers;
  }

  lemma {:induction false} ReservationsUpdate(writers: seq<Writer>, k: nat, w: Writer, i: nat)
    requires k < |writers|
    ensures Reservations(writers[k := w], i) + Holds(writers[k], i) == Reservations(writers, i) + Holds(w, i)
  {
    var n := |writers| - 1;
    if k == n {
      assert writers[k := w][..n] == writers[..n];
    } else {
      assert writers[k := w][..n] == writers[..n][k := w];
      ReservationsUpdate(writers[..n], k, w, i);
    }
  }

  lemma {:induction false} NoReservations(writers: seq<Writer>, i: nat)
    requires forall k | 0 <= k < |writers| :: Holds(writers[k], i) == 0
    ensures Reservations(writers, i) == 0
  {
    if writers != [] {
      NoReservations(writers[..|writers| - 1], i);
    }
  }

  lemma TakenAppend(wires: seq<Wire>, wire: Wire, i: nat)
    ensures Taken(wires + [wire], i) == Taken(wires, i) + if wire.session == i then wire.taken else []
  {
    assert (wires + [wire])[..|wires|] == wires;
  }

  /** Replacing the newest connection's record. */
  lemma TakenLast(wires: seq<Wire>, wire: Wire, more: seq<Bytes>, i: nat)
    requires wires != [] && wire.session == wires[|wires| - 1].session
    requires wire.taken == wires[|wires| - 1].taken + more
    ensures Taken(wires[|wires| - 1 := wire], i) == Taken(wires, i) + if wire.session == i then more else []
  {
    var n := |wires| - 1;
    assert wires[n := wire][..n] == wires[..n];
  }

  lemma UserMessagesAppend(log: seq<WireEvent>, event: WireEvent)
    ensures UserMessages(log + [event]) == UserMessages(log) + if event.User? then [event.payload] else []
  {
    assert (log + [event])[..|log|] == log;
  }

  lemma {:induction false} UserMessagesControl(log: seq<WireEvent>, events: seq<WireEvent>)
    requires forall e | e in events :: !e.User?
    ensures UserMessages(log + events) == UserMessages(log)
  {
    if events == [] {
      assert log + events == log;
    } else {
      var n := |events| - 1;
      assert log + events == (log + events[..n]) + [events[n]];
      UserMessagesAppend(log + events[..n], events[n]);
      UserMessagesControl(log, events[..n]);
    }
  }

  // ---- the budget and the order ----

  predicate Busy(run: Run) { run.Serving? && (run.at.Sending? || run.at.Sent?) }

  predicate Drains(run: Run) { run.Draining? || run.Finished? }

  /** The byte counter is exactly what is queued, reserved and in flight; the accepted messages are exactly those
      dequeued, drained and queued, in order. */
  ghost predicate Balanced(s: State, i: nat)
    requires i < |s.sessions|
  {
    var mail := s.sessions[i].mail;
    && mail.queuedBytes == Size(mail.queue) + Reservations(s.writers, i) + InFlight(mail)
    && mail.queuedBytes <= BYTE_BUDGET
    && |mail.queue| <= QUEUE_SLOTS
    && mail.accepted == Taken(s.wires, i) + mail.drained + mail.queue
  }

  predicate MailFits(sess: Session) {
    && (sess.mail.inflight.Some? <==> Busy(sess.run))
    && (sess.mail.drained != [] ==> Drains(sess.run))
    && (sess.run.Finished? ==> sess.mail.queue == [])
  }

  /** A reservation about to be tried is within the budget it was computed from. */
  predicate WithinBudget(w: Writer) {
    w.at.Loaded? ==> w.at.used + |w.payload| <= BYTE_BUDGET
  }

  ghost predicate Mails(s: State) {
    && (forall w | 0 <= w < |s.writers| :: WithinBudget(s.writers[w]))
    && (forall i | 0 <= i < |s.sessions| :: Balanced(s, i) && MailFits(s.sessions[i]))
  }

  /** A step that moves no message and no reservation. */
  lemma QuietStepKeepsMails(s: State, t: State)
    requires Mails(s) && |t.sessions| == |s.sessions|
    requires t.writers == s.writers && t.wires == s.wires
    requires forall i | 0 <= i < |s.sessions| :: t.sessions[i].mail == s.sessions[i].mail && MailFits(t.sessions[i])
    ensures Mails(t)
  {
    forall i | 0 <= i < |t.sessions| ensures Balanced(t, i) {
      assert Balanced(s, i);
    }
  }

  lemma LoggedStepKeepsMails(s: State, i: nat, sess: Session, k: nat, wire: Wire)
    requires Mails(s) && i < |s.sessions| && k + 1 == |s.wires|
    requires wire.session == s.wires[k].session && wire.taken == s.wires[k].taken
    requires sess.mail == s.sessions[i].mail && MailFits(sess)
    ensures Mails(With(s, i, sess).(wires := s.wires[k := wire]))
  {
    var t := With(s, i, sess).(wires := s.wires[k := wire]);
    forall j | 0 <= j < |t.sessions| ensures Balanced(t, j) {
      assert Balanced(s, j);
      TakenLast(s.wires, wire, [], j);
    }
  }

  lemma OneMailKeepsMails(s: State, i: nat, sess: Session)
    requires Mails(s) && i < |s.sessions|
    requires Balanced(With(s, i, sess), i) && MailFits(sess)
    ensures Mails(With(s, i, sess))
  {
    var t := With(s, i, sess);
    forall j | 0 <= j < |t.sessions| && j != i ensures Balanced(t, j) {
      assert Balanced(s, j);
    }
  }

  lemma {:induction false} NothingTaken(wires: seq<Wire>, i: nat)
    requires forall k | 0 <= k < |wires| :: wires[k].session != i
    ensures Taken(wires, i) == []
  {
    if wires != [] {
      NothingTaken(wires[..|wires| - 1], i);
    }
  }

  /** Nothing is reserved or was dequeued for a session that does not exist yet. */
  lemma NoWorkYet(s: State, n: nat)
    requires Life(s) && n >= |s.sessions|
    ensures Reservations(s.writers, n) == 0 && Taken(s.wires, n) == []
  {
    forall k | 0 <= k < |s.writers| ensures Holds(s.writers[k], n) == 0 {
    }
    NoReservations(s.writers, n);
    NothingTaken(s.wires, n);
  }

  lemma CallerKeepsMails(s: State, t: State)
    requires Mails(s) && CallerEffect(s, t)
    requires |t.sessions| > |s.sessions| ==> Life(s)
    ensures Mails(t)
  {
    forall i | 0 <= i < |t.sessions| ensures Balanced(t, i) && MailFits(t.sessions[i]) {
      if i < |s.sessions| {
        assert Balanced(s, i) && MailFits(s.sessions[i]) && SameWork(s.sessions[i], t.sessions[i]);
      } else {
        NoWorkYet(s, i);
      }
    }
  }

  /** A call of Write changes what it holds and what its session's counter and queue hold by the same amount. */
  lemma WriterMovesBytes(s: State, w: nat, at: WriterAt, i: nat, mail: Mail)
    requires Mails(s) && w < |s.writers| && i < |s.sessions| && Active(s.writers[w]) && s.writers[w].at.session == i
    requires !at.Returned? ==> at.session == i
    requires WithinBudget(Writer(s.writers[w].payload, at))
    requires mail.inflight == s.sessions[i].mail.inflight && mail.drained == s.sessions[i].mail.drained
    requires mail.queuedBytes - Size(mail.queue) - Holds(Writer(s.writers[w].payload, at), i) ==
             s.sessions[i].mail.queuedBytes - Size(s.sessions[i].mail.queue) - Holds(s.writers[w], i)
    requires mail.queuedBytes <= BYTE_BUDGET && |mail.queue| <= QUEUE_SLOTS
    requires mail.accepted == Taken(s.wires, i) + mail.drained + mail.queue
    requires s.sessions[i].run.Finished? ==> mail.queue == []
    ensures Mails(MailTo(WriterTo(s, w, at), i, mail))
  {
    var t := MailTo(WriterTo(s, w, at), i, mail);
    forall j | 0 <= j < |t.sessions| ensures Balanced(t, j) && MailFits(t.sessions[j]) {
      assert Balanced(s, j) && MailFits(s.sessions[j]);
      ReservationsUpdate(s.writers, w, s.writers[w].(at := at), j);
    }
  }

  /** A call of Write that is under way finds its session open. */
  predicate WritersOpen(s: State) {
    forall w | 0 <= w < |s.writers| && Active(s.writers[w]) && s.writers[w].at.session < |s.sessions| ::
      !s.sessions[s.writers[w].at.session].run.Finished?
  }

  lemma CallWriteKeepsMails(s: State, payload: Bytes, t: State)
    requires Mails(s) && DoCallWrite(s, payload) == Some(t)
    ensures Mails(t)
  {
    var w := t.writers[|s.writers|];
    assert t.writers == s.writers + [w];
    forall i | 0 <= i < |t.sessions| ensures Balanced(t, i) && MailFits(t.sessions[i]) {
      assert Balanced(s, i) && MailFits(s.sessions[i]);
      ReservationsAppend(s.writers, w, i);
    }
  }

  lemma EnqueueKeepsMails(s: State, w: nat, i: nat, t: State)
    requires WritersOpen(s) && Mails(s) && DoWriter(s, Enqueue(w)) == Some(t)
    requires w < |s.writers| && Active(s.writers[w]) && i == s.writers[w].at.session && i < |s.sessions|
    ensures Mails(t)
  {
    var mail, b := s.sessions[i].mail, s.writers[w].payload;
    assert Balanced(s, i);
    SizeAppend(mail.queue, b);
    assert mail.accepted + [b] == Taken(s.wires, i) + mail.drained + (mail.queue + [b]);
    WriterMovesBytes(s, w, t.writers[w].at, i, t.sessions[i].mail);
  }

  /** A call of Write moves its own reservation and its session's counter alike, within the budget, and nothing else. */
  ghost predicate MovesBytes(s: State, w: nat, t: State) {
    && w < |s.writers| && w < |t.writers| && Active(s.writers[w]) && s.writers[w].at.session < |s.sessions|
    && var i := s.writers[w].at.session;
    && |t.sessions| == |s.sessions|
    && var mail, next := s.sessions[i].mail, t.sessions[i].mail;
    && t == MailTo(WriterTo(s, w, t.writers[w].at), i, next)
    && next == mail.(queuedBytes := next.queuedBytes) && next.queuedBytes <= BYTE_BUDGET
    && next.queuedBytes - Holds(t.writers[w], i) == mail.queuedBytes - Holds(s.writers[w], i)
    && (!t.writers[w].at.Returned? ==> t.writers[w].at.session == i)
    && WithinBudget(t.writers[w])
  }

  lemma NothingPut(s: State, i: nat)
    requires i < |s.sessions|
    ensures s.sessions[i := s.sessions[i].(mail := s.sessions[i].mail)] == s.sessions
  {
  }

  lemma LoadMovesBytes(s: State, w: nat, t: State)
    requires DoWriter(s, Load(w)) == Some(t)
    requires s.sessions[s.writers[w].at.session].mail.queuedBytes <= BYTE_BUDGET && WithinBudget(s.writers[w])
    ensures MovesBytes(s, w, t)
  {
    NothingPut(s, s.writers[w].at.session);
  }

  lemma SwapMovesBytes(s: State, w: nat, t: State)
    requires DoWriter(s, Swap(w)) == Some(t)
    requires s.sessions[s.writers[w].at.session].mail.queuedBytes <= BYTE_BUDGET && WithinBudget(s.writers[w])
    ensures MovesBytes(s, w, t)
  {
    NothingPut(s, s.writers[w].at.session);
  }

  lemma GiveUpMovesBytes(s: State, w: nat, timeout: bool, t: State)
    requires DoWriter(s, GiveUp(w, timeout)) == Some(t)
    requires s.sessions[s.writers[w].at.session].mail.queuedBytes <= BYTE_BUDGET && WithinBudget(s.writers[w])
    ensures MovesBytes(s, w, t)
  {
    NothingPut(s, s.writers[w].at.session);
  }

  lemma ReleaseMovesBytes(s: State, w: nat, t: State)
    requires DoWriter(s, Release(w)) == Some(t)
    requires s.sessions[s.writers[w].at.session].mail.queuedBytes <= BYTE_BUDGET && WithinBudget(s.writers[w])
    ensures MovesBytes(s, w, t)
  {
    NothingPut(s, s.writers[w].at.session);
  }

  lemma WriterBytes(s: State, step: WriterStep, t: State)
    requires !step.CallWrite? && !step.Enqueue? && DoWriter(s, step) == Some(t)
    requires s.sessions[s.writers[step.w].at.session].mail.queuedBytes <= BYTE_BUDGET
    requires WithinBudget(s.writers[step.w])
    ensures MovesBytes(s, step.w, t)
  {
    match step
    case Load(w) => LoadMovesBytes(s, w, t);
    case Swap(w) => SwapMovesBytes(s, w, t);
    case GiveUp(w, timeout) => GiveUpMovesBytes(s, w, timeout, t);
    case Release(w) => ReleaseMovesBytes(s, w, t);
  }

  lemma WriterKeepsMails(s: State, step: WriterStep, t: State)
    requires WritersOpen(s) && Mails(s) && DoWriter(s, step) == Some(t)
    ensures Mails(t)
  {
    if step.CallWrite? {
      CallWriteKeepsMails(s, step.payload, t);
    } else {
      var w := step.w;
      var i := s.writers[w].at.session;
      var mail := s.sessions[i].mail;
      assert Balanced(s, i) && MailFits(s.sessions[i]);
      if step.Enqueue? {
        EnqueueKeepsMails(s, w, i, t);
      } else {
        WriterBytes(s, step, t);
        WriterMovesBytes(s, w, t.writers[w].at, i, t.sessions[i].mail);
      }
    }
  }

  lemma DrainKeepsBalance(s: State, i: nat, t: State)
    requires DoRunner(s, i, DrainOne) == Some(t) && Balanced(s, i)
    ensures t == With(s, i, t.sessions[i]) && t.sessions[i].run.Draining?
    ensures t.sessions[i].mail.inflight == s.sessions[i].mail.inflight
    ensures Balanced(t, i)
  {
    var mail := s.sessions[i].mail;
    assert mail.queue == [mail.queue[0]] + mail.queue[1..];
  }

  lemma DrainKeepsMails(s: State, i: nat, t: State)
    requires Mails(s) && DoRunner(s, i, DrainOne) == Some(t)
    ensures Mails(t)
  {
    assert Balanced(s, i) && MailFits(s.sessions[i]);
    DrainKeepsBalance(s, i, t);
    OneMailKeepsMails(s, i, t.sessions[i]);
  }

  lemma ConnectAddsWire(s: State, i: nat, t: State)
    requires DoRunner(s, i, EndDial(Connected)) == Some(t)
    ensures t.sessions == s.sessions[i := t.sessions[i]] && t.sessions[i].mail == s.sessions[i].mail
    ensures s.sessions[i].run.Dialing? && t.sessions[i].run.Serving? && t.sessions[i].run.at.Top?
    ensures t.wires == s.wires + [Wire(i, [], [])] && t.writers == s.writers
  {
  }

  lemma WireAddedKeepsMails(s: State, i: nat, t: State)
    requires Mails(s) && i < |s.sessions| && |t.sessions| == |s.sessions|
    requires t.sessions == s.sessions[i := t.sessions[i]] && t.sessions[i].mail == s.sessions[i].mail
    requires s.sessions[i].run.Dialing? && t.sessions[i].run.Serving? && t.sessions[i].run.at.Top?
    requires t.wires == s.wires + [Wire(i, [], [])] && t.writers == s.writers
    ensures Mails(t)
  {
    forall j | 0 <= j < |t.sessions| ensures Balanced(t, j) && MailFits(t.sessions[j]) {
      assert Balanced(s, j) && MailFits(s.sessions[j]);
      TakenAppend(s.wires, Wire(i, [], []), j);
    }
  }

  lemma ConnectKeepsMails(s: State, i: nat, t: State)
    requires Mails(s) && DoRunner(s, i, EndDial(Connected)) == Some(t)
    ensures Mails(t)
  {
    ConnectAddsWire(s, i, t);
    WireAddedKeepsMails(s, i, t);
  }

  lemma RunnerMovesNoMail(s: State, i: nat, step: RunnerStep, t: State)
    requires DoRunner(s, i, step) == Some(t) && MailFits(s.sessions[i])
    requires !step.DrainOne? && !(step.EndDial? && step.result.Connected?)
    ensures t.sessions == s.sessions[i := t.sessions[i]] && t.writers == s.writers && t.wires == s.wires
    ensures t.sessions[i].mail == s.sessions[i].mail && MailFits(t.sessions[i])
  {
  }

  lemma QuietAtKeepsMails(s: State, i: nat, t: State)
    requires Mails(s) && i < |s.sessions| && |t.sessions| == |s.sessions|
    requires t.sessions == s.sessions[i := t.sessions[i]] && t.writers == s.writers && t.wires == s.wires
    requires t.sessions[i].mail == s.sessions[i].mail && MailFits(t.sessions[i])
    ensures Mails(t)
  {
    QuietStepKeepsMails(s, t);
  }

  lemma RunnerKeepsMails(s: State, i: nat, step: RunnerStep, t: State)
    requires Mails(s) && DoRunner(s, i, step) == Some(t)
    ensures Mails(t)
  {
    if step.DrainOne? {
      DrainKeepsMails(s, i, t);
    } else if step.EndDial? && step.result.Connected? {
      ConnectKeepsMails(s, i, t);
    } else {
      assert MailFits(s.sessions[i]);
      RunnerMovesNoMail(s, i, step, t);
      QuietAtKeepsMails(s, i, t);
    }
  }

  /** The session's connection is the newest one and belongs to it. */
  predicate OwnsNewest(s: State, i: nat) {
    i < |s.sessions| && HasConn(s.sessions[i].run) ==>
      s.sessions[i].run.conn + 1 == |s.wires| && s.wires[s.sessions[i].run.conn].session == i
  }

  lemma TakeMovesHead(s: State, i: nat, t: State)
    requires DoServe(s, i, SelectSend) == Some(t)
    ensures var mail, k := s.sessions[i].mail, s.sessions[i].run.conn;
            && mail.queue != []
            && t == With(s, i, t.sessions[i]).(wires := s.wires[k := t.wires[k]])
            && t.wires[k] == s.wires[k].(taken := s.wires[k].taken + [mail.queue[0]])
            && s.sessions[i].run.Serving? && s.sessions[i].run.at.Select? && Busy(t.sessions[i].run)
            && t.sessions[i].mail == mail.(queue := mail.queue[1..], inflight := Some(mail.queue[0]))
  {
  }

  lemma HeadMovedBalanced(s: State, i: nat, sess: Session, k: nat, wire: Wire)
    requires i < |s.sessions| && Balanced(s, i) && MailFits(s.sessions[i])
    requires k + 1 == |s.wires| && s.wires[k].session == i
    requires s.sessions[i].mail.queue != [] && !Busy(s.sessions[i].run) && !Drains(s.sessions[i].run)
    requires var mail := s.sessions[i].mail;
             && wire == s.wires[k].(taken := s.wires[k].taken + [mail.queue[0]])
             && sess.mail == mail.(queue := mail.queue[1..], inflight := Some(mail.queue[0]))
    ensures Balanced(With(s, i, sess).(wires := s.wires[k := wire]), i)
  {
    var mail := s.sessions[i].mail;
    TakenLast(s.wires, wire, [mail.queue[0]], i);
    assert mail.queue == [mail.queue[0]] + mail.queue[1..];
  }

  /** The head of the queue becomes the frame in flight and the last one taken. */
  lemma HeadMovedKeepsMails(s: State, i: nat, sess: Session, k: nat, wire: Wire)
    requires Mails(s) && i < |s.sessions| && k + 1 == |s.wires| && s.wires[k].session == i
    requires s.sessions[i].mail.queue != [] && !Busy(s.sessions[i].run) && !Drains(s.sessions[i].run) && Busy(sess.run)
    requires var mail := s.sessions[i].mail;
             && wire == s.wires[k].(taken := s.wires[k].taken + [mail.queue[0]])
             && sess.mail == mail.(queue := mail.queue[1..], inflight := Some(mail.queue[0]))
    ensures Mails(With(s, i, sess).(wires := s.wires[k := wire]))
  {
    var b := s.sessions[i].mail.queue[0];
    var t := With(s, i, sess).(wires := s.wires[k := wire]);
    assert MailFits(s.sessions[i]);
    HeadMovedBalanced(s, i, sess, k, wire);
    forall j | 0 <= j < |t.sessions| && j != i ensures Balanced(t, j) && MailFits(t.sessions[j]) {
      assert Balanced(s, j) && MailFits(s.sessions[j]);
      TakenLast(s.wires, wire, [b], j);
    }
  }

  lemma TakeKeepsMails(s: State, i: nat, t: State)
    requires OwnsNewest(s, i) && Mails(s) && DoServe(s, i, SelectSend) == Some(t)
    ensures Mails(t)
  {
    var k := s.sessions[i].run.conn;
    TakeMovesHead(s, i, t);
    HeadMovedKeepsMails(s, i, t.sessions[i], k, t.wires[k]);
  }

  lemma AccountKeepsMails(s: State, i: nat, t: State)
    requires Mails(s) && DoServe(s, i, Account) == Some(t)
    ensures Mails(t)
  {
    assert Balanced(s, i) && MailFits(s.sessions[i]);
    OneMailKeepsMails(s, i, t.sessions[i]);
  }

  /** The serve loop of session i moves on and may log to its connection; its queue stays as it is. */
  ghost predicate OnlyLogs(s: State, i: nat, t: State) {
    && i < |s.sessions| && HasConn(s.sessions[i].run)
    && var k := s.sessions[i].run.conn;
    && k < |s.wires| && |t.wires| == |s.wires| && |t.sessions| == |s.sessions|
    && t.sessions == s.sessions[i := t.sessions[i]] && t.wires == s.wires[k := t.wires[k]]
    && t.writers == s.writers
    && t.wires[k].session == s.wires[k].session && t.wires[k].taken == s.wires[k].taken
    && t.sessions[i].mail == s.sessions[i].mail && MailFits(t.sessions[i])
  }

  lemma SendUserMovesNoMail(s: State, i: nat, res: WriteOutcome, t: State)
    requires DoServe(s, i, SendUser(res)) == Some(t) && MailFits(s.sessions[i])
    ensures OnlyLogs(s, i, t)
  {
  }

  lemma SyncMovesNoMail(s: State, i: nat, step: ServeStep, t: State)
    requires step.ReadRevision? || step.TakeSnapshot? || step.SendUnsubscribe? || step.SendUpdate?
    requires DoServe(s, i, step) == Some(t) && MailFits(s.sessions[i])
    ensures OnlyLogs(s, i, t)
  {
  }

  lemma SelectMovesNoMail(s: State, i: nat, step: ServeStep, t: State)
    requires step.SelectDone? || step.SelectReader? || step.ResendToken? || step.SelectWake? || step.SelectPing?
    requires DoServe(s, i, step) == Some(t) && MailFits(s.sessions[i])
    ensures OnlyLogs(s, i, t)
  {
  }

  lemma ServeMovesNoMail(s: State, i: nat, step: ServeStep, t: State)
    requires DoServe(s, i, step) == Some(t) && !step.SelectSend? && !step.Account? && MailFits(s.sessions[i])
    ensures OnlyLogs(s, i, t)
  {
    match step
    case SendUser(res) => SendUserMovesNoMail(s, i, res, t);
    case _ =>
      if step.ReadRevision? || step.TakeSnapshot? || step.SendUnsubscribe? || step.SendUpdate? {
        SyncMovesNoMail(s, i, step, t);
      } else {
        SelectMovesNoMail(s, i, step, t);
      }
  }

  lemma ServeKeepsMails(s: State, i: nat, step: ServeStep, t: State)
    requires OwnsNewest(s, i) && Mails(s) && DoServe(s, i, step) == Some(t)
    ensures Mails(t)
  {
    if step.SelectSend? {
      TakeKeepsMails(s, i, t);
    } else if step.Account? {
      AccountKeepsMails(s, i, t);
    } else {
      assert MailFits(s.sessions[i]);
      ServeMovesNoMail(s, i, step, t);
      LoggedStepKeepsMails(s, i, t.sessions[i], s.sessions[i].run.conn, t.wires[s.sessions[i].run.conn]);
      QuietStepKeepsMails(With(s, i, t.sessions[i]).(wires := t.wires), t);
    }
  }

  lemma ReaderKeepsMails(s: State, k: nat, step: ReaderStep, t: State)
    requires Mails(s) && DoReader(s, k, step) == Some(t)
    ensures Mails(t)
  {
    forall j | 0 <= j < |s.sessions| ensures t.sessions[j].mail == s.sessions[j].mail && MailFits(t.sessions[j]) {
      assert MailFits(s.sessions[j]);
    }
    QuietStepKeepsMails(s, t);
  }

  lemma DispatchKeepsMails(s: State, actor: Actor, step: DispatchStep, t: State)
    requires Mails(s) && DoDispatch(s, actor, step) == Some(t)
    ensures Mails(t)
  {
    forall j | 0 <= j < |s.sessions| ensures t.sessions[j].mail == s.sessions[j].mail && MailFits(t.sessions[j]) {
      assert MailFits(s.sessions[j]);
    }
    QuietStepKeepsMails(s, t);
  }
}
