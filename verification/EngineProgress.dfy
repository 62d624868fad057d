/** What can always still happen: no reachable state is a dead end. Stop can complete from everywhere, a callback loop
    can start all its callbacks, and a lost connection is dialed again unless the server said goodbye. */
module EngineProgress {
  import opened Basics
  import opened Reconnect
  import opened Engine
  import opened EngineLife
  import opened EngineMail
  import opened EngineBoard
  import opened EngineOrder
  import opened EngineInvariant
  import opened EngineTheorems
  import opened EngineConverge
  import opened EngineCalls
  import Subs = Subscription

  /** Some run leads from s to t. */
  ghost predicate Leads(s: State, t: State) {
    exists steps: seq<Step> :: Runs(s, steps, t)
  }

  lemma LeadsSelf(s: State)
    ensures Leads(s, s)
  {
    assert Runs(s, [], s);
  }

  lemma LeadsStep(s: State, step: Step, n: State, t: State)
    requires Do(s, step) == Some(n) && Leads(n, t)
    ensures Leads(s, t)
  {
    var rest :| Runs(n, rest, t);
    RunCons(s, step, n, rest, t);
  }

  lemma LeadsOne(s: State, step: Step, t: State)
    requires Do(s, step) == Some(t)
    ensures Leads(s, t)
  {
    LeadsSelf(t);
    LeadsStep(s, step, t, t);
  }

  lemma {:induction false} RunThenLeads(s: State, steps: seq<Step>, n: State, t: State)
    requires Runs(s, steps, n) && Leads(n, t)
    ensures Leads(s, t)
    decreases |steps|
  {
    if steps != [] {
      var next := Do(s, steps[0]).value;
      RunThenLeads(next, steps[1..], n, t);
      LeadsStep(s, steps[0], next, t);
    }
  }

  lemma LeadsOn(s: State, n: State, t: State)
    requires Leads(s, n) && Leads(n, t)
    ensures Leads(s, t)
  {
    var steps :| Runs(s, steps, n);
    RunThenLeads(s, steps, n, t);
  }

  lemma LeadsReaches(s: State, t: State)
    requires Reachable(s) && Leads(s, t)
    ensures Reachable(t)
  {
    var steps :| Runs(s, steps, t);
    RunReaches(s, steps, t);
  }

  // ---- calls of Write come to an end ----

  function WriterRank(s: State, w: nat): (r: nat)
    requires w < |s.writers|
  {
    match s.writers[w].at
    case Returned(_) => 0
    case Aborting(_, _) => 1
    case Reserved(_) => 2
    case Loaded(i, used) => if i < |s.sessions| && s.sessions[i].mail.queuedBytes == used then 3 else 5
    case Checked(_) => 4
  }

  /** Only calls of Write and the mail of sessions differ. */
  ghost predicate OnlyMail(s: State, t: State) {
    && t == s.(writers := t.writers, sessions := t.sessions)
    && |t.sessions| == |s.sessions| && |t.writers| == |s.writers|
    && forall i | 0 <= i < |s.sessions| :: t.sessions[i] == s.sessions[i].(mail := t.sessions[i].mail)
  }

  /** The step that a call of Write can take without waiting. */
  function NextWrite(s: State, w: nat): (step: WriterStep)
    requires w < |s.writers|
  {
    match s.writers[w].at
    case Checked(_) => Load(w)
    case Loaded(_, _) => Swap(w)
    case Reserved(_) => GiveUp(w, true)
    case _ => Release(w)
  }

  /** The call has moved on inside its own session. */
  ghost predicate Advanced(s: State, w: nat, t: State) {
    && w < |s.writers| && w < |t.writers|
    && t.writers == s.writers[w := s.writers[w].(at := t.writers[w].at)]
    && WriterRank(t, w) < WriterRank(s, w)
    && Active(s.writers[w])
    && (Active(t.writers[w]) ==> t.writers[w].at.session == s.writers[w].at.session)
  }

  lemma EarlyAdvances(s: State, w: nat) returns (t: State)
    requires w < |s.writers| && (s.writers[w].at.Checked? || s.writers[w].at.Loaded?)
    requires s.writers[w].at.session < |s.sessions|
    ensures DoWriter(s, NextWrite(s, w)) == Some(t) && Advanced(s, w, t)
  {
    t := DoWriter(s, NextWrite(s, w)).value;
  }

  lemma LateAdvances(s: State, w: nat) returns (t: State)
    requires w < |s.writers| && (s.writers[w].at.Reserved? || s.writers[w].at.Aborting?)
    requires s.writers[w].at.session < |s.sessions|
    ensures DoWriter(s, NextWrite(s, w)) == Some(t) && Advanced(s, w, t)
  {
    t := DoWriter(s, NextWrite(s, w)).value;
  }

  lemma WriterCanStep(s: State, w: nat) returns (t: State)
    requires w < |s.writers| && Active(s.writers[w]) && s.writers[w].at.session < |s.sessions|
    ensures DoWriter(s, NextWrite(s, w)) == Some(t) && OnlyMail(s, t) && Advanced(s, w, t)
  {
    if s.writers[w].at.Checked? || s.writers[w].at.Loaded? {
      t := EarlyAdvances(s, w);
    } else {
      t := LateAdvances(s, w);
    }
    WriterHasEffect(s, NextWrite(s, w), t);
  }

  lemma {:induction false} WriterCanReturn(s: State, w: nat) returns (t: State)
    requires w < |s.writers| && (Active(s.writers[w]) ==> s.writers[w].at.session < |s.sessions|)
    ensures Leads(s, t) && OnlyMail(s, t) && !Active(t.writers[w])
    ensures t.writers == s.writers[w := s.writers[w].(at := t.writers[w].at)]
    decreases WriterRank(s, w)
  {
    if !Active(s.writers[w]) {
      t := s;
      LeadsSelf(s);
    } else {
      var n := WriterCanStep(s, w);
      t := WriterCanReturn(n, w);
      LeadsStep(s, Writing(NextWrite(s, w)), n, t);
    }
  }

  /** Every call of Write under way can return, whatever the others do meanwhile. */
  lemma {:induction false} WritersCanReturn(s: State, n: nat) returns (t: State)
    requires n <= |s.writers|
    requires forall w | 0 <= w < |s.writers| && Active(s.writers[w]) :: s.writers[w].at.session < |s.sessions|
    ensures Leads(s, t) && OnlyMail(s, t)
    ensures forall w | 0 <= w < n :: !Active(t.writers[w])
    ensures forall w | n <= w < |s.writers| :: t.writers[w] == s.writers[w]
  {
    if n == 0 {
      t := s;
      LeadsSelf(s);
    } else {
      var u := WritersCanReturn(s, n - 1);
      t := WriterCanReturn(u, n - 1);
      LeadsOn(s, u, t);
    }
  }

  predicate NoWriters(s: State) {
    forall w | 0 <= w < |s.writers| :: !Active(s.writers[w])
  }

  // ---- a canceled session comes to an end ----

  function DispatchWork(s: State, d: Dispatch): (r: nat)
    ensures 1 <= r <= 3
  {
    match d.at
    case Ready =>
      if d.event < |s.board.events| && s.board.events[d.event].spawned < |s.board.events[d.event].callbacks| then 3
      else 1
    case Waiting(_) => 2
    case Stopped => 1
  }

  function ReaderWork(s: State, k: nat): (r: nat)
    ensures r <= 8
  {
    if k >= |s.conns| then 0
    else
      match s.conns[k].reader
      case Dead => 0
      case Closing(_) => 1
      case Reading => 2
      case Announcing(d, _) => 3 + DispatchWork(s, d)
      case Rejecting(_) => 7
      case Handling(_) => 8
  }

  function ServeWork(at: Serve): (r: nat) {
    match at
    case Select(_) => 0
    case Update(_, _) => 1
    case Resend(_) => 1
    case Unsub(_, _) => 2
    case Sync(_) => 3
    case Top => 4
    case Sent(_, _) => 5
    case Sending(_) => 6
  }

  /** How much is left to do until a canceled session is done. */
  function Work(s: State, i: nat): (r: nat)
    requires i < |s.sessions|
  {
    |s.sessions[i].mail.queue| +
    match s.sessions[i].run
    case Finished => 0
    case Draining => 1
    case WaitingLock => 2
    case Exiting => 3
    case LoopHead => 4
    case Checking(_) => 4
    case Pausing => 4
    case Dialing => 5
    case Retrieving(d) => 5 + DispatchWork(s, d)
    case Reporting(d) => 5 + DispatchWork(s, d)
    case Retrieve => 9
    case Report(_) => 9
    case Joining(k, _) => 5 + ReaderWork(s, k)
    case Serving(k, _, at) => 6 + ReaderWork(s, k) + ServeWork(at)
  }

  /** A step that touches no call, no caller's state and cancels no cancellation. */
  ghost predicate Inward(s: State, i: nat, t: State) {
    && i < |s.sessions| && |t.sessions| == |s.sessions|
    && t.writers == s.writers && t.canceled == s.canceled && t.desired == s.desired
    && t.session == s.session && t.stopping == s.stopping
    && (s.sessions[i].canceled ==> t.sessions[i].canceled)
  }

  /** Runs that are neither at a connection nor in a callback loop. */
  predicate Plain(run: Run) {
    !HasConn(run) && !run.Retrieving? && !run.Reporting? && !run.Finished?
  }

  function NextPlain(s: State, i: nat): (step: RunnerStep)
    requires i < |s.sessions|
  {
    match s.sessions[i].run
    case LoopHead => CheckContext
    case Retrieve => SnapRetrievers
    case Dialing => EndDial(DialFailed)
    case Checking(_) => CheckOutcome
    case Report(_) => SnapErrors
    case Pausing => EndPause(false)
    case Exiting => CancelSelf
    case WaitingLock => LockForDrain
    case _ => if s.sessions[i].mail.queue != [] then DrainOne else CloseDone
  }

  predicate Leaving(run: Run) { run.Report? || run.Pausing? || run.Exiting? || run.WaitingLock? }

  lemma LeavingCloser(s: State, i: nat) returns (t: State)
    requires i < |s.sessions| && Leaving(s.sessions[i].run)
    requires CtxDone(s, i) && NoWriters(s) && s.draining.None?
    ensures DoRunner(s, i, NextPlain(s, i)) == Some(t) && Inward(s, i, t) && Work(t, i) < Work(s, i)
  {
    t := DoRunner(s, i, NextPlain(s, i)).value;
  }

  lemma PlainCloser(s: State, i: nat) returns (t: State)
    requires i < |s.sessions| && Plain(s.sessions[i].run) && !s.sessions[i].run.Draining?
    requires !Leaving(s.sessions[i].run) && CtxDone(s, i) && s.draining.None?
    ensures DoRunner(s, i, NextPlain(s, i)) == Some(t) && Inward(s, i, t) && Work(t, i) < Work(s, i)
  {
    t := DoRunner(s, i, NextPlain(s, i)).value;
  }

  lemma DrainCloser(s: State, i: nat) returns (t: State)
    requires i < |s.sessions| && s.sessions[i].run.Draining?
    ensures DoRunner(s, i, NextPlain(s, i)) == Some(t) && Inward(s, i, t) && Work(t, i) < Work(s, i)
  {
    t := DoRunner(s, i, NextPlain(s, i)).value;
  }

  /** A step inside a callback loop whose context is done: one waits, and then gives up. */
  lemma LoopCloser(s: State, actor: Actor, i: nat) returns (step: DispatchStep, t: State)
    requires DispatchOf(s, actor).Some? && !DispatchOver(s, DispatchOf(s, actor).value)
    requires s.draining.None? && s.session == Some(i) && i < |s.sessions| && CtxDone(s, i)
    requires var d := DispatchOf(s, actor).value;
             && d.event < |s.board.events| && SpawnedFits(s.board.events[d.event])
             && (d.at.Waiting? ==> d.at.ctx == Some(i))
    ensures DoDispatch(s, actor, step) == Some(t) && t == SetDispatch(s, actor, DispatchOf(t, actor).value)
    ensures DispatchOf(t, actor).Some? && t.board == s.board && Inward(s, i, t)
    ensures DispatchWork(t, DispatchOf(t, actor).value) < DispatchWork(s, DispatchOf(s, actor).value)
  {
    step := if DispatchOf(s, actor).value.at.Ready? then Capture else Abort;
    t := DoDispatch(s, actor, step).value;
  }

  lemma LoopLeft(s: State, i: nat) returns (step: RunnerStep, t: State)
    requires i < |s.sessions| && (s.sessions[i].run.Retrieving? || s.sessions[i].run.Reporting?)
    requires s.draining.None? && DispatchOver(s, s.sessions[i].run.d)
    ensures DoRunner(s, i, step) == Some(t) && Inward(s, i, t) && Work(t, i) < Work(s, i)
  {
    step := if s.sessions[i].run.Retrieving? then StartDial else StartPause;
    t := DoRunner(s, i, step).value;
  }

  lemma RunnerLoopCloser(s: State, i: nat) returns (step: Step, t: State)
    requires i < |s.sessions| && (s.sessions[i].run.Retrieving? || s.sessions[i].run.Reporting?)
    requires s.draining.None? && s.session == Some(i) && CtxDone(s, i)
    requires var d := s.sessions[i].run.d;
             && d.event < |s.board.events| && SpawnedFits(s.board.events[d.event])
             && (d.at.Waiting? ==> d.at.ctx == Some(i))
    ensures Do(s, step) == Some(t) && Inward(s, i, t) && Work(t, i) < Work(s, i)
  {
    if DispatchOver(s, s.sessions[i].run.d) {
      var r;
      r, t := LoopLeft(s, i);
      step := Running(i, r);
    } else {
      var d;
      d, t := LoopCloser(s, TheRunner(i), i);
      step := Dispatches(TheRunner(i), d);
    }
  }

  function NextServe(at: Serve, addrs: seq<string>): (step: ServeStep) {
    match at
    case Top => ReadRevision
    case Sync(_) => TakeSnapshot(addrs)
    case Unsub(_, _) => SendUnsubscribe(WriteOk)
    case Update(_, _) => SendUpdate(WriteOk)
    case Select(_) => SelectDone
    case Sending(_) => SendUser(WriteFailed(false))
    case Sent(_, _) => Account
    case Resend(_) => ResendToken
  }

  /** The loop is nearer to leaving the connection, and has queued nothing. */
  ghost predicate ServesLess(s: State, i: nat, t: State) {
    && i < |s.sessions| && |t.sessions| == |s.sessions| && s.sessions[i].run.Serving?
    && |t.sessions[i].mail.queue| <= |s.sessions[i].mail.queue|
    && (t.sessions[i].run.Joining?
        || (t.sessions[i].run.Serving? && ServeWork(t.sessions[i].run.at) < ServeWork(s.sessions[i].run.at)))
  }

  lemma SyncCloser(s: State, i: nat, addrs: seq<string>) returns (t: State)
    requires i < |s.sessions| && s.sessions[i].run.Serving? && s.draining.None?
    requires s.sessions[i].run.conn < |s.conns| && s.sessions[i].run.conn < |s.wires|
    requires var at := s.sessions[i].run.at; at.Top? || at.Sync? || at.Unsub? || at.Update?
    requires Subs.Lists(addrs, Subs.DesiredSignatures(s.desired).Keys)
    ensures DoServe(s, i, NextServe(s.sessions[i].run.at, addrs)) == Some(t) && ServesLess(s, i, t)
  {
    t := DoServe(s, i, NextServe(s.sessions[i].run.at, addrs)).value;
  }

  lemma WaitCloser(s: State, i: nat) returns (t: State)
    requires i < |s.sessions| && s.sessions[i].run.Serving? && CtxDone(s, i)
    requires s.sessions[i].run.conn < |s.conns| && s.sessions[i].run.conn < |s.wires|
    requires s.sessions[i].run.at.Select? || s.sessions[i].run.at.Resend?
    requires s.sessions[i].run.at.Resend? ==> s.conns[s.sessions[i].run.conn].token.None?
    ensures DoServe(s, i, NextServe(s.sessions[i].run.at, [])) == Some(t) && ServesLess(s, i, t)
  {
    t := DoServe(s, i, NextServe(s.sessions[i].run.at, [])).value;
  }

  lemma SendCloser(s: State, i: nat) returns (t: State)
    requires i < |s.sessions| && s.sessions[i].run.Serving? && s.sessions[i].mail.inflight.Some?
    requires s.sessions[i].run.conn < |s.conns| && s.sessions[i].run.conn < |s.wires|
    requires s.sessions[i].run.at.Sending? || s.sessions[i].run.at.Sent?
    ensures DoServe(s, i, NextServe(s.sessions[i].run.at, [])) == Some(t) && ServesLess(s, i, t)
  {
    t := DoServe(s, i, NextServe(s.sessions[i].run.at, [])).value;
  }

  lemma SameReaderWork(s: State, t: State, k: nat)
    requires |t.conns| == |s.conns| && t.board == s.board
    requires k < |s.conns| ==> t.conns[k].reader == s.conns[k].reader
    ensures ReaderWork(t, k) == ReaderWork(s, k)
  {
  }

  lemma ServesLessIsCloser(s: State, i: nat, t: State)
    requires ServeEffect(s, i, t) && ServesLess(s, i, t)
    ensures Inward(s, i, t) && Work(t, i) < Work(s, i)
  {
    SameReaderWork(s, t, s.sessions[i].run.conn);
  }

  lemma ServeCloser(s: State, i: nat) returns (step: Step, t: State)
    requires i < |s.sessions| && s.sessions[i].run.Serving? && CtxDone(s, i) && s.draining.None?
    requires s.sessions[i].run.conn < |s.conns| && s.sessions[i].run.conn < |s.wires|
    requires s.sessions[i].run.at.Resend? ==> s.conns[s.sessions[i].run.conn].token.None?
    requires Busy(s.sessions[i].run) ==> s.sessions[i].mail.inflight.Some?
    ensures Do(s, step) == Some(t) && Inward(s, i, t) && Work(t, i) < Work(s, i)
  {
    var at := s.sessions[i].run.at;
    var addrs := [];
    if at.Sending? || at.Sent? {
      t := SendCloser(s, i);
    } else if at.Select? || at.Resend? {
      t := WaitCloser(s, i);
    } else {
      addrs := Subs.ListingExists(Subs.DesiredSignatures(s.desired).Keys);
      t := SyncCloser(s, i, addrs);
    }
    step := Serves(i, NextServe(at, addrs));
    ServeHasEffect(s, i, NextServe(at, addrs), t);
    ServesLessIsCloser(s, i, t);
  }

  lemma ReadingCloser(s: State, i: nat, k: nat) returns (step: ReaderStep, t: State)
    requires i < |s.sessions| && s.sessions[i].run.Joining? && s.sessions[i].run.conn == k
    requires k < |s.conns| && k < |s.wires| && s.conns[k].token.None? && s.draining.None? && s.session == Some(i)
    requires s.conns[k].reader.Reading? || s.conns[k].reader.Closing?
    ensures DoReader(s, k, step) == Some(t) && Inward(s, i, t) && Work(t, i) < Work(s, i)
  {
    step := if s.conns[k].reader.Reading? then FailRead(IOFailure) else Signal;
    t := DoReader(s, k, step).value;
  }

  lemma HandlingCloser(s: State, i: nat, k: nat) returns (step: ReaderStep, t: State)
    requires i < |s.sessions| && s.sessions[i].run.Joining? && s.sessions[i].run.conn == k
    requires k < |s.conns| && k < |s.wires| && s.draining.None? && s.session == Some(i) && s.conns[k].received != []
    requires s.conns[k].reader.Handling? || s.conns[k].reader.Rejecting?
    ensures DoReader(s, k, step) == Some(t) && Inward(s, i, t) && Work(t, i) < Work(s, i)
  {
    var reader := s.conns[k].reader;
    step := if reader.Handling? && reader.reaction.RejectAndCancel? then CaptureSession else Announce;
    t := DoReader(s, k, step).value;
  }

  lemma AnnounceLeft(s: State, i: nat, k: nat) returns (t: State)
    requires i < |s.sessions| && s.sessions[i].run.Joining? && s.sessions[i].run.conn == k
    requires k < |s.conns| && k < |s.wires| && s.conns[k].reader.Announcing? && DispatchOver(s, s.conns[k].reader.d)
    ensures DoReader(s, k, EndAnnounce) == Some(t) && Inward(s, i, t) && Work(t, i) < Work(s, i)
  {
    t := DoReader(s, k, EndAnnounce).value;
  }

  lemma AnnouncingCloser(s: State, i: nat, k: nat) returns (step: Step, t: State)
    requires i < |s.sessions| && s.sessions[i].run.Joining? && s.sessions[i].run.conn == k
    requires k < |s.conns| && k < |s.wires| && s.draining.None? && s.session == Some(i) && CtxDone(s, i)
    requires s.conns[k].reader.Announcing?
    requires var d := s.conns[k].reader.d;
             && d.event < |s.board.events| && SpawnedFits(s.board.events[d.event])
             && (d.at.Waiting? ==> d.at.ctx == Some(i))
    ensures Do(s, step) == Some(t) && Inward(s, i, t) && Work(t, i) < Work(s, i)
  {
    if DispatchOver(s, s.conns[k].reader.d) {
      step := Reads(k, EndAnnounce);
      t := AnnounceLeft(s, i, k);
    } else {
      var d;
      d, t := LoopCloser(s, TheReader(k), i);
      step := Dispatches(TheReader(k), d);
    }
  }

  lemma JoinedCloser(s: State, i: nat, k: nat) returns (t: State)
    requires i < |s.sessions| && s.sessions[i].run.Joining? && s.sessions[i].run.conn == k
    requires k < |s.conns| && s.conns[k].token.Some?
    ensures DoRunner(s, i, EndServe) == Some(t) && Inward(s, i, t) && Work(t, i) < Work(s, i)
  {
    t := DoRunner(s, i, EndServe).value;
  }

  /** The facts about a reader that is being joined which its next step relies on. */
  predicate JoinableReader(s: State, i: nat, k: nat) {
    && k < |s.conns| && k < |s.wires|
    && (s.conns[k].reader.Dead? <==> s.conns[k].token.Some?)
    && (s.conns[k].reader.Handling? || s.conns[k].reader.Rejecting? ==> s.conns[k].received != [])
    && (s.conns[k].reader.Announcing? ==>
          var d := s.conns[k].reader.d;
          && d.event < |s.board.events| && SpawnedFits(s.board.events[d.event])
          && (d.at.Waiting? ==> d.at.ctx == Some(i)))
  }

  lemma JoinCloser(s: State, i: nat) returns (step: Step, t: State)
    requires i < |s.sessions| && s.sessions[i].run.Joining? && CtxDone(s, i) && s.draining.None? && s.session == Some(i)
    requires JoinableReader(s, i, s.sessions[i].run.conn)
    ensures Do(s, step) == Some(t) && Inward(s, i, t) && Work(t, i) < Work(s, i)
  {
    var k := s.sessions[i].run.conn;
    var r;
    match s.conns[k].reader
    case Dead =>
      t := JoinedCloser(s, i, k);
      step := Running(i, EndServe);
    case Announcing(_, _) => step, t := AnnouncingCloser(s, i, k);
    case Reading =>
      r, t := ReadingCloser(s, i, k);
      step := Reads(k, r);
    case Closing(_) =>
      r, t := ReadingCloser(s, i, k);
      step := Reads(k, r);
    case _ =>
      r, t := HandlingCloser(s, i, k);
      step := Reads(k, r);
  }

  /** What the next step of a canceled session relies on. */
  ghost predicate Closable(s: State, i: nat) {
    && i < |s.sessions| && s.session == Some(i) && !s.sessions[i].run.Finished?
    && (s.draining.None? || s.sessions[i].run.Draining?)
    && (s.sessions[i].run.Retrieving? || s.sessions[i].run.Reporting? ==>
          var d := s.sessions[i].run.d;
          && d.event < |s.board.events| && SpawnedFits(s.board.events[d.event])
          && (d.at.Waiting? ==> d.at.ctx == Some(i)))
    && (s.sessions[i].run.Joining? ==> JoinableReader(s, i, s.sessions[i].run.conn))
    && (s.sessions[i].run.Serving? ==>
          && s.sessions[i].run.conn < |s.conns| && s.sessions[i].run.conn < |s.wires|
          && (s.sessions[i].run.at.Resend? ==> s.conns[s.sessions[i].run.conn].token.None?)
          && (Busy(s.sessions[i].run) ==> s.sessions[i].mail.inflight.Some?))
  }

  lemma ClosableHolder(s: State, i: nat)
    requires Life(s) && i < |s.sessions| && !s.sessions[i].done
    ensures s.session == Some(i) && !s.sessions[i].run.Finished?
    ensures s.draining.None? || s.sessions[i].run.Draining?
  {
    OpenIsCurrent(s, i);
    assert SessionOk(s.sessions[i]);
    if s.draining.Some? {
      var j := s.draining.value;
      assert s.sessions[j].run.Draining? && SessionOk(s.sessions[j]);
      OpenIsCurrent(s, j);
    }
  }

  lemma ClosableRunner(s: State, i: nat)
    requires Turns(s) && i < |s.sessions| && (s.sessions[i].run.Retrieving? || s.sessions[i].run.Reporting?)
    ensures var d := s.sessions[i].run.d;
            && d.event < |s.board.events| && SpawnedFits(s.board.events[d.event])
            && (d.at.Waiting? ==> d.at.ctx == Some(i))
  {
    assert DispatchFits(s, TheRunner(i));
  }

  lemma ClosableConn(s: State, i: nat)
    requires Life(s) && Mails(s) && Turns(s) && Orders(s) && i < |s.sessions| && HasConn(s.sessions[i].run)
    ensures var k := s.sessions[i].run.conn;
            && k < |s.conns| && k < |s.wires|
            && (s.sessions[i].run.Joining? ==> JoinableReader(s, i, k))
            && (s.sessions[i].run.Serving? && s.sessions[i].run.at.Resend? ==> s.conns[k].token.None?)
            && (Busy(s.sessions[i].run) ==> s.sessions[i].mail.inflight.Some?)
  {
    var k := s.sessions[i].run.conn;
    assert MailFits(s.sessions[i]);
    assert ReaderTrue(s.conns[k], s.wires[k].session);
    assert DispatchFits(s, TheReader(k));
    assert JoinPending(s.sessions[i].run, s.conns[k]);
  }

  lemma HeldConnIsClosable(s: State, i: nat)
    requires Reachable(s) && i < |s.sessions| && HasConn(s.sessions[i].run)
    ensures var k := s.sessions[i].run.conn;
            && k < |s.conns| && k < |s.wires|
            && (s.sessions[i].run.Joining? ==> JoinableReader(s, i, k))
            && (s.sessions[i].run.Serving? && s.sessions[i].run.at.Resend? ==> s.conns[k].token.None?)
            && (Busy(s.sessions[i].run) ==> s.sessions[i].mail.inflight.Some?)
  {
    ReachableInv(s);
    ClosableConn(s, i);
  }

  lemma HeldLoopIsClosable(s: State, i: nat)
    requires Reachable(s) && i < |s.sessions| && (s.sessions[i].run.Retrieving? || s.sessions[i].run.Reporting?)
    ensures var d := s.sessions[i].run.d;
            && d.event < |s.board.events| && SpawnedFits(s.board.events[d.event])
            && (d.at.Waiting? ==> d.at.ctx == Some(i))
  {
    ReachableInv(s);
    ClosableRunner(s, i);
  }

  lemma OpenIsClosable(s: State, i: nat)
    requires Reachable(s) && i < |s.sessions| && !s.sessions[i].done
    ensures Closable(s, i)
  {
    assert s.session == Some(i) && !s.sessions[i].run.Finished?
           && (s.draining.None? || s.sessions[i].run.Draining?) by {
      ReachableInv(s);
      ClosableHolder(s, i);
    }
    if HasConn(s.sessions[i].run) {
      HeldConnIsClosable(s, i);
    } else if s.sessions[i].run.Retrieving? || s.sessions[i].run.Reporting? {
      HeldLoopIsClosable(s, i);
    }
  }

  lemma Closer(s: State, i: nat) returns (step: Step, t: State)
    requires Closable(s, i) && CtxDone(s, i) && NoWriters(s)
    ensures Do(s, step) == Some(t) && Inward(s, i, t) && Work(t, i) < Work(s, i)
  {
    var run := s.sessions[i].run;
    if run.Serving? {
      step, t := ServeCloser(s, i);
    } else if run.Joining? {
      step, t := JoinCloser(s, i);
    } else if run.Retrieving? || run.Reporting? {
      step, t := RunnerLoopCloser(s, i);
    } else {
      step := Running(i, NextPlain(s, i));
      if run.Draining? {
        t := DrainCloser(s, i);
      } else if Leaving(run) {
        t := LeavingCloser(s, i);
      } else {
        t := PlainCloser(s, i);
      }
    }
  }

  /** A canceled session can always come to its end, whatever it is doing. */
  lemma {:induction false} SessionCanEnd(s: State, i: nat) returns (t: State)
    requires Reachable(s) && i < |s.sessions| && CtxDone(s, i) && NoWriters(s)
    ensures Reachable(t) && Leads(s, t) && Inward(s, i, t) && t.sessions[i].done
    decreases Work(s, i)
  {
    if s.sessions[i].done {
      t := s;
      LeadsSelf(s);
    } else {
      OpenIsClosable(s, i);
      var step, n := Closer(s, i);
      TakeStep(s, step, n);
      t := SessionCanEnd(n, i);
      LeadsStep(s, step, n, t);
    }
  }

  lemma WritersReturn(s: State) returns (t: State)
    requires Reachable(s)
    ensures Reachable(t) && Leads(s, t) && OnlyMail(s, t) && NoWriters(t)
  {
    assert forall w | 0 <= w < |s.writers| && Active(s.writers[w]) :: s.writers[w].at.session < |s.sessions| by {
      ReachableInv(s);
    }
    t := WritersCanReturn(s, |s.writers|);
    LeadsReaches(s, t);
  }

  lemma DoneLeavesNoDrain(s: State)
    requires Life(s)
    requires s.session.None? || (s.session.value < |s.sessions| && s.sessions[s.session.value].done)
    ensures s.draining.None?
  {
    if s.draining.Some? {
      var j := s.draining.value;
      assert s.sessions[j].run.Draining? && SessionOk(s.sessions[j]);
      OpenIsCurrent(s, j);
    }
  }

  /** Nobody holds the client mutex once no Write is under way and the current session is done or not draining. */
  lemma DoneFreesMutex(s: State)
    requires Reachable(s) && NoWriters(s)
    requires s.session.None? || (s.session.value < |s.sessions| && s.sessions[s.session.value].done)
    ensures MutFree(s)
  {
    ReachableInv(s);
    DoneLeavesNoDrain(s);
  }

  /** A call of Stop that waits can always return, with no session and nothing subscribed. */
  lemma StopCanReturn(s: State) returns (t: State)
    requires Reachable(s) && s.stopping.Some?
    ensures Reachable(t) && Leads(s, t) && t.session.None? && t.stopping.None? && Subs.Empty(t.desired)
  {
    CurrentExists(s);
    var i := s.stopping.value;
    assert s.session == Some(i) && i < |s.sessions| && s.sessions[i].canceled by { ReachableInv(s); }
    var u := WritersReturn(s);
    var v := SessionCanEnd(u, i);
    DoneFreesMutex(v);
    t := DoCaller(v, FinishStop).value;
    FinishStopStep(v, t);
    LeadsOne(v, Caller(FinishStop), t);
    LeadsOn(u, v, t);
    LeadsOn(s, u, t);
    TakeStep(v, Caller(FinishStop), t);
  }

  lemma DrainIsCanceled(s: State)
    requires Reachable(s) && s.draining.Some?
    ensures s.draining.value < |s.sessions| && s.sessions[s.draining.value].canceled
  {
    ReachableInv(s);
    assert s.sessions[s.draining.value].run.Draining? && SessionOk(s.sessions[s.draining.value]);
  }

  lemma DrainIsOfCurrent(s: State, i: nat)
    requires Reachable(s) && s.draining == Some(i)
    ensures s.session == Some(i)
  {
    ReachableInv(s);
    assert s.sessions[i].run.Draining? && SessionOk(s.sessions[i]);
    OpenIsCurrent(s, i);
  }

  /** The mutex can always be had by a caller. */
  lemma CanCallStop(s: State) returns (t: State)
    requires Reachable(s) && s.stopping.None?
    ensures Reachable(t) && Leads(s, t) && t.stopping.None? && MutFree(t) && t.session == s.session
  {
    var u := WritersReturn(s);
    if u.draining.None? {
      t := u;
    } else {
      var i := u.draining.value;
      assert i < |u.sessions| && u.sessions[i].canceled by { DrainIsCanceled(u); }
      t := SessionCanEnd(u, i);
      DrainIsOfCurrent(u, i);
      DoneFreesMutex(t);
      LeadsOn(s, u, t);
    }
  }

  lemma RestIsFree(s: State, u: State) returns (t: State)
    requires Leads(s, u) && Reachable(u) && u.session.None? && u.stopping.None? && Subs.Empty(u.desired)
    ensures Reachable(t) && Leads(s, t) && t.session.None? && t.stopping.None? && Subs.Empty(t.desired)
    ensures DoCaller(t, CallStart).Some?
  {
    t := WritersReturn(u);
    DoneFreesMutex(t);
    LeadsOn(s, u, t);
  }

  /** No reachable state is a dead end: from every one the client can come to rest without a session, and, unless its
      own context is done, be started again. */
  lemma CanAlwaysRest(s: State) returns (t: State)
    requires Reachable(s)
    ensures Reachable(t) && Leads(s, t) && t.session.None? && t.stopping.None? && Subs.Empty(t.desired)
    ensures DoCaller(t, CallStart).Some?
  {
    if s.stopping.Some? {
      t := StopCanReturn(s);
    } else {
      var v := CanCallStop(s);
      if v.session.None? {
        t := v;
        SubscriptionStateIsWellFormed(t);
      } else {
        var w := DoCaller(v, CallStop).value;
        StopStep(v, w);
        TakeStep(v, Caller(CallStop), w);
        t := StopCanReturn(w);
        LeadsStep(v, Caller(CallStop), w, t);
        LeadsOn(s, v, t);
      }
    }
    t := RestIsFree(s, t);
  }
}
