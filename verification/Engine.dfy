/** The websocket session engine of websocket.go as a transition system.

    One shared state; one step for each atomic section or channel operation of each goroutine. Everything the network,
    the timers, `select` and the callers decide is a parameter of the step. A critical section under the client mutex
    is one step, except the drain of runSession, which holds the write lock over several steps, and Write, which holds
    the read lock over several steps. `Do(s, step)` is None where the step cannot happen. */
module Engine {
  import opened Basics
  import opened Reconnect
  import Subs = Subscription
  import In = Incoming

  const QUEUE_SLOTS := 64
  const BYTE_BUDGET := 16 * 1024 * 1024
  const CALLBACK_SLOTS := 16

  // ---- callbacks ----

  /** The three lists a callback can be registered in. */
  datatype CallbackKind = ListenKind | ErrorKind | RetrieveKind
  datatype Callback = Callback(kind: CallbackKind, id: nat)

  datatype Source =
    | FromWire(conn: nat, index: nat, reaction: In.Reaction)   // the index-th message read on a connection
    | Retrievers
    | FromRunner(err: ConnError)

  /** One call of callListenCallbacks, callErrorCallbacks or callRetrievers: the callbacks copied under the lock and how
      many of them have been started. */
  datatype Event = Event(session: nat, source: Source, callbacks: seq<Callback>, spawned: nat)

  datatype Spawn = Spawn(event: nat, callback: Callback)

  /** The callback lists, the slot channel, and what has been started. `ended[j]` says start j has returned its slot. */
  datatype Board = Board(listen: seq<Callback>, error: seq<Callback>, retrieve: seq<Callback>, slots: nat,
                         events: seq<Event>, spawns: seq<Spawn>, ended: seq<bool>)

  /** Where a goroutine is in its loop over an event's callbacks; Waiting is the select of dispatch with the context it
      captured (None for the client's own). */
  datatype DispatchAt = Ready | Waiting(ctx: Option<nat>) | Stopped
  datatype Dispatch = Dispatch(event: nat, at: DispatchAt)

  // ---- sessions ----

  /** The local variables of serveConnection. */
  datatype Locals = Locals(previous: seq<string>, wasListening: bool, revision: nat, first: bool)

  /** Where the serve loop is. `cur` is the revision read at the start of the iteration. */
  datatype Serve =
    | Top
    | Sync(cur: nat)
    | Unsub(cur: nat, snap: Subs.Snapshot)
    | Update(cur: nat, snap: Subs.Snapshot)
    | Select(cur: nat)
    | Sending(cur: nat)
    | Sent(cur: nat, ok: bool)
    | Resend(err: ConnError)

  /** Where runSession is. */
  datatype Run =
    | LoopHead
    | Retrieve
    | Retrieving(d: Dispatch)
    | Dialing
    | Serving(conn: nat, loc: Locals, at: Serve)
    | Joining(conn: nat, err: ConnError)
    | Checking(err: ConnError)
    | Report(err: ConnError)
    | Reporting(d: Dispatch)
    | Pausing
    | Exiting
    | WaitingLock
    | Draining
    | Finished

  /** The send channel, its byte counter and the frame being written; `accepted` and `drained` are history. */
  datatype Mail = Mail(queue: seq<Bytes>, queuedBytes: int, inflight: Option<Bytes>,
                       accepted: seq<Bytes>, drained: seq<Bytes>)

  /** The reconnect delay; the rest is history: the dials made and whether they succeeded, the full waits, and the
      number of dials started after cancellation. */
  datatype Pace = Pace(delay: int, dials: seq<bool>, pauses: seq<int>, lateDials: nat)

  datatype Session = Session(canceled: bool, done: bool, wake: bool, run: Run, mail: Mail, pace: Pace)

  /** The reader goroutine of one connection. */
  datatype Reader =
    | Reading
    | Handling(reaction: In.Reaction)
    | Rejecting(target: Option<nat>)
    | Announcing(d: Dispatch, target: Option<nat>)
    | Closing(err: ConnError)
    | Dead

  /** The client's side of a connection: its reader, the readDone slot, and the messages read so far. */
  datatype Conn = Conn(reader: Reader, token: Option<ConnError>, received: seq<In.Raw>)

  datatype WireEvent = Control(msg: Subs.Message) | Synced(revision: nat) | User(payload: Bytes, cur: nat)

  /** The network's side: what the server was sent, with a mark where a synchronisation completed, and which user
      messages were dequeued for this connection. */
  datatype Wire = Wire(session: nat, log: seq<WireEvent>, taken: seq<Bytes>)

  datatype WriteResult = Accepted(session: nat) | TooLarge | NotStarted | ContextDone | BudgetExceeded | QueueFull

  datatype WriterAt =
    | Checked(session: nat)
    | Loaded(session: nat, used: int)
    | Reserved(session: nat)
    | Aborting(session: nat, why: WriteResult)
    | Returned(result: WriteResult)

  /** One call of Write. It holds the read lock until it has returned. */
  datatype Writer = Writer(payload: Bytes, at: WriterAt)

  datatype State = State(
    instanceID: string,
    canceled: bool,             // the client's own context
    session: Option<nat>,       // c.session
    desired: Subs.Desired,
    stopping: Option<nat>,      // Stop holds the lifecycle mutex and waits for this session
    draining: Option<nat>,      // runSession of this session holds the write lock
    sessions: seq<Session>,
    conns: seq<Conn>,
    wires: seq<Wire>,
    writers: seq<Writer>,
    board: Board)

  function Initial(instanceID: string): (r: State) {
    State(instanceID, false, None, Subs.Desired(Subs.SUBSCRIPTION, {}, map[], [], 0), None, None, [], [], [], [],
          Board([], [], [], 0, [], [], []))
  }

  const NewSession := Session(false, false, false, LoopHead, Mail([], 0, None, [], []), Pace(FIRST_DELAY, [], [], 0))

  // ---- steps ----

  datatype Registration = AddListen(id: nat) | SetListen(only: Option<nat>) | AddError(id: nat) | AddRetrieve(id: nat)

  datatype CallerStep =
    | CallStart
    | CallStop
    | FinishStop
    | CallSubscribe(addresses: seq<string>, signatures: map<string, string>, types: seq<Subs.TxType>)
    | CallUnsubscribe
    | CallWithMode(mode: int)
    | CancelRoot
    | Register(registration: Registration)
    | EndCallback(start: nat)

  datatype WriterStep =
    | CallWrite(payload: Bytes)
    | Load(w: nat)
    | Swap(w: nat)
    | Enqueue(w: nat)
    | GiveUp(w: nat, timeout: bool)
    | Release(w: nat)

  datatype DialResult = DialFailed | DeadlineFailed | Connected

  datatype RunnerStep =
    | CheckContext
    | SnapRetrievers
    | StartDial
    | EndDial(result: DialResult)
    | EndServe
    | CheckOutcome
    | SnapErrors
    | StartPause
    | EndPause(timer: bool)
    | CancelSelf
    | LockForDrain
    | DrainOne
    | CloseDone

  /** How a frame write went; a failed write may still have reached the server. */
  datatype WriteOutcome = WriteOk | WriteFailed(delivered: bool)

  datatype ServeStep =
    | ReadRevision
    | TakeSnapshot(addrs: seq<string>)
    | SendUnsubscribe(res: WriteOutcome)
    | SendUpdate(res: WriteOutcome)
    | SelectDone
    | SelectReader
    | ResendToken
    | SelectWake
    | SelectSend
    | SelectPing(ok: bool)
    | SendUser(res: WriteOutcome)
    | Account

  datatype ReaderStep =
    | Receive(raw: In.Raw)
    | CaptureSession
    | Announce
    | EndAnnounce
    | FailRead(err: ConnError)
    | Signal

  datatype Actor = TheRunner(session: nat) | TheReader(conn: nat)

  datatype DispatchStep = Capture | StartCallback | Abort

  datatype Step =
    | Caller(caller: CallerStep)
    | Writing(writer: WriterStep)
    | Running(session: nat, runner: RunnerStep)
    | Serves(session: nat, serve: ServeStep)
    | Reads(conn: nat, reader: ReaderStep)
    | Dispatches(actor: Actor, dispatch: DispatchStep)

  // ---- what the steps ask and change ----

  predicate Active(w: Writer) { !w.at.Returned? }

  /** No goroutine holds the client mutex, so a writer may take it. */
  predicate MutFree(s: State) {
    s.draining.None? && forall w | 0 <= w < |s.writers| :: !Active(s.writers[w])
  }

  /** The context of a session is done. */
  predicate CtxDone(s: State, i: nat) {
    s.canceled || (i < |s.sessions| && s.sessions[i].canceled)
  }

  function Status(s: State): (r: Subs.SessionStatus) {
    match s.session
    case None => Subs.NoSession
    case Some(i) => if i < |s.sessions| && !CtxDone(s, i) then Subs.Live else Subs.Ended
  }

  function With(s: State, i: nat, session: Session): (r: State)
    requires i < |s.sessions|
  {
    s.(sessions := s.sessions[i := session])
  }

  function RunTo(s: State, i: nat, run: Run): (r: State)
    requires i < |s.sessions|
  {
    With(s, i, s.sessions[i].(run := run))
  }

  function Cancel(s: State, i: nat): (r: State) {
    if i < |s.sessions| then With(s, i, s.sessions[i].(canceled := true)) else s
  }

  /** notifySubscriptionLocked: a token in the one-slot channel of the current session. */
  function Notify(s: State): (r: State) {
    if s.session.Some? && s.session.value < |s.sessions| then
      With(s, s.session.value, s.sessions[s.session.value].(wake := true))
    else s
  }

  function ReaderTo(s: State, k: nat, reader: Reader): (r: State)
    requires k < |s.conns|
  {
    s.(conns := s.conns[k := s.conns[k].(reader := reader)])
  }

  function TokenTo(s: State, k: nat, token: Option<ConnError>): (r: State)
    requires k < |s.conns|
  {
    s.(conns := s.conns[k := s.conns[k].(token := token)])
  }

  function Log(s: State, k: nat, events: seq<WireEvent>): (r: State)
    requires k < |s.wires|
  {
    s.(wires := s.wires[k := s.wires[k].(log := s.wires[k].log + events)])
  }

  /** What a write leaves on the wire. */
  function Delivered(res: WriteOutcome, event: WireEvent): (r: seq<WireEvent>) {
    if res.WriteOk? || res.delivered then [event] else []
  }

  function OpenEvent(s: State, event: Event): (r: State) {
    s.(board := s.board.(events := s.board.events + [event]))
  }

  function NextDispatch(s: State): (r: Dispatch) { Dispatch(|s.board.events|, Ready) }

  predicate DispatchOver(s: State, d: Dispatch) {
    || d.at.Stopped?
    || (d.at.Ready? && d.event < |s.board.events| &&
        s.board.events[d.event].spawned == |s.board.events[d.event].callbacks|)
  }

  function RegisterOn(b: Board, r: Registration): (res: Board) {
    match r
    case AddListen(id) => b.(listen := b.listen + [Callback(ListenKind, id)])
    case SetListen(only) => b.(listen := if only.Some? then [Callback(ListenKind, only.value)] else [])
    case AddError(id) => b.(error := b.error + [Callback(ErrorKind, id)])
    case AddRetrieve(id) => b.(retrieve := b.retrieve + [Callback(RetrieveKind, id)])
  }

  // ---- the callers: Start, Stop, Subscribe, Unsubscribe, WithMode, the setters ----

  function DoCaller(s: State, step: CallerStep): (r: Option<State>) {
    match step
    case CallStart =>
      if s.stopping.Some? || !MutFree(s) then None
      else if s.session.Some? && !(s.session.value < |s.sessions| && s.sessions[s.session.value].done) then Some(s)
      else if s.canceled then Some(s)
      else Some(s.(sessions := s.sessions + [NewSession], session := Some(|s.sessions|)))
    case CallStop =>
      if s.stopping.Some? || !MutFree(s) then None
      else if s.session.None? then Some(s)
      else Some(Cancel(s, s.session.value).(stopping := s.session))
    case FinishStop =>
      if s.stopping.Some? && s.stopping.value < |s.sessions| && s.sessions[s.stopping.value].done && MutFree(s)
      then Some(s.(session := None, stopping := None, desired := Subs.Cleared(s.desired)))
      else None
    case CallSubscribe(addresses, signatures, types) =>
      if !MutFree(s) then None
      else if Subs.SubscribeOutcome(s.desired, Status(s), addresses, signatures, types) != Subs.Ok then Some(s)
      else Some(Notify(s.(desired := Subs.Subscribed(s.desired, addresses, signatures, types))))
    case CallUnsubscribe =>
      if !MutFree(s) then None
      else if Subs.UnsubscribeOutcome(s.desired, Status(s)) != Subs.Ok then Some(s)
      else Some(Notify(s.(desired := Subs.Cleared(s.desired))))
    case CallWithMode(mode) =>
      if !MutFree(s) then None else Some(Notify(s.(desired := Subs.WithMode(s.desired, mode))))
    case CancelRoot => Some(s.(canceled := true))
    case Register(r) => if !MutFree(s) then None else Some(s.(board := RegisterOn(s.board, r)))
    case EndCallback(j) =>
      if j < |s.board.ended| && !s.board.ended[j] && s.board.slots > 0
      then Some(s.(board := s.board.(ended := s.board.ended[j := true], slots := s.board.slots - 1)))
      else None
  }

  /** A session before and after a call of another goroutine: at most its context and its wake-up token change. */
  predicate SameWork(a: Session, b: Session) {
    b == a.(canceled := b.canceled, wake := b.wake) && (a.canceled ==> b.canceled)
  }

  /** What no caller touches. */
  ghost predicate CallerEffect(s: State, t: State) {
    && t.conns == s.conns && t.wires == s.wires && t.writers == s.writers && t.instanceID == s.instanceID
    && t.board.events == s.board.events && t.board.spawns == s.board.spawns
    && (s.canceled ==> t.canceled)
    && |s.sessions| <= |t.sessions|
    && forall i | 0 <= i < |t.sessions| ::
         if i < |s.sessions| then SameWork(s.sessions[i], t.sessions[i]) else t.sessions[i] == NewSession
  }

  lemma NotifyHasEffect(s: State, d: Subs.Desired)
    ensures CallerEffect(s, Notify(s.(desired := d)))
  {
  }

  lemma CallerHasEffect(s: State, step: CallerStep, t: State)
    requires DoCaller(s, step) == Some(t)
    ensures CallerEffect(s, t)
  {
    match step
    case CallSubscribe(addresses, signatures, types) =>
      NotifyHasEffect(s, Subs.Subscribed(s.desired, addresses, signatures, types));
    case CallUnsubscribe => NotifyHasEffect(s, Subs.Cleared(s.desired));
    case CallWithMode(mode) => NotifyHasEffect(s, Subs.WithMode(s.desired, mode));
    case _ =>
  }

  // ---- Write ----

  function WriterTo(s: State, w: nat, at: WriterAt): (r: State)
    requires w < |s.writers|
  {
    s.(writers := s.writers[w := s.writers[w].(at := at)])
  }

  function MailTo(s: State, i: nat, mail: Mail): (r: State)
    requires i < |s.sessions|
  {
    With(s, i, s.sessions[i].(mail := mail))
  }

  function DoCallWrite(s: State, payload: Bytes): (r: Option<State>) {
    if |payload| > BYTE_BUDGET then Some(s.(writers := s.writers + [Writer(payload, Returned(TooLarge))]))
    else if s.draining.Some? then None
    else
      var at := match Status(s)
                case NoSession => Returned(NotStarted)
                case Ended => Returned(ContextDone)
                case Live => Checked(s.session.value);
      Some(s.(writers := s.writers + [Writer(payload, at)]))
  }

  function DoWriter(s: State, step: WriterStep): (r: Option<State>) {
    if step.CallWrite? then DoCallWrite(s, step.payload)
    else if step.w >= |s.writers| || !Active(s.writers[step.w]) then None
    else if s.writers[step.w].at.session >= |s.sessions| then None
    else
      var w, at, size := step.w, s.writers[step.w].at, |s.writers[step.w].payload|;
      var i := at.session;
      var mail := s.sessions[i].mail;
      match step
      case Load(_) =>
        if !at.Checked? then None
        else if mail.queuedBytes + size > BYTE_BUDGET then Some(WriterTo(s, w, Returned(BudgetExceeded)))
        else Some(WriterTo(s, w, Loaded(i, mail.queuedBytes)))
      case Swap(_) =>
        if !at.Loaded? then None
        else if mail.queuedBytes != at.used then Some(WriterTo(s, w, Checked(i)))
        else Some(MailTo(WriterTo(s, w, Reserved(i)), i, mail.(queuedBytes := at.used + size)))
      case Enqueue(_) =>
        if !at.Reserved? || |mail.queue| >= QUEUE_SLOTS then None
        else
          var b := s.writers[w].payload;
          Some(MailTo(WriterTo(s, w, Returned(Accepted(i))), i,
                      mail.(queue := mail.queue + [b], accepted := mail.accepted + [b])))
      case GiveUp(_, timeout) =>
        if !at.Reserved? || !(timeout || CtxDone(s, i)) then None
        else Some(WriterTo(s, w, Aborting(i, if timeout then QueueFull else ContextDone)))
      case Release(_) =>
        if !at.Aborting? then None
        else Some(MailTo(WriterTo(s, w, Returned(at.why)), i, mail.(queuedBytes := mail.queuedBytes - size)))
  }

  /** A call of Write touches its own record and the mail of its session. */
  lemma WriterHasEffect(s: State, step: WriterStep, t: State)
    requires DoWriter(s, step) == Some(t)
    ensures t == s.(writers := t.writers, sessions := t.sessions) && |t.sessions| == |s.sessions|
    ensures forall i | 0 <= i < |s.sessions| :: t.sessions[i] == s.sessions[i].(mail := t.sessions[i].mail)
  {
  }

  // ---- runSession ----

  function DoEndDial(s: State, i: nat, result: DialResult): (r: State)
    requires i < |s.sessions|
  {
    var sess := s.sessions[i];
    var reset := sess.pace.(delay := FIRST_DELAY, dials := sess.pace.dials + [true]);
    match result
    case DialFailed =>
      With(s, i, sess.(run := Checking(IOFailure), pace := sess.pace.(dials := sess.pace.dials + [false])))
    case DeadlineFailed => With(s, i, sess.(run := Checking(IOFailure), pace := reset))
    case Connected =>
      With(s, i, sess.(run := Serving(|s.conns|, Locals([], false, 0, true), Top), pace := reset))
      .(conns := s.conns + [Conn(Reading, None, [])], wires := s.wires + [Wire(i, [], [])])
  }

  function DoRunner(s: State, i: nat, step: RunnerStep): (r: Option<State>) {
    if i >= |s.sessions| then None
    else
      var sess := s.sessions[i];
      var run, mail, pace := sess.run, sess.mail, sess.pace;
      match step
      case CheckContext =>
        if !run.LoopHead? then None else Some(RunTo(s, i, if CtxDone(s, i) then Exiting else Retrieve))
      case SnapRetrievers =>
        if !run.Retrieve? || s.draining.Some? then None
        else Some(OpenEvent(RunTo(s, i, Retrieving(NextDispatch(s))), Event(i, Retrievers, s.board.retrieve, 0)))
      case StartDial =>
        if !run.Retrieving? || !DispatchOver(s, run.d) || s.draining.Some? then None
        else Some(With(s, i, sess.(run := Dialing,
                                   pace := pace.(lateDials := pace.lateDials + if CtxDone(s, i) then 1 else 0))))
      case EndDial(result) => if !run.Dialing? then None else Some(DoEndDial(s, i, result))
      case EndServe =>
        if !run.Joining? || run.conn >= |s.conns| || s.conns[run.conn].token.None? then None
        else Some(TokenTo(RunTo(s, i, Checking(run.err)), run.conn, None))
      case CheckOutcome =>
        if !run.Checking? then None
        else Some(RunTo(s, i, if CtxDone(s, i) || Terminal(run.err) then Exiting else Report(run.err)))
      case SnapErrors =>
        if !run.Report? || s.draining.Some? then None
        else Some(OpenEvent(RunTo(s, i, Reporting(NextDispatch(s))), Event(i, FromRunner(run.err), s.board.error, 0)))
      case StartPause =>
        if !run.Reporting? || !DispatchOver(s, run.d) then None else Some(RunTo(s, i, Pausing))
      case EndPause(timer) =>
        if !run.Pausing? then None
        else if timer then
          Some(With(s, i, sess.(run := LoopHead,
                                pace := pace.(delay := Longer(pace.delay), pauses := pace.pauses + [pace.delay]))))
        else if CtxDone(s, i) then Some(RunTo(s, i, Exiting))
        else None
      case CancelSelf => if !run.Exiting? then None else Some(With(s, i, sess.(canceled := true, run := WaitingLock)))
      case LockForDrain =>
        if !run.WaitingLock? || !MutFree(s) then None else Some(RunTo(s, i, Draining).(draining := Some(i)))
      case DrainOne =>
        if !run.Draining? || mail.queue == [] then None
        else
          Some(MailTo(s, i, mail.(queue := mail.queue[1..], queuedBytes := mail.queuedBytes - |mail.queue[0]|,
                                  drained := mail.drained + [mail.queue[0]])))
      case CloseDone =>
        if !run.Draining? || mail.queue != [] then None
        else Some(With(s, i, sess.(done := true, run := Finished)).(draining := None))
  }

  // ---- serveConnection ----

  function DoSelect(s: State, i: nat, k: nat, loc: Locals, at: Serve, step: ServeStep): (r: Option<State>)
    requires i < |s.sessions| && k < |s.conns|
  {
    match step
    case SelectDone =>
      if !at.Select? || !CtxDone(s, i) then None else Some(RunTo(s, i, Joining(k, ContextCanceled)))
    case SelectReader =>
      if !at.Select? || s.conns[k].token.None? then None
      else Some(TokenTo(RunTo(s, i, Serving(k, loc, Resend(s.conns[k].token.value))), k, None))
    case ResendToken =>
      if !at.Resend? || s.conns[k].token.Some? then None
      else Some(TokenTo(RunTo(s, i, Joining(k, at.err)), k, Some(at.err)))
    case SelectWake =>
      if !at.Select? || !s.sessions[i].wake then None
      else Some(With(s, i, s.sessions[i].(wake := false, run := Serving(k, loc, Top))))
    case SelectPing(ok) =>
      if !at.Select? then None
      else Some(RunTo(s, i, if ok then Serving(k, loc, Top) else Joining(k, IOFailure)))
    case _ => None
  }

  function DoSend(s: State, i: nat, k: nat, loc: Locals, at: Serve, step: ServeStep): (r: Option<State>)
    requires i < |s.sessions| && k < |s.wires|
  {
    var sess := s.sessions[i];
    var mail, wire := sess.mail, s.wires[k];
    match step
    case SelectSend =>
      if !at.Select? || mail.queue == [] then None
      else
        var b := mail.queue[0];
        Some(With(s, i, sess.(run := Serving(k, loc, Sending(at.cur)),
                              mail := mail.(queue := mail.queue[1..], inflight := Some(b))))
             .(wires := s.wires[k := wire.(taken := wire.taken + [b])]))
    case SendUser(res) =>
      if !at.Sending? || mail.inflight.None? then None
      else
        Some(Log(RunTo(s, i, Serving(k, loc, Sent(at.cur, res.WriteOk?))), k,
                 Delivered(res, User(mail.inflight.value, at.cur))))
    case Account =>
      if !at.Sent? || mail.inflight.None? then None
      else
        Some(With(s, i, sess.(run := if at.ok then Serving(k, loc, Top) else Joining(k, IOFailure),
                              mail := mail.(queuedBytes := mail.queuedBytes - |mail.inflight.value|,
                                            inflight := None))))
    case _ => None
  }

  ghost function DoSync(s: State, i: nat, k: nat, loc: Locals, at: Serve, step: ServeStep): (r: Option<State>)
    requires i < |s.sessions| && k < |s.wires|
  {
    match step
    case ReadRevision =>
      if !at.Top? || s.draining.Some? then None
      else
        var cur := s.desired.revision;
        Some(RunTo(s, i, Serving(k, loc, if loc.first || loc.revision != cur then Sync(cur) else Select(cur))))
    case TakeSnapshot(addrs) =>
      if !at.Sync? || s.draining.Some? || !Subs.Lists(addrs, Subs.DesiredSignatures(s.desired).Keys) then None
      else Some(RunTo(s, i, Serving(k, loc, Unsub(at.cur, Subs.SnapshotOf(s.desired, addrs, s.instanceID)))))
    case SendUnsubscribe(res) =>
      if !at.Unsub? then None
      else
        var needed := Subs.NeedsUnsubscribe(loc.previous, loc.wasListening, at.snap);
        var next := if needed && res.WriteFailed? then Joining(k, IOFailure)
                    else Serving(k, loc, Update(at.cur, at.snap));
        var sent := if needed then Delivered(res, Control(Subs.UnsubscribeOf(loc.previous, at.snap))) else [];
        Some(Log(RunTo(s, i, next), k, sent))
    case SendUpdate(res) =>
      if !at.Update? then None
      else
        var needed := Subs.NeedsUpdate(at.snap);
        var synced := Locals(at.snap.msg.addrs, at.snap.listening, at.snap.revision, false);
        var next := if needed && res.WriteFailed? then Joining(k, IOFailure) else Serving(k, synced, Select(at.cur));
        var sent := if needed then Delivered(res, Control(at.snap.msg)) else [];
        Some(Log(RunTo(s, i, next), k, sent + if next.Serving? then [Synced(at.snap.revision)] else []))
    case _ => None
  }

  ghost function DoServe(s: State, i: nat, step: ServeStep): (r: Option<State>) {
    if i >= |s.sessions| || !s.sessions[i].run.Serving? then None
    else
      var run := s.sessions[i].run;
      if run.conn >= |s.conns| || run.conn >= |s.wires| then None
      else if step.SelectDone? || step.SelectReader? || step.ResendToken? || step.SelectWake? || step.SelectPing?
      then DoSelect(s, i, run.conn, run.loc, run.at, step)
      else if step.SelectSend? || step.SendUser? || step.Account? then DoSend(s, i, run.conn, run.loc, run.at, step)
      else DoSync(s, i, run.conn, run.loc, run.at, step)
  }

  /** What a step of serveConnection can touch: its own session, completion tokens, and logs of connections. */
  ghost predicate ServeEffect(s: State, i: nat, t: State) {
    && i < |s.sessions| && s.sessions[i].run.Serving? && |t.sessions| == |s.sessions|
    && t == s.(sessions := s.sessions[i := t.sessions[i]], conns := t.conns, wires := t.wires)
    && var a, b := s.sessions[i], t.sessions[i];
    && b == a.(run := b.run, mail := b.mail, wake := b.wake)
    && (b.run.Serving? || b.run.Joining?) && b.run.conn == a.run.conn
    && |t.conns| == |s.conns| && |t.wires| == |s.wires|
    && (forall k | 0 <= k < |s.conns| :: t.conns[k] == s.conns[k].(token := t.conns[k].token))
    && (forall k | 0 <= k < |s.wires| :: t.wires[k].session == s.wires[k].session)
  }

  lemma SyncHasEffect(s: State, i: nat, step: ServeStep, t: State)
    requires step.ReadRevision? || step.TakeSnapshot? || step.SendUnsubscribe? || step.SendUpdate?
    requires DoServe(s, i, step) == Some(t)
    ensures ServeEffect(s, i, t)
  {
  }

  lemma SelectHasEffect(s: State, i: nat, step: ServeStep, t: State)
    requires step.SelectDone? || step.SelectReader? || step.ResendToken? || step.SelectWake? || step.SelectPing?
    requires DoServe(s, i, step) == Some(t)
    ensures ServeEffect(s, i, t)
  {
  }

  lemma SendHasEffect(s: State, i: nat, step: ServeStep, t: State)
    requires step.SelectSend? || step.SendUser? || step.Account?
    requires DoServe(s, i, step) == Some(t)
    ensures ServeEffect(s, i, t)
  {
  }

  lemma ServeHasEffect(s: State, i: nat, step: ServeStep, t: State)
    requires DoServe(s, i, step) == Some(t)
    ensures ServeEffect(s, i, t)
  {
    if step.ReadRevision? || step.TakeSnapshot? || step.SendUnsubscribe? || step.SendUpdate? {
      SyncHasEffect(s, i, step, t);
    } else if step.SelectSend? || step.SendUser? || step.Account? {
      SendHasEffect(s, i, step, t);
    } else {
      SelectHasEffect(s, i, step, t);
    }
  }

  // ---- the reader goroutine ----

  function DoReader(s: State, k: nat, step: ReaderStep): (r: Option<State>) {
    if k >= |s.conns| || k >= |s.wires| then None
    else
      var conn, owner := s.conns[k], s.wires[k].session;
      var reader := conn.reader;
      match step
      case Receive(raw) =>
        if !reader.Reading? then None
        else
          var reaction := In.ParseIncoming(raw);
          Some(s.(conns := s.conns[k := conn.(received := conn.received + [raw],
                                              reader := if reaction.Nothing? then Reading else Handling(reaction))]))
      case CaptureSession =>
        if !reader.Handling? || !reader.reaction.RejectAndCancel? || s.draining.Some? then None
        else Some(ReaderTo(s, k, Rejecting(s.session)))
      case Announce =>
        if s.draining.Some? || conn.received == [] then None
        else if reader.Handling? && !reader.reaction.RejectAndCancel? then
          var callbacks := if reader.reaction.NotifyListen? then s.board.listen else s.board.error;
          Some(OpenEvent(ReaderTo(s, k, Announcing(NextDispatch(s), None)),
                         Event(owner, FromWire(k, |conn.received| - 1, reader.reaction), callbacks, 0)))
        else if reader.Rejecting? then
          Some(OpenEvent(ReaderTo(s, k, Announcing(NextDispatch(s), reader.target)),
                         Event(owner, FromWire(k, |conn.received| - 1, In.RejectAndCancel), s.board.error, 0)))
        else None
      case EndAnnounce =>
        if !reader.Announcing? || !DispatchOver(s, reader.d) then None
        else
          var t := ReaderTo(s, k, Reading);
          Some(if reader.target.Some? then Cancel(t, reader.target.value) else t)
      case FailRead(err) => if !reader.Reading? then None else Some(ReaderTo(s, k, Closing(err)))
      case Signal =>
        if !reader.Closing? || conn.token.Some? then None
        else Some(s.(conns := s.conns[k := conn.(reader := Dead, token := Some(reader.err))]))
  }

  /** A reader touches its connection, and cancels at most. */
  lemma ReaderHasEffect(s: State, k: nat, step: ReaderStep, t: State)
    requires DoReader(s, k, step) == Some(t)
    ensures t == s.(sessions := t.sessions, conns := t.conns, board := t.board) && |t.sessions| == |s.sessions|
    ensures forall i | 0 <= i < |s.sessions| ::
              t.sessions[i] == s.sessions[i].(canceled := t.sessions[i].canceled)
              && (s.sessions[i].canceled ==> t.sessions[i].canceled)
  {
  }

  // ---- dispatch ----

  /** The callback loop an actor is in, if any. */
  function DispatchOf(s: State, actor: Actor): (r: Option<Dispatch>) {
    match actor
    case TheRunner(i) =>
      if i < |s.sessions| then
        match s.sessions[i].run case Retrieving(d) => Some(d) case Reporting(d) => Some(d) case _ => None
      else None
    case TheReader(k) =>
      if k < |s.conns| && s.conns[k].reader.Announcing? then Some(s.conns[k].reader.d) else None
  }

  function SetDispatch(s: State, actor: Actor, d: Dispatch): (r: State)
    requires DispatchOf(s, actor).Some?
  {
    match actor
    case TheRunner(i) => RunTo(s, i, if s.sessions[i].run.Retrieving? then Retrieving(d) else Reporting(d))
    case TheReader(k) => ReaderTo(s, k, Announcing(d, s.conns[k].reader.target))
  }

  /** The context a dispatch captured is done. */
  predicate Interrupted(s: State, ctx: Option<nat>) {
    match ctx case None => s.canceled case Some(j) => CtxDone(s, j)
  }

  function DoDispatch(s: State, actor: Actor, step: DispatchStep): (r: Option<State>) {
    var dispatch := DispatchOf(s, actor);
    if dispatch.None? || dispatch.value.event >= |s.board.events| then None
    else
      var d := dispatch.value;
      var event := s.board.events[d.event];
      match step
      case Capture =>
        if !d.at.Ready? || event.spawned >= |event.callbacks| || s.draining.Some? then None
        else Some(SetDispatch(s, actor, d.(at := Waiting(s.session))))
      case StartCallback =>
        if !d.at.Waiting? || s.board.slots >= CALLBACK_SLOTS || event.spawned >= |event.callbacks| then None
        else
          Some(SetDispatch(s, actor, d.(at := Ready))
               .(board := s.board.(slots := s.board.slots + 1,
                                   events := s.board.events[d.event := event.(spawned := event.spawned + 1)],
                                   spawns := s.board.spawns + [Spawn(d.event, event.callbacks[event.spawned])],
                                   ended := s.board.ended + [false])))
      case Abort =>
        if !d.at.Waiting? || !Interrupted(s, d.at.ctx) then None
        else Some(SetDispatch(s, actor, d.(at := Stopped)))
  }

  /** A step of a callback loop moves the acting goroutine inside its loop. */
  lemma DispatchHasEffect(s: State, actor: Actor, step: DispatchStep, t: State)
    requires DoDispatch(s, actor, step) == Some(t)
    ensures t == s.(sessions := t.sessions, conns := t.conns, board := t.board) && |t.sessions| == |s.sessions|
    ensures forall i | 0 <= i < |s.sessions| ::
              && t.sessions[i] == s.sessions[i].(run := t.sessions[i].run)
              && (t.sessions[i].run == s.sessions[i].run
                  || (s.sessions[i].run.Retrieving? && t.sessions[i].run.Retrieving?)
                  || (s.sessions[i].run.Reporting? && t.sessions[i].run.Reporting?))
  {
  }

  // ---- runs ----

  ghost function Do(s: State, step: Step): (r: Option<State>) {
    match step
    case Caller(c) => DoCaller(s, c)
    case Writing(w) => DoWriter(s, w)
    case Running(i, r) => DoRunner(s, i, r)
    case Serves(i, v) => DoServe(s, i, v)
    case Reads(k, r) => DoReader(s, k, r)
    case Dispatches(a, d) => DoDispatch(s, a, d)
  }

  /** `steps` leads from s to t. */
  ghost predicate Runs(s: State, steps: seq<Step>, t: State)
    decreases |steps|
  {
    if steps == [] then t == s
    else Do(s, steps[0]).Some? && Runs(Do(s, steps[0]).value, steps[1..], t)
  }
}
