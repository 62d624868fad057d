/** Which callbacks the messages on the wire lead to, and in what order. */
module EngineOrder {
  import opened Basics
  import opened Reconnect
  import opened Engine
  import opened EngineBoard
  import In = Incoming

  /** A message has been read and its event is not open yet. */
  predicate Pending(reader: Reader) { reader.Handling? || reader.Rejecting? }

  /** The list whose callbacks an event calls. */
  function KindOf(source: Source): (r: CallbackKind) {
    match source
    case FromWire(_, _, reaction) => if reaction.NotifyListen? then ListenKind else ErrorKind
    case Retrievers => RetrieveKind
    case FromRunner(_) => ErrorKind
  }

  predicate AllOfKind(callbacks: seq<Callback>, kind: CallbackKind) {
    forall cb | cb in callbacks :: cb.kind == kind
  }

  predicate ListsTyped(b: Board) {
    AllOfKind(b.listen, ListenKind) && AllOfKind(b.error, ErrorKind) && AllOfKind(b.retrieve, RetrieveKind)
  }

  /** An event is what it claims to be: the reaction to that message, or an error after which the loop goes on. */
  predicate EventTrue(s: State, event: Event) {
    && event.session < |s.sessions|
    && AllOfKind(event.callbacks, KindOf(event.source))
    && match event.source
       case FromWire(k, a, reaction) =>
         && k < |s.conns| && k < |s.wires| && a < |s.conns[k].received|
         && reaction == In.ParseIncoming(s.conns[k].received[a]) && !reaction.Nothing?
         && event.session == s.wires[k].session
       case Retrievers => true
       case FromRunner(err) => !Terminal(err)
  }

  /** The reaction to the message read last. */
  function LastReaction(conn: Conn): (r: In.Reaction)
    requires conn.received != []
  {
    In.ParseIncoming(conn.received[|conn.received| - 1])
  }

  predicate ReaderTrue(conn: Conn, owner: nat) {
    && (Pending(conn.reader) ==>
          && conn.received != []
          && LastReaction(conn) == if conn.reader.Handling? then conn.reader.reaction else In.RejectAndCancel)
    && (conn.reader.Handling? ==> !conn.reader.reaction.Nothing?)
    && (conn.reader.Rejecting? || conn.reader.Announcing? ==>
          conn.reader.target.None? || conn.reader.target == Some(owner))
    && (conn.reader.Rejecting? ==> conn.reader.target.Some?)
    && (conn.reader.Announcing? ==>
          conn.received != [] && (conn.reader.target.Some? <==> LastReaction(conn).RejectAndCancel?))
  }

  /** The message of a stands on the wire before that of b: on an earlier connection, or earlier on the same one. */
  predicate WireBefore(a: Source, b: Source)
    requires a.FromWire? && b.FromWire?
  {
    a.conn < b.conn || (a.conn == b.conn && a.index < b.index)
  }

  /** Events stand in the order in which their messages were read, across reconnects. */
  ghost predicate WireOrder(events: seq<Event>) {
    forall e, f | 0 <= e < f < |events| && events[e].source.FromWire? && events[f].source.FromWire? ::
      WireBefore(events[e].source, events[f].source)
  }

  ghost predicate Reported(events: seq<Event>, source: Source) {
    exists e | 0 <= e < |events| :: events[e].source == source
  }

  /** Every message that calls for callbacks has its event, except one that has only just been read. */
  ghost predicate NoneSkipped(conn: Conn, k: nat, events: seq<Event>) {
    forall a | 0 <= a < |conn.received| ::
      var reaction := In.ParseIncoming(conn.received[a]);
      || reaction.Nothing?
      || (Pending(conn.reader) && a + 1 == |conn.received|)
      || Reported(events, FromWire(k, a, reaction))
  }

  /** The message just read has no event yet. */
  ghost predicate PendingIsNew(conn: Conn, k: nat, events: seq<Event>) {
    Pending(conn.reader) ==>
      forall e | 0 <= e < |events| && events[e].source.FromWire? && events[e].source.conn == k ::
        events[e].source.index + 1 < |conn.received|
  }

  ghost predicate Orders(s: State) {
    && |s.conns| == |s.wires|
    && ListsTyped(s.board)
    && (forall k | 0 <= k < |s.wires| :: s.wires[k].session < |s.sessions|)
    && (forall e | 0 <= e < |s.board.events| :: EventTrue(s, s.board.events[e]))
    && WireOrder(s.board.events)
    && (forall k | 0 <= k < |s.conns| ::
          && ReaderTrue(s.conns[k], s.wires[k].session)
          && NoneSkipped(s.conns[k], k, s.board.events)
          && PendingIsNew(s.conns[k], k, s.board.events))
    && (forall i | 0 <= i < |s.sessions| && s.sessions[i].run.Report? :: !Terminal(s.sessions[i].run.err))
  }

  /** Same events (whatever has been started of them). */
  ghost predicate SameEvents(a: seq<Event>, b: seq<Event>) {
    |a| == |b| && forall e | 0 <= e < |a| :: b[e] == a[e].(spawned := b[e].spawned)
  }

  lemma SameEventsSkipNone(conn: Conn, k: nat, a: seq<Event>, b: seq<Event>)
    requires SameEvents(a, b) && NoneSkipped(conn, k, a)
    ensures NoneSkipped(conn, k, b)
  {
    forall i | 0 <= i < |conn.received| && Reported(a, FromWire(k, i, In.ParseIncoming(conn.received[i])))
      ensures Reported(b, FromWire(k, i, In.ParseIncoming(conn.received[i])))
    {
      var e :| 0 <= e < |a| && a[e].source == FromWire(k, i, In.ParseIncoming(conn.received[i]));
      assert b[e].source == a[e].source;
    }
  }

  /** No message is read and no event opened. */
  lemma QuietKeepsOrders(s: State, t: State)
    requires Orders(s) && SameEvents(s.board.events, t.board.events) && ListsTyped(t.board)
    requires |t.sessions| >= |s.sessions| && |t.conns| == |s.conns| && |t.wires| == |s.wires|
    requires forall k | 0 <= k < |s.wires| :: t.wires[k].session == s.wires[k].session
    requires forall k | 0 <= k < |s.conns| ::
               && t.conns[k].received == s.conns[k].received
               && Pending(t.conns[k].reader) == Pending(s.conns[k].reader)
               && ReaderTrue(t.conns[k], s.wires[k].session)
    requires forall i | 0 <= i < |t.sessions| && t.sessions[i].run.Report? :: !Terminal(t.sessions[i].run.err)
    ensures Orders(t)
  {
    forall e | 0 <= e < |t.board.events| ensures EventTrue(t, t.board.events[e]) {
      assert EventTrue(s, s.board.events[e]);
    }
    forall k | 0 <= k < |t.conns| ensures NoneSkipped(t.conns[k], k, t.board.events) {
      SameEventsSkipNone(s.conns[k], k, s.board.events, t.board.events);
    }
  }

  lemma MoreEventsSkipNone(conn: Conn, k: nat, events: seq<Event>, event: Event)
    requires NoneSkipped(conn, k, events)
    ensures NoneSkipped(conn, k, events + [event])
  {
    forall a | 0 <= a < |conn.received| && Reported(events, FromWire(k, a, In.ParseIncoming(conn.received[a])))
      ensures Reported(events + [event], FromWire(k, a, In.ParseIncoming(conn.received[a])))
    {
      var e :| 0 <= e < |events| && events[e].source == FromWire(k, a, In.ParseIncoming(conn.received[a]));
      assert (events + [event])[e].source == events[e].source;
    }
  }

  /** An event opened by a runner. */
  lemma RunnerEventKeepsOrders(s: State, t: State, event: Event)
    requires Orders(s) && !event.source.FromWire? && EventTrue(s, event)
    requires t.board == s.board.(events := s.board.events + [event])
    requires t.conns == s.conns && t.wires == s.wires && |t.sessions| == |s.sessions|
    requires forall i | 0 <= i < |t.sessions| && t.sessions[i].run.Report? :: !Terminal(t.sessions[i].run.err)
    ensures Orders(t)
  {
    forall e | 0 <= e < |t.board.events| ensures EventTrue(t, t.board.events[e]) {
      if e < |s.board.events| { assert EventTrue(s, s.board.events[e]); }
    }
    forall k | 0 <= k < |t.conns| ensures NoneSkipped(t.conns[k], k, t.board.events) {
      MoreEventsSkipNone(s.conns[k], k, s.board.events, event);
    }
  }

  // ---- every step ----

  lemma CallerKeepsLists(s: State, step: CallerStep, t: State)
    requires DoCaller(s, step) == Some(t) && ListsTyped(s.board)
    ensures ListsTyped(t.board)
  {
    match step
    case Register(r) =>
    case CallSubscribe(_, _, _) => assert t.board == s.board;
    case _ =>
  }

  lemma CallerLeavesOrder(s: State, t: State)
    requires Orders(s) && CallerEffect(s, t) && ListsTyped(t.board)
    ensures Orders(t)
  {
    forall i | 0 <= i < |t.sessions| && t.sessions[i].run.Report? ensures !Terminal(t.sessions[i].run.err) {
      assert SameWork(s.sessions[i], t.sessions[i]);
    }
    QuietKeepsOrders(s, t);
  }

  lemma CallerKeepsOrders(s: State, step: CallerStep, t: State)
    requires Orders(s) && DoCaller(s, step) == Some(t)
    ensures Orders(t)
  {
    CallerHasEffect(s, step, t);
    CallerKeepsLists(s, step, t);
    CallerLeavesOrder(s, t);
  }

  lemma WriterKeepsOrders(s: State, step: WriterStep, t: State)
    requires Orders(s) && DoWriter(s, step) == Some(t)
    ensures Orders(t)
  {
    WriterFrame(s, step, t);
    QuietKeepsOrders(s, t);
  }

  lemma RunnerOpensOrder(s: State, i: nat, step: RunnerStep, t: State)
    requires step.SnapRetrievers? || step.SnapErrors?
    requires Orders(s) && DoRunner(s, i, step) == Some(t)
    ensures Orders(t)
  {
    RunnerEventKeepsOrders(s, t, t.board.events[|s.board.events|]);
  }

  lemma ConnectKeepsOrders(s: State, i: nat, t: State)
    requires Orders(s) && DoRunner(s, i, EndDial(Connected)) == Some(t)
    ensures Orders(t)
  {
    forall e | 0 <= e < |t.board.events| ensures EventTrue(t, t.board.events[e]) {
      assert EventTrue(s, s.board.events[e]);
    }
    forall k | 0 <= k < |t.conns|
      ensures ReaderTrue(t.conns[k], t.wires[k].session) && NoneSkipped(t.conns[k], k, t.board.events)
      ensures PendingIsNew(t.conns[k], k, t.board.events)
    {
      if k < |s.conns| { assert ReaderTrue(s.conns[k], s.wires[k].session); }
    }
  }

  lemma RunnerLeavesOrder(s: State, i: nat, step: RunnerStep, t: State)
    requires DoRunner(s, i, step) == Some(t)
    requires !step.SnapRetrievers? && !step.SnapErrors? && !(step.EndDial? && step.result.Connected?)
    ensures t.sessions == s.sessions[i := t.sessions[i]] && t.wires == s.wires && t.board == s.board
    ensures |t.conns| == |s.conns|
    ensures forall k | 0 <= k < |s.conns| ::
              t.conns[k].received == s.conns[k].received && t.conns[k].reader == s.conns[k].reader
    ensures t.sessions[i].run.Report? ==> !Terminal(t.sessions[i].run.err)
  {
  }

  lemma RunnerKeepsOrders(s: State, i: nat, step: RunnerStep, t: State)
    requires Orders(s) && DoRunner(s, i, step) == Some(t)
    ensures Orders(t)
  {
    if step.SnapRetrievers? || step.SnapErrors? {
      RunnerOpensOrder(s, i, step, t);
    } else if step.EndDial? && step.result.Connected? {
      ConnectKeepsOrders(s, i, t);
    } else {
      RunnerLeavesOrder(s, i, step, t);
      QuietKeepsOrders(s, t);
    }
  }

  lemma ServeKeepsOrders(s: State, i: nat, step: ServeStep, t: State)
    requires Orders(s) && DoServe(s, i, step) == Some(t)
    ensures Orders(t)
  {
    ServeHasEffect(s, i, step, t);
    QuietKeepsOrders(s, t);
  }

  lemma ReceiveKeepsOrders(s: State, k: nat, raw: In.Raw, t: State)
    requires Orders(s) && DoReader(s, k, Receive(raw)) == Some(t)
    ensures Orders(t)
  {
    forall e | 0 <= e < |t.board.events| ensures EventTrue(t, t.board.events[e]) {
      assert EventTrue(s, s.board.events[e]);
    }
    forall j | 0 <= j < |t.conns|
      ensures ReaderTrue(t.conns[j], t.wires[j].session) && NoneSkipped(t.conns[j], j, t.board.events)
      ensures PendingIsNew(t.conns[j], j, t.board.events)
    {
      assert ReaderTrue(s.conns[j], s.wires[j].session) && NoneSkipped(s.conns[j], j, s.board.events);
      if j == k {
        forall e | 0 <= e < |t.board.events| && t.board.events[e].source.FromWire? && t.board.events[e].source.conn == k
          ensures t.board.events[e].source.index + 1 < |t.conns[k].received|
        {
          assert EventTrue(s, s.board.events[e]);
        }
      }
    }
  }

  lemma AnnouncedEvent(s: State, k: nat, t: State)
    requires DoReader(s, k, Announce) == Some(t) && ListsTyped(s.board)
    requires ReaderTrue(s.conns[k], s.wires[k].session) && s.wires[k].session < |s.sessions|
    ensures t.sessions == s.sessions && t.wires == s.wires && t.conns == s.conns[k := t.conns[k]]
    ensures t.conns[k].received == s.conns[k].received && t.conns[k].reader.Announcing?
    ensures Pending(s.conns[k].reader) && ReaderTrue(t.conns[k], s.wires[k].session)
    ensures |t.board.events| == |s.board.events| + 1 && ListsTyped(t.board)
    ensures var event := t.board.events[|s.board.events|];
            var n := |s.conns[k].received|;
            && t.board.events == s.board.events + [event] && EventTrue(s, event)
            && n > 0 && event.source == FromWire(k, n - 1, In.ParseIncoming(s.conns[k].received[n - 1]))
  {
  }

  /** The new event stands behind all others, because its connection is the newest and its message the last read. */
  lemma NewestKeepsWireOrder(s: State, k: nat, event: Event)
    requires WireOrder(s.board.events) && k + 1 == |s.conns|
    requires forall e | 0 <= e < |s.board.events| :: EventTrue(s, s.board.events[e])
    requires PendingIsNew(s.conns[k], k, s.board.events) && Pending(s.conns[k].reader)
    requires event.source.FromWire? && event.source.conn == k && event.source.index + 1 == |s.conns[k].received|
    ensures WireOrder(s.board.events + [event])
  {
    forall e | 0 <= e < |s.board.events| && s.board.events[e].source.FromWire?
      ensures WireBefore(s.board.events[e].source, event.source)
    {
      assert EventTrue(s, s.board.events[e]);
    }
  }

  lemma OpenedKeepsTrue(s: State, event: Event, t: State)
    requires forall e | 0 <= e < |s.board.events| :: EventTrue(s, s.board.events[e])
    requires EventTrue(s, event) && t.board.events == s.board.events + [event]
    requires t.sessions == s.sessions && t.wires == s.wires && |t.conns| == |s.conns|
    requires forall j | 0 <= j < |s.conns| :: t.conns[j].received == s.conns[j].received
    ensures forall e | 0 <= e < |t.board.events| :: EventTrue(t, t.board.events[e])
  {
    forall e | 0 <= e < |t.board.events| ensures EventTrue(t, t.board.events[e]) {
      if e < |s.board.events| { assert EventTrue(s, s.board.events[e]); }
    }
  }

  /** The connection whose message has just been announced, and the others. */
  lemma AnnouncedSkipsNone(conn: Conn, next: Conn, j: nat, k: nat, events: seq<Event>, event: Event)
    requires NoneSkipped(conn, j, events) && PendingIsNew(conn, j, events)
    requires next.received == conn.received && event.source.FromWire? && event.source.conn == k
    requires if j == k
             then !Pending(next.reader) && conn.received != [] &&
                  event.source == FromWire(k, |conn.received| - 1, LastReaction(conn))
             else next == conn
    ensures NoneSkipped(next, j, events + [event]) && PendingIsNew(next, j, events + [event])
  {
    MoreEventsSkipNone(conn, j, events, event);
    if j == k {
      assert (events + [event])[|events|] == event;
      assert Reported(events + [event], event.source);
    }
  }

  lemma AnnounceKeepsOrders(s: State, k: nat, t: State)
    requires Orders(s) && DoReader(s, k, Announce) == Some(t) && k + 1 == |s.conns|
    ensures Orders(t)
  {
    var event := t.board.events[|s.board.events|];
    AnnouncedEvent(s, k, t);
    OpenedKeepsTrue(s, event, t);
    NewestKeepsWireOrder(s, k, event);
    forall j | 0 <= j < |t.conns|
      ensures ReaderTrue(t.conns[j], t.wires[j].session) && NoneSkipped(t.conns[j], j, t.board.events)
      ensures PendingIsNew(t.conns[j], j, t.board.events)
    {
      AnnouncedSkipsNone(s.conns[j], t.conns[j], j, k, s.board.events, event);
    }
  }

  lemma ReaderLeavesOrder(s: State, k: nat, step: ReaderStep, t: State)
    requires DoReader(s, k, step) == Some(t) && !step.Receive? && !step.Announce?
    requires ReaderTrue(s.conns[k], s.wires[k].session)
    requires step.CaptureSession? ==> s.session == Some(s.wires[k].session)
    ensures |t.sessions| == |s.sessions| && t.wires == s.wires && t.board == s.board
    ensures forall i | 0 <= i < |s.sessions| :: t.sessions[i].run == s.sessions[i].run
    ensures t.conns == s.conns[k := t.conns[k]] && t.conns[k].received == s.conns[k].received
    ensures Pending(t.conns[k].reader) == Pending(s.conns[k].reader)
    ensures ReaderTrue(t.conns[k], s.wires[k].session)
  {
  }

  lemma ReaderKeepsOrders(s: State, k: nat, step: ReaderStep, t: State)
    requires Orders(s) && DoReader(s, k, step) == Some(t)
    requires step.CaptureSession? ==> k < |s.wires| && s.session == Some(s.wires[k].session)
    requires step.Announce? ==> k + 1 == |s.conns|
    ensures Orders(t)
  {
    match step
    case Receive(raw) => ReceiveKeepsOrders(s, k, raw, t);
    case Announce => AnnounceKeepsOrders(s, k, t);
    case _ =>
      ReaderLeavesOrder(s, k, step, t);
      QuietKeepsOrders(s, t);
  }

  lemma DispatchLeavesReaders(s: State, actor: Actor, step: DispatchStep, t: State)
    requires DoDispatch(s, actor, step) == Some(t)
    ensures |t.conns| == |s.conns|
    ensures forall k | 0 <= k < |s.conns| ::
              && t.conns[k].received == s.conns[k].received
              && (t.conns[k] == s.conns[k]
                  || (s.conns[k].reader.Announcing? && t.conns[k].reader.Announcing?
                      && t.conns[k].reader.target == s.conns[k].reader.target))
  {
  }

  lemma DispatchLeavesEvents(s: State, actor: Actor, step: DispatchStep, t: State)
    requires DoDispatch(s, actor, step) == Some(t)
    ensures SameEvents(s.board.events, t.board.events)
    ensures t.board == s.board.(slots := t.board.slots, events := t.board.events, spawns := t.board.spawns,
                                ended := t.board.ended)
  {
  }

  /** Every reader, and what the runners are about to report, are as before but for a place in a callback loop. */
  ghost predicate SameReaders(s: State, t: State) {
    && |t.conns| == |s.conns| && |t.sessions| == |s.sessions|
    && (forall k | 0 <= k < |s.conns| ::
          && t.conns[k].received == s.conns[k].received
          && (t.conns[k] == s.conns[k]
              || (s.conns[k].reader.Announcing? && t.conns[k].reader.Announcing?
                  && t.conns[k].reader.target == s.conns[k].reader.target)))
    && forall i | 0 <= i < |s.sessions| && t.sessions[i].run.Report? :: t.sessions[i].run == s.sessions[i].run
  }

  lemma SameReadersKeepOrders(s: State, t: State)
    requires Orders(s) && SameReaders(s, t) && SameEvents(s.board.events, t.board.events) && ListsTyped(t.board)
    requires t.wires == s.wires
    ensures Orders(t)
  {
    forall k | 0 <= k < |s.conns| ensures ReaderTrue(t.conns[k], s.wires[k].session) {
      assert ReaderTrue(s.conns[k], s.wires[k].session);
    }
    QuietKeepsOrders(s, t);
  }

  lemma DispatchKeepsOrders(s: State, actor: Actor, step: DispatchStep, t: State)
    requires Orders(s) && DoDispatch(s, actor, step) == Some(t)
    ensures Orders(t)
  {
    DispatchHasEffect(s, actor, step, t);
    DispatchLeavesReaders(s, actor, step, t);
    DispatchLeavesEvents(s, actor, step, t);
    SameReadersKeepOrders(s, t);
  }
}
