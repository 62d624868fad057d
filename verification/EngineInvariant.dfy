/** The inductive invariant: every reachable state satisfies every group of invariants at once. */
module EngineInvariant {
  import opened Basics
  import opened Engine
  import opened EngineLife
  import opened EngineMail
  import opened EngineSync
  import opened EngineBoard
  import opened EngineOrder
  import opened EnginePace

  ghost predicate Inv(s: State) {
    Life(s) && Mails(s) && Syncs(s) && Turns(s) && Orders(s) && Paces(s)
  }

  lemma InitialInv(id: string)
    ensures Inv(Initial(id))
  {
  }

  lemma OrdersKnowEvents(s: State)
    requires Orders(s)
    ensures EventsKnown(s)
  {
    forall e | 0 <= e < |s.board.events| ensures s.board.events[e].session < |s.sessions| {
      assert EventTrue(s, s.board.events[e]);
    }
  }

  lemma CallerKeepsInv(s: State, step: CallerStep, t: State)
    requires Inv(s) && DoCaller(s, step) == Some(t)
    ensures Inv(t)
  {
    OrdersKnowEvents(s);
    CallerKeepsLife(s, step, t);
    CallerHasEffect(s, step, t);
    CallerKeepsMails(s, t);
    CallerKeepsSyncs(s, step, t);
    CallerKeepsTurns(s, step, t);
    CallerKeepsOrders(s, step, t);
    CallerKeepsPaces(s, step, t);
  }

  lemma LifeOpensWriters(s: State)
    requires Life(s)
    ensures WritersOpen(s)
  {
  }

  lemma WriterKeepsInv(s: State, step: WriterStep, t: State)
    requires Inv(s) && DoWriter(s, step) == Some(t)
    ensures Inv(t)
  {
    LifeOpensWriters(s);
    WriterKeepsLife(s, step, t);
    WriterKeepsMails(s, step, t);
    WriterKeepsSyncs(s, step, t);
    WriterKeepsTurns(s, step, t);
    WriterKeepsOrders(s, step, t);
    WriterKeepsPaces(s, step, t);
  }

  lemma RunnerKeepsInv(s: State, i: nat, step: RunnerStep, t: State)
    requires Inv(s) && DoRunner(s, i, step) == Some(t)
    ensures Inv(t)
  {
    OrdersKnowEvents(s);
    RunnerKeepsLife(s, i, step, t);
    RunnerKeepsMails(s, i, step, t);
    RunnerKeepsSyncs(s, i, step, t);
    RunnerKeepsTurns(s, i, step, t);
    RunnerKeepsOrders(s, i, step, t);
    RunnerKeepsPaces(s, i, step, t);
  }

  lemma LifeOwnsConnection(s: State, i: nat)
    requires Life(s)
    ensures OwnsNewest(s, i) && SoleServer(s, i)
  {
  }

  lemma ServeKeepsInv(s: State, i: nat, step: ServeStep, t: State)
    requires Inv(s) && DoServe(s, i, step) == Some(t)
    ensures Inv(t)
  {
    LifeOwnsConnection(s, i);
    ServeKeepsLife(s, i, step, t);
    ServeKeepsMails(s, i, step, t);
    ServeKeepsSyncs(s, i, step, t);
    ServeKeepsTurns(s, i, step, t);
    ServeKeepsOrders(s, i, step, t);
    ServeKeepsPaces(s, i, step, t);
  }

  lemma AliveKeepsOrders(s: State, k: nat, step: ReaderStep, t: State)
    requires Life(s) && Orders(s) && DoReader(s, k, step) == Some(t)
    ensures Orders(t)
  {
    ReaderAlive(s, k);
    ReaderKeepsOrders(s, k, step, t);
  }

  lemma ReaderKeepsInv(s: State, k: nat, step: ReaderStep, t: State)
    requires Inv(s) && DoReader(s, k, step) == Some(t)
    ensures Inv(t)
  {
    ReaderKeepsLife(s, k, step, t);
    ReaderKeepsMails(s, k, step, t);
    ReaderKeepsSyncs(s, k, step, t);
    ReaderKeepsTurns(s, k, step, t);
    AliveKeepsOrders(s, k, step, t);
    ReaderKeepsPaces(s, k, step, t);
  }

  lemma DispatchKeepsInv(s: State, actor: Actor, step: DispatchStep, t: State)
    requires Inv(s) && DoDispatch(s, actor, step) == Some(t)
    ensures Inv(t)
  {
    DispatchKeepsLife(s, actor, step, t);
    DispatchKeepsMails(s, actor, step, t);
    DispatchKeepsSyncs(s, actor, step, t);
    DispatchKeepsTurns(s, actor, step, t);
    DispatchKeepsOrders(s, actor, step, t);
    DispatchKeepsPaces(s, actor, step, t);
  }

  /** Whatever goroutine moves next, and however the network, the timers and the callers decide. */
  lemma StepKeepsInv(s: State, step: Step, t: State)
    requires Inv(s) && Do(s, step) == Some(t)
    ensures Inv(t)
  {
    match step
    case Caller(c) => CallerKeepsInv(s, c, t);
    case Writing(w) => WriterKeepsInv(s, w, t);
    case Running(i, r) => RunnerKeepsInv(s, i, r, t);
    case Serves(i, v) => ServeKeepsInv(s, i, v, t);
    case Reads(k, r) => ReaderKeepsInv(s, k, r, t);
    case Dispatches(a, d) => DispatchKeepsInv(s, a, d, t);
  }

  lemma {:induction false} RunKeepsInv(s: State, steps: seq<Step>, t: State)
    requires Inv(s) && Runs(s, steps, t)
    ensures Inv(t)
    decreases |steps|
  {
    if steps != [] {
      var next := Do(s, steps[0]).value;
      StepKeepsInv(s, steps[0], next);
      RunKeepsInv(next, steps[1..], t);
    }
  }

  /** `t` is reached from a new client by some interleaving. */
  ghost predicate Reachable(t: State) {
    exists id: string, steps: seq<Step> :: Runs(Initial(id), steps, t)
  }

  lemma ReachableInv(t: State)
    requires Reachable(t)
    ensures Inv(t)
  {
    var id, steps :| Runs(Initial(id), steps, t);
    InitialInv(id);
    RunKeepsInv(Initial(id), steps, t);
  }
}
