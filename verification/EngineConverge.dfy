/** Convergence: a loop that passes the top of its iteration catches up with the desired state in at most four steps. */
module EngineConverge {
  import opened Basics
  import opened Engine
  import opened EngineLife
  import opened EngineSync
  import opened EngineInvariant
  import opened EngineTheorems
  import Subs = Subscription

  // ---- what the loop has read since the top of its iteration ----

  /** The revision the loop works with is r, wherever it has read one. */
  predicate WorksOn(at: Serve, loc: Locals, r: nat) {
    match at
    case Unsub(_, snap) => snap.revision == r
    case Update(_, snap) => snap.revision == r
    case Select(_) => loc.revision == r
    case _ => true
  }

  predicate CaughtUp(s: State, i: nat) {
    i < |s.sessions| && s.sessions[i].run.Serving? ==>
      WorksOn(s.sessions[i].run.at, s.sessions[i].run.loc, s.desired.revision)
  }

  /** Callers alone change the desired state, and each change has a revision of its own. */
  predicate NotOlder(d: Subs.Desired, e: Subs.Desired) {
    d.revision < e.revision || d == e
  }

  lemma CallerAges(s: State, step: CallerStep, t: State)
    requires DoCaller(s, step) == Some(t)
    ensures NotOlder(s.desired, t.desired)
  {
  }

  lemma ServeAges(s: State, i: nat, step: ServeStep, t: State)
    requires DoServe(s, i, step) == Some(t)
    ensures t.desired == s.desired
  {
    ServeHasEffect(s, i, step, t);
  }

  lemma RunnerAges(s: State, i: nat, step: RunnerStep, t: State)
    requires DoRunner(s, i, step) == Some(t)
    ensures t.desired == s.desired
  {
  }

  lemma DispatchAges(s: State, actor: Actor, step: DispatchStep, t: State)
    requires DoDispatch(s, actor, step) == Some(t)
    ensures t.desired == s.desired
  {
  }

  lemma StepAges(s: State, step: Step, t: State)
    requires Do(s, step) == Some(t)
    ensures NotOlder(s.desired, t.desired)
  {
    match step
    case Caller(c) => CallerAges(s, c, t);
    case Running(i, r) => RunnerAges(s, i, r, t);
    case Serves(i, v) => ServeAges(s, i, v, t);
    case Dispatches(a, d) => DispatchAges(s, a, d, t);
    case _ =>
  }

  lemma {:induction false} RunAges(s: State, steps: seq<Step>, t: State)
    requires Runs(s, steps, t)
    ensures NotOlder(s.desired, t.desired)
    decreases |steps|
  {
    if steps != [] {
      var next := Do(s, steps[0]).value;
      StepAges(s, steps[0], next);
      RunAges(next, steps[1..], t);
    }
  }

  // ---- one step ----

  /** A loop that serves stays where it is, and one that begins to serve begins at the top. */
  predicate SameServe(s: State, t: State, i: nat) {
    && (i < |s.sessions| && s.sessions[i].run.Serving? ==> i < |t.sessions| && t.sessions[i].run == s.sessions[i].run)
    && (i < |t.sessions| && t.sessions[i].run.Serving? ==>
          t.sessions[i].run.at.Top? || (i < |s.sessions| && t.sessions[i].run == s.sessions[i].run))
  }

  lemma CallerSameServe(s: State, step: CallerStep, t: State, i: nat)
    requires DoCaller(s, step) == Some(t)
    ensures SameServe(s, t, i)
  {
    CallerHasEffect(s, step, t);
    if i < |s.sessions| {
      CallerLeavesRun(s, t, i);
    }
  }

  lemma WriterSameServe(s: State, step: WriterStep, t: State, i: nat)
    requires DoWriter(s, step) == Some(t)
    ensures SameServe(s, t, i)
  {
  }

  lemma RunnerSameServe(s: State, j: nat, step: RunnerStep, t: State, i: nat)
    requires DoRunner(s, j, step) == Some(t)
    ensures SameServe(s, t, i)
    ensures j < |s.sessions| && !s.sessions[j].run.Serving?
  {
  }

  lemma ServeSameServe(s: State, j: nat, step: ServeStep, t: State, i: nat)
    requires DoServe(s, j, step) == Some(t) && j != i
    ensures SameServe(s, t, i)
  {
    ServeHasEffect(s, j, step, t);
  }

  lemma ReaderSameServe(s: State, k: nat, step: ReaderStep, t: State, i: nat)
    requires DoReader(s, k, step) == Some(t)
    ensures SameServe(s, t, i)
  {
  }

  lemma DispatchSameServe(s: State, actor: Actor, step: DispatchStep, t: State, i: nat)
    requires DoDispatch(s, actor, step) == Some(t)
    ensures SameServe(s, t, i)
    ensures actor.TheRunner? ==> actor.session < |s.sessions| && !s.sessions[actor.session].run.Serving?
  {
  }

  lemma ServeCatchesUp(s: State, i: nat, step: ServeStep, t: State)
    requires DoServe(s, i, step) == Some(t) && CaughtUp(s, i)
    ensures t.desired == s.desired && CaughtUp(t, i)
  {
  }

  lemma StepCatchesUp(s: State, step: Step, t: State, i: nat)
    requires Do(s, step) == Some(t) && CaughtUp(s, i) && t.desired == s.desired
    ensures CaughtUp(t, i)
  {
    match step
    case Caller(c) => CallerSameServe(s, c, t, i);
    case Writing(w) => WriterSameServe(s, w, t, i);
    case Running(j, r) => RunnerSameServe(s, j, r, t, i);
    case Serves(j, v) => if j == i { ServeCatchesUp(s, i, v, t); } else { ServeSameServe(s, j, v, t, i); }
    case Reads(k, r) => ReaderSameServe(s, k, r, t, i);
    case Dispatches(a, d) => DispatchSameServe(s, a, d, t, i);
  }

  /** Whatever else happens in between, a loop that passes the top and reaches its select while the desired state stays
      the same works with the current revision there, and the server's view is the one the client wants. */
  lemma {:induction false} CatchesUp(s: State, steps: seq<Step>, t: State, i: nat, k: nat)
    requires Reachable(s) && Runs(s, steps, t) && AtSelect(t, i, k)
    requires CaughtUp(s, i) && t.desired.revision == s.desired.revision
    ensures t.sessions[i].run.loc.revision == t.desired.revision
    ensures t.desired == s.desired && Subs.Agrees(Replay(t.wires[k].log), s.desired)
    decreases |steps|
  {
    if steps == [] {
      NoLostWakeup(s, i, k);
    } else {
      var next := Do(s, steps[0]).value;
      StepAges(s, steps[0], next);
      RunAges(next, steps[1..], t);
      StepCatchesUp(s, steps[0], next, i);
      TakeStep(s, steps[0], next);
      CatchesUp(next, steps[1..], t, i, k);
    }
  }

  /** A loop that is up to date sends nothing: it goes from the top straight to its select, and synchronises
      otherwise. */
  lemma TopDecides(s: State, i: nat)
    requires Reachable(s) && i < |s.sessions| && s.sessions[i].run.Serving? && s.sessions[i].run.at.Top?
    ensures var k, loc, cur := s.sessions[i].run.conn, s.sessions[i].run.loc, s.desired.revision;
            DoServe(s, i, ReadRevision) ==
            Some(RunTo(s, i, Serving(k, loc, if !loc.first && loc.revision == cur then Select(cur) else Sync(cur))))
  {
    ServingHasWire(s, i);
  }

  // ---- how many steps that takes ----

  /** The loop of session i is on its way from the top to its select. */
  predicate Synchronising(s: State, i: nat) {
    i < |s.sessions| && s.sessions[i].run.Serving? &&
    match s.sessions[i].run.at
    case Top => true
    case Sync(_) => true
    case Unsub(_, _) => true
    case Update(_, _) => true
    case Select(_) => true
    case _ => false
  }

  /** The steps left before the select. */
  function Distance(at: Serve): (r: nat) {
    match at
    case Top => 4
    case Sync(_) => 3
    case Unsub(_, _) => 2
    case Update(_, _) => 1
    case _ => 0
  }

  /** A frame write of session i that fails. */
  predicate FailedWrite(step: Step, i: nat) {
    step.Serves? && step.session == i &&
    match step.serve
    case SendUnsubscribe(res) => res.WriteFailed?
    case SendUpdate(res) => res.WriteFailed?
    case _ => false
  }

  /** A step of the loop itself brings it closer to the select unless a write fails. */
  lemma ServeComesCloser(s: State, i: nat, step: ServeStep, t: State)
    requires DoServe(s, i, step) == Some(t) && Synchronising(s, i) && !s.sessions[i].run.at.Select?
    requires !FailedWrite(Serves(i, step), i)
    ensures Synchronising(t, i) && t.sessions[i].run.conn == s.sessions[i].run.conn
    ensures Distance(t.sessions[i].run.at) < Distance(s.sessions[i].run.at)
  {
  }

  /** Only the loop itself moves while it serves. */
  lemma StepComesCloser(s: State, step: Step, t: State, i: nat)
    requires Do(s, step) == Some(t) && Synchronising(s, i) && !s.sessions[i].run.at.Select? && !FailedWrite(step, i)
    ensures Synchronising(t, i)
    ensures if Own(step, i) then Distance(t.sessions[i].run.at) < Distance(s.sessions[i].run.at)
            else t.sessions[i].run == s.sessions[i].run
  {
    match step
    case Caller(c) => CallerSameServe(s, c, t, i);
    case Writing(w) => WriterSameServe(s, w, t, i);
    case Running(j, r) => RunnerSameServe(s, j, r, t, i);
    case Serves(j, v) => if j == i { ServeComesCloser(s, i, v, t); } else { ServeSameServe(s, j, v, t, i); }
    case Reads(k, r) => ReaderSameServe(s, k, r, t, i);
    case Dispatches(a, d) => DispatchSameServe(s, a, d, t, i);
  }

  /** Once the loop has taken its own steps, at most four, it has been at its select: after a prefix of the run. */
  lemma {:induction false} ReachesSelect(s: State, steps: seq<Step>, t: State, i: nat) returns (n: nat, u: State)
    requires Runs(s, steps, t) && Synchronising(s, i)
    requires forall j | 0 <= j < |steps| :: !FailedWrite(steps[j], i)
    requires OwnSteps(steps, i) >= Distance(s.sessions[i].run.at)
    ensures n <= |steps| && Runs(s, steps[..n], u) && Runs(u, steps[n..], t)
    ensures Synchronising(u, i) && u.sessions[i].run.at.Select?
    ensures OwnSteps(steps[..n], i) <= Distance(s.sessions[i].run.at)
    decreases |steps|
  {
    if s.sessions[i].run.at.Select? {
      n, u := 0, s;
      assert steps[0..] == steps;
    } else {
      var next := Do(s, steps[0]).value;
      StepComesCloser(s, steps[0], next, i);
      var m;
      m, u := ReachesSelect(next, steps[1..], t, i);
      n := m + 1;
      assert steps[..n][1..] == steps[1..][..m];
      assert steps[n..] == steps[1..][m..];
    }
  }

  lemma {:induction false} RunReaches(s: State, steps: seq<Step>, t: State)
    requires Reachable(s) && Runs(s, steps, t)
    ensures Reachable(t)
    decreases |steps|
  {
    if steps != [] {
      var next := Do(s, steps[0]).value;
      TakeStep(s, steps[0], next);
      RunReaches(next, steps[1..], t);
    }
  }

  lemma ServingHasWire(s: State, i: nat)
    requires Reachable(s) && i < |s.sessions| && s.sessions[i].run.Serving?
    ensures s.sessions[i].run.conn < |s.wires| && s.sessions[i].run.conn < |s.conns| && s.draining.None?
  {
    ReachableInv(s);
    OpenIsCurrent(s, i);
    if s.draining.Some? {
      assert !s.sessions[s.draining.value].done;
      OpenIsCurrent(s, s.draining.value);
      assert false;
    }
  }

  /** Convergence: from the top of an iteration, with no failing write and the desired state left alone, the loop's own
      next four steps take it to its select with the server's view the wanted one. */
  lemma Converges(s: State, steps: seq<Step>, t: State, i: nat) returns (n: nat, u: State)
    requires Reachable(s) && Runs(s, steps, t)
    requires i < |s.sessions| && s.sessions[i].run.Serving? && s.sessions[i].run.at.Top?
    requires forall j | 0 <= j < |steps| :: !FailedWrite(steps[j], i)
    requires t.desired.revision == s.desired.revision && OwnSteps(steps, i) >= 4
    ensures n <= |steps| && Runs(s, steps[..n], u) && OwnSteps(steps[..n], i) <= 4
    ensures exists k: nat :: AtSelect(u, i, k) && Subs.Agrees(Replay(u.wires[k].log), t.desired)
  {
    n, u := ReachesSelect(s, steps, t, i);
    RunAges(s, steps[..n], u);
    RunAges(u, steps[n..], t);
    RunReaches(s, steps[..n], u);
    ServingHasWire(u, i);
    CatchesUp(s, steps[..n], u, i, u.sessions[i].run.conn);
  }

  lemma NextSyncStep(s: State, i: nat)
    requires Synchronising(s, i) && s.draining.None?
    requires s.sessions[i].run.conn < |s.wires| && s.sessions[i].run.conn < |s.conns|
    ensures !s.sessions[i].run.at.Select? ==>
            exists step: ServeStep :: DoServe(s, i, step).Some? && !FailedWrite(Serves(i, step), i)
  {
    match s.sessions[i].run.at
    case Top => assert DoServe(s, i, ReadRevision).Some?;
    case Sync(_) =>
      var addrs := Subs.ListingExists(Subs.DesiredSignatures(s.desired).Keys);
      assert DoServe(s, i, TakeSnapshot(addrs)).Some?;
    case Unsub(_, _) => assert DoServe(s, i, SendUnsubscribe(WriteOk)).Some?;
    case Update(_, _) => assert DoServe(s, i, SendUpdate(WriteOk)).Some?;
    case Select(_) =>
  }

  /** On its way to the select the loop always has a step of its own, for either outcome of a write; at the select a
      pending token is one that takes it back to the top. */
  lemma SyncIsNotStuck(s: State, i: nat)
    requires Reachable(s) && Synchronising(s, i)
    ensures !s.sessions[i].run.at.Select? ==>
            exists step: ServeStep :: DoServe(s, i, step).Some? && !FailedWrite(Serves(i, step), i)
    ensures s.sessions[i].run.at.Select? && s.sessions[i].wake ==>
            DoServe(s, i, SelectWake) == Some(With(s, i, s.sessions[i].(wake := false, run :=
              Serving(s.sessions[i].run.conn, s.sessions[i].run.loc, Top))))
  {
    ServingHasWire(s, i);
    NextSyncStep(s, i);
  }
}
