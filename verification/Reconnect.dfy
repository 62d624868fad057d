/** The reconnect loop of runSession: its delays, what it reports and when it gives up. Delays are in milliseconds. */
module Reconnect {

  const FIRST_DELAY := 100
  const LONGEST_DELAY := 25_000
  const NORMAL_CLOSURE := 1000   // section 7.4.1 of RFC 6455
  const POLICY_VIOLATION := 1008

  /** Why a connection attempt or a connection ended. */
  datatype ConnError = ContextCanceled | CloseFrame(code: int) | IOFailure

  predicate Terminal(err: ConnError) {
    err.CloseFrame? && (err.code == NORMAL_CLOSURE || err.code == POLICY_VIOLATION)
  }

  /** Normal closure and policy violation, and nothing else. */
  lemma TerminalCodes(err: ConnError)
    ensures Terminal(err) <==> err == CloseFrame(1000) || err == CloseFrame(1008)
  {
  }

  /** The delay after a full wait. */
  function Longer(delay: int): (r: int) {
    if delay < LONGEST_DELAY then
      if delay * 2 > LONGEST_DELAY then LONGEST_DELAY else delay * 2
    else delay
  }

  function Pow2(k: nat): (r: nat) {
    if k == 0 then 1 else 2 * Pow2(k - 1)
  }

  /** The delay after k waits since the last successful dial. */
  function Delay(k: nat): (r: int) {
    if FIRST_DELAY * Pow2(k) < LONGEST_DELAY then FIRST_DELAY * Pow2(k) else LONGEST_DELAY
  }

  /** The time spent in the first k waits. */
  function Total(k: nat): (r: int) {
    if k == 0 then 0 else Total(k - 1) + Delay(k - 1)
  }

  lemma LongerIsNextDelay(k: nat)
    ensures Longer(Delay(k)) == Delay(k + 1)
  {
    assert Pow2(k + 1) == 2 * Pow2(k);
  }

  lemma {:induction false} Pow2Grows(j: nat, k: nat)
    requires j <= k
    ensures Pow2(j) <= Pow2(k)
  {
    if j < k {
      Pow2Grows(j, k - 1);
    }
  }

  lemma DelayBounds(j: nat, k: nat)
    requires j <= k
    ensures FIRST_DELAY <= Delay(j) <= Delay(k) <= LONGEST_DELAY
  {
    Pow2Grows(0, j);
    Pow2Grows(j, k);
  }

  lemma DelayTurningPoint(k: nat)
    ensures k < 8 ==> Delay(k) == FIRST_DELAY * Pow2(k)
    ensures k >= 8 ==> Delay(k) == LONGEST_DELAY
  {
    assert Pow2(4) == 16;
    assert Pow2(7) == 128 && Pow2(8) == 256;
    if k < 8 { Pow2Grows(k, 7); } else { Pow2Grows(8, k); }
  }

  /** Closed form of the total: geometric up to the eighth wait, then linear. */
  lemma {:induction false} TotalClosedForm(k: nat)
    ensures k <= 8 ==> Total(k) == FIRST_DELAY * (Pow2(k) - 1)
    ensures k >= 8 ==> Total(k) == 25_500 + (k - 8) * LONGEST_DELAY
  {
    if k > 0 {
      TotalClosedForm(k - 1);
      DelayTurningPoint(k - 1);
      assert Pow2(4) == 16;
      assert Pow2(8) == 256;
    }
  }

  /** How many waits precede the i-th wait since the last successful dial; `dials` says which dials succeeded. */
  function WaitsBefore(dials: seq<bool>, i: nat): (k: nat)
    requires i < |dials|
    ensures k <= i
  {
    if dials[i] || i == 0 then 0 else WaitsBefore(dials, i - 1) + 1
  }

  /** The delay with which the next turn starts. */
  function DelayAfter(dials: seq<bool>): (delay: int) {
    if dials == [] then Delay(0) else Delay(WaitsBefore(dials, |dials| - 1) + 1)
  }

  /** The i-th wait follows the i-th dial and has the length that its distance from the last successful dial gives. */
  ghost predicate PausesFollow(dials: seq<bool>, pauses: seq<int>) {
    |pauses| <= |dials| && forall i | 0 <= i < |pauses| :: pauses[i] == Delay(WaitsBefore(dials, i))
  }

  lemma {:induction false} WaitsBeforeAppend(dials: seq<bool>, dial: bool, i: nat)
    requires i < |dials|
    ensures WaitsBefore(dials + [dial], i) == WaitsBefore(dials, i)
  {
    if i > 0 {
      WaitsBeforeAppend(dials, dial, i - 1);
    }
  }

  lemma DialKeepsPauses(dials: seq<bool>, dial: bool, pauses: seq<int>)
    requires PausesFollow(dials, pauses)
    ensures PausesFollow(dials + [dial], pauses)
    ensures !dial ==> Delay(WaitsBefore(dials + [dial], |dials|)) == DelayAfter(dials)
    ensures dial ==> Delay(WaitsBefore(dials + [dial], |dials|)) == FIRST_DELAY
  {
    forall i | 0 <= i < |pauses| ensures pauses[i] == Delay(WaitsBefore(dials + [dial], i)) {
      WaitsBeforeAppend(dials, dial, i);
    }
    if dials != [] {
      WaitsBeforeAppend(dials, dial, |dials| - 1);
    }
  }

  /** Waits stay within their bounds and only a successful dial shortens them. */
  lemma PauseBounds(dials: seq<bool>, pauses: seq<int>, j: nat)
    requires PausesFollow(dials, pauses) && j < |pauses|
    ensures FIRST_DELAY <= pauses[j] <= LONGEST_DELAY
    ensures j > 0 && !dials[j] ==> pauses[j - 1] <= pauses[j]
  {
    var k := WaitsBefore(dials, j);
    DelayBounds(k, k);
    if j > 0 && !dials[j] {
      DelayBounds(k - 1, k);
    }
  }

  function Sum(pauses: seq<int>): (total: int) {
    if pauses == [] then 0 else Sum(pauses[..|pauses| - 1]) + pauses[|pauses| - 1]
  }

  /** The waits since the last successful dial, the j-th included, add up to the closed form. */
  lemma {:induction false} PausesSinceReset(dials: seq<bool>, pauses: seq<int>, j: nat)
    requires PausesFollow(dials, pauses) && j < |pauses|
    ensures Sum(pauses[j - WaitsBefore(dials, j)..j + 1]) == Total(WaitsBefore(dials, j) + 1)
  {
    var k := WaitsBefore(dials, j);
    var since := pauses[j - k..j + 1];
    assert since[..k] == pauses[j - k..j];
    if k > 0 {
      PausesSinceReset(dials, pauses, j - 1);
    } else {
      assert since[..k] == [];
    }
  }

  /** The j-th wait is within its bounds, not shorter than the one before it unless a dial succeeded in between, and the
      waits since the last successful dial add up to the closed form. */
  ghost predicate Paced(dials: seq<bool>, pauses: seq<int>, j: nat) {
    && j < |pauses| <= |dials|
    && 100 <= pauses[j] <= 25_000
    && (j > 0 && !dials[j] ==> pauses[j - 1] <= pauses[j])
    && Sum(pauses[j - WaitsBefore(dials, j)..j + 1]) == Total(WaitsBefore(dials, j) + 1)
  }

  lemma FollowingIsPaced(dials: seq<bool>, pauses: seq<int>, j: nat)
    requires PausesFollow(dials, pauses) && j < |pauses|
    ensures Paced(dials, pauses, j)
  {
    PauseBounds(dials, pauses, j);
    PausesSinceReset(dials, pauses, j);
  }

  /** One turn of the loop, as the network and the caller decide it: whether the context is canceled at the head of
      the loop, whether the dial succeeded, how the attempt ended, whether the context was canceled by then, and
      whether it is canceled during the wait. */
  datatype Attempt =
    Attempt(canceledAtHead: bool, connected: bool, err: ConnError, canceled: bool, canceledInWait: bool)

  predicate Stops(a: Attempt) { a.canceled || Terminal(a.err) }

  predicate Ends(a: Attempt) { Stops(a) || a.canceledInWait }

  method Lengthen(delay: int) returns (longer: int)
    ensures longer == Longer(delay)
  {
    longer := delay;
    if longer < 25_000 {
      longer := longer * 2;
      if longer > 25_000 {
        longer := 25_000;
      }
    }
  }

  ghost predicate ReportsFollow(attempts: seq<Attempt>, reported: seq<ConnError>) {
    |reported| <= |attempts| &&
    forall i | 0 <= i < |reported| :: reported[i] == attempts[i].err && !Stops(attempts[i])
  }

  ghost predicate DialsFollow(attempts: seq<Attempt>, dials: seq<bool>) {
    |dials| <= |attempts| &&
    forall i | 0 <= i < |dials| :: dials[i] == attempts[i].connected && !attempts[i].canceledAtHead
  }

  /** What the loop did with a sequence of attempts: the dials it made, each after one call of the retrievers, the
      errors it gave to the error callbacks, and its full waits. */
  ghost predicate Ran(attempts: seq<Attempt>, dials: seq<bool>, reported: seq<ConnError>, pauses: seq<int>) {
    && DialsFollow(attempts, dials) && ReportsFollow(attempts, reported) && PausesFollow(dials, pauses)
    && (forall i | 0 <= i < |dials| - 1 :: !Ends(attempts[i]))
    && (|dials| < |attempts| ==>
          attempts[|dials|].canceledAtHead || (dials != [] && Ends(attempts[|dials| - 1])))
    && (dials == [] ==> pauses == [] && reported == [])
    && (dials != [] ==> |reported| == if Stops(attempts[|dials| - 1]) then |dials| - 1 else |dials|)
    && (dials != [] ==> |pauses| == if Ends(attempts[|dials| - 1]) then |dials| - 1 else |dials|)
  }

  /** Close codes 1000 and 1008 end the loop at once: such an attempt is the last dial, not reported and not waited for.
      And the loop ends for nothing else but a canceled context. */
  lemma EndsOnlyForCause(attempts: seq<Attempt>, dials: seq<bool>, reported: seq<ConnError>, pauses: seq<int>)
    requires Ran(attempts, dials, reported, pauses)
    ensures CloseFrame(1000) !in reported && CloseFrame(1008) !in reported
    ensures forall i | 0 <= i < |dials| && attempts[i].err in {CloseFrame(1000), CloseFrame(1008)} ::
              i + 1 == |dials| && |reported| == i && |pauses| == i
    ensures dials != [] && |dials| < |attempts| && !attempts[|dials|].canceledAtHead ==>
            var last := attempts[|dials| - 1];
            last.canceled || last.canceledInWait || last.err == CloseFrame(1000) || last.err == CloseFrame(1008)
    ensures dials == [] && attempts != [] ==> attempts[0].canceledAtHead
    ensures forall i | 0 <= i < |dials| - 1 :: !attempts[i].canceled && !attempts[i].canceledInWait
    ensures forall i | 0 <= i < |dials| ::
              i < |reported| <==> !attempts[i].canceled && attempts[i].err !in {CloseFrame(1000), CloseFrame(1008)}
  {
    forall i | 0 <= i < |dials| ensures Terminal(attempts[i].err) <==>
                                        attempts[i].err in {CloseFrame(1000), CloseFrame(1008)}
    {
      TerminalCodes(attempts[i].err);
    }
    assert forall i | 0 <= i < |reported| :: reported[i] == attempts[i].err && !Stops(attempts[i]);
    assert forall i | 0 <= i < |dials| - 1 :: !Ends(attempts[i]);
  }

  /** The loop is about to begin another turn. */
  ghost predicate Going(attempts: seq<Attempt>, dials: seq<bool>, reported: seq<ConnError>, pauses: seq<int>,
                        delay: int)
  {
    && |pauses| == |reported| == |dials| <= |attempts|
    && DialsFollow(attempts, dials) && ReportsFollow(attempts, reported) && PausesFollow(dials, pauses)
    && (forall i | 0 <= i < |dials| :: !Ends(attempts[i]))
    && delay == DelayAfter(dials)
  }

  lemma GoingHasRun(attempts: seq<Attempt>, dials: seq<bool>, reported: seq<ConnError>, pauses: seq<int>, delay: int)
    requires Going(attempts, dials, reported, pauses, delay)
    requires |dials| < |attempts| ==> attempts[|dials|].canceledAtHead
    ensures Ran(attempts, dials, reported, pauses)
  {
  }

  lemma LastTurnHasRun(attempts: seq<Attempt>, dials: seq<bool>, reported: seq<ConnError>, pauses: seq<int>, delay: int)
    requires Going(attempts, dials, reported, pauses, delay) && |dials| < |attempts|
    requires var a := attempts[|dials|]; !a.canceledAtHead && Ends(a)
    ensures var a := attempts[|dials|];
            Ran(attempts, dials + [a.connected], if Stops(a) then reported else reported + [a.err], pauses)
  {
    DialKeepsPauses(dials, attempts[|dials|].connected, pauses);
  }

  lemma TurnKeepsGoing(attempts: seq<Attempt>, dials: seq<bool>, reported: seq<ConnError>, pauses: seq<int>, delay: int)
    requires Going(attempts, dials, reported, pauses, delay) && |dials| < |attempts|
    requires var a := attempts[|dials|]; !a.canceledAtHead && !Ends(a)
    ensures var a := attempts[|dials|];
            var wait := if a.connected then FIRST_DELAY else delay;
            Going(attempts, dials + [a.connected], reported + [a.err], pauses + [wait], Longer(wait))
  {
    var a := attempts[|dials|];
    DialKeepsPauses(dials, a.connected, pauses);
    LongerIsNextDelay(WaitsBefore(dials + [a.connected], |dials|));
  }

  method RunLoop(attempts: seq<Attempt>) returns (dials: seq<bool>, reported: seq<ConnError>, pauses: seq<int>)
    ensures Ran(attempts, dials, reported, pauses)
    ensures CloseFrame(1000) !in reported && CloseFrame(1008) !in reported
  {
    dials, reported, pauses := [], [], [];
    var delay := 100;
    while |dials| < |attempts|
      invariant Going(attempts, dials, reported, pauses, delay)
      decreases |attempts| - |dials|
    {
      var a := attempts[|dials|];
      if a.canceledAtHead {
        break;
      }
      if Ends(a) {
        LastTurnHasRun(attempts, dials, reported, pauses, delay);
      } else {
        TurnKeepsGoing(attempts, dials, reported, pauses, delay);
      }
      dials := dials + [a.connected];
      if a.connected {
        delay := 100;
      }
      if a.canceled || Terminal(a.err) {
        EndsOnlyForCause(attempts, dials, reported, pauses);
        return;
      }
      reported := reported + [a.err];
      if a.canceledInWait {
        EndsOnlyForCause(attempts, dials, reported, pauses);
        return;
      }
      pauses := pauses + [delay];
      delay := Lengthen(delay);
    }
    GoingHasRun(attempts, dials, reported, pauses, delay);
    EndsOnlyForCause(attempts, dials, reported, pauses);
  }
}
