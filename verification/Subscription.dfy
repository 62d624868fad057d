/** The subscription side of the client, as values: what the caller asked for, what one synchronisation
    snapshot holds, the frames it sends, and the view a server builds from them. */
module Subscription {
  // Mode is an int in the source; any other value behaves like PUSH.
  const SUBSCRIPTION := 0
  const LISTEN := 1
  const PUSH := 2

  const MAX_ADDRESSES := 251
  const MAX_ADDRESS_LENGTH := 2048
  const LISTED_TYPES := 61

  /** A transaction type: one of the listed ones, by position, or some other string. */
  datatype TxType = Listed(index: nat) | Unlisted(name: string)

  predicate IsValid(t: TxType) { t.Listed? && t.index < LISTED_TYPES }

  /** The client fields that subscription calls change. */
  datatype Desired = Desired(mode: int, addresses: set<string>, signed: map<string, string>,
                             types: seq<TxType>, revision: nat)

  datatype SessionStatus = NoSession | Ended | Live

  datatype Error =
    | InvalidAddressCount
    | MissingAddressOrSignature
    | InvalidTxType
    | NotStarted
    | ContextDone
    | TooManyAddresses
    | NotSubscribed

  datatype Outcome = Ok | Fail(error: Error)

  /** Go's map lookup: the empty string for a missing key. */
  function Lookup(m: map<string, string>, a: string): (r: string) {
    if a in m then m[a] else ""
  }

  function Elements(s: seq<string>): (r: set<string>) {
    set a | a in s
  }

  lemma ElementsAppend(s: seq<string>, a: string)
    ensures Elements(s + [a]) == Elements(s) + {a}
  {
    assert (s + [a])[|s|] == a;
    forall x | x in Elements(s) + {a} ensures x in Elements(s + [a]) {
      if x in s {
        var i :| 0 <= i < |s| && s[i] == x;
        assert (s + [a])[i] == x;
      }
    }
  }

  lemma NoElements(s: seq<string>)
    ensures Elements(s) == {} <==> s == []
  {
    if s != [] {
      assert s[0] in Elements(s);
    }
  }

  predicate GoodAddress(a: string, signatures: map<string, string>) {
    a != "" && |a| <= MAX_ADDRESS_LENGTH && Lookup(signatures, a) != ""
  }

  // ---- the callers ----

  /** The checks made before the lock is taken. */
  function RequestOutcome(addresses: seq<string>, signatures: map<string, string>, types: seq<TxType>): (r: Outcome) {
    if |addresses| == 0 || |addresses| > MAX_ADDRESSES then Fail(InvalidAddressCount)
    else if exists a | a in addresses :: !GoodAddress(a, signatures) then Fail(MissingAddressOrSignature)
    else if exists t | t in types :: !IsValid(t) then Fail(InvalidTxType)
    else Ok
  }

  /** The checks made under the lock. */
  function AdmissionOutcome(d: Desired, status: SessionStatus, addresses: seq<string>): (r: Outcome) {
    if status == NoSession then Fail(NotStarted)
    else if status == Ended then Fail(ContextDone)
    else if |d.addresses + Elements(addresses)| > MAX_ADDRESSES then Fail(TooManyAddresses)
    else Ok
  }

  function SubscribeOutcome(d: Desired, status: SessionStatus, addresses: seq<string>,
                            signatures: map<string, string>, types: seq<TxType>): (r: Outcome)
  {
    if RequestOutcome(addresses, signatures, types) != Ok then RequestOutcome(addresses, signatures, types)
    else AdmissionOutcome(d, status, addresses)
  }

  /** The signatures a request brings, one for each address it names. */
  function Requested(addresses: seq<string>, signatures: map<string, string>): (r: map<string, string>) {
    map a | a in addresses :: Lookup(signatures, a)
  }

  lemma RequestedAppend(existing: map<string, string>, addresses: seq<string>, a: string,
                        signatures: map<string, string>)
    ensures existing + Requested(addresses + [a], signatures) ==
            (existing + Requested(addresses, signatures))[a := Lookup(signatures, a)]
  {
    ElementsAppend(addresses, a);
    var more := Requested(addresses + [a], signatures);
    assert more.Keys == Elements(addresses + [a]);
    assert Requested(addresses, signatures).Keys == Elements(addresses);
    assert a in more;
  }

  function Subscribed(d: Desired, addresses: seq<string>, signatures: map<string, string>, types: seq<TxType>):
    (r: Desired)
  {
    d.(addresses := d.addresses + Elements(addresses),
       signed := d.signed + Requested(addresses, signatures),
       types := if |types| > 0 then types else d.types,
       revision := d.revision + 1)
  }

  function UnsubscribeOutcome(d: Desired, status: SessionStatus): (r: Outcome) {
    if status == NoSession then Fail(NotStarted)
    else if status == Ended then Fail(ContextDone)
    else if |d.addresses| == 0 then Fail(NotSubscribed)
    else Ok
  }

  /** What Unsubscribe and Stop leave. */
  function Cleared(d: Desired): (r: Desired) {
    d.(addresses := {}, signed := map[], types := [], revision := d.revision + 1)
  }

  function WithMode(d: Desired, mode: int): (r: Desired) {
    d.(mode := mode, revision := d.revision + 1)
  }

  /** A request asks for 1 to 251 addresses, none empty or longer than 2048 bytes, each with a signature, and for listed
      types only. */
  ghost predicate GoodRequest(addresses: seq<string>, signatures: map<string, string>, types: seq<TxType>) {
    && 1 <= |addresses| <= 251
    && (forall a | a in addresses :: 1 <= |a| <= 2048 && a in signatures && signatures[a] != "")
    && (forall t | t in types :: t.Listed? && t.index < 61)
  }

  /** Which request is answered how. */
  lemma SubscribeAnswers(d: Desired, status: SessionStatus, addresses: seq<string>, signatures: map<string, string>,
                         types: seq<TxType>)
    ensures var r := SubscribeOutcome(d, status, addresses, signatures, types);
            && (r == Ok <==>
                  && GoodRequest(addresses, signatures, types) && status == Live
                  && |d.addresses + Elements(addresses)| <= 251)
            && (r == Fail(InvalidAddressCount) <==> addresses == [] || |addresses| > 251)
            && (r == Fail(MissingAddressOrSignature) <==>
                  && 1 <= |addresses| <= 251
                  && exists a :: a in addresses && (|a| == 0 || |a| > 2048 || a !in signatures || signatures[a] == ""))
            && (r == Fail(NotStarted) <==> GoodRequest(addresses, signatures, types) && status == NoSession)
            && (r == Fail(ContextDone) <==> GoodRequest(addresses, signatures, types) && status == Ended)
            && (r == Fail(TooManyAddresses) <==>
                  && GoodRequest(addresses, signatures, types) && status == Live
                  && |d.addresses + Elements(addresses)| > 251)
            && r != Fail(NotSubscribed)
  {
    if a :| a in addresses && (|a| == 0 || |a| > 2048 || a !in signatures || signatures[a] == "") {
      assert !GoodAddress(a, signatures);
    }
    if t :| t in types && !(t.Listed? && t.index < 61) {
      assert !IsValid(t);
    }
  }

  /** What an accepted request leaves: old and new addresses together, the new signatures over the old ones, a filter
      that replaces the old one unless it is empty, the same mode, and a later revision. */
  lemma SubscribedMerges(d: Desired, addresses: seq<string>, signatures: map<string, string>, types: seq<TxType>)
    ensures var e := Subscribed(d, addresses, signatures, types);
            && e.mode == d.mode && e.revision > d.revision
            && (forall a :: a in e.addresses <==> a in d.addresses || a in addresses)
            && (forall a :: a in e.signed <==> a in d.signed || a in addresses)
            && (forall a | a in addresses && a in signatures :: e.signed[a] == signatures[a])
            && (forall a | a in d.signed && a !in addresses :: e.signed[a] == d.signed[a])
            && (types == [] ==> e.types == d.types) && (types != [] ==> e.types == types)
  {
  }

  /** Unsubscribe needs a live session and something to leave. */
  lemma UnsubscribeAnswers(d: Desired, status: SessionStatus)
    ensures var r := UnsubscribeOutcome(d, status);
            && (r == Ok <==> status == Live && d.addresses != {})
            && (r == Fail(NotStarted) <==> status == NoSession)
            && (r == Fail(ContextDone) <==> status == Ended)
            && (r == Fail(NotSubscribed) <==> status == Live && d.addresses == {})
  {
    if d.addresses != {} {
      var a :| a in d.addresses;
      assert |d.addresses| > 0;
    }
  }

  ghost predicate Empty(d: Desired) {
    d.addresses == {} && d.signed == map[] && d.types == []
  }

  /** Unsubscribe and Stop leave no address, signature or type, the same mode, and a later revision. */
  lemma ClearedIsEmpty(d: Desired)
    ensures Empty(Cleared(d)) && Cleared(d).mode == d.mode && Cleared(d).revision > d.revision
  {
  }

  /** WithMode changes the mode and the revision only. */
  lemma WithModeSetsMode(d: Desired, mode: int)
    ensures WithMode(d, mode).mode == mode && WithMode(d, mode).revision > d.revision
    ensures WithMode(d, mode) == d.(mode := mode, revision := WithMode(d, mode).revision)
  {
  }

  /** What every reachable subscription state satisfies. */
  ghost predicate WellFormed(d: Desired) {
    && d.addresses == d.signed.Keys
    && |d.addresses| <= MAX_ADDRESSES
    && (forall a | a in d.signed :: a != "" && |a| <= MAX_ADDRESS_LENGTH && d.signed[a] != "")
    && (forall t | t in d.types :: IsValid(t))
  }

  lemma RequestedIsGood(addresses: seq<string>, signatures: map<string, string>, types: seq<TxType>)
    requires RequestOutcome(addresses, signatures, types) == Ok
    ensures var more := Requested(addresses, signatures);
            forall a | a in more :: a != "" && |a| <= MAX_ADDRESS_LENGTH && more[a] != ""
    ensures forall t | t in types :: IsValid(t)
  {
    forall a | a in addresses ensures GoodAddress(a, signatures) {
    }
  }

  lemma SubscribeKeepsWellFormed(d: Desired, status: SessionStatus, addresses: seq<string>,
                                 signatures: map<string, string>, types: seq<TxType>)
    requires WellFormed(d)
    requires SubscribeOutcome(d, status, addresses, signatures, types) == Ok
    ensures WellFormed(Subscribed(d, addresses, signatures, types))
    ensures status == Live
  {
    RequestedIsGood(addresses, signatures, types);
    var more := Requested(addresses, signatures);
    assert more.Keys == Elements(addresses);
    assert (d.signed + more).Keys == d.signed.Keys + more.Keys;
  }

  // ---- messages ----

  datatype Kind = SubscribeMessage | UnsubscribeMessage | ListenMessage

  datatype Message = Message(kind: Kind, addrs: seq<string>, signedAddrs: map<string, string>,
                             txTypes: seq<TxType>, clientInstanceID: string)

  /** What syncSubscription reads under the lock. */
  datatype Snapshot = Snapshot(revision: nat, listening: bool, msg: Message)

  /** Byte-wise string order, as sort.Strings uses it. */
  predicate Less(a: string, b: string) {
    b != "" && (a == "" || a[0] < b[0] || (a[0] == b[0] && Less(a[1..], b[1..])))
  }

  predicate Ascending(s: seq<string>) {
    forall i, j | 0 <= i < j < |s| :: Less(s[i], s[j])
  }

  /** `addrs` is the sorted listing of `keys`. */
  ghost predicate Lists(addrs: seq<string>, keys: set<string>) {
    Ascending(addrs) && Elements(addrs) == keys
  }

  function DesiredSignatures(d: Desired): (r: map<string, string>) {
    if d.mode == SUBSCRIPTION then map a | a in d.addresses :: Lookup(d.signed, a) else map[]
  }

  function SnapshotOf(d: Desired, addrs: seq<string>, clientInstanceID: string): (r: Snapshot) {
    Snapshot(d.revision, d.mode == LISTEN,
             Message(if d.mode == LISTEN then ListenMessage else SubscribeMessage,
                     addrs, DesiredSignatures(d), d.types,
                     if d.mode == SUBSCRIPTION || d.mode == LISTEN then clientInstanceID else ""))
  }

  ghost predicate IsSnapshot(snap: Snapshot, d: Desired, clientInstanceID: string) {
    && Lists(snap.msg.addrs, DesiredSignatures(d).Keys)
    && snap == SnapshotOf(d, snap.msg.addrs, clientInstanceID)
  }

  /** What the client wants of the server: in Subscription mode its addresses with their signatures, else none. */
  lemma WantedSignatures(d: Desired)
    requires d.addresses == d.signed.Keys
    ensures DesiredSignatures(d) == if d.mode == 0 then d.signed else map[]
  {
  }

  /** The message of a snapshot, by mode: a subscribe message with every wanted address in ascending order, a listen
      message without addresses, or one that is never sent. */
  lemma SnapshotByMode(snap: Snapshot, d: Desired, id: string)
    requires IsSnapshot(snap, d, id) && d.addresses == d.signed.Keys
    ensures snap.revision == d.revision && (snap.listening <==> d.mode == 1) && snap.msg.txTypes == d.types
    ensures d.mode == 0 ==>
            && snap.msg == Message(SubscribeMessage, snap.msg.addrs, d.signed, d.types, id)
            && Ascending(snap.msg.addrs) && (forall a :: a in snap.msg.addrs <==> a in d.addresses)
    ensures d.mode == 1 ==> snap.msg == Message(ListenMessage, [], map[], d.types, id)
    ensures d.mode != 0 && d.mode != 1 ==> snap.msg == Message(SubscribeMessage, [], map[], d.types, "")
  {
    WantedSignatures(d);
    NoElements(snap.msg.addrs);
    forall a ensures a in snap.msg.addrs <==> a in Elements(snap.msg.addrs) {
    }
  }

  /** The addresses of `previous` that `kept` lacks, in order. */
  function Missing(previous: seq<string>, kept: map<string, string>): (removed: seq<string>)
    ensures Elements(removed) == Elements(previous) - kept.Keys
  {
    if previous == [] then []
    else
      var front, a := Missing(previous[..|previous| - 1], kept), previous[|previous| - 1];
      ElementsAppend(previous[..|previous| - 1], a);
      ElementsAppend(front, a);
      assert previous == previous[..|previous| - 1] + [a];
      if a in kept then front else front + [a]
  }

  /** The loop's order: each remembered address in turn, kept out if the snapshot has it. */
  lemma {:induction false} MissingFromFront(a: string, rest: seq<string>, kept: map<string, string>)
    ensures Missing([], kept) == []
    ensures Missing([a] + rest, kept) == (if a in kept then [] else [a]) + Missing(rest, kept)
  {
    var all := [a] + rest;
    var n := |rest|;
    if n == 0 {
      assert all[..0] == [];
    } else {
      assert all[..n] == [a] + rest[..n - 1] && all[n] == rest[n - 1];
      MissingFromFront(a, rest[..n - 1], kept);
    }
  }

  function Removed(previous: seq<string>, snap: Snapshot): (r: seq<string>) {
    Missing(previous, snap.msg.signedAddrs)
  }

  predicate NeedsUnsubscribe(previous: seq<string>, wasListening: bool, snap: Snapshot) {
    |Removed(previous, snap)| > 0 || (wasListening && !snap.listening)
  }

  function UnsubscribeOf(previous: seq<string>, snap: Snapshot): (r: Message) {
    Message(UnsubscribeMessage, Removed(previous, snap), map[], [], "")
  }

  predicate NeedsUpdate(snap: Snapshot) {
    |snap.msg.addrs| > 0 || snap.listening
  }

  /** The frames one synchronisation sends when no write fails. */
  function Frames(previous: seq<string>, wasListening: bool, snap: Snapshot): (r: seq<Message>) {
    (if NeedsUnsubscribe(previous, wasListening, snap) then [UnsubscribeOf(previous, snap)] else []) +
    (if NeedsUpdate(snap) then [snap.msg] else [])
  }

  /** The frames of one synchronisation, by what changed: an unsubscribe frame exactly when a remembered address is no
      longer wanted or listening ends, with those addresses; then the message of the snapshot exactly when addresses are
      wanted or listening is on. */
  lemma FramesByMode(previous: seq<string>, wasListening: bool, snap: Snapshot, d: Desired, id: string)
    requires IsSnapshot(snap, d, id) && d.addresses == d.signed.Keys
    ensures var wanted := if d.mode == 0 then d.addresses else {};
            var leaves := (exists a :: a in previous && a !in wanted) || (wasListening && d.mode != 1);
            var enters := d.mode == 1 || (d.mode == 0 && d.addresses != {});
            var removed := Missing(previous, snap.msg.signedAddrs);
            && (forall a :: a in removed <==> a in previous && a !in wanted)
            && Frames(previous, wasListening, snap) ==
               (if leaves then [Message(UnsubscribeMessage, removed, map[], [], "")] else [])
               + (if enters then [snap.msg] else [])
  {
    var wanted := if d.mode == 0 then d.addresses else {};
    var removed := Missing(previous, snap.msg.signedAddrs);
    WantedSignatures(d);
    assert snap.msg.signedAddrs.Keys == wanted;
    NoElements(removed);
    NoElements(snap.msg.addrs);
    forall a ensures a in removed <==> a in previous && a !in wanted {
      assert a in removed <==> a in Elements(removed);
      assert a in previous <==> a in Elements(previous);
    }
    if removed != [] {
      assert removed[0] in removed;
    }
  }

  // ---- the server (environment assumption) ----

  /** What the server holds for one connection. */
  datatype View = View(signed: map<string, string>, listening: bool, types: seq<TxType>)

  const EmptyView := View(map[], false, [])

  function Deliver(view: View, msg: Message): (r: View) {
    match msg.kind
    case SubscribeMessage =>
      view.(signed := view.signed + map a | a in msg.addrs :: Lookup(msg.signedAddrs, a), types := msg.txTypes)
    case ListenMessage => view.(listening := true, types := msg.txTypes)
    case UnsubscribeMessage => view.(signed := view.signed - Elements(msg.addrs), listening := false)
  }

  function DeliverAll(view: View, msgs: seq<Message>): (r: View) {
    if msgs == [] then view
    else Deliver(DeliverAll(view, msgs[..|msgs| - 1]), msgs[|msgs| - 1])
  }

  /** The view is the one the desired state asks for. The type filter counts only where some frame carries it. */
  ghost predicate Agrees(view: View, d: Desired) {
    && view.signed == DesiredSignatures(d)
    && view.listening == (d.mode == LISTEN)
    && (view.signed != map[] || view.listening ==> view.types == d.types)
  }

  /** What the serve loop remembers about the view. */
  ghost predicate Remembers(view: View, previous: seq<string>, wasListening: bool) {
    Elements(previous) == view.signed.Keys && wasListening == view.listening
  }

  /** Between the two frames: exactly the addresses both views share, and no stale listening. */
  ghost predicate HalfWay(view: View, previous: seq<string>, snap: Snapshot) {
    && view.signed.Keys == Elements(previous) * snap.msg.signedAddrs.Keys
    && (view.listening ==> snap.listening)
  }

  lemma UnsubscribeReachesHalfWay(view: View, previous: seq<string>, wasListening: bool, snap: Snapshot)
    requires Remembers(view, previous, wasListening)
    ensures NeedsUnsubscribe(previous, wasListening, snap) ==>
            HalfWay(Deliver(view, UnsubscribeOf(previous, snap)), previous, snap)
    ensures !NeedsUnsubscribe(previous, wasListening, snap) ==> HalfWay(view, previous, snap)
  {
    var removed := Removed(previous, snap);
    assert Elements(removed) == Elements(previous) - snap.msg.signedAddrs.Keys;
    if !NeedsUnsubscribe(previous, wasListening, snap) {
      assert Elements(removed) == {};
      forall a | a in Elements(previous) ensures a in snap.msg.signedAddrs {
        assert a !in Elements(removed);
      }
    }
  }

  lemma UpdateReachesDesired(view: View, previous: seq<string>, snap: Snapshot, d: Desired, id: string)
    requires HalfWay(view, previous, snap)
    requires IsSnapshot(snap, d, id)
    ensures NeedsUpdate(snap) ==> Agrees(Deliver(view, snap.msg), d)
    ensures !NeedsUpdate(snap) ==> Agrees(view, d)
    ensures Elements(snap.msg.addrs) == DesiredSignatures(d).Keys && snap.listening == (d.mode == LISTEN)
  {
    var addrs := snap.msg.addrs;
    assert Elements(addrs) == DesiredSignatures(d).Keys;
    if NeedsUpdate(snap) {
      var after := Deliver(view, snap.msg);
      if snap.listening {
        assert DesiredSignatures(d) == map[];
        assert view.signed.Keys == {};
      } else {
        forall a | a in DesiredSignatures(d) ensures a in addrs {
          assert a in Elements(addrs);
        }
        assert after.signed.Keys == DesiredSignatures(d).Keys;
        assert after.signed == DesiredSignatures(d);
        assert addrs[0] in after.signed;
      }
    } else {
      assert addrs == [] && Elements(addrs) == {};
      assert view.signed == map[];
    }
  }

  /** What every snapshot satisfies, whichever state it was taken from. */
  ghost predicate Shaped(snap: Snapshot) {
    && Elements(snap.msg.addrs) == snap.msg.signedAddrs.Keys
    && snap.msg.kind == (if snap.listening then ListenMessage else SubscribeMessage)
    && (snap.listening ==> snap.msg.addrs == [])
  }

  lemma SnapshotIsShaped(snap: Snapshot, d: Desired, id: string)
    requires IsSnapshot(snap, d, id)
    ensures Shaped(snap) && snap.revision == d.revision
  {
    NoElements(snap.msg.addrs);
  }

  /** Even a snapshot that has since become stale leaves a view the loop remembers correctly. */
  lemma UpdateIsRemembered(view: View, previous: seq<string>, snap: Snapshot)
    requires HalfWay(view, previous, snap) && Shaped(snap)
    ensures NeedsUpdate(snap) ==> Remembers(Deliver(view, snap.msg), snap.msg.addrs, snap.listening)
    ensures !NeedsUpdate(snap) ==> Remembers(view, snap.msg.addrs, snap.listening)
  {
    NoElements(snap.msg.addrs);
    if NeedsUpdate(snap) && !snap.listening {
      var after := Deliver(view, snap.msg);
      forall a | a in snap.msg.signedAddrs ensures a in after.signed {
        assert a in Elements(snap.msg.addrs);
      }
      assert after.signed.Keys == Elements(snap.msg.addrs);
    }
  }

  lemma DeliverFew(view: View, a: Message, b: Message)
    ensures DeliverAll(view, [a]) == Deliver(view, a)
    ensures DeliverAll(view, [b]) == Deliver(view, b)
    ensures DeliverAll(view, [a] + [b]) == Deliver(Deliver(view, a), b)
    ensures DeliverAll(view, [] + [b]) == Deliver(view, b)
    ensures DeliverAll(view, [a] + []) == Deliver(view, a)
  {
    assert [a][..0] == [] && [b][..0] == [];
    assert ([a] + [b])[..1] == [a];
    assert [] + [b] == [b] && [a] + [] == [a];
  }

  /** One synchronisation, from any view the loop remembers correctly, ends exactly at the desired view. */
  lemma FramesReachDesired(view: View, previous: seq<string>, wasListening: bool, snap: Snapshot, d: Desired,
                           id: string)
    requires Remembers(view, previous, wasListening) && IsSnapshot(snap, d, id)
    ensures Agrees(DeliverAll(view, Frames(previous, wasListening, snap)), d)
    ensures Remembers(DeliverAll(view, Frames(previous, wasListening, snap)), snap.msg.addrs, snap.listening)
  {
    UnsubscribeReachesHalfWay(view, previous, wasListening, snap);
    var half := if NeedsUnsubscribe(previous, wasListening, snap)
                then Deliver(view, UnsubscribeOf(previous, snap)) else view;
    UpdateReachesDesired(half, previous, snap, d, id);
    DeliverFew(view, UnsubscribeOf(previous, snap), snap.msg);
    var end := if NeedsUpdate(snap) then Deliver(half, snap.msg) else half;
    assert DeliverAll(view, Frames(previous, wasListening, snap)) == end;
  }

  /** After every intermediate frame, an address wanted before and after is still subscribed. */
  lemma NoCoverageGap(view: View, previous: seq<string>, wasListening: bool, snap: Snapshot, d: Desired, id: string,
                      k: nat, a: string)
    requires Remembers(view, previous, wasListening) && IsSnapshot(snap, d, id)
    requires k <= |Frames(previous, wasListening, snap)|
    requires a in view.signed && a in DesiredSignatures(d)
    ensures a in DeliverAll(view, Frames(previous, wasListening, snap)[..k]).signed
  {
    var frames := Frames(previous, wasListening, snap);
    FramesReachDesired(view, previous, wasListening, snap, d, id);
    UnsubscribeReachesHalfWay(view, previous, wasListening, snap);
    if k == |frames| {
      assert frames[..k] == frames;
    } else if k == 1 {
      assert frames[..1] == [frames[0]] && frames[..1][..0] == [];
      assert a in Elements(previous);
    }
  }

  /** While listening nothing is remembered, so an unsubscribe frame removes addresses or leaves listening, never
      both. */
  lemma UnsubscribeHasOnePurpose(previous: seq<string>, wasListening: bool, snap: Snapshot)
    requires wasListening ==> previous == []
    requires NeedsUnsubscribe(previous, wasListening, snap)
    ensures (|UnsubscribeOf(previous, snap).addrs| > 0) != (wasListening && !snap.listening)
  {
    NoElements(previous);
    NoElements(Removed(previous, snap));
  }

  // ---- the sorted listing is determined by the set ----

  /** The first k bytes agree and the next one decides. */
  predicate DiffersAt(a: string, b: string, k: nat) {
    k < |a| && k < |b| && a[..k] == b[..k] && a[k] < b[k]
  }

  lemma DiffersInTail(a: string, b: string, k: nat)
    requires a != "" && b != "" && a[0] == b[0] && k > 0
    ensures DiffersAt(a, b, k) <==> DiffersAt(a[1..], b[1..], k - 1)
  {
    if k < |a| && k < |b| {
      assert a[..k] == [a[0]] + a[1..][..k - 1] && b[..k] == [b[0]] + b[1..][..k - 1];
      assert a[..k][1..] == a[1..][..k - 1] && b[..k][1..] == b[1..][..k - 1];
    }
  }

  lemma PrefixOfTail(a: string, b: string)
    requires a != "" && b != "" && a[0] == b[0]
    ensures a <= b <==> a[1..] <= b[1..]
  {
    assert a == [a[0]] + a[1..] && b == [b[0]] + b[1..];
  }

  /** The order is lexicographic by bytes: a proper prefix comes first, else the first difference decides. */
  lemma {:induction false} LessIsLexicographic(a: string, b: string)
    ensures Less(a, b) <==> (a <= b && a != b) || exists k: nat :: DiffersAt(a, b, k)
  {
    if a != "" && b != "" {
      if a[0] == b[0] {
        LessIsLexicographic(a[1..], b[1..]);
        PrefixOfTail(a, b);
        assert a == [a[0]] + a[1..] && b == [b[0]] + b[1..];
        if k: nat :| DiffersAt(a, b, k) { DiffersInTail(a, b, k); }
        if k: nat :| DiffersAt(a[1..], b[1..], k) { DiffersInTail(a, b, k + 1); }
      } else if a[0] < b[0] {
        assert DiffersAt(a, b, 0);
      }
    }
  }

  lemma {:induction false} LessIsStrict(a: string, b: string)
    ensures !(Less(a, b) && Less(b, a))
    ensures !Less(a, a)
    ensures a != b ==> Less(a, b) || Less(b, a)
  {
    if a != "" {
      LessIsStrict(a[1..], a[1..]);
      if b != "" {
        LessIsStrict(a[1..], b[1..]);
        assert a == [a[0]] + a[1..] && b == [b[0]] + b[1..];
      }
    }
  }

  lemma {:induction false} LessIsTransitive(a: string, b: string, c: string)
    requires Less(a, b) && Less(b, c)
    ensures Less(a, c)
  {
    if a != "" && a[0] == b[0] == c[0] {
      LessIsTransitive(a[1..], b[1..], c[1..]);
    }
  }

  lemma LeastIsFirst(a: seq<string>, b: seq<string>)
    requires Ascending(a) && Ascending(b) && Elements(a) == Elements(b) && a != []
    ensures b != [] && a[0] == b[0]
  {
    assert a[0] in Elements(b);
    assert b[0] in Elements(a);
    var i :| 0 <= i < |b| && b[i] == a[0];
    var j :| 0 <= j < |a| && a[j] == b[0];
    LessIsStrict(a[0], b[0]);
  }

  lemma RestOfListing(a: seq<string>)
    requires Ascending(a) && a != []
    ensures Ascending(a[1..]) && Elements(a[1..]) == Elements(a) - {a[0]}
  {
    assert a == [a[0]] + a[1..];
    forall x | x in Elements(a[1..]) ensures x != a[0] {
      var i :| 0 <= i < |a[1..]| && a[1..][i] == x;
      assert Less(a[0], a[i + 1]);
      LessIsStrict(a[0], x);
    }
  }

  /** The frame built from one desired state is the same whatever order the map was walked in. */
  lemma {:induction false} ListingIsUnique(a: seq<string>, b: seq<string>, keys: set<string>)
    requires Lists(a, keys) && Lists(b, keys)
    ensures a == b
  {
    NoElements(a);
    NoElements(b);
    if a != [] {
      LeastIsFirst(a, b);
      RestOfListing(a);
      RestOfListing(b);
      ListingIsUnique(a[1..], b[1..], keys - {a[0]});
      assert a == [a[0]] + a[1..] && b == [b[0]] + b[1..];
    }
  }

  /** Inserting where the smaller elements end keeps a sequence ascending. */
  lemma InsertionPoint(sorted: seq<string>, a: string, k: nat)
    requires Ascending(sorted) && a !in sorted && k <= |sorted|
    requires forall j | 0 <= j < k :: Less(sorted[j], a)
    requires k < |sorted| ==> !Less(sorted[k], a)
    ensures var r := sorted[..k] + [a] + sorted[k..]; Ascending(r) && Elements(r) == Elements(sorted) + {a}
  {
    var r := sorted[..k] + [a] + sorted[k..];
    assert r[k] == a;
    forall x | x in sorted ensures x in r {
      var j :| 0 <= j < |sorted| && sorted[j] == x;
      assert r[if j < k then j else j + 1] == x;
    }
    forall j | k <= j < |sorted| ensures Less(a, sorted[j]) {
      LessIsStrict(sorted[k], a);
      if j > k { LessIsTransitive(a, sorted[k], sorted[j]); }
    }
    forall i, j | 0 <= i < j < |r| ensures Less(r[i], r[j]) {
      var x := if i < k then i else i - 1;
      var y := if j < k then j else j - 1;
      if i < k && j > k {
        assert r[i] == sorted[i] && r[j] == sorted[j - 1];
      }
    }
  }

  lemma {:induction false} InsertionIndex(sorted: seq<string>, a: string) returns (k: nat)
    ensures k <= |sorted| && forall j | 0 <= j < k :: Less(sorted[j], a)
    ensures k < |sorted| ==> !Less(sorted[k], a)
  {
    k := 0;
    if sorted != [] && Less(sorted[0], a) {
      var rest := InsertionIndex(sorted[1..], a);
      k := rest + 1;
    }
  }

  /** Every set of addresses has its sorted listing. */
  lemma {:induction false} ListingExists(keys: set<string>) returns (addrs: seq<string>)
    ensures Lists(addrs, keys)
    decreases keys
  {
    addrs := [];
    if keys != {} {
      var a :| a in keys;
      var rest := ListingExists(keys - {a});
      assert a !in rest by { assert a !in Elements(rest); }
      var k := InsertionIndex(rest, a);
      InsertionPoint(rest, a, k);
      addrs := rest[..k] + [a] + rest[k..];
    }
  }
}
