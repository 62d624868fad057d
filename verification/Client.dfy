/** The client and session objects of client.go and websocket.go: the bodies that run under the client mutex, the
    synchronisation of one connection, and the drain that ends a session. Each is proved against the functions of
    module Subscription, which the steps of module Engine use as well. */
module Client {
  import opened Basics
  import opened Subscription

  /** wsSession: its context, its done channel, its queue and byte counter, and its one-slot wake-up channel. */
  class Session {
    var canceled: bool
    var done: bool
    var send: seq<Bytes>
    var subscriptions: bool
    var queuedBytes: int

    constructor ()
      ensures !canceled && !done && send == [] && !subscriptions && queuedBytes == 0
    {
      canceled, done, send, subscriptions, queuedBytes := false, false, [], false, 0;
    }

    /** The deferred end of runSession: cancel, give back every queued byte, close done. */
    method Drain()
      modifies this
      ensures canceled && done && (send, queuedBytes) == Emptied(old(send), old(queuedBytes))
      ensures subscriptions == old(subscriptions)
    {
      canceled := true;
      while send != []
        invariant canceled && done == old(done) && subscriptions == old(subscriptions)
        invariant queuedBytes - Size(send) == old(queuedBytes) - Size(old(send))
        decreases |send|
      {
        var b := send[0];
        send := send[1..];
        queuedBytes := queuedBytes - |b|;
      }
      done := true;
    }
  }

  /** The writing side of a connection; `healthy` is how many more writes will succeed. */
  class Connection {
    var sent: seq<Message>
    var healthy: nat

    constructor (healthy: nat)
      ensures sent == [] && this.healthy == healthy
    {
      sent := [];
      this.healthy := healthy;
    }

    method WriteFrame(msg: Message) returns (ok: bool)
      modifies this
      ensures ok == (old(healthy) > 0)
      ensures sent == if ok then old(sent) + [msg] else old(sent)
      ensures healthy == if ok then old(healthy) - 1 else 0
    {
      ok := healthy > 0;
      if ok {
        sent := sent + [msg];
        healthy := healthy - 1;
      }
    }
  }

  datatype StartOutcome = Started | AlreadyStarted | Canceled

  /** Lines 138-150 of websocket.go: what is checked before the lock is taken. */
  method CheckRequest(addresses: seq<string>, signedDatas: map<string, string>, txTypes: seq<TxType>)
    returns (r: Outcome)
    ensures r == RequestOutcome(addresses, signedDatas, txTypes)
  {
    if |addresses| == 0 || |addresses| > 251 {
      return Fail(InvalidAddressCount);
    }
    for i := 0 to |addresses|
      invariant forall j | 0 <= j < i :: GoodAddress(addresses[j], signedDatas)
    {
      var address := addresses[i];
      if address == "" || |address| > 2048 || Lookup(signedDatas, address) == "" {
        assert address in addresses && !GoodAddress(address, signedDatas);
        return Fail(MissingAddressOrSignature);
      }
    }
    for i := 0 to |txTypes|
      invariant forall j | 0 <= j < i :: IsValid(txTypes[j])
    {
      if !IsValid(txTypes[i]) {
        assert txTypes[i] in txTypes;
        return Fail(InvalidTxType);
      }
    }
    return Ok;
  }

  /** Lines 159-166 of websocket.go: the size of the union, with repeated addresses counted once. */
  method CountUnion(existing: set<string>, addresses: seq<string>) returns (total: nat)
    ensures total == |existing + Elements(addresses)|
  {
    total := |existing|;
    var seen: set<string> := {};
    for i := 0 to |addresses|
      invariant seen == Elements(addresses[..i]) - existing
      invariant total == |existing| + |seen|
    {
      var address := addresses[i];
      assert addresses[..i + 1] == addresses[..i] + [address];
      if address !in existing && address !in seen {
        total := total + 1;
        seen := seen + {address};
      }
    }
    assert addresses[..|addresses|] == addresses;
    assert existing + Elements(addresses) == existing + seen;
    assert existing !! seen;
  }

  predicate Distinct(s: seq<string>) {
    forall i, j | 0 <= i < j < |s| :: s[i] != s[j]
  }

  method Insert(sorted: seq<string>, a: string) returns (r: seq<string>)
    requires Ascending(sorted) && a !in sorted
    ensures Ascending(r) && Elements(r) == Elements(sorted) + {a}
  {
    var k := 0;
    while k < |sorted| && Less(sorted[k], a)
      invariant k <= |sorted|
      invariant forall j | 0 <= j < k :: Less(sorted[j], a)
    {
      k := k + 1;
    }
    r := sorted[..k] + [a] + sorted[k..];
    InsertionPoint(sorted, a, k);
  }

  /** sort.Strings on distinct strings. */
  method SortStrings(s: seq<string>) returns (sorted: seq<string>)
    requires Distinct(s)
    ensures Ascending(sorted) && Elements(sorted) == Elements(s)
  {
    sorted := [];
    for i := 0 to |s|
      invariant Ascending(sorted) && Elements(sorted) == Elements(s[..i])
    {
      assert s[..i + 1] == s[..i] + [s[i]];
      ElementsAppend(s[..i], s[i]);
      sorted := Insert(sorted, s[i]);
    }
    assert s[..|s|] == s;
  }

  /** Lines 400-405 of websocket.go. */
  method MissingFrom(previous: seq<string>, kept: map<string, string>) returns (removed: seq<string>)
    ensures removed == Missing(previous, kept)
  {
    removed := [];
    for i := 0 to |previous|
      invariant removed == Missing(previous[..i], kept)
    {
      assert previous[..i + 1][..i] == previous[..i];
      if previous[i] !in kept {
        removed := removed + [previous[i]];
      }
    }
    assert previous[..|previous|] == previous;
  }

  class Client {
    const clientInstanceID: string
    var canceled: bool
    var mode: int
    var session: Session?
    var subscribedAddresses: set<string>
    var subscribedSignedData: map<string, string>
    var subscribedTypes: seq<TxType>
    var subscriptionRevision: nat

    constructor (instanceID: string)
      ensures clientInstanceID == instanceID && !canceled && session == null
      ensures Desired() == Subscription.Desired(SUBSCRIPTION, {}, map[], [], 0)
    {
      clientInstanceID := instanceID;
      canceled, mode, session := false, 0, null;
      subscribedAddresses, subscribedSignedData, subscribedTypes, subscriptionRevision := {}, map[], [], 0;
    }

    function Desired(): (r: Subscription.Desired)
      reads this
    {
      Subscription.Desired(mode, subscribedAddresses, subscribedSignedData, subscribedTypes, subscriptionRevision)
    }

    function Status(): (r: SessionStatus)
      reads this, session
    {
      if session == null then NoSession else if canceled || session.canceled then Ended else Live
    }

    method NotifySubscriptionLocked()
      modifies session
      ensures session != null ==> session.subscriptions
      ensures session != null ==> session.canceled == old(session.canceled) && session.done == old(session.done)
                                  && session.send == old(session.send)
                                  && session.queuedBytes == old(session.queuedBytes)
    {
      if session != null {
        session.subscriptions := true;
      }
    }

    method Start() returns (r: StartOutcome)
      modifies this
      ensures r == AlreadyStarted <==> old(session) != null && !old(session.done)
      ensures r == Canceled <==> (old(session) == null || old(session.done)) && canceled
      ensures r == Started ==> session != null && fresh(session) && !session.canceled && !session.done
                               && session.send == [] && session.queuedBytes == 0 && !session.subscriptions
      ensures r != Started ==> session == old(session)
      ensures Desired() == old(Desired()) && canceled == old(canceled)
    {
      if session != null && !session.done {
        return AlreadyStarted;
      }
      if canceled {
        return Canceled;
      }
      session := new Session();
      return Started;
    }

    /** Stop up to its wait for done; false when there is nothing to stop. */
    method BeginStop() returns (ok: bool)
      modifies session
      ensures ok == (session != null)
      ensures session != null ==> session.canceled && session.done == old(session.done)
                                  && session.send == old(session.send)
                                  && session.queuedBytes == old(session.queuedBytes)
                                  && session.subscriptions == old(session.subscriptions)
    {
      if session == null {
        return false;
      }
      session.canceled := true;
      return true;
    }

    /** Stop after its wait. */
    method FinishStop()
      requires session != null && session.done
      modifies this
      ensures session == null && Desired() == Cleared(old(Desired())) && Empty(Desired())
      ensures canceled == old(canceled)
    {
      session := null;
      subscribedAddresses := {};
      subscribedSignedData := map[];
      subscribedTypes := [];
      subscriptionRevision := subscriptionRevision + 1;
    }

    method Subscribe(addresses: seq<string>, signedDatas: map<string, string>, txTypes: seq<TxType>)
      returns (r: Outcome)
      modifies this, session
      ensures r == SubscribeOutcome(old(Desired()), old(Status()), addresses, signedDatas, txTypes)
      ensures Desired() ==
              if r == Ok then Subscribed(old(Desired()), addresses, signedDatas, txTypes) else old(Desired())
      ensures session == old(session) && canceled == old(canceled)
      ensures session != null ==>
              && session.subscriptions == (old(session.subscriptions) || r == Ok)
              && session.canceled == old(session.canceled) && session.done == old(session.done)
              && session.send == old(session.send) && session.queuedBytes == old(session.queuedBytes)
    {
      r := CheckRequest(addresses, signedDatas, txTypes);
      if r == Ok {
        r := SubscribeLocked(addresses, signedDatas, txTypes);
      }
    }

    /** Lines 153-179 of websocket.go, under the lock: what a checked request is answered in this state. */
    method SubscribeLocked(addresses: seq<string>, signedDatas: map<string, string>, txTypes: seq<TxType>)
      returns (r: Outcome)
      modifies this, session
      ensures r == AdmissionOutcome(old(Desired()), old(Status()), addresses)
      ensures Desired() ==
              if r == Ok then Subscribed(old(Desired()), addresses, signedDatas, txTypes) else old(Desired())
      ensures session == old(session) && canceled == old(canceled)
      ensures session != null ==>
              && session.subscriptions == (old(session.subscriptions) || r == Ok)
              && session.canceled == old(session.canceled) && session.done == old(session.done)
              && session.send == old(session.send) && session.queuedBytes == old(session.queuedBytes)
    {
      if session == null {
        return Fail(NotStarted);
      }
      if canceled || session.canceled {
        return Fail(ContextDone);
      }
      var total := CountUnion(subscribedAddresses, addresses);
      if total > 251 {
        return Fail(TooManyAddresses);
      }
      Apply(addresses, signedDatas, txTypes);
      NotifySubscriptionLocked();
      return Ok;
    }

    /** Lines 170-177 of websocket.go: the request becomes part of the desired state. */
    method Apply(addresses: seq<string>, signedDatas: map<string, string>, txTypes: seq<TxType>)
      modifies this
      ensures Desired() == Subscribed(old(Desired()), addresses, signedDatas, txTypes)
      ensures session == old(session) && canceled == old(canceled)
    {
      Merge(addresses, signedDatas);
      if |txTypes| > 0 {
        subscribedTypes := txTypes;
      }
      subscriptionRevision := subscriptionRevision + 1;
    }

    /** Lines 170-173 of websocket.go: the requested addresses and their signatures are added. */
    method Merge(addresses: seq<string>, signedDatas: map<string, string>)
      modifies this`subscribedAddresses, this`subscribedSignedData
      ensures subscribedAddresses == old(subscribedAddresses) + Elements(addresses)
      ensures subscribedSignedData == old(subscribedSignedData) + Requested(addresses, signedDatas)
    {
      for i := 0 to |addresses|
        invariant subscribedAddresses == old(subscribedAddresses) + Elements(addresses[..i])
        invariant subscribedSignedData == old(subscribedSignedData) + Requested(addresses[..i], signedDatas)
      {
        var address := addresses[i];
        assert addresses[..i + 1] == addresses[..i] + [address];
        ElementsAppend(addresses[..i], address);
        RequestedAppend(old(subscribedSignedData), addresses[..i], address, signedDatas);
        subscribedAddresses := subscribedAddresses + {address};
        subscribedSignedData := subscribedSignedData[address := Lookup(signedDatas, address)];
      }
      assert addresses[..|addresses|] == addresses;
    }

    method Unsubscribe() returns (r: Outcome)
      modifies this, session
      ensures r == UnsubscribeOutcome(old(Desired()), old(Status()))
      ensures Desired() == if r == Ok then Cleared(old(Desired())) else old(Desired())
      ensures session == old(session) && canceled == old(canceled)
      ensures session != null ==>
              && session.subscriptions == (old(session.subscriptions) || r == Ok)
              && session.canceled == old(session.canceled) && session.done == old(session.done)
              && session.send == old(session.send) && session.queuedBytes == old(session.queuedBytes)
    {
      if session == null {
        return Fail(NotStarted);
      }
      if canceled || session.canceled {
        return Fail(ContextDone);
      }
      if |subscribedAddresses| == 0 {
        return Fail(NotSubscribed);
      }
      subscribedAddresses := {};
      subscribedSignedData := map[];
      subscribedTypes := [];
      subscriptionRevision := subscriptionRevision + 1;
      NotifySubscriptionLocked();
      return Ok;
    }

    method SetMode(mode: int)
      modifies this, session
      ensures Desired() == WithMode(old(Desired()), mode)
      ensures this.mode == mode && subscribedAddresses == old(subscribedAddresses)
              && subscribedSignedData == old(subscribedSignedData) && subscribedTypes == old(subscribedTypes)
              && subscriptionRevision > old(subscriptionRevision)
      ensures session == old(session) && canceled == old(canceled)
      ensures session != null ==>
              && session.subscriptions
              && session.canceled == old(session.canceled) && session.done == old(session.done)
              && session.send == old(session.send) && session.queuedBytes == old(session.queuedBytes)
    {
      this.mode := mode;
      subscriptionRevision := subscriptionRevision + 1;
      NotifySubscriptionLocked();
    }

    /** Lines 383-399 of websocket.go: the message built under the lock and its sorted address list. */
    method BuildMessage() returns (revision: nat, listening: bool, msg: Message)
      ensures IsSnapshot(Snapshot(revision, listening, msg), Desired(), clientInstanceID)
      ensures revision == subscriptionRevision && (listening <==> mode == 1) && msg.txTypes == subscribedTypes
      ensures msg.kind == (if mode == 1 then ListenMessage else SubscribeMessage)
      ensures msg.clientInstanceID == (if mode == 0 || mode == 1 then clientInstanceID else "")
      ensures subscribedAddresses == subscribedSignedData.Keys ==>
              msg.signedAddrs == if mode == 0 then subscribedSignedData else map[]
      ensures Ascending(msg.addrs) && Elements(msg.addrs) == if mode == 0 then subscribedAddresses else {}
    {
      revision := subscriptionRevision;
      listening := mode == LISTEN;
      var kind, addrs, id := SubscribeMessage, [], "";
      var signedAddrs: map<string, string> := map[];
      if mode == SUBSCRIPTION {
        id := clientInstanceID;
        addrs, signedAddrs := CopyAddresses();
      }
      if listening {
        kind := ListenMessage;
        id := clientInstanceID;
      }
      addrs := SortStrings(addrs);
      msg := Message(kind, addrs, signedAddrs, subscribedTypes, id);
      assert Elements(addrs) == DesiredSignatures(Desired()).Keys;
    }

    /** The walk over the address map, in whatever order. */
    method CopyAddresses() returns (addrs: seq<string>, signedAddrs: map<string, string>)
      ensures signedAddrs == map a | a in subscribedAddresses :: Lookup(subscribedSignedData, a)
      ensures Elements(addrs) == subscribedAddresses && Distinct(addrs)
    {
      addrs, signedAddrs := [], map[];
      var rest := subscribedAddresses;
      while rest != {}
        invariant rest <= subscribedAddresses
        invariant Elements(addrs) == subscribedAddresses - rest && Distinct(addrs)
        invariant signedAddrs == map a | a in subscribedAddresses - rest :: Lookup(subscribedSignedData, a)
        decreases rest
      {
        var address :| address in rest;
        assert address !in Elements(addrs);
        ElementsAppend(addrs, address);
        addrs := addrs + [address];
        signedAddrs := signedAddrs[address := Lookup(subscribedSignedData, address)];
        rest := rest - {address};
      }
    }

    /** One synchronisation: the frames of the diff, in order, up to the first write that fails. */
    method SyncSubscription(conn: Connection, previous: seq<string>, wasListening: bool)
      returns (addrs: seq<string>, listening: bool, revision: nat, ok: bool, ghost snap: Snapshot)
      modifies conn
      ensures IsSnapshot(snap, Desired(), clientInstanceID) && revision == snap.revision
      ensures var frames := Frames(previous, wasListening, snap);
              && ok == (old(conn.healthy) >= |frames|)
              && conn.sent == old(conn.sent) + if ok then frames else frames[..old(conn.healthy)]
      ensures ok ==> addrs == snap.msg.addrs && listening == snap.listening
      ensures snap.listening <==> mode == 1
      ensures subscribedAddresses == subscribedSignedData.Keys ==>
              snap.msg.signedAddrs == if mode == 0 then subscribedSignedData else map[]
      ensures !ok ==> addrs == [] && listening == wasListening
    {
      var msg;
      revision, listening, msg := BuildMessage();
      snap := Snapshot(revision, listening, msg);
      var removed := MissingFrom(previous, msg.signedAddrs);
      var frames := Frames(previous, wasListening, snap);
      if |removed| > 0 || (wasListening && !listening) {
        ok := conn.WriteFrame(Message(UnsubscribeMessage, removed, map[], [], ""));
        if !ok {
          return [], wasListening, revision, false, snap;
        }
      }
      if |msg.addrs| > 0 || listening {
        ok := conn.WriteFrame(msg);
        if !ok {
          return [], wasListening, revision, false, snap;
        }
      }
      return msg.addrs, listening, revision, true, snap;
    }
  }
}
