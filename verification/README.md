# A model of the TransferChain read-node client

This project models the parts of the client in which something can go subtly wrong and proves what they are for.

**The websocket session engine** (`websocket.go`) is a transition system, module `Engine`. One state holds the client, every
session ever started, every connection, every call of `Write` and the callback board. There is one step for each atomic
section or channel operation of each goroutine: callers of `Start`, `Stop`, `Subscribe`, `Unsubscribe`, `WithMode` and the
setters, any number of concurrent writers, `runSession`, `serveConnection`, the reader and the user callbacks. Whatever the
network, the timers, `select` and the callers decide is a parameter of the step, so a run is any interleaving of any length.
`EngineInvariant` proves one inductive invariant over all runs; it is the conjunction of six groups, one module each:

| module | what it keeps |
|---|---|
| `EngineLife` | one open session, lock discipline, reader join |
| `EngineMail` | byte budget, order of messages |
| `EngineSync` | server view, wake-ups, synchronisation before sending, bounded loss |
| `EngineBoard` | callback slots, sole dispatcher, start order |
| `EngineOrder` | events against the messages on the wire |
| `EnginePace` | reconnect delay, dials after cancellation, subscription state |

`EngineTheorems` states what follows for every reachable state, and over every continuation of one. `EngineCalls` states what
each call achieves, spelled out: how it is answered and what reaches the server, the queue and the callbacks because of it.
`EngineConverge` shows that a loop left alone catches up with the desired state, and in how many steps. `EngineProgress` and
`EngineRecovery` show that no reachable state is a dead end, and what follows the end of a connection.

**The bodies under the mutex** are methods of the classes in module `Client`, proved against the functions of module
`Subscription`. The engine's steps use the same functions, and `EngineRefinement` shows that the synchronisation steps and the
drain steps, taken without interruption, do what the methods do, whichever write fails.

**The reconnect loop, the incoming messages, the certificate pins, the authority header and the client instance ID** are
modules `Reconnect`, `Incoming`, `Certificate`, `NewClient`, `Authority` and `Passkey`, with `Hex` for the text of bytes.

## What is assumed of the environment

- The server, per connection: a subscribe message adds its addresses and signatures and replaces the type filter; a listen
  message starts listening and replaces the filter; an unsubscribe message removes its addresses and ends listening; a new
  connection starts empty; a message queued with `Write` changes none of this. The filter is compared only while some address
  is subscribed or listening is on, because otherwise no frame carries it (`Subscription.Deliver`, `Subscription.Agrees`).
- A write that returns without error has reached the server; one that fails may or may not have.
- SHA-256, SHA-512, `CheckSignatureFrom`, the authority signer, the clock and the random source are parameters. X.509 and PEM
  parsing enter `NewClient` as their outcome, JSON enters `Incoming` as what the code asks of it.
- Strings are sequences of bytes written as characters. `strings.EqualFold` is ASCII folding, which is what it comes to on the
  hexadecimal text that has passed the check before it.
- A transaction type is one of the 61 listed ones or some other string; only that distinction matters here.

## Where code and documentation differ

- README.md (lines 73 and 99-102) says a pin names the leaf certificate. The code (certificate.go:74-76, client.go:209-210)
  accepts a pin of any certificate on the signed chain. The model follows the code; `Certificate.LeafReadingAgreesIff` proves that the
  two readings agree on every chain if and only if no pinned certificate has signed an unpinned one, and
  `Certificate.IssuerPinIsAccepted` gives a chain on which they do not.
- README.md (line 72) speaks of one built-in default fingerprint; the code keeps a list that callers can change, read at every
  handshake (certificate.go:22-61). The model has the list.

## Model

| member | source | states |
|---|---|---|
| Client.Client.Start | websocket.go:29-49 | refuses while the current session is open or the client's context is done; otherwise installs a fresh, empty session and leaves the subscription state alone |
| Client.Client.BeginStop | websocket.go:51-61 | cancels the current session and nothing else; reports when there is none |
| Client.Client.FinishStop | websocket.go:62-69 | after done: no session, no addresses, signatures or types, and a new revision |
| Client.Client.NotifySubscriptionLocked | websocket.go:126-133 | leaves a token in the current session's slot whether or not one was there, and changes nothing else |
| Client.Client.Subscribe | websocket.go:137-180 | answers the checks in their order; on success addresses and signatures are merged, a non-empty filter replaces the old one and the loop is woken; a failing call changes nothing |
| Client.Client.SubscribeLocked | websocket.go:151-179 | the part under the lock, for any client and session state |
| Client.Client.Merge | websocket.go:170-173 | the loop adds exactly the requested addresses, each with its signature |
| Client.CheckRequest | websocket.go:138-150 | the first failing check decides, over all addresses and types |
| Client.CountUnion | websocket.go:159-166 | the counting loop computes the cardinality of existing and requested addresses together, repeated addresses counted once |
| Client.Client.Unsubscribe | websocket.go:182-200 | clears the desired state and wakes the loop, or changes nothing |
| Client.Client.SetMode | client.go:273-280 | the mode becomes the one given, with or without a session; addresses, signatures and filter stay, the revision grows and the loop is woken |
| Client.Client.BuildMessage | websocket.go:383-399 | by mode: in mode 0 every wanted address, ascending, with its signature; in mode 1 a listen message without addresses; otherwise an empty message without client instance ID; always the current revision and filter, whatever order the map is walked in |
| Client.SortStrings | websocket.go:399 | the listing is strictly ascending and has the same elements |
| Client.MissingFrom | websocket.go:400-405 | the loop keeps exactly the remembered addresses that the snapshot lacks, in order |
| Client.Client.SyncSubscription | websocket.go:382-429 | sends the frames of the diff in order up to the first failing write, from a snapshot whose addresses are the wanted ones of mode 0 and which listens exactly in mode 1; returns the snapshot's addresses, mode and revision only if all were sent |
| Client.Session.Drain | websocket.go:203-218 | the drain loop gives back every queued byte, empties the queue and closes done |
| Subscription.SubscribeKeepsWellFormed | websocket.go:137-180 | an accepted request needs a live session and keeps: addresses are the signature keys, at most 251, signatures non-empty, types valid |
| Subscription.SubscribeAnswers | websocket.go:137-168 | exactly which request is accepted and which gets each error: 1 to 251 addresses of 1 to 2048 bytes, each signed, listed types, a live session, at most 251 addresses in all |
| Subscription.SubscribedMerges | websocket.go:169-178 | old and new addresses together, the new signature for a repeated address, a non-empty filter in place of the old one, an empty one leaves it |
| Subscription.UnsubscribeAnswers | websocket.go:182-193 | exactly when Unsubscribe succeeds and which error it gives otherwise |
| Subscription.ClearedIsEmpty | websocket.go:194-197 | Unsubscribe and Stop leave no address, signature or type, and keep the mode |
| Subscription.WithModeSetsMode | client.go:275-276 | the mode becomes the one given and nothing else but the revision changes |
| Subscription.WantedSignatures | websocket.go:387-393 | the client wants all its addresses in mode 0 and none in any other |
| Subscription.SnapshotByMode | websocket.go:383-399 | the message of a snapshot for each mode, spelled out |
| Subscription.FramesByMode | websocket.go:400-427 | an unsubscribe frame goes out exactly when a remembered address is no longer wanted or listening ends, with exactly those addresses; the second frame exactly in mode 1 or in mode 0 with addresses |
| Subscription.MissingFromFront | websocket.go:400-405 | the removed addresses keep the remembered order |
| Subscription.LessIsLexicographic | websocket.go:399 | the order of the address list is lexicographic by bytes |
| Subscription.FramesReachDesired | websocket.go:382-429 | from any view the loop remembers correctly, one synchronisation ends exactly at the wanted addresses, signatures, listening flag and filter |
| Subscription.NoCoverageGap | websocket.go:400-427 | after every intermediate frame an address wanted before and after is still subscribed |
| EngineTheorems.UnsubscribeFrameHasOnePurpose | websocket.go:406-416 | in every reachable state the unsubscribe frame about to be sent removes addresses or leaves listening, never both, because a loop that listened remembers no address; a listening snapshot lists no addresses |
| Subscription.UnsubscribeReachesHalfWay | websocket.go:406-416 | after the first frame the view holds exactly the addresses common to old and new, and no stale listening |
| Subscription.UpdateReachesDesired | websocket.go:417-428 | the second frame, sent only when needed, completes the wanted view |
| Subscription.UpdateIsRemembered | websocket.go:428 | even a stale snapshot leaves the loop remembering the server's view correctly |
| Subscription.ListingIsUnique | websocket.go:389-399 | a set of addresses has one sorted listing, so the frame does not depend on map order |
| Engine.CallerHasEffect | websocket.go:29-74 | no caller touches a queue, a connection, a run or a started event; a context once canceled stays canceled |
| EngineLife.CallerKeepsLife | websocket.go:29-74 | Start and Stop keep: one open session, which is c.session; the lock is held by a drain or by readers, not both |
| EngineLife.WriterKeepsLife | websocket.go:77-115 | a Write in progress keeps its session open and excludes the drain |
| EngineLife.RunnerKeepsLife | websocket.go:202-272 | every step of runSession keeps the single open session, the lock discipline and the reader join |
| EngineLife.ServeKeepsLife | websocket.go:300-373 | every exit of the serve loop leaves either a running reader or one completion token |
| EngineLife.ReaderKeepsLife | websocket.go:311-331 | the reader ends by leaving exactly one token; a cancellation never reopens a session |
| EngineLife.DispatchKeepsLife | websocket.go:536-550 | dispatching changes no lifetimes |
| EngineMail.WriterKeepsMails | websocket.go:90-115 | each step of the load, compare-and-swap, send or abort protocol keeps the byte counter equal to queued, reserved and in-flight bytes, within 16 MiB |
| EngineMail.RunnerKeepsMails | websocket.go:202-272 | the drain and the reconnects keep the counter and the order |
| EngineMail.ServeKeepsMails | websocket.go:360-366 | dequeuing and accounting keep the counter and the order |
| EngineSync.CallerKeepsSyncs | websocket.go:126-200 | a change of the desired state while the loop is anywhere keeps: up to date, or a token pending |
| EngineSync.RunnerKeepsSyncs | websocket.go:248-251 | a new connection starts from an empty view and an empty memory |
| EngineSync.ServeKeepsSyncs | websocket.go:336-372 | every step of the serve loop keeps the relation between its variables, the wire, the server's view and the desired state |
| EngineSync.SnapshotStep | websocket.go:383-398 | a snapshot taken under the lock is current |
| EngineSync.UnsubscribeStep | websocket.go:406-416 | from a remembered view to the half-way view |
| EngineSync.UpdateStep | websocket.go:417-428 | from the half-way view to a remembered one, wanted if the revision still stands |
| EngineSync.ChangeKeepsPoint | websocket.go:177-178 | a change in the middle of any step is covered by the wake-up token |
| EngineBoard.CallerKeepsTurns | client.go:315-350 | registering callbacks, ending callbacks and starting or stopping sessions keep slots equal to unfinished callbacks |
| EngineBoard.RunnerKeepsTurns | websocket.go:221-257 | the runner opens and leaves callback loops only while no one else is in one |
| EngineBoard.ReaderKeepsTurns | websocket.go:443-511 | the reader opens and leaves callback loops only while no one else is in one |
| EngineBoard.DispatchKeepsTurns | websocket.go:536-550 | a start takes the next callback of the newest event and one slot; an abort needs the session's context to be done |
| EngineBoard.SoleDispatcher | websocket.go:332-333 | two goroutines in a callback loop are the same one |
| EngineOrder.CallerKeepsOrders | client.go:315-350 | each list keeps callbacks of its own kind |
| EngineOrder.RunnerKeepsOrders | websocket.go:252-257 | the runner reports only errors after which it goes on |
| EngineOrder.ReaderKeepsOrders | websocket.go:443-533 | an event is the reaction to the message just read, and no message is skipped |
| EnginePace.RunnerKeepsPaces | websocket.go:219-271 | the delay follows the waits since the last successful dial; a dial after cancellation is the last one |
| EnginePace.CallerKeepsPaces | websocket.go:137-200 | every caller keeps the subscription state well-formed, and without a session it is empty |
| EngineInvariant.StepKeepsInv | websocket.go:29-550 | whatever goroutine moves next and however network, timers and callers decide, every invariant is kept |
| EngineInvariant.RunKeepsInv | websocket.go:29-550 | over every run, of any length, with any number of writers, callers, sessions and connections |
| EngineInvariant.ReachableInv | websocket.go:29-550 | every state that any interleaving reaches from a new client satisfies all six groups of invariants |
| EngineRefinement.SyncStepsSendFrames | websocket.go:382-429 | the synchronisation steps on a connection with any number of further writes put the frames of SyncSubscription on the wire up to the first failing one, which may or may not be delivered; they return what it returns, or give the connection up |
| EngineRefinement.SyncMatchesSteps | websocket.go:382-429 | SyncSubscription, called on an equal desired state, sends the very frames that those steps log, and succeeds exactly when the loop goes on |
| EngineRefinement.DrainStepsRefineDrain | websocket.go:207-218 | the drain steps never wait, give back every queued byte and close done |
| EngineRefinement.DrainMatchesSteps | websocket.go:207-218 | Session.Drain, called on an equal queue and counter, ends in the queue, counter, context and done that those steps end in |
| EngineTheorems.QuiescentAgreement | websocket.go:336-359 | in every reachable state where the loop waits at its select with no token pending, the server's view is the one the client wants |
| EngineCalls.SettledView | websocket.go:336-427 | that view spelled out: in mode 0 the server holds exactly the client's addresses with their signatures, in any other none; it listens exactly in mode 1; its filter is the client's |
| EngineTheorems.NoLostWakeup | websocket.go:341-359 | at the select the loop is up to date by revision or a token waits, and up to date by revision means the wanted view |
| EngineTheorems.NoGapWhileSynchronising | websocket.go:406-427 | between the two frames every address common to old and new is subscribed at the server |
| EngineTheorems.EveryUserFrameIsSynced | websocket.go:340-366 | every user frame on the wire follows a completed synchronisation no older than the revision read at the start of its iteration |
| EngineTheorems.SubscriptionStateIsWellFormed | websocket.go:137-200 | in every reachable state: addresses are the signature keys, at most 251, signatures non-empty, types valid; no session, no subscription |
| EngineCalls.NewClientIsEmpty | client.go:221-236 | a new client is in mode 0 with nothing subscribed, no session and no callbacks |
| EngineCalls.CallersProceed | websocket.go:29-200 | a caller waits for the client mutex only; Start and Stop also for a Stop under way |
| EngineCalls.SubscribeStep | websocket.go:137-180 | in every reachable state, exactly a good request on a live session with room for its addresses takes effect and leaves a token; any other changes nothing |
| EngineCalls.SubscribeReachesServer | websocket.go:137-180 | once the loop has settled after an accepted Subscribe, the server holds every requested address with its new signature, every earlier one with its old signature, no other, and the right filter |
| EngineCalls.UnsubscribeStep | websocket.go:182-200 | in every reachable state Unsubscribe clears the desired state and leaves a token exactly on a live session with addresses, and changes nothing otherwise |
| EngineCalls.UnsubscribeReachesServer | websocket.go:182-200 | once the loop has settled after Unsubscribe the server holds no address |
| EngineCalls.WithModeStep | client.go:273-280 | the step sets the mode, bumps the revision and wakes the session |
| EngineCalls.WithModeReachesServer | client.go:272-280 | once the loop has settled after WithMode the server listens exactly in mode 1 and holds the addresses exactly in mode 0 |
| EngineCalls.StartStep | websocket.go:29-49 | Start gives a fresh session exactly when none is open and the client's context is not done |
| EngineCalls.StopStep | websocket.go:51-61 | Stop cancels the current session and nothing else, and waits |
| EngineCalls.FinishStopStep | websocket.go:62-69 | Stop returns only after done, with nothing subscribed, in the same mode |
| EngineCalls.RegisterStep | client.go:315-357 | each setter changes its own list: appended at the end, or replaced |
| EngineTheorems.FifoWithBoundedLoss | websocket.go:103-113 | accepted messages are those dequeued, drained and queued, in order, across reconnects; a connection writes what it dequeued, each once, but for at most the last |
| EngineTheorems.NothingLostWhileServing | websocket.go:360-366 | a loop back at its select has written everything it dequeued on that connection |
| EngineTheorems.ByteBudgetIsConserved | websocket.go:90-114 | the counter is exactly queued plus reserved plus in-flight bytes, within 16 MiB and 64 messages; with no Write under way failed writes have left no trace in it |
| EngineTheorems.SingleLiveSession | websocket.go:30-47 | at most one session has done open, and it is c.session |
| EngineTheorems.DoneBarrier | websocket.go:203-218 | once done is closed: empty queue, zero bytes, no reader, no serve loop and no Write of that session |
| EngineTheorems.DoneIsFinal | websocket.go:81-89 | no continuation enqueues to a finished session or changes anything of it but its unused wake-up slot |
| EngineTheorems.ReaderIsGone | websocket.go:332-333 | a session that neither serves nor joins has no reader: it is dead before the next dial, report or done |
| EngineTheorems.JoinGetsOneToken | websocket.go:332-333 | the join finds one completion token or a running reader, never both and never neither |
| EngineTheorems.ResendNeverBlocks | websocket.go:355-358 | the serve loop's re-send finds the slot empty |
| EngineTheorems.SignalNeverBlocks | websocket.go:321-325 | the reader's send finds the slot empty |
| EngineTheorems.OneDispatcher | websocket.go:536-547 | at most one goroutine is in a callback loop, and it waits on its own session's context |
| EngineTheorems.RejectionCancelsOwnSession | websocket.go:483-491 | once a message has been announced, exactly the reader's own session is canceled if the message was a rejected listen reply, and no session otherwise |
| EngineTheorems.CallbackBoundsAndOrder | websocket.go:502-550 | held slots are unfinished callbacks, at most 16; starts are a prefix of each event's callbacks in event order, all of them unless in progress or canceled |
| EngineTheorems.EventsFollowTheWire | websocket.go:443-511 | events stand in wire order, those of an earlier connection before those of a later one, and no message that calls for one is skipped |
| EngineTheorems.EventsAreGenuine | websocket.go:431-511 | each event is the reaction to its message and calls callbacks of the right list; a listen event hands out the very block or transaction of that message, with a non-empty id; a runner never reports close code 1000 or 1008 |
| EngineCalls.MessageOpensEvent | websocket.go:443-533 | a message that calls for callbacks opens one event with the whole list registered at that moment: listen callbacks for a block or a transaction, error callbacks for anything else |
| EngineCalls.QuietMessageIsRead | websocket.go:483-497 | a message that calls for nothing changes nothing |
| EngineCalls.DispatchDecides | websocket.go:543-547 | a waiting dispatch starts its callback exactly when one of the 16 slots is free and gives up exactly when its context is done |
| EngineTheorems.PacingIsBounded | websocket.go:258-271 | over every run of a session its waits are those RunLoop makes for its dials: each is the closed form of its distance from the last successful dial, within 100 ms and 25 s, and the waits since then add up to the closed total |
| EngineTheorems.AtMostOneLateDial | websocket.go:219-231 | at most one dial starts after cancellation; every full wait follows a dial of its own |
| EngineTheorems.WindDownProgress | websocket.go:203-263 | after the end has been observed each step of the session's own goroutine strictly lowers a rank, and no other step raises it |
| EngineTheorems.BoundedWindDown | websocket.go:203-263 | over any continuation its own steps number at most the rank, itself at most 69 |
| EngineTheorems.WindDownIsNotStuck | websocket.go:203-220 | until done it has a step, unless it joins a reader that runs or waits for a Write under way |
| EngineTheorems.LateWritesAreRefused | websocket.go:87-89 | a Write that begins after the session's or the client's context is done is never accepted by that session, over any continuation |
| EngineCalls.WriteAnswers | websocket.go:77-89 | in every reachable state: TooLarge exactly above 16 MiB, NotStarted exactly without a session, ContextDone exactly when its context is done, and otherwise the call goes on with the current session |
| EngineCalls.LoadAnswers | websocket.go:90-96 | the budget refuses exactly a message that would take the counter above 16 MiB |
| EngineCalls.ReservedAnswers | websocket.go:103-113 | a reserved message can be queued exactly while fewer than 64 wait; the timeout gives QueueFull, a done context ContextDone |
| EngineCalls.WriteIsAccepted | websocket.go:77-114 | in every reachable state with a live session, room in the budget and room in the queue, Write runs through and its message stands last in the queue |
| EngineCalls.RefusedWriteLeavesNoTrace | websocket.go:103-111 | a Write given up after its reservation leaves its session as it was |
| EngineCalls.QueuedMessageIsWritten | websocket.go:360-366 | at the select the first queued message goes to the wire and its bytes are given back; a failed write ends the connection |
| EngineTheorems.QuiescenceIsReachable | websocket.go:202-372 | a connected quiescent state does arise |
| EngineConverge.CatchesUp | websocket.go:340-359 | over any run in which the desired state stays the same, a loop that passed the top of its iteration works with the current revision at its select, and the server's view is the wanted one |
| EngineConverge.Converges | websocket.go:340-359 | from the top, with no failing write, the loop's own next four steps take it through its select in that state, whatever the others do in between |
| EngineConverge.ReachesSelect | websocket.go:340-349 | from any point of a synchronisation the loop's own steps up to its select number at most the distance left, itself at most four |
| EngineConverge.RunAges | websocket.go:126-200 | over any run the desired state is the same or has a later revision |
| EngineConverge.SyncIsNotStuck | websocket.go:340-359 | on its way to the select the loop always has a step of its own, and a pending token takes it from the select back to the top |
| EngineConverge.TopDecides | websocket.go:341-350 | a loop that is up to date sends nothing and goes straight to its select; any other synchronises |
| EngineProgress.WritersCanReturn | websocket.go:90-114 | in every reachable state all calls of Write under way can return |
| EngineProgress.SessionCanEnd | websocket.go:202-373 | a session whose context is done can reach done from every reachable state, whatever it, its reader and its callbacks are doing |
| EngineProgress.StopCanReturn | websocket.go:51-69 | a Stop that waits can return from every reachable state, with no session and nothing subscribed |
| EngineProgress.CanAlwaysRest | websocket.go:29-69 | no reachable state is a dead end: the client can always come to rest and be started again |
| EngineRecovery.LoopCanFinish | websocket.go:502-550 | from its beginning a callback loop can start every callback of its event, whatever slots are taken |
| EngineRecovery.CloseFrameDecides | websocket.go:248-257 | the error a reader gets reaches the runner unchanged; the session ends exactly if its context is done or the error is close code 1000 or 1008, and reports the error otherwise |
| EngineRecovery.SelectGivesUp | websocket.go:351-371 | a failed ping ends the connection, a good one does not, and a done context is taken exactly when it is done |
| EngineRecovery.RunnerEndsForCause | websocket.go:220-263 | the runner turns to its end only with its context done or after close code 1000 or 1008 |
| EngineRecovery.CanceledForCause | websocket.go:51-61 | a session is canceled only by Stop, by a rejected listen reply on its own connection, or at its own end |
| EngineRecovery.ReportsAll | websocket.go:255-257 | an error to report can be given to every error callback registered by then, in order |
| EngineRecovery.RetrievesAndDials | websocket.go:220-246 | before each dial every retriever registered by then can be started, in order |
| EngineRecovery.DialsAgain | websocket.go:219-271 | after any error but a goodbye a live session can report it to all, wait exactly the current delay, call all retrievers and dial again, with its queue intact |
| EngineRecovery.DialOutcome | websocket.go:234-251 | a connection starts with an empty memory; only a dial that connected resets the delay to 100 ms |
| Reconnect.RunLoop | websocket.go:219-271 | for any sequence of attempts: when the loop ends, which dials it makes, each after one call of the retrievers, which errors it reports, never close code 1000 or 1008, and every full wait in closed form |
| Reconnect.EndsOnlyForCause | websocket.go:252-263 | an attempt that ended with close code 1000 or 1008 is the last dial, unreported and without a wait; the loop ends for nothing else but a done context; every other error is reported |
| Reconnect.TerminalCodes | websocket.go:252 | the two close codes that end a session, and nothing else |
| Reconnect.LongerIsNextDelay | websocket.go:265-270 | doubling with the cap is the next term of min(100 ms times 2 to the k, 25 s) |
| Reconnect.DelayBounds | websocket.go:265-270 | delays are within 100 ms and 25 s and never shrink between resets |
| Reconnect.TotalClosedForm | websocket.go:258-270 | the time spent in k waits, geometric up to the eighth and linear after |
| Reconnect.PausesSinceReset | websocket.go:249-270 | the full waits since the last successful dial add up to that total |
| Reconnect.DialKeepsPauses | websocket.go:249-250 | a successful dial resets the wait to 100 ms, a failed one leaves the sequence going |
| Incoming.ParseIncoming | websocket.go:431-500 | a listen notification carries exactly one of a block and a transaction, the very one of the message, a transaction with a non-empty text id; exactly which messages cancel the session, are ignored, or bring a block, and exactly which malformed message gives which error; a present id makes a message a transaction whatever its type says |
| Certificate.SignedChain | certificate.go:144-152 | the loop returns the longest prefix in which every adjacent link is signed |
| Certificate.SearchChain | certificate.go:102-115 | the nested loops find a match iff some well-formed pin is the digest of some certificate of the chain |
| Certificate.PinList.SetCustomFingerprint | certificate.go:39-44 | replaces the list |
| Certificate.PinList.AddFingerprints | certificate.go:47-52 | appends one pin |
| Certificate.PinList.GetFormattedFingerprints | certificate.go:56-61 | the current list |
| Certificate.PinList.VerifyPeer | certificate.go:80-118 | accepts iff pinning is disabled or an active pin matches a certificate that vouches for the leaf; the invalid-pin error exactly for a malformed custom pin or an empty chain |
| Certificate.DecodePin | certificate.go:123-134 | exactly the texts of 64 hexadecimal digits decode, to the 32 bytes whose printed text they are up to case |
| Certificate.ChainIsVouched | certificate.go:136-152 | the searched chain is exactly the certificates that vouch for the leaf |
| Certificate.PolicySpelledOut | certificate.go:80-118 | a handshake is permitted iff pinning is disabled or a pin in force (the custom one alone if given, else one of the list) reads as the digest of a presented certificate from which every link down to the leaf is signed |
| Certificate.SignedChainIsUnique | certificate.go:144-152 | that prefix is determined by the presented chain |
| Certificate.AcceptanceIsMonotone | certificate.go:102-115 | more pins or a longer chain never lose an acceptance |
| Certificate.BrokenLinkHidesTheRest | certificate.go:136-138 | what stands after a broken link is irrelevant, whatever it is |
| Certificate.LeafReadingAgreesIff | certificate.go:74-76 | the leaf-only reading of README.md gives the code's verdict on every chain if and only if no pinned certificate has signed an unpinned one |
| Certificate.IssuerPinIsAccepted | certificate.go:74-76 | a chain that is accepted by its issuer's pin alone |
| NewClient.ResolvePin | client.go:137-196 | exactly which input gives which error, in order, and which pin is kept otherwise |
| NewClient.ConstructionAgreesWithHandshake | client.go:184-213 | for all accepted inputs, every handshake with the kept pin follows the row of the pin table (README.md:70-76) they select; with a fingerprint and a certificate that is: some vouching certificate has the given certificate's digest |
| NewClient.PairAcceptedIffHandshakeAccepts | client.go:193-195 | a fingerprint and a certificate are accepted together iff a handshake presenting that certificate alone would be; the textual and the byte comparison are one test |
| Hex.DecodeEncode | certificate.go:124 | decoding undoes encoding |
| Hex.EqualFoldIsSameBytes | client.go:193 | a readable pin folds to the text of some bytes iff it decodes to them |
| Hex.EncodedDigits | authority.go:33 | printed text is lower-case hexadecimal |
| Hex.EncodedNibbles | authority.go:33 | byte j prints at 2j and 2j + 1, high four bits first |
| Hex.DigitsAreWorth | certificate.go:124 | the value of every digit of either case, and which characters are none |
| Authority.CreateWSAuthorityV3 | authority.go:20-49 | which inputs succeed, the header they give, and the first error of the others |
| Authority.HeaderFields | authority.go:48 | the header splits at semicolons into exactly address, v3, stamp, nonce and signature |
| Authority.HeaderRecoversInputs | authority.go:48 | different inputs give different headers |
| Authority.HeaderLength | authority.go:21-48 | a header has at most 18522 bytes |
| Authority.PayloadFields | authority.go:34 | the payload splits at newlines into exactly domain, address, stamp and nonce |
| Authority.PayloadInjective | authority.go:34 | what is signed determines address, stamp and nonce |
| Authority.PayloadIsNotAHeader | authority.go:34-48 | a signed payload is never the text of a header |
| Authority.FormatIntInjective | authority.go:32 | the printed stamp determines the stamp |
| Authority.FormatIntReadsBack | authority.go:32 | the stamp prints in decimal: a sign exactly if negative, no leading zero, and it reads back |
| Authority.StampLength | authority.go:32 | a 64-bit stamp prints in at most 20 characters |
| Authority.Configuration.WithWSAuthority | authority.go:54-66 | keeps a signer only with a usable address, drops the address without a signer, and changes nothing on refusal |
| Authority.Configuration.DialAuthority | websocket.go:234-240 | a configured signer never meets an invalid configuration, and the header starts with the configured address |
| Passkey.CreateClientInstanceID | passkey.go:12-38 | four rounds hash the four texts in order; fewer draws fail |
| Passkey.PrintUuid | passkey.go:23-30 | the buffers end up holding the masked entropy and its text, from any previous contents |
| Passkey.PrintFields | passkey.go:25-30 | five fields and four dashes written in place make up the text |
| Passkey.EncodeInto | passkey.go:25-29 | the digits of a slice at an offset, nothing else written |
| Passkey.HashedTextIsCanonical | passkey.go:23-30 | every text hashed is canonical version 4, variant 10 |
| Passkey.ParseUuidText | passkey.go:25-30 | the text gives back the masked entropy |
| Passkey.MaskKeepsTheRest | passkey.go:23-24 | masking forgets exactly the six bits it overwrites |
| Passkey.MaskedBytes | passkey.go:23-24 | fourteen bytes keep their places and values, the other two keep their low bits under version 4 and variant 10 |
| Passkey.TextFields | passkey.go:25-30 | which bytes stand at which offsets of the text, and where the dashes are |
| Passkey.PreimageRecoversRound | passkey.go:19-34 | each 36-character chunk gives back its round's masked entropy |
| Passkey.PreimageInjective | passkey.go:19-34 | the 144 characters hashed determine all four masked entropies |

## Left out

- Sockets, TLS, dialing, proxies, ping and pong deadlines and the close-on-cancel hooks: they enter as outcomes of steps.
- The goroutine bodies of `Write`, `runSession`, `serveConnection` and the reader are steps over values, not methods over
  objects, because their meaning is in their interleaving; what the model then does not show is update in place of the queue.
- `sort.Strings`, map iteration order and `bytes.Clone` are modelled by what they return; aliasing of the caller's slices is not.
- The pending-writer rule of Go's read-write mutex only removes interleavings and is not modelled.
- A `select` with several ready cases may take any of them, so nothing bounds how long a canceled loop at its select keeps taking others.
- A panic in a user callback ends the process and is not a step.
- The revision is unbounded; the source's counter has 64 bits.
- The HTTP methods of client.go, the other setters, headers, loggers and response types: request plumbing.
- `Type.IsValid` as a table, `InArray`, `StringOR` and the request and response structures: finite or single-function checks.
- JSON text, and the client instance ID as a field the server uses.
- Zeroing of buffers, and the quality of randomness.
- EngineTheorems.EventsFollowTheWire: a message read just before its connection ends has its event unless its reader is still
  between reading it and opening the event.
- EngineProgress.CanAlwaysRest: a run to rest exists from every reachable state; that every fair run gets there is not stated,
  because `select` and the scheduler are not assumed to be fair.
