# Loyal: verified models of the wallet approval protocol and its neighbours

This Dafny project models six parts of the repository and proves what each of
them promises over every input, every interleaving or every pattern of
failures:

- the extension wallet's dApp approval protocol: background worker, bridge and
  provider content scripts, the session-key cache and the auto-lock;
- the provider's base-58 decoder;
- the generation-fenced start gate of the Autoswap canaries and the nested
  try/catch/finally code around it;
- the start/shutdown lifecycle of the userbot worker;
- decimal amount parsing and the account layout of compiled messages in the
  proposal script;
- IDL normalisation and the generated-tree drift check of the update script.

`dafny verify dfyconfig.toml` checks everything.

## How the files fit together

Code that the source runs as async handlers is modelled twice. A pure state
machine (`Approvals`, `Correlation`, `UserbotLifecycle`) cuts every handler at
its awaits, keeps the continuations in flight with their local snapshots, and
lets a scheduler pick any of them; the results are lemmas about its runs. A
class (`BackgroundWorker`, `DappPage`, `UserbotWorker`) has the source's own
variables as fields and updates them in place; every method is proved equal to
one step of the state machine, and `Execute` to a whole run. `log` and the
other history fields only record what happened.

| file | what it holds |
|---|---|
| `SessionKey.dfy` | the two-level session-key cache and the auto-lock, each handler one atomic step |
| `Approvals.dfy`, `Continuations.dfy` | the approval protocol as a state machine; what a step leaves alone |
| `ApprovalSafety.dfy` | what precedes every signature; the stored origins |
| `ApprovalAnswers.dfy`, `ApprovalReplies.dfy` | which response every request gets and why; that it fits the request |
| `ApprovalLoop.dfy` | from the display to the decision and the signature |
| `ApprovalProgress.dfy` | what every handler and decision comes to when left alone |
| `ApprovalLock.dfy` | the worker's wallet; signing after a lock |
| `ConnectedOrigins.dfy`, `SignatureWindow.dfy` | what approvals and disconnects do to the stored origins; when a disconnect stops a signature |
| `ApprovalLedger.dfy`, `Arrivals.dfy` | conservation of requests; what arrived |
| `ApprovalSilence.dfy` | requests that end without a response |
| `ApprovalDeciders.dfy`, `ApprovalDisplay.dfy` | the decisions in flight; when the stored descriptor and the parked map agree |
| `BackgroundWorker.dfy` | the worker with its module variables and stored items |
| `MessageIds.dfy`, `Correlation.dfy`, `DappPage.dfy` | message ids; provider, bridge and worker composed; the page's scripts as a class |
| `MessageLedger.dfy`, `Promises.dfy` | conservation of messages; what each call of the provider comes to |
| `RoundTrips.dfy`, `SignCalls.dfy` | from end to end: connect and sign calls |
| `Base58.dfy` | the decoder, its invariants, and the bijection |
| `StartGate.dfy`, `CanaryRun.dfy` | the control row under many owners; the canaries around it |
| `UserbotLifecycle.dfy`, `UserbotWorker.dfy` | the lifecycle and the object that runs it |
| `UserbotExit.dfy` | the exit on a signal; that starts and shutdowns end |
| `Decimals.dfy`, `Amounts.dfy` | numerals and exact decimal amounts |
| `ExecutionAccounts.dfy` | the flattened account list |
| `IdlNormalize.dfy` | the recursive JSON rewrite |
| `FileTree.dfy`, `DriftCheck.dfy` | a disk as a map of paths; check and replace |

## Where the code does not do what one would expect

- A decision that finishes late issues the null descriptor over a request that
  was parked meanwhile: the request stays parked with nothing on display
  (`OverlapLosesDisplay`). `AgreeExactly` gives the exact condition, and
  `OneAtATimeAgrees` shows that requests coming one at a time are safe.
- The list of connected origins is read and rewritten without a lock: a stale
  write brings a disconnected origin back (`DisconnectUndoneByApproval`) or
  loses an approved one (`ApprovalLostToDisconnect`). `OriginReturnsExactly` and
  `OriginLostExactly` say exactly when.
- A disconnect that lands after the origin check does not stop the signature
  (`SignedAfterDisconnect`; `CheckDecidesExactly` and `ListMakesNoDifference`
  give the window).
- An approved sign request with an empty payload gets no response at all
  (`EmptyPayloadIsSilent`, `SigningAnswersExactly`), and neither does a request
  whose handler fails to read the stored origins or public key
  (`FinishedMeansAnswered` puts both together).
- A failed `remove` in the session area brings a cleared key back after the
  next read (`FailedRemoveResurrectsKey`; exactly when: `CacheRefinesExactly`),
  also across a lock (`FailedLockKeepsKey`; exactly when:
  `OldKeyComesOutExactly`, `OldKeyCanComeBackExactly`).
- A userbot start that succeeds over an active client loses that client for
  good (`StartOverActiveLoses`; `ClientsAreLostExactly` is the exact
  condition), and a shutdown misses a client that is still to come
  (`ShutdownMissesComingClient`; exactly then: `ShutdownDestroysExactly`).
- Replacing a directory from a source inside it removes the source first; it
  can then only succeed when there was nothing to copy (`AssertOrReplaceDirectory`).

## Model

| member | source | states |
|---|---|---|
| `SessionKey.CacheRefinesExactly` | apps/extension/entrypoints/background.ts:53-90 | for every history of stores, clears, reads and suspensions and every pattern of storage failures, a read that reaches the session area returns the last key stored since the last clear if and only if that is also what last reached the area, or it is non-empty and no suspension followed its store |
| `SessionKey.CacheRefinesOneKey` | apps/extension/entrypoints/background.ts:53-90 | so the two levels refine one optional key whenever the last store or clear reached the area |
| `SessionKey.CacheWithoutArea` | apps/extension/entrypoints/background.ts:53-90 | where the session area never works, the read is right exactly when there is nothing to return or the key is non-empty and no suspension followed its store |
| `SessionKey.SuspensionShowsWhatReached` | apps/extension/entrypoints/background.ts:75-90 | for any failures: after a suspension a read returns the last key that reached the session area |
| `SessionKey.FailedRemoveResurrectsKey` | apps/extension/entrypoints/background.ts:66-73 | the history in which a cleared key comes back |
| `SessionKey.KeyOnlyWhileUnlocked` | apps/extension/entrypoints/background.ts:92-115 | a key comes out if and only if the wallet is flagged unlocked, the auto-lock deadline is disabled or ahead, and a key is cached |
| `SessionKey.AutoLockExactly` | apps/extension/entrypoints/background.ts:92-115 | over every timed run a key comes out only while fewer than the timeout's minutes, of 60,000 milliseconds each, have passed since the last heartbeat, and then whenever the wallet is unlocked and has one; the check locks exactly when they have passed |
| `SessionKey.LockEmpties` | apps/extension/entrypoints/background.ts:92-115 | every locking step leaves the flag off and the memory empty, and the area empty exactly when its clear reaches it or nothing was there |
| `SessionKey.OnlyFreshKeys` | apps/extension/entrypoints/background.ts:249-299 | starting locked and empty, whatever is cached later was stored by a trusted page in the meantime |
| `SessionKey.OldKeyComesOutExactly` | apps/extension/entrypoints/background.ts:92-115 | with every storage call free to fail, a key from before a lock comes out after a given run if and only if the wallet is unlocked and inside its deadline again, the area held the key, neither the lock's clear nor any later store or clear reached the area, and no newer key is in memory |
| `SessionKey.OldKeyCanComeBackExactly` | apps/extension/entrypoints/background.ts:66-115 | some run without a store brings a key from before a lock back if and only if the lock's clear failed and the area held that key |
| `SessionKey.FailedLockKeepsKey` | apps/extension/entrypoints/background.ts:66-115 | the input: the lock's `remove` fails once, and unlocking alone brings the key back |
| `SessionKey.RelockHolds` | apps/extension/entrypoints/background.ts:249-299 | over any timed run after a lock, a key comes out only after the wallet was flagged unlocked again, and it was stored since, but for that one case |
| `ApprovalLock.WalletFollows` | apps/extension/entrypoints/background.ts:53-115 | in every interleaving the worker's wallet is that of the run of its own key and lock operations, so the results above hold for it |
| `ApprovalLock.LockStopsSigning` | apps/extension/entrypoints/background.ts:106-115 | while the wallet is locked no key is read for signing, whatever the worker does, until it is flagged unlocked again |
| `ApprovalLock.SigningAfterLock` | apps/extension/entrypoints/background.ts:92-115 | after a lock, a key read for signing needs the wallet flagged unlocked again, and it is one that a trusted page stored since, but for the one case of a failed clear |
| `ApprovalLock.SuspensionForgets` | apps/extension/entrypoints/background.ts:26-51 | a suspension keeps what is stored and forgets continuations, parked requests and the key in memory: no decision or continuation from before has any effect after it |
| `ApprovalSafety.StepSafe` | apps/extension/entrypoints/background.ts:438-797 | every step of every handler keeps the invariant that each recorded event, snapshot, pending write and continuation is justified by earlier events |
| `ApprovalSafety.RunSafe` | apps/extension/entrypoints/background.ts:438-797 | the invariant holds in every interleaving, suspensions and failures included |
| `ApprovalSafety.SignatureNeedsAuthority` | apps/extension/entrypoints/background.ts:510-762 | every approved sign response is preceded, in order, by a grant of the origin (initial, or a trusted approving connect decision with the matching nonce), a check that found it connected, the parking of this very request, a trusted approving decision with its id and nonce, and a key read that passed the lock check; the request signed is the one that arrived, payload and origin included |
| `ApprovalSafety.StoredOriginsStayClean` | apps/extension/entrypoints/background.ts:606-709 | under racing approvals and disconnects the stored list never gains a duplicate and holds only initial or accepted origins |
| `ApprovalAnswers.AnswersExactly` | apps/extension/entrypoints/background.ts:409-797 | in every interleaving a request gets a given response if and only if a step was a cause of it, in a table of causes: no origin, an origin not connected, a newer request that parks, a wrong nonce, a denial, a failed call or missing key of the approved branch, a known origin's stored key, an approved connection's key, or the signature |
| `ApprovalAnswers.StepParks` | apps/extension/entrypoints/background.ts:455-606 | in every step an entry is parked if and only if its handler had read the origins and must ask the user: a connection of an origin not in them, or a signature for one that is |
| `ApprovalAnswers.StaleDecisionsDoNothing` | apps/extension/entrypoints/background.ts:619-643 | tokens are never reused, so a decision that names a request no longer parked does nothing, in every interleaving |
| `ApprovalReplies.RepliesFit` | apps/extension/entrypoints/background.ts:440-797 | in every interleaving a public key is answered only to a connect request, after an approval never an empty one, and a signature only for the very request that arrived |
| `ApprovalLoop.DisplayLeadsToDecision` | apps/extension/entrypoints/background.ts:464-701 | in a settled state whose display and map agree, approving what is displayed accepts the parked request, denying it denies that request, and kind, origin and payload on display are those the request arrived with and the only ones that can ever be signed for it |
| `ApprovalLoop.DecidesOnlyWhatIsSeen` | apps/extension/entrypoints/background.ts:464-701 | in any reachable state, settled or not, a decision on what is displayed does nothing, or it decides a parked request that is exactly the one displayed |
| `ApprovalProgress.EveryContinuationCanFinish` | apps/extension/entrypoints/background.ts:455-797 | in every interleaving each handler and each approved decision under way comes to its end by its own steps, and has then parked, refused, answered with the key or signed, as its stage calls for |
| `ApprovalProgress.ArrivalDelivers` | apps/extension/entrypoints/background.ts:440-606 | left alone, a request that arrives is parked when the user must be asked, and otherwise answered at once with the key or the refusal |
| `ApprovalProgress.ApprovalDelivers` | apps/extension/entrypoints/background.ts:619-762 | left alone, an approved connection is answered with the stored key and an approved sign request is signed with the cached key, but for a missing key or an empty payload |
| `ConnectedOrigins.OriginReturnsExactly` | apps/extension/entrypoints/background.ts:606-709 | an origin that is not in the list can come to be in it, in some continuation without a new approval of it, if and only if a write under way holds it, an approval's snapshot or another origin's disconnect's snapshot holds it, or a connection of it was approved before |
| `ConnectedOrigins.OriginLostExactly` | apps/extension/entrypoints/background.ts:606-709 | the dual: a connected origin can be lost, in some continuation without a new disconnect of it, if and only if a write under way or a snapshot to be written lacks it, or a disconnect of it is in progress |
| `ConnectedOrigins.UndisturbedConnectAdds` | apps/extension/entrypoints/background.ts:699-715 | an approved connection with no write of the list between its read and its own write, whatever else happens meanwhile, adds its origin behind the others, keeps those, and answers with the key |
| `ConnectedOrigins.RepeatedConnectKeeps` | apps/extension/entrypoints/background.ts:703-715 | one that finds its origin already stored, whatever else happens meanwhile, writes nothing and answers |
| `ConnectedOrigins.UndisturbedDisconnectRemoves` | apps/extension/entrypoints/background.ts:606-616 | a disconnect with no write of the list between its read and its own write, whatever else happens meanwhile, removes every occurrence of its origin and no other |
| `ConnectedOrigins.FilteredJoins` | apps/extension/entrypoints/background.ts:611-613 | the origins that stay keep their order |
| `ConnectedOrigins.DisconnectUndoneByApproval` | apps/extension/entrypoints/background.ts:606-715 | from every such state, the schedule in which an approval's stale write brings back an origin that was disconnected meanwhile |
| `ConnectedOrigins.ApprovalLostToDisconnect` | apps/extension/entrypoints/background.ts:606-715 | from every such state, the schedule in which another origin's disconnect's stale write drops an approved connection that was already answered |
| `SignatureWindow.CheckDecidesExactly` | apps/extension/entrypoints/background.ts:510-545 | a sign request is parked if and only if its origin was in the list at the one step that read it, whatever happens to the list between that read and the rest of the handler |
| `SignatureWindow.ListMakesNoDifference` | apps/extension/entrypoints/background.ts:619-762 | from parking on, deciding, reading the key and signing do the same whatever the list and the writes to it are |
| `SignatureWindow.SignedAfterDisconnect` | apps/extension/entrypoints/background.ts:606-762 | from every state with a parked message request and an unlocked key, the schedule in which its origin's disconnect lands and the request is still signed |
| `ApprovalLedger.StepLedger` | apps/extension/entrypoints/background.ts:409-797 | every step keeps each request in exactly one place and the parked map at one entry at most |
| `ApprovalLedger.RequestsAreConserved` | apps/extension/entrypoints/background.ts:409-797 | in every interleaving a request that arrived is in exactly one continuation, or parked, or ended by exactly one event; one that did not arrive is nowhere |
| `ApprovalLedger.AnsweredAtMostOnce` | apps/extension/entrypoints/background.ts:409-797 | no response callback is called twice |
| `ApprovalSilence.SigningAnswersExactly` | apps/extension/entrypoints/background.ts:717-762 | whatever else happens, a continuation about to sign that is neither rejected nor erased ends with the signature if and only if the payload is not empty; with an empty one the request is never answered, then or later |
| `ApprovalSilence.EmptyPayloadIsSilent` | apps/extension/entrypoints/background.ts:727-762 | from every settled reachable state with a connected origin and an unlocked key, the approved request with an empty payload that no later run answers |
| `ApprovalSilence.DropsOnlyEmptyPayloads` | apps/extension/entrypoints/background.ts:727-762 | a decision ends without a response only for a sign request with an empty payload whose key had been read |
| `ApprovalSilence.FinishedMeansAnswered` | apps/extension/entrypoints/background.ts:455-797 | a request that nothing works on any more and no suspension lost was answered if and only if no read outside the try block was rejected in its handler, and it was not approved with an empty payload, its key read and no later call rejected |
| `ApprovalDeciders.RunDeciders` | apps/extension/entrypoints/background.ts:619-797 | in every interleaving a continuation of an approved decision runs exactly for the requests whose acceptance is on record and whose end is not |
| `ApprovalDisplay.AgreeExactly` | apps/extension/entrypoints/background.ts:409-436 | in a settled reachable state the descriptor and the parked map agree if and only if, with a request parked, no accepted decision on an earlier request was still under way when it was parked, and with none parked, no suspension took a displayed one |
| `ApprovalDisplay.OneAtATimeAgrees` | apps/extension/entrypoints/background.ts:630-797 | when requests come one at a time, every settled state shows exactly the parked request |
| `ApprovalDisplay.OverlapLosesDisplay` | apps/extension/entrypoints/background.ts:630-641 | from any settled state, a schedule of two overlapping sign requests that ends settled with one parked and nothing on display |
| `BackgroundWorker.Worker.CheckLock` | apps/extension/entrypoints/background.ts:92-104 | the in-place check leaves the wallet that the auto-lock rule prescribes |
| `BackgroundWorker.Worker.ReadActiveSessionSecretKey` | apps/extension/entrypoints/background.ts:106-115 | the new wallet and the returned key are those of the specification |
| `BackgroundWorker.Worker.RejectStalePendingRequests` | apps/extension/entrypoints/background.ts:409-436 | the loop answers every parked request in insertion order and empties the map, nothing else |
| `BackgroundWorker.Worker.ParkRequest` | apps/extension/entrypoints/background.ts:464-485 | replaces what is parked by this request under two fresh tokens and issues its descriptor |
| `BackgroundWorker.Worker.OnDappRequest` | apps/extension/entrypoints/background.ts:440-458 | refuses a request without a verified origin at once, starts a handler for any other |
| `BackgroundWorker.Worker.OnApprovalDecision` | apps/extension/entrypoints/background.ts:619-701 | untrusted and unknown decisions change nothing; a wrong nonce, a denial and an acceptance each take the request out and go their own way |
| `BackgroundWorker.Worker.RunContinuation` | apps/extension/entrypoints/background.ts:699-797 | every continuation runs to its next await as the protocol's step does |
| `BackgroundWorker.Worker.Execute` | apps/extension/entrypoints/background.ts:438-797 | whatever sequence the scheduler picks, the worker's fields go through the protocol's run, so every result above holds of them |
| `MessageIds.MessageIdsDiffer` | apps/extension/entrypoints/loyal-wallet-provider.content.ts:90-127 | two generated ids are equal only when both clock and counter were |
| `Correlation.FreshId` | apps/extension/entrypoints/loyal-wallet-provider.content.ts:90-94 | the next id collides with no id that was ever sent, whatever the clock does |
| `Correlation.StepWorldKeeps` | apps/extension/entrypoints/loyal-wallet-bridge.content.ts:34-116 | every step of page, bridge and worker keeps the invariants that tie ids, batches, mail, channels, listeners and settlements together |
| `Correlation.PromisesGetTheirOwnReply` | apps/extension/entrypoints/loyal-wallet-provider.content.ts:90-127 | for any number of concurrent requests and any delivery order no promise settles twice, and it settles with the bridge's error or with the worker's answer on the only channel that carried its own payload from this page |
| `Correlation.BatchNeverReplacesItself` | apps/extension/entrypoints/loyal-wallet-provider.content.ts:278-338 | no request of a batch is rejected as replaced by another one of the same batch |
| `Correlation.BatchReturnsInOrder` | apps/extension/entrypoints/loyal-wallet-provider.content.ts:278-338 | a sign batch that returns has one result per input, the k-th being the worker's signature for the k-th payload from this page's origin |
| `MessageLedger.MessagesAreConserved` | apps/extension/entrypoints/loyal-wallet-provider.content.ts:98-127 | however mail and channels are reordered, a message that was sent is in exactly one place: posted, on a channel, settled, or lost before the bridge; and its promise is listened for exactly until it has settled |
| `Promises.ConnectReturnsExactly` | apps/extension/entrypoints/loyal-wallet-provider.content.ts:191-230 | in every run, once the message of a connect call has settled, the call has returned the account with that key exactly when the response was a key, of an approval or, non-empty, of a known origin, and has thrown exactly when it was anything else |
| `Promises.SignGoesOnExactly` | apps/extension/entrypoints/loyal-wallet-provider.content.ts:278-338 | in every run, a signature for message k of a sign call is its result k, and the call returns after the last input and otherwise sends the next; any other response makes it throw |
| `Promises.RunsUntilSettled` | apps/extension/entrypoints/loyal-wallet-provider.content.ts:191-338 | a call still runs exactly as long as one of its messages, its newest, has not settled |
| `RoundTrips.MessageReachesTheUser` | apps/extension/entrypoints/loyal-wallet-bridge.content.ts:85-100 | from every state, a posted message of a page with a verified origin is parked for the user under its open channel when the user must be asked, and answered otherwise, with no more than the worker's own steps |
| `RoundTrips.ApprovalReachesThePage` | apps/extension/entrypoints/loyal-wallet-bridge.content.ts:88-100 | from every state, approving a parked request of the page settles its promise with the key or the signature, or with the failure when there is no key |
| `RoundTrips.ConnectRoundTrip` | apps/extension/entrypoints/loyal-wallet-provider.content.ts:191-230 | from every state of page, bridge and worker, a connect call of a page with a verified origin can be approved, if need be, and returns the account with the stored key |
| `SignCalls.SignRoundTrip` | apps/extension/entrypoints/loyal-wallet-provider.content.ts:278-338 | from every state with the origin connected and the key ready, a sign call with non-empty inputs can be approved input by input and returns exactly one signature per input, in order, each for that input, page and key |
| `DappPage.Page.SendBridgeMessage` | apps/extension/entrypoints/loyal-wallet-provider.content.ts:90-127 | sends the next input under a fresh id with a listener for it |
| `DappPage.Page.OnProviderMessage` | apps/extension/entrypoints/loyal-wallet-provider.content.ts:105-117 | the listener removes itself, settles its promise, and its call goes on as the composed machine says; what that means for the caller is in the `Promises` and `RoundTrips` rows |
| `DappPage.Page.OnBridgeMessage` | apps/extension/entrypoints/loyal-wallet-bridge.content.ts:34-92 | forwards the payload over a channel of its own under the page's verified origin |
| `DappPage.Page.Perform` | apps/extension/entrypoints/loyal-wallet-bridge.content.ts:34-116 | every event of page, bridge or worker is the composed machine's step |
| `Base58.MulAddDenotes` | apps/extension/entrypoints/loyal-wallet-provider.content.ts:48-56 | one round multiplies the little-endian number by 58 and adds the digit, keeps the top byte non-zero, and pushes at most one byte, the carry staying below 58 |
| `Base58.MulAddInPlace` | apps/extension/entrypoints/loyal-wallet-provider.content.ts:48-56 | the two inner loops over the bytes compute that round in place |
| `Base58.AccumulateDenotes` | apps/extension/entrypoints/loyal-wallet-provider.content.ts:45-57 | after all characters the bytes are the canonical base-256 form of the string's base-58 number |
| `Base58.AlphabetIsFit` | apps/extension/entrypoints/loyal-wallet-provider.content.ts:41-42 | the alphabet has 58 characters, starts with '1' and repeats none |
| `Base58.AlphabetIsExact` | apps/extension/entrypoints/loyal-wallet-provider.content.ts:41-42 | its characters are exactly the digits but 0 and the letters but I, O and l, in the order of their codes |
| `Base58.Base58Decode` | apps/extension/entrypoints/loyal-wallet-provider.content.ts:44-71 | throws on the first character outside the alphabet and only then; otherwise returns the decoded bytes |
| `Base58.DecodedIsExact` | apps/extension/entrypoints/loyal-wallet-provider.content.ts:44-71 | a byte sequence is the result if and only if, read big-endian, it equals the string's base-58 value and has as many leading zero bytes as the string has leading '1's |
| `Base58.ConvertInverts` | apps/extension/entrypoints/loyal-wallet-provider.content.ts:58-70 | changing the base with leading zeros kept is undone by changing it back, for any two bases |
| `Base58.DecodeThenEncode` | apps/extension/entrypoints/loyal-wallet-provider.content.ts:44-71 | a reference encoder undoes the decoder, which is therefore injective |
| `Base58.EncodeThenDecode` | apps/extension/entrypoints/loyal-wallet-provider.content.ts:44-71 | the decoder undoes the encoder, so every byte sequence is hit |
| `Base58.DecodingIsBijective` | apps/extension/entrypoints/loyal-wallet-provider.content.ts:41-71 | over the real alphabet a string decodes to given bytes if and only if it is their encoding |
| `StartGate.GateIsFenced` | scripts/autoswap-verifier-runtime.ts:908-979 | in any interleaving of owners, failures and recovery flips the generation counts the real opens and closes, the start flag is their parity, and every close is made by the holder under its own lease |
| `StartGate.GenerationCountsFlips` | scripts/autoswap-verifier-runtime.ts:945-977 | an operation adds one to the generation exactly when it flips the start flag; refusals and no-op closes leave the gate alone |
| `StartGate.LeaseEndsItsOpening` | scripts/autoswap-verifier-runtime.ts:950-961 | a close under a lease ended exactly the opening that took that generation, which its own owner made |
| `StartGate.TransactExactly` | scripts/autoswap-verifier-runtime.ts:937-979 | an opening commits if and only if the row exists, recovery is on and the gate is closed; a close if and only if the gate is closed already, or the owner holds it and the lease is absent or names its generation; what each leaves, and otherwise the reason by the first failing condition |
| `StartGate.ChangesAreMadeExactly` | scripts/autoswap-verifier-runtime.ts:908-979 | in every interleaving the recorded openings and closes are exactly those of the operations that find the row in that state, and no gate operation touches the recovery flag |
| `StartGate.ChangesNeedTheRow` | scripts/autoswap-verifier-runtime.ts:942-961 | every opening was made on a row with recovery on and the gate closed, every close by the holder under no other lease |
| `CanaryRun.FittingLeaseCloses` | scripts/autoswap-verifier-runtime.ts:942-961 | an undisturbed close of our own opening succeeds if and only if the lease is absent or names its generation |
| `CanaryRun.Control.SetCanaryStartGate` | scripts/autoswap-verifier-runtime.ts:908-979 | one transaction that fails before its commit, is refused for the gate's own reason and leaves the row, or commits and may lose the acknowledgement |
| `CanaryRun.Control.EnsureCanaryStartGateClosed` | scripts/autoswap-verifier-runtime.ts:981-1017 | its recorded calls are at most three rounds: it ends without an error only after an acknowledged close and a read that returned starts-closed and recovery-on, with nothing after that read and the lease dropped; otherwise all three rounds failed |
| `CanaryRun.Control.RunProductionCanary` | scripts/autoswap-verifier-runtime.ts:1510-1583 | for every pattern of failures its recorded calls determine its outcome: the opening, what is watched, the close under its lease and what follows up to the first failure; an opening not seen closed is followed at once by the closing of the finally block, and the canary raises; only the terminal checks after an undisturbed try block let it succeed |
| `CanaryRun.Control.ProvePausedEnrollmentStartsNothing` | scripts/autoswap-verifier-runtime.ts:1585-1615 | the same for the zero-start proof, which succeeds exactly when it opened the gate, saw no newer decision in any of its 45 polls, and closed and read back safe |
| `CanaryRun.Control.CanarySequence` | scripts/autoswap-verifier-runtime.ts:1640-1707 | first canary, zero-start proof, resumed enrolment, second canary, cleanup: each is reached exactly when the one before it succeeded, and it succeeds exactly when the last one does |
| `CanaryRun.Control.VerifyProductionCanaries` | scripts/autoswap-verifier-runtime.ts:1617-1734 | its recorded calls are, for every pattern of failures, the stages up to the first that raises, the fail-closed call after an error, and once the baseline passed a closing of the gate, then the end of the connection; it ends without an error exactly when every stage and that closing succeeded; a closing that succeeded read back starts-closed and recovery-on, only others touched the row since, no opening of ours is in effect and no lease is held |
| `UserbotLifecycle.StepSound` | apps/userbot/src/worker.ts:118-201 | every step keeps the single-flight and ownership invariants |
| `UserbotLifecycle.LifecycleIsSingleFlight` | apps/userbot/src/worker.ts:99-241 | in every interleaving at most one start and one shutdown are in flight, a startup bundle belongs to the start in flight, and signals exit at most once |
| `UserbotLifecycle.ClientsAreLostExactly` | apps/userbot/src/worker.ts:118-201 | some client is lost if and only if a start succeeded over an active client that nobody was destroying; otherwise every client ever created is in startup, active, being destroyed or destroyed |
| `UserbotLifecycle.ClientsAreNeverLost` | apps/userbot/src/worker.ts:118-201 | when start is not called while a bundle is active, every client stays accounted for, whatever interleaves |
| `UserbotLifecycle.LostForever` | apps/userbot/src/worker.ts:118-201 | a lost client is never destroyed |
| `UserbotLifecycle.StartOverActiveLoses` | apps/userbot/src/worker.ts:118-152 | from every such state, the start that loses the active client for good |
| `UserbotLifecycle.ShutdownTakesBoth` | apps/userbot/src/worker.ts:178-191 | a shutdown takes the starting and the active bundle over, each once, and leaves neither behind |
| `UserbotLifecycle.ShutdownDestroysExactly` | apps/userbot/src/worker.ts:118-201 | after any history that started only while nothing was active, every continuation of a shutdown without another start leaves each client destroyed, or being destroyed by its own failed start, once it has drained, if and only if no client was still to come when it was called |
| `UserbotLifecycle.ShutdownMissesComingClient` | apps/userbot/src/worker.ts:130-152 | a client still to come when the shutdown is called, its session file checked or not, ends up active with no shutdown left |
| `UserbotExit.ExitWaitsExactly` | apps/userbot/src/worker.ts:222-240 | in every interleaving the process exits once, exactly after the shutdown that the first signal joined or began has ended, and then every client that this shutdown took over has been destroyed |
| `UserbotExit.SignalLeadsToExit` | apps/userbot/src/worker.ts:173-240 | after the first signal, in every interleaving, the process has exited, or the shutdown under way goes on to its end by its own steps and the process then exits |
| `UserbotExit.StartEnds` | apps/userbot/src/worker.ts:118-171 | a start under way comes to its end by its own steps; if its calls succeed its client ends up active, if they fail it is destroyed, and the next call begins a new start |
| `UserbotExit.ClientsNeedTheirSession` | apps/userbot/src/worker.ts:123-146 | in every interleaving no client is asked for or started unless the configuration of that very start loaded and its session check passed |
| `UserbotWorker.Worker.Start` | apps/userbot/src/worker.ts:118-171 | joins the start in flight or begins the only one |
| `UserbotWorker.Worker.Shutdown` | apps/userbot/src/worker.ts:173-201 | joins the shutdown in flight or takes both bundles, each once, to be destroyed |
| `UserbotWorker.Worker.HandleSignal` | apps/userbot/src/worker.ts:222-237 | only the first signal shuts down and arranges the exit |
| `UserbotWorker.Worker.Execute` | apps/userbot/src/worker.ts:99-241 | whatever interleaves, the worker's variables go through the lifecycle's run |
| `Amounts.ParseIsExact` | scripts/propose-smart-account-transaction.ts:177-191 | accepted exactly when the text is an amount whose fraction fits, and then w.f gives w*10^d + f*10^(d-length of f) |
| `Amounts.ParseFailsExactly` | scripts/propose-smart-account-transaction.ts:177-187 | a text is rejected as invalid if and only if it is not one run of digits, or two with a dot between; and for its decimals if and only if it is one with more of them than allowed |
| `Amounts.ParseScales` | scripts/propose-smart-account-transaction.ts:177-191 | the result is the rational number the text denotes times 10^d, without rounding |
| `Amounts.ParsePreservesOrder` | scripts/propose-smart-account-transaction.ts:177-191 | results compare exactly as the amounts do |
| `Amounts.TrailingZerosIgnored` | scripts/propose-smart-account-transaction.ts:188-190 | zeros behind the fraction do not change the result |
| `Amounts.ParseOfFormat` | scripts/create-kamino-lending-policy.ts:145-158 | parsing undoes canonical d-decimal formatting |
| `Amounts.FormatOfParse` | scripts/create-kamino-lending-policy.ts:145-158 | formatting the result gives an amount equal to the one parsed |
| `ExecutionAccounts.LastTableWins` | scripts/propose-smart-account-transaction.ts:412-414 | a table is known exactly when it was loaded, and the last one of an address counts |
| `ExecutionAccounts.BuildExecutionAccounts` | scripts/propose-smart-account-transaction.ts:406-467 | succeeds exactly when every table is loaded and holds every index, with each table, static account and looked-up account at its computed position with its rights; otherwise reports the first fault in order |
| `ExecutionAccounts.LayoutIsUnique` | scripts/propose-smart-account-transaction.ts:406-467 | the layout determines the whole list, every position belonging to one source |
| `ExecutionAccounts.FaultIsUnique` | scripts/propose-smart-account-transaction.ts:437-463 | the reported fault is the only one that order allows |
| `ExecutionAccounts.OnlyStaticAccountsSign` | scripts/propose-smart-account-transaction.ts:424-435 | an entry signs if and only if it is a static signer other than the vault; the vault never signs |
| `IdlNormalize.TransformAt` | scripts/update-loyal-smart-accounts.ts:86-112 | outside small vectors the rewrite keeps every path and rewrites the node in place |
| `IdlNormalize.NothingBelowSmallVec` | scripts/update-loyal-smart-accounts.ts:88-100 | the outermost small vector on a path becomes the string, and nothing remains below |
| `IdlNormalize.TransformIsClean` | scripts/update-loyal-smart-accounts.ts:86-112 | no small-vector string or wrapper remains at any depth |
| `IdlNormalize.TransformIsIdentityOnClean` | scripts/update-loyal-smart-accounts.ts:86-112 | the rewrite leaves a document alone if and only if it holds no small vector |
| `IdlNormalize.KeepIsExact` | scripts/update-loyal-smart-accounts.ts:113-117 | exactly the entries that are not ignored stay, as often as they occurred |
| `IdlNormalize.IgnoredExactly` | scripts/update-loyal-smart-accounts.ts:84-117 | an entry is filtered out if and only if its name is one of the nineteen; entries without a name stay |
| `IdlNormalize.KeepJoins` | scripts/update-loyal-smart-accounts.ts:113-117 | the entries that stay keep their order |
| `IdlNormalize.NormalizeKeepsTheRest` | scripts/update-loyal-smart-accounts.ts:86-120 | an object keeps its keys in order; only the list of types loses entries |
| `IdlNormalize.NormalizeIsNormal` | scripts/update-loyal-smart-accounts.ts:86-120 | the result holds no small vector and no ignored type |
| `IdlNormalize.NormalizeIsIdentityOnNormal` | scripts/update-loyal-smart-accounts.ts:86-120 | normalising leaves a document alone if and only if it already is so |
| `IdlNormalize.NormalizeIsIdempotent` | scripts/update-loyal-smart-accounts.ts:86-120 | normalising twice is normalising once |
| `IdlNormalize.NormalizeFailsExactly` | scripts/update-loyal-smart-accounts.ts:112-117 | it throws exactly on a null document and on a null among the types |
| `FileTree.SortedIsUnique` | scripts/update-loyal-smart-accounts.ts:623-635 | two sorted listings of the same names are the same list |
| `FileTree.Disk.CollectFiles` | scripts/update-loyal-smart-accounts.ts:623-635 | lists exactly the files below the root in order, nothing for a missing root, and fails on a file |
| `DriftCheck.NormalizeTextIsIdempotent` | scripts/update-loyal-smart-accounts.ts:598-600 | the text ends with a newline afterwards, unchanged if it did before |
| `DriftCheck.NormalizeTextForgetsOneNewline` | scripts/update-loyal-smart-accounts.ts:598-600 | two texts normalise alike if and only if they differ by at most one final newline |
| `DriftCheck.AssertOrWriteFile` | scripts/update-loyal-smart-accounts.ts:602-621 | the check succeeds exactly when the file holds the normalised text and changes nothing; the write changes that file only, plus missing directories above it; a failure of either changes nothing |
| `DriftCheck.WriteThenCheck` | scripts/update-loyal-smart-accounts.ts:602-621 | after a write the check succeeds for exactly the texts that normalise alike |
| `DriftCheck.ListingsDecide` | scripts/update-loyal-smart-accounts.ts:637-668 | the sorted-list comparison decides equality of the trees as maps from name to content |
| `DriftCheck.CompareListings` | scripts/update-loyal-smart-accounts.ts:645-668 | the loop succeeds exactly when lengths, names and contents agree |
| `DriftCheck.CopyRound` | scripts/update-loyal-smart-accounts.ts:674-683 | when no source file lies inside the target, no copy is ever blocked, and each adds exactly its own file |
| `DriftCheck.AssertOrReplaceDirectory` | scripts/update-loyal-smart-accounts.ts:637-684 | check mode succeeds exactly when the two trees are equal; replace mode leaves everything outside the target alone, and when no source file lies inside the target it makes the target equal to the source and fails only on a file in the way |
| `DriftCheck.ReplaceThenCheck` | scripts/update-loyal-smart-accounts.ts:637-684 | the check right after a replacement from an apart source succeeds |

## Assumptions

- Approval tokens and request callbacks are fresh; response callbacks do not throw; writes to one storage item land, in
  issue order.
- Key cache and auto-lock handlers are atomic; each call into the session area succeeds or fails by itself, two clears
  in a row counting as one that works if either does; the other stored flags can always be read and written. The user interface's own lock, which clears the flag and asks the worker
  to clear the key, is one step of that model.
- The stored public key is a base-58 string, so decoding it for the account does not throw (`Base58.Base58Decode` is the decoder itself).
- The page does not forge bridge messages. The bridge forwards only the payload, so the worker never sees the provider's
  message id: correlation rests on the channel that `sendMessage` opens. A channel that closes without a response counts
  as the bridge's own error.
- The canary owner id, which carries a random UUID, is not used by anybody else. The advisory lock and the row lock make
  each gate transaction atomic, so the lost-fence error inside it cannot occur.

## Left out

- Signing, key parsing and serialisation: a signature is a free constructor over request and key.
- User interface of the worker: view mode, badges, approval window, install hooks, favicons.
- The external-wallet signing relay through the connect tab: separate from the dApp approval protocol.
- Provider details around a reply: base-64 wrappers, account objects, the silent connect path and change listeners.
- Malformed or unknown bridge messages: the reply is the bridge's own error, which the model has only as one outcome.
- The worker's listeners for other pages are steps of the same machine without their own provider.
- HTTP calls, SQL text, polling delays and evidence checks of the canaries: each call succeeds or fails freely.
- ensureAutoswapEnrollmentFailClosed: only as a call that may fail; enrolment state is not modelled.
- Operator flips of the recovery flag stand for every other change to the control row in StartGate; CanaryRun lets others do anything to it.
- Logging of the userbot worker and the exit code after a failed shutdown.
- Parsing of keys and compiled messages; a static account's rights are functions of its index.
- JSON keys named `__proto__`, and the order JavaScript gives to integer-like keys.
- Text decoding of files, permissions and symbolic links on the disk; paths are taken as normalised.
- CanaryRun.Control.SetCanaryStartGate: others act before the transaction, not inside it, since it holds the row lock.
- DriftCheck.AssertOrReplaceDirectory: for a target strictly inside its source that holds files itself only the frame is stated, because a copied file may then be read as a source.
- `scripts/mirror-repos` and the release scripts, which copy packages to public repositories and publish them, and the backfill, report and configuration files.
