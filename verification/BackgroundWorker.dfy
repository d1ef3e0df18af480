/**
 The background worker itself (apps/extension/entrypoints/background.ts): its
 module variables and stored items as fields, and each stretch of a handler
 between two awaits as a method that updates them in place. Every method is
 tied to the protocol's step function, on which the results are proved.
 */
module BackgroundWorker {
  import opened Prelude
  import opened SessionKey
  import opened Approvals

  class Worker {
    // Module variables, erased by a suspension.
    var sessionSecretKey: Option<string>
    var pendingDappRequests: seq<Entry>
    var continuations: map<nat, Stage>

    // Stored items, and the writes to them that were issued and have not landed.
    var sessionArea: Option<string>
    var isWalletUnlocked: bool
    var autoLockTimeout: int
    var lastActivityAt: int
    var connectedDappOrigins: seq<Origin>
    var originWrites: seq<OriginWrite>
    var pendingDappApproval: Option<Descriptor>
    var approvalWrites: seq<Option<Descriptor>>

    // The clock and the sources of fresh numbers.
    var now: int
    var nextRid: nat
    var nextTask: nat
    var nextToken: nat

    ghost var log: seq<Event>

    ghost function WalletView(): Wallet
      reads this
    {
      Wallet(Cache(sessionSecretKey, sessionArea), isWalletUnlocked, autoLockTimeout, lastActivityAt, now)
    }

    ghost function View(): State
      reads this
    {
      State(connectedDappOrigins, originWrites, pendingDappApproval, approvalWrites, pendingDappRequests, continuations,
            WalletView(), nextRid, nextTask, nextToken, log)
    }

    constructor (origins: seq<Origin>, timeout: int, now: int)
      ensures View() == Init(origins, Wallet(EMPTY_CACHE, false, timeout, 0, now))
    {
      sessionSecretKey, sessionArea := None, None;
      pendingDappRequests, continuations := [], map[];
      isWalletUnlocked, autoLockTimeout, lastActivityAt, this.now := false, timeout, 0, now;
      connectedDappOrigins, originWrites := origins, [];
      pendingDappApproval, approvalWrites := None, [];
      nextRid, nextTask, nextToken := 0, 0, 0;
      log := [];
    }

    // ----------------------------------------------------------------
    // Session key and auto-lock
    // ----------------------------------------------------------------

    // In each of these, `works` says whether the calls into the session area succeed.

    method StoreSessionSecretKey(key: string, works: bool)
      modifies this`sessionSecretKey, this`sessionArea
      ensures WalletView() == ApplyWallet(old(WalletView()), StoreSession(true, key, works))
    {
      sessionSecretKey := Some(key);
      if works {
        sessionArea := Some(key);
      }
    }

    method ClearSessionSecretKey(works: bool)
      modifies this`sessionSecretKey, this`sessionArea
      ensures WalletView() == ApplyWallet(old(WalletView()), ClearSession(true, works))
    {
      sessionSecretKey := None;
      if works {
        sessionArea := None;
      }
    }

    method ReadSessionSecretKey(works: bool) returns (key: Option<string>)
      modifies this`sessionSecretKey
      ensures WalletView() == old(WalletView()).(cache := ReadKey(old(WalletView().cache), works).0)
      ensures key == old(CachedKey(WalletView(), works))
    {
      if Truthy(sessionSecretKey) {
        return sessionSecretKey;
      }
      if works && sessionArea.Some? {
        sessionSecretKey := sessionArea;
        return sessionArea;
      }
      return None;
    }

    method CheckLock(works: bool)
      modifies this`sessionSecretKey, this`sessionArea, this`isWalletUnlocked
      ensures WalletView() == CheckAutoLock(old(WalletView()), works)
    {
      if !isWalletUnlocked || autoLockTimeout == 0 || lastActivityAt == 0 {
        return;
      }
      var elapsed := now - lastActivityAt;
      if elapsed >= autoLockTimeout * MS_PER_MINUTE {
        isWalletUnlocked := false;
        ClearSessionSecretKey(works);
      }
    }

    method ReadActiveSessionSecretKey(works: bool) returns (key: Option<string>)
      modifies this`sessionSecretKey, this`sessionArea, this`isWalletUnlocked
      ensures (WalletView(), key) == ReadActiveKey(old(WalletView()), works)
    {
      CheckLock(works);
      if !isWalletUnlocked {
        ClearSessionSecretKey(works);
        return None;
      }
      key := ReadSessionSecretKey(works);
    }

    // ----------------------------------------------------------------
    // Parked requests
    // ----------------------------------------------------------------

    method Respond(rid: nat, reply: Reply)
      modifies this`log
      ensures log == old(log) + [Answered(rid, reply)]
    {
      log := log + [Answered(rid, reply)];
    }

    /** Answer every parked request, in insertion order, and empty the map. */
    method RejectStalePendingRequests(newer: nat)
      modifies this`pendingDappRequests, this`log
      ensures View() == RejectStale(old(View()), newer)
    {
      while pendingDappRequests != []
        invariant log + Rejections(pendingDappRequests, newer) == old(log + Rejections(pendingDappRequests, newer))
        decreases |pendingDappRequests|
      {
        ghost var before, parked := log, pendingDappRequests;
        Respond(pendingDappRequests[0].request.rid, Replaced(newer));
        pendingDappRequests := pendingDappRequests[1..];
        assert log + Rejections(pendingDappRequests, newer) == before + Rejections(parked, newer);
      }
      assert log + [] == log;
    }

    method ParkRequest(request: Request)
      modifies this`pendingDappRequests, this`log, this`nextToken, this`approvalWrites
      ensures View() == Park(old(View()), request)
    {
      var approvalId := nextToken;
      var approvalNonce := nextToken + 1;
      nextToken := nextToken + 2;
      RejectStalePendingRequests(request.rid);
      var entry := Entry(approvalId, approvalNonce, request);
      pendingDappRequests := pendingDappRequests + [entry];
      approvalWrites := approvalWrites + [Some(Describe(entry))];
      log := log + [Parked(entry)];
    }

    method ClearApproval()
      modifies this`approvalWrites, this`log
      ensures View() == IssueClear(old(View()))
    {
      approvalWrites := approvalWrites + [None];
      log := log + [Cleared];
    }

    method FinishDecision(task: nat, rid: nat, reply: Reply)
      modifies this`continuations, this`approvalWrites, this`log
      ensures View() == Finish(old(View()), task, rid, reply)
    {
      continuations := continuations - {task};
      Respond(rid, reply);
      ClearApproval();
    }

    method Refuse(rid: nat, reply: Reply)
      modifies this`approvalWrites, this`log
      ensures View() == IssueClear(Note(old(View()), Answered(rid, reply)))
    {
      Respond(rid, reply);
      ClearApproval();
    }

    // ----------------------------------------------------------------
    // Message handlers, up to their first await
    // ----------------------------------------------------------------

    method OnDappRequest(kind: Kind, origin: Option<Origin>, payload: string)
      modifies this`continuations, this`nextTask, this`nextRid, this`log
      ensures View() == Step(old(View()), Receive(kind, origin, payload))
    {
      var rid := nextRid;
      nextRid := nextRid + 1;
      log := log + [Received(rid, kind, origin, payload)];
      if origin.None? {
        Respond(rid, NoOrigin);
        return;
      }
      continuations := continuations[nextTask := Checking(Request(rid, kind, origin.value, payload))];
      nextTask := nextTask + 1;
    }

    method OnDisconnect(origin: Option<Origin>)
      modifies this`continuations, this`nextTask
      ensures View() == Step(old(View()), ReceiveDisconnect(origin))
    {
      if origin.Some? {
        continuations := continuations[nextTask := Disconnecting(origin.value)];
        nextTask := nextTask + 1;
      }
    }

    method OnApprovalDecision(trusted: bool, id: nat, nonce: nat, approved: bool)
      modifies this`pendingDappRequests, this`continuations, this`nextTask, this`approvalWrites, this`log
      ensures View() == Step(old(View()), Decide(trusted, id, nonce, approved))
    {
      if !trusted {
        return;
      }
      var pending := Find(pendingDappRequests, id);
      if pending.None? {
        return;
      }
      var request := pending.value.request;
      pendingDappRequests := Without(pendingDappRequests, id);
      log := log + [Taken(id)];
      if nonce != pending.value.nonce {
        Refuse(request.rid, BadToken);
        return;
      }
      if !approved {
        Refuse(request.rid, Denied);
        return;
      }
      AcceptApproval(pending.value, Decision(trusted, id, nonce, approved));
    }

    /** The approved branch, up to its first await. */
    method AcceptApproval(entry: Entry, ghost decision: Decision)
      modifies this`continuations, this`nextTask, this`log
      ensures View() == Spawn(Note(old(View()), Accepted(entry, decision)),
                              if entry.request.kind.Connect? then ConnectKey(entry.request)
                              else ReadingKey(entry.request))
    {
      log := log + [Accepted(entry, decision)];
      continuations := continuations[
        nextTask := if entry.request.kind.Connect? then ConnectKey(entry.request) else ReadingKey(entry.request)];
      nextTask := nextTask + 1;
    }

    // ----------------------------------------------------------------
    // Continuations
    // ----------------------------------------------------------------

    method ReadStoredOrigins(task: nat)
      modifies this`continuations
      ensures View() == Step(old(View()), ReadOrigins(task))
    {
      if task in continuations {
        match continuations[task]
        case Checking(request) => continuations := continuations[task := Checked(request, connectedDappOrigins)];
        case Disconnecting(origin) =>
          continuations := continuations[task := DisconnectRead(origin, connectedDappOrigins)];
        case ConnectOrigins(request, key) =>
          continuations := continuations[task := ConnectRead(request, key, connectedDappOrigins)];
        case _ =>
      }
    }

    method ContinueRequest(task: nat, request: Request, seen: seq<Origin>)
      modifies this`continuations, this`pendingDappRequests, this`log, this`nextToken, this`approvalWrites
      ensures View() == ResumeChecked(old(View()), task, request, seen)
    {
      if request.kind.Connect? && request.origin in seen {
        continuations := continuations[task := FetchingKey(request)];
        return;
      }
      continuations := continuations - {task};
      if !request.kind.Connect? {
        if request.origin !in seen {
          Respond(request.rid, NotConnected);
          return;
        }
        log := log + [OriginFound(request.rid, request.origin)];
      }
      ParkRequest(request);
    }

    method ContinueConnect(task: nat, request: Request, key: string, seen: seq<Origin>)
      modifies this`continuations, this`originWrites, this`approvalWrites, this`log
      ensures View() == ResumeConnectRead(old(View()), task, request, key, seen)
    {
      if request.origin in seen {
        FinishDecision(task, request.rid, Connected(key));
      } else {
        originWrites := originWrites + [OriginWrite(seen + [request.origin], task)];
        continuations := continuations[task := ConnectWriting(request, key)];
      }
    }

    method ContinueWithKey(task: nat, request: Request, works: bool)
      modifies this`continuations, this`approvalWrites, this`log
      modifies this`sessionSecretKey, this`sessionArea, this`isWalletUnlocked
      ensures View() == ResumeReadingKey(old(View()), task, request, works)
    {
      ghost var wallet := WalletView();
      var key := ReadActiveSessionSecretKey(works);
      if Truthy(key) {
        log := log + [KeyRead(request, key.value, wallet, works)];
        continuations := continuations[task := Signing(request, key.value)];
      } else {
        FinishDecision(task, request.rid, Failed);
      }
    }

    method ContinueSigning(task: nat, request: Request, key: string)
      modifies this`continuations, this`approvalWrites, this`log
      ensures View() == ResumeSigning(old(View()), task, request, key)
    {
      if request.kind.SignTransaction? && request.payload != "" {
        FinishDecision(task, request.rid, Signed(request, key));
      } else if request.payload != "" {
        continuations := continuations[task := SigningMessage(request, key)];
      } else {
        continuations := continuations - {task};
        log := log + [Dropped(request)];
        ClearApproval();
      }
    }

    method ContinueApprovedConnect(task: nat, given: Given)
      requires task in continuations
      requires var stage := continuations[task]; stage.ConnectKey? || stage.ConnectRead? || stage.ConnectWritten?
      modifies this`continuations, this`originWrites, this`approvalWrites, this`log
      ensures View() == StepResume(old(View()), task, given)
    {
      match continuations[task]
      case ConnectKey(request) =>
        if Truthy(given.publicKey) {
          continuations := continuations[task := ConnectOrigins(request, given.publicKey.value)];
        } else {
          FinishDecision(task, request.rid, Failed);
        }
      case ConnectRead(request, key, seen) => ContinueConnect(task, request, key, seen);
      case ConnectWritten(request, key) => FinishDecision(task, request.rid, Connected(key));
    }

    method ContinueApprovedSign(task: nat, given: Given)
      requires task in continuations
      requires var stage := continuations[task]; stage.ReadingKey? || stage.Signing? || stage.SigningMessage?
      modifies this`continuations, this`approvalWrites, this`log
      modifies this`sessionSecretKey, this`sessionArea, this`isWalletUnlocked
      ensures View() == StepResume(old(View()), task, given)
    {
      match continuations[task]
      case ReadingKey(request) => ContinueWithKey(task, request, given.works);
      case Signing(request, key) => ContinueSigning(task, request, key);
      case SigningMessage(request, key) => FinishDecision(task, request.rid, Signed(request, key));
    }

    method ContinueHandler(task: nat, given: Given)
      requires task in continuations
      requires var stage := continuations[task]; stage.Checked? || stage.FetchingKey? || stage.DisconnectRead?
      modifies this`continuations, this`pendingDappRequests, this`log, this`nextToken
      modifies this`approvalWrites, this`originWrites
      ensures View() == StepResume(old(View()), task, given)
    {
      match continuations[task]
      case Checked(request, seen) => ContinueRequest(task, request, seen);
      case FetchingKey(request) =>
        continuations := continuations - {task};
        Respond(request.rid, AutoConnected(given.publicKey));
      case DisconnectRead(origin, seen) =>
        continuations := continuations - {task};
        originWrites := originWrites + [OriginWrite(Filtered(seen, origin), task)];
    }

    method RunContinuation(task: nat, given: Given)
      modifies this
      ensures View() == Step(old(View()), Resume(task, given))
    {
      if task in continuations {
        var stage := continuations[task];
        if stage.Checked? || stage.FetchingKey? || stage.DisconnectRead? {
          ContinueHandler(task, given);
        } else if stage.ConnectKey? || stage.ConnectRead? || stage.ConnectWritten? {
          ContinueApprovedConnect(task, given);
        } else if stage.ReadingKey? || stage.Signing? || stage.SigningMessage? {
          ContinueApprovedSign(task, given);
        }
      }
    }

    /** The awaited call is rejected: the catch block of an approved decision answers, any other handler just ends. */
    method RejectCall(task: nat)
      modifies this`continuations, this`approvalWrites, this`log
      ensures View() == Step(old(View()), Throw(task))
    {
      if task !in continuations {
        return;
      }
      var stage := continuations[task];
      if CanThrow(stage) {
        log := log + [CallFailed(stage.request.rid)];
        FinishDecision(task, stage.request.rid, Failed);
      } else if ReadsUncaught(stage) || stage.Disconnecting? {
        continuations := continuations - {task};
        if !stage.Disconnecting? {
          log := log + [ReadRejected(stage.request.rid)];
        }
      }
    }

    // ----------------------------------------------------------------
    // Storage and suspension
    // ----------------------------------------------------------------

    method LandOriginWrite()
      modifies this`connectedDappOrigins, this`originWrites, this`continuations
      ensures View() == Step(old(View()), LandOrigins)
    {
      if originWrites != [] {
        var w := originWrites[0];
        connectedDappOrigins := w.origins;
        originWrites := originWrites[1..];
        if w.task in continuations && continuations[w.task].ConnectWriting? {
          var stage := continuations[w.task];
          continuations := continuations[w.task := ConnectWritten(stage.request, stage.publicKey)];
        }
      }
    }

    method LandApprovalWrite()
      modifies this`pendingDappApproval, this`approvalWrites
      ensures View() == Step(old(View()), LandDescriptor)
    {
      if approvalWrites != [] {
        pendingDappApproval := approvalWrites[0];
        approvalWrites := approvalWrites[1..];
      }
    }

    method EraseMemory()
      modifies this`continuations, this`pendingDappRequests, this`sessionSecretKey, this`log
      ensures View() == Step(old(View()), Action.Suspend)
    {
      ghost var lost := InFlight(View());
      log := log + [Suspended(lost)];
      continuations := map[];
      pendingDappRequests := [];
      sessionSecretKey := None;
    }

    // ----------------------------------------------------------------
    // Whole runs
    // ----------------------------------------------------------------

    /** Idle and alarm events, the session-key messages, and the stored flags that the user interface sets. */
    method OnWallet(op: WalletOp)
      modifies this`sessionSecretKey, this`sessionArea, this`isWalletUnlocked
      modifies this`autoLockTimeout, this`lastActivityAt, this`now
      ensures WalletView() == if op.SuspendWorker? then old(WalletView()) else ApplyWallet(old(WalletView()), op)
    {
      match op
      case SetUnlocked => isWalletUnlocked := true;
      case UiLock(works) => isWalletUnlocked := false; ClearSessionSecretKey(works);
      case SystemLocked(works) => isWalletUnlocked := false; ClearSessionSecretKey(works);
      case AutoLockCheck(works) => CheckLock(works);
      case Heartbeat => lastActivityAt := now;
      case SetTimeout(minutes) => autoLockTimeout := minutes;
      case Tick(ms) => now := now + ms;
      case StoreSession(trusted, key, works) => if trusted { StoreSessionSecretKey(key, works); }
      case ClearSession(trusted, works) => if trusted { ClearSessionSecretKey(works); }
      case GetSession(trusted, works) => if trusted { var _ := ReadActiveSessionSecretKey(works); }
      case SuspendWorker =>
    }

    method Perform(a: Action)
      modifies this
      ensures View() == Step(old(View()), a)
    {
      match a
      case Receive(kind, origin, payload) => OnDappRequest(kind, origin, payload);
      case ReceiveDisconnect(origin) => OnDisconnect(origin);
      case Decide(trusted, id, nonce, approved) => OnApprovalDecision(trusted, id, nonce, approved);
      case ReadOrigins(task) => ReadStoredOrigins(task);
      case Resume(task, given) => RunContinuation(task, given);
      case Throw(task) => RejectCall(task);
      case LandOrigins => LandOriginWrite();
      case LandDescriptor => LandApprovalWrite();
      case WalletStep(op) => OnWallet(op);
      case Suspend => EraseMemory();
    }

    /** Whatever the scheduler picks, the worker's fields go through the protocol's run. */
    method Execute(actions: seq<Action>)
      modifies this
      ensures View() == Run(old(View()), actions)
    {
      for i := 0 to |actions|
        invariant View() == Run(old(View()), actions[..i])
      {
        Perform(actions[i]);
        assert actions[..i + 1][..i] == actions[..i];
      }
      assert actions[..|actions|] == actions;
    }
  }
}
