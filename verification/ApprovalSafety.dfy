/**
 Authorisation over every interleaving of the dApp handlers: what had to
 happen before a signature left the worker, and which origins can ever be in
 the stored list.
 */
module ApprovalSafety {
  import opened Prelude
  import opened SessionKey
  import opened Approvals

  /** The origin was connected from the start, or the user accepted a connect request of it. */
  ghost predicate Granted(log: seq<Event>, first: seq<Origin>, origin: Origin) {
    || origin in first
    || exists e :: Accepted(e, Approving(e)) in log && e.request.kind.Connect? && e.request.origin == origin
  }

  ghost predicate Clean(log: seq<Event>, first: seq<Origin>, origins: seq<Origin>) {
    (Distinct(first) ==> Distinct(origins)) && forall o :: o in origins ==> Granted(log, first, o)
  }

  ghost predicate AcceptedRequest(log: seq<Event>, request: Request) {
    exists e :: Accepted(e, Approving(e)) in log && e.request == request
  }

  ghost predicate KeyWasRead(log: seq<Event>, request: Request, key: string) {
    exists w, works :: KeyRead(request, key, w, works) in log
  }

  /** This very request, payload included, arrived with its origin verified. */
  ghost predicate WasReceived(log: seq<Event>, request: Request) {
    Received(request.rid, request.kind, Some(request.origin), request.payload) in log
  }

  /** What must already be in the log when `e` is added to it. */
  ghost predicate Because(log: seq<Event>, first: seq<Origin>, e: Event) {
    match e
    case OriginFound(_, origin) => Granted(log, first, origin)
    case Parked(entry) =>
      && WasReceived(log, entry.request)
      && (entry.request.kind.Connect? || OriginFound(entry.request.rid, entry.request.origin) in log)
    case Accepted(entry, decision) => Parked(entry) in log && decision == Approving(entry)
    case KeyRead(request, key, wallet, works) =>
      !request.kind.Connect? && AcceptedRequest(log, request) && ReadActiveKey(wallet, works).1 == Some(key)
    case Answered(rid, Signed(request, key)) =>
      rid == request.rid && request.payload != "" && KeyWasRead(log, request, key)
    case Dropped(request) =>
      !request.kind.Connect? && request.payload == "" && exists key :: KeyWasRead(log, request, key)
    case Answered(rid, Connected(_)) =>
      exists e :: Accepted(e, Approving(e)) in log && e.request.rid == rid && e.request.kind.Connect?
    case _ => true
  }

  ghost predicate WellFounded(log: seq<Event>, first: seq<Origin>) {
    log == [] || (WellFounded(log[..|log| - 1], first) && Because(log[..|log| - 1], first, log[|log| - 1]))
  }

  /** What a continuation's snapshots and progress say about the past. */
  ghost predicate StageOk(log: seq<Event>, first: seq<Origin>, stage: Stage) {
    match stage
    case Checking(request) => WasReceived(log, request)
    case Checked(request, seen) => WasReceived(log, request) && Clean(log, first, seen)
    case DisconnectRead(_, seen) => Clean(log, first, seen)
    case ConnectKey(request) => request.kind.Connect? && AcceptedRequest(log, request)
    case ConnectOrigins(request, _) => request.kind.Connect? && AcceptedRequest(log, request)
    case ConnectRead(request, _, seen) =>
      request.kind.Connect? && AcceptedRequest(log, request) && Clean(log, first, seen)
    case ConnectWriting(request, _) => request.kind.Connect? && AcceptedRequest(log, request)
    case ConnectWritten(request, _) => request.kind.Connect? && AcceptedRequest(log, request)
    case ReadingKey(request) => !request.kind.Connect? && AcceptedRequest(log, request)
    case Signing(request, key) => !request.kind.Connect? && KeyWasRead(log, request, key)
    case SigningMessage(request, key) => request.payload != "" && KeyWasRead(log, request, key)
    case _ => true
  }

  ghost predicate WritesOk(log: seq<Event>, first: seq<Origin>, writes: seq<OriginWrite>) {
    forall w :: w in writes ==> Clean(log, first, w.origins)
  }

  ghost predicate PendingOk(log: seq<Event>, pending: seq<Entry>) {
    forall e :: e in pending ==> Parked(e) in log
  }

  ghost predicate StagesOk(log: seq<Event>, first: seq<Origin>, tasks: map<nat, Stage>) {
    forall t :: t in tasks ==> StageOk(log, first, tasks[t])
  }

  ghost predicate Safe(s: State, first: seq<Origin>) {
    && WellFounded(s.log, first)
    && Clean(s.log, first, s.origins)
    && WritesOk(s.log, first, s.originWrites)
    && PendingOk(s.log, s.pending)
    && StagesOk(s.log, first, s.tasks)
  }

  // ------------------------------------------------------------------
  // The pieces keep `Safe`
  // ------------------------------------------------------------------

  lemma CleanGrows(log: seq<Event>, more: seq<Event>, first: seq<Origin>, origins: seq<Origin>)
    requires Clean(log, first, origins)
    ensures Clean(log + more, first, origins)
  {
    forall o | o in origins ensures Granted(log + more, first, o) {
      if o !in first {
        var e :| Accepted(e, Approving(e)) in log && e.request.kind.Connect? && e.request.origin == o;
        assert Accepted(e, Approving(e)) in log + more;
      }
    }
  }

  lemma StageGrows(log: seq<Event>, more: seq<Event>, first: seq<Origin>, stage: Stage)
    requires StageOk(log, first, stage)
    ensures StageOk(log + more, first, stage)
  {
    if stage.Checked? || stage.DisconnectRead? || stage.ConnectRead? {
      CleanGrows(log, more, first, stage.seen);
    }
    if stage.Signing? || stage.SigningMessage? {
      var w, works :| KeyRead(stage.request, stage.secretKey, w, works) in log;
      assert KeyRead(stage.request, stage.secretKey, w, works) in log + more;
    } else if !(stage.Disconnecting? || stage.DisconnectRead?) && AcceptedRequest(log, stage.request) {
      var e :| Accepted(e, Approving(e)) in log && e.request == stage.request;
      assert Accepted(e, Approving(e)) in log + more;
    }
  }

  lemma WritesGrow(log: seq<Event>, more: seq<Event>, first: seq<Origin>, writes: seq<OriginWrite>)
    requires WritesOk(log, first, writes)
    ensures WritesOk(log + more, first, writes)
  {
    forall w | w in writes ensures Clean(log + more, first, w.origins) {
      CleanGrows(log, more, first, w.origins);
    }
  }

  lemma StagesGrow(log: seq<Event>, more: seq<Event>, first: seq<Origin>, tasks: map<nat, Stage>)
    requires StagesOk(log, first, tasks)
    ensures StagesOk(log + more, first, tasks)
  {
    forall t | t in tasks ensures StageOk(log + more, first, tasks[t]) {
      StageGrows(log, more, first, tasks[t]);
    }
  }

  lemma NoteSafe(s: State, first: seq<Origin>, e: Event)
    requires Safe(s, first) && Because(s.log, first, e)
    ensures Safe(Note(s, e), first)
  {
    assert (s.log + [e])[..|s.log|] == s.log;
    CleanGrows(s.log, [e], first, s.origins);
    WritesGrow(s.log, [e], first, s.originWrites);
    StagesGrow(s.log, [e], first, s.tasks);
  }

  lemma {:induction false} RejectSafe(s: State, first: seq<Origin>, newer: nat)
    requires Safe(s, first)
    ensures Safe(RejectStale(s, newer), first)
    decreases |s.pending|
  {
    if s.pending == [] {
      assert s.log + [] == s.log;
    } else {
      var e := Answered(s.pending[0].request.rid, Replaced(newer));
      var rest := s.(pending := s.pending[1..]);
      NoteSafe(rest, first, e);
      RejectSafe(Note(rest, e), first, newer);
      assert s.log + Rejections(s.pending, newer) == (s.log + [e]) + Rejections(s.pending[1..], newer);
    }
  }

  /** An entry whose parking is on record may join the map; nothing else of `Safe` looks at these fields. */
  lemma AddEntrySafe(noted: State, first: seq<Origin>, parked: State, entry: Entry)
    requires Safe(noted, first) && Parked(entry) in noted.log
    requires parked.log == noted.log && parked.origins == noted.origins && parked.originWrites == noted.originWrites
    requires parked.tasks == noted.tasks && parked.pending == noted.pending + [entry]
    ensures Safe(parked, first)
  {
  }

  /** Rejecting the stale requests takes nothing out of the log that parking the new one rests on. */
  lemma RoomSafe(s: State, first: seq<Origin>, entry: Entry)
    requires Safe(s, first) && WasReceived(s.log, entry.request)
    requires entry.request.kind.Connect? || OriginFound(entry.request.rid, entry.request.origin) in s.log
    ensures var room := RejectStale(s, entry.request.rid);
            Safe(room, first) && Because(room.log, first, Parked(entry))
  {
    RejectSafe(s, first, entry.request.rid);
    var log := RejectStale(s, entry.request.rid).log;
    assert WasReceived(log, entry.request);
    assert entry.request.kind.Connect? || OriginFound(entry.request.rid, entry.request.origin) in log;
  }

  lemma NoteIsLast(s: State, e: Event)
    ensures e in Note(s, e).log
  {
    assert Note(s, e).log[|s.log|] == e;
  }

  lemma ParkSafe(s: State, first: seq<Origin>, request: Request)
    requires Safe(s, first) && WasReceived(s.log, request)
    requires request.kind.Connect? || OriginFound(request.rid, request.origin) in s.log
    ensures Safe(Park(s, request), first)
  {
    var entry := Entry(s.nextToken, s.nextToken + 1, request);
    RoomSafe(s, first, entry);
    var room := RejectStale(s, request.rid);
    NoteSafe(room, first, Parked(entry));
    NoteIsLast(room, Parked(entry));
    AddEntrySafe(Note(room, Parked(entry)), first, Park(s, request), entry);
  }

  lemma FinishSafe(s: State, first: seq<Origin>, t: nat, rid: nat, reply: Reply)
    requires Safe(s, first) && Because(s.log, first, Answered(rid, reply))
    ensures Safe(Answer(s, t, rid, reply), first) && Safe(Finish(s, t, rid, reply), first)
  {
    NoteSafe(End(s, t), first, Answered(rid, reply));
    NoteSafe(Answer(s, t, rid, reply), first, Cleared);
  }

  lemma FilteredKeeps(log: seq<Event>, first: seq<Origin>, origins: seq<Origin>, gone: Origin)
    requires Clean(log, first, origins)
    ensures Clean(log, first, Filtered(origins, gone))
    ensures forall o :: o in Filtered(origins, gone) <==> o in origins && o != gone
  {
    if origins != [] {
      assert forall o :: o in origins[1..] ==> o in origins;
      FilteredKeeps(log, first, origins[1..], gone);
      assert Distinct(origins) ==> origins[0] !in origins[1..];
    }
  }

  // ------------------------------------------------------------------
  // Every step keeps `Safe`
  // ------------------------------------------------------------------

  lemma RefuseSafe(taken: State, first: seq<Origin>, rid: nat, reply: Reply)
    requires Safe(taken, first) && (reply.BadToken? || reply.Denied?)
    ensures Safe(IssueClear(Note(taken, Answered(rid, reply))), first)
  {
    NoteSafe(taken, first, Answered(rid, reply));
    NoteSafe(Note(taken, Answered(rid, reply)), first, Cleared);
  }

  lemma AcceptSafe(taken: State, first: seq<Origin>, entry: Entry, stage: Stage)
    requires Safe(taken, first) && Parked(entry) in taken.log
    requires stage == if entry.request.kind.Connect? then ConnectKey(entry.request) else ReadingKey(entry.request)
    ensures Safe(Spawn(Note(taken, Accepted(entry, Approving(entry))), stage), first)
  {
    var noted := Note(taken, Accepted(entry, Approving(entry)));
    NoteSafe(taken, first, Accepted(entry, Approving(entry)));
    assert Accepted(entry, Approving(entry)) in noted.log;
    assert StageOk(noted.log, first, stage);
  }

  lemma TakeSafe(s: State, first: seq<Origin>, id: nat)
    requires Safe(s, first)
    ensures Safe(Note(s.(pending := Without(s.pending, id)), Taken(id)), first)
  {
    NoteSafe(s.(pending := Without(s.pending, id)), first, Taken(id));
  }

  lemma DecideSafe(s: State, first: seq<Origin>, trusted: bool, id: nat, nonce: nat, approved: bool)
    requires Safe(s, first)
    ensures Safe(StepDecide(s, trusted, id, nonce, approved), first)
  {
    var found := Find(s.pending, id);
    if trusted && found.Some? {
      var entry := found.value;
      var taken := Note(s.(pending := Without(s.pending, id)), Taken(id));
      TakeSafe(s, first, id);
      assert Parked(entry) in s.log;
      if nonce != entry.nonce {
        RefuseSafe(taken, first, entry.request.rid, BadToken);
      } else if !approved {
        RefuseSafe(taken, first, entry.request.rid, Denied);
      } else {
        AcceptSafe(taken, first, entry,
                   if entry.request.kind.Connect? then ConnectKey(entry.request) else ReadingKey(entry.request));
      }
    }
  }

  lemma ReadOriginsSafe(s: State, first: seq<Origin>, t: nat)
    requires Safe(s, first)
    ensures Safe(StepReadOrigins(s, t), first)
  {
  }

  lemma ConnectWriteSafe(s: State, first: seq<Origin>, t: nat, request: Request, key: string, seen: seq<Origin>)
    requires Safe(s, first) && t in s.tasks && Clean(s.log, first, seen)
    requires request.kind.Connect? && AcceptedRequest(s.log, request) && request.origin !in seen
    ensures Safe(ResumeConnectRead(s, t, request, key, seen), first)
  {
    var added := seen + [request.origin];
    assert Granted(s.log, first, request.origin);
    assert Clean(s.log, first, added);
    assert StageOk(s.log, first, ConnectWriting(request, key));
  }

  lemma ConnectAnswerSafe(s: State, first: seq<Origin>, t: nat, request: Request, key: string)
    requires Safe(s, first) && request.kind.Connect? && AcceptedRequest(s.log, request)
    ensures Safe(Finish(s, t, request.rid, Connected(key)), first)
  {
    var e :| Accepted(e, Approving(e)) in s.log && e.request == request;
    FinishSafe(s, first, t, request.rid, Connected(key));
  }

  lemma ResumeConnectReadSafe(s: State, first: seq<Origin>, t: nat)
    requires Safe(s, first) && t in s.tasks && s.tasks[t].ConnectRead?
    ensures Safe(ResumeConnectRead(s, t, s.tasks[t].request, s.tasks[t].publicKey, s.tasks[t].seen), first)
  {
    var ConnectRead(request, key, seen) := s.tasks[t];
    assert StageOk(s.log, first, s.tasks[t]);
    if request.origin in seen {
      ConnectAnswerSafe(s, first, t, request, key);
    } else {
      ConnectWriteSafe(s, first, t, request, key, seen);
    }
  }

  /** A continuation moves to a stage that the log justifies; the wallet is no part of it. */
  lemma MoveSafe(s: State, first: seq<Origin>, t: nat, stage: Stage)
    requires Safe(s, first) && StageOk(s.log, first, stage)
    ensures Safe(Continue(s, t, stage), first)
  {
  }

  lemma ResumeReadingKeySafe(s: State, first: seq<Origin>, t: nat, works: bool)
    requires Safe(s, first) && t in s.tasks && s.tasks[t].ReadingKey?
    ensures Safe(ResumeReadingKey(s, t, s.tasks[t].request, works), first)
  {
    var request := s.tasks[t].request;
    assert StageOk(s.log, first, s.tasks[t]);
    var (wallet, key) := ReadActiveKey(s.wallet, works);
    var read := s.(wallet := wallet);
    if Truthy(key) {
      var e := KeyRead(request, key.value, s.wallet, works);
      NoteSafe(read, first, e);
      NoteIsLast(read, e);
      MoveSafe(Note(read, e), first, t, Signing(request, key.value));
    } else {
      FinishSafe(read, first, t, request.rid, Failed);
    }
  }

  lemma ResumeCheckedSafe(s: State, first: seq<Origin>, t: nat)
    requires Safe(s, first) && t in s.tasks && s.tasks[t].Checked?
    ensures Safe(ResumeChecked(s, t, s.tasks[t].request, s.tasks[t].seen), first)
  {
    var Checked(request, seen) := s.tasks[t];
    assert StageOk(s.log, first, s.tasks[t]);
    if request.kind.Connect? {
      if request.origin !in seen {
        ParkSafe(End(s, t), first, request);
      }
    } else if request.origin !in seen {
      FinishSafe(s, first, t, request.rid, NotConnected);
    } else {
      var e := OriginFound(request.rid, request.origin);
      NoteSafe(End(s, t), first, e);
      assert e in Note(End(s, t), e).log && WasReceived(Note(End(s, t), e).log, request);
      ParkSafe(Note(End(s, t), e), first, request);
    }
  }

  lemma ResumeSigningSafe(s: State, first: seq<Origin>, t: nat)
    requires Safe(s, first) && t in s.tasks && s.tasks[t].Signing?
    ensures Safe(ResumeSigning(s, t, s.tasks[t].request, s.tasks[t].secretKey), first)
  {
    var Signing(request, key) := s.tasks[t];
    assert StageOk(s.log, first, s.tasks[t]);
    if request.payload == "" {
      assert KeyWasRead(s.log, request, key);
      NoteSafe(End(s, t), first, Dropped(request));
      NoteSafe(Note(End(s, t), Dropped(request)), first, Cleared);
    } else if request.kind.SignTransaction? {
      FinishSafe(s, first, t, request.rid, Signed(request, key));
    }
  }

  lemma ResumeSimpleSafe(s: State, first: seq<Origin>, t: nat, given: Given)
    requires Safe(s, first) && t in s.tasks
    requires var stage := s.tasks[t];
             stage.FetchingKey? || stage.DisconnectRead? || stage.ConnectKey? || stage.ConnectWritten?
                 || stage.SigningMessage?
    ensures Safe(StepResume(s, t, given), first)
  {
    assert StageOk(s.log, first, s.tasks[t]);
    match s.tasks[t]
    case FetchingKey(request) => FinishSafe(s, first, t, request.rid, AutoConnected(given.publicKey));
    case DisconnectRead(origin, seen) => FilteredKeeps(s.log, first, seen, origin);
    case ConnectKey(request) => FinishSafe(s, first, t, request.rid, Failed);
    case ConnectWritten(request, key) => ConnectAnswerSafe(s, first, t, request, key);
    case SigningMessage(request, key) => FinishSafe(s, first, t, request.rid, Signed(request, key));
  }

  lemma ResumeSafe(s: State, first: seq<Origin>, t: nat, given: Given)
    requires Safe(s, first) && t in s.tasks
    ensures Safe(StepResume(s, t, given), first)
  {
    match s.tasks[t]
    case Checked(_, _) => ResumeCheckedSafe(s, first, t);
    case ConnectRead(_, _, _) => ResumeConnectReadSafe(s, first, t);
    case ReadingKey(_) => ResumeReadingKeySafe(s, first, t, given.works);
    case Signing(_, _) => ResumeSigningSafe(s, first, t);
    case Checking(_) =>
    case Disconnecting(_) =>
    case ConnectOrigins(_, _) =>
    case ConnectWriting(_, _) =>
    case _ => ResumeSimpleSafe(s, first, t, given);
  }

  lemma ReceiveSafe(s: State, first: seq<Origin>, kind: Kind, origin: Option<Origin>, payload: string)
    requires Safe(s, first)
    ensures Safe(StepReceive(s, kind, origin, payload), first)
  {
    var counted := s.(nextRid := s.nextRid + 1);
    var e := Received(s.nextRid, kind, origin, payload);
    NoteSafe(counted, first, e);
    if origin.None? {
      NoteSafe(Note(counted, e), first, Answered(s.nextRid, NoOrigin));
    } else {
      assert WasReceived(Note(counted, e).log, Request(s.nextRid, kind, origin.value, payload));
    }
  }

  lemma SuspendSafe(s: State, first: seq<Origin>)
    requires Safe(s, first)
    ensures Safe(StepSuspend(s), first)
  {
    var erased := s.(tasks := map[], pending := [], wallet := ApplyWallet(s.wallet, SuspendWorker));
    NoteSafe(erased, first, Suspended(InFlight(s)));
  }

  lemma LandOriginsSafe(s: State, first: seq<Origin>)
    requires Safe(s, first)
    ensures Safe(StepLandOrigins(s), first)
  {
  }

  lemma ThrowSafe(s: State, first: seq<Origin>, t: nat)
    requires Safe(s, first) && t in s.tasks
    ensures Safe(StepThrow(s, t), first)
  {
    if CanThrow(s.tasks[t]) {
      var rid := s.tasks[t].request.rid;
      NoteSafe(s, first, CallFailed(rid));
      FinishSafe(Note(s, CallFailed(rid)), first, t, rid, Failed);
    } else if ReadsUncaught(s.tasks[t]) {
      NoteSafe(End(s, t), first, ReadRejected(s.tasks[t].request.rid));
    }
  }

  lemma StepSafe(s: State, first: seq<Origin>, a: Action)
    requires Safe(s, first)
    ensures Safe(Step(s, a), first)
  {
    match a
    case Receive(kind, origin, payload) => ReceiveSafe(s, first, kind, origin, payload);
    case ReceiveDisconnect(_) =>
    case Decide(trusted, id, nonce, approved) => DecideSafe(s, first, trusted, id, nonce, approved);
    case ReadOrigins(t) => ReadOriginsSafe(s, first, t);
    case Resume(t, given) => if t in s.tasks { ResumeSafe(s, first, t, given); }
    case Throw(t) => if t in s.tasks { ThrowSafe(s, first, t); }
    case LandOrigins => LandOriginsSafe(s, first);
    case LandDescriptor =>
    case WalletStep(_) =>
    case Suspend => SuspendSafe(s, first);
  }

  lemma {:induction false} RunSafe(first: seq<Origin>, wallet: Wallet, actions: seq<Action>)
    ensures Safe(Run(Init(first, wallet), actions), first)
  {
    if actions != [] {
      RunSafe(first, wallet, actions[..|actions| - 1]);
      StepSafe(Run(Init(first, wallet), actions[..|actions| - 1]), first, actions[|actions| - 1]);
    }
  }

  lemma {:induction false} BecauseAt(log: seq<Event>, first: seq<Origin>, i: nat)
    requires WellFounded(log, first) && i < |log|
    ensures Because(log[..i], first, log[i])
  {
    var front := log[..|log| - 1];
    if i < |front| {
      BecauseAt(front, first, i);
      assert front[..i] == log[..i];
    }
  }

  // ------------------------------------------------------------------
  // Main results
  // ------------------------------------------------------------------

  /** What some run that starts with these stored origins records; every interleaving is one. */
  ghost predicate History(log: seq<Event>, first: seq<Origin>) {
    exists wallet, actions :: Run(Init(first, wallet), actions).log == log
  }

  lemma HistoryIsSafe(log: seq<Event>, first: seq<Origin>)
    requires History(log, first)
    ensures WellFounded(log, first)
  {
    var wallet, actions :| Run(Init(first, wallet), actions).log == log;
    RunSafe(first, wallet, actions);
  }

  /**
   In every interleaving, a signature is answered only after this very request
   arrived from its verified origin and, in this order: the origin became
   connected (initially, or by an approving connect decision from an extension
   page with the matching nonce), a sign handler found it connected, this very
   request was parked, a decision from an extension page with its id and nonce
   approved it, and a key was read while the wallet was unlocked and inside its
   deadline. The request that is signed is
   the one that was parked and accepted, payload included.
   */
  lemma SignatureNeedsAuthority(log: seq<Event>, first: seq<Origin>, last: nat, rid: nat, request: Request, key: string)
      returns (received: nat, granted: int, found: nat, parked: nat, accepted: nat, read: nat)
    requires History(log, first) && last < |log| && log[last] == Answered(rid, Signed(request, key))
    ensures
      && rid == request.rid && request.payload != ""
      && -1 <= granted < found < parked < accepted < read < last && received < parked
      && log[received] == Received(rid, request.kind, Some(request.origin), request.payload)
      && (if granted == -1 then request.origin in first
          else log[granted].Accepted? && log[granted].decision == Approving(log[granted].entry)
               && log[granted].entry.request.kind.Connect? && log[granted].entry.request.origin == request.origin)
      && log[found] == OriginFound(rid, request.origin)
      && log[accepted].Accepted? && log[accepted].entry.request == request
      && log[accepted].decision == Approving(log[accepted].entry)
      && log[parked] == Parked(log[accepted].entry)
      && log[read].KeyRead? && log[read].request == request && log[read].secretKey == key
      && log[read].wallet.unlocked && DeadlineOpen(log[read].wallet)
      && CachedKey(log[read].wallet, log[read].works) == Some(key)
  {
    HistoryIsSafe(log, first);
    read := KeyReadBefore(log, first, last, rid, request, key);
    parked, accepted := AcceptedBefore(log, first, read, request);
    granted, found := FoundBefore(log, first, parked);
    BecauseAt(log, first, parked);
    received :| 0 <= received < parked
                && log[received] == Received(rid, request.kind, Some(request.origin), request.payload);
  }

  lemma KeyReadBefore(log: seq<Event>, first: seq<Origin>, last: nat, rid: nat, request: Request, key: string)
      returns (read: nat)
    requires WellFounded(log, first) && last < |log| && log[last] == Answered(rid, Signed(request, key))
    ensures rid == request.rid && request.payload != "" && !request.kind.Connect?
    ensures read < last && log[read].KeyRead? && log[read].request == request && log[read].secretKey == key
    ensures log[read].wallet.unlocked && DeadlineOpen(log[read].wallet)
            && CachedKey(log[read].wallet, log[read].works) == Some(key)
  {
    BecauseAt(log, first, last);
    var w, works :| KeyRead(request, key, w, works) in log[..last];
    read :| 0 <= read < last && log[read] == KeyRead(request, key, w, works);
    KeyOnlyWhileUnlocked(w, works);
    BecauseAt(log, first, read);
  }

  lemma AcceptedBefore(log: seq<Event>, first: seq<Origin>, read: nat, request: Request)
      returns (parked: nat, accepted: nat)
    requires WellFounded(log, first) && read < |log| && log[read].KeyRead? && log[read].request == request
    ensures parked < accepted < read && log[accepted].Accepted? && log[accepted].entry.request == request
    ensures log[accepted].decision == Approving(log[accepted].entry)
    ensures log[parked] == Parked(log[accepted].entry)
  {
    BecauseAt(log, first, read);
    var entry :| Accepted(entry, Approving(entry)) in log[..read] && entry.request == request;
    accepted :| 0 <= accepted < read && log[accepted] == Accepted(entry, Approving(entry));
    BecauseAt(log, first, accepted);
    parked :| 0 <= parked < accepted && log[parked] == Parked(entry);
  }

  lemma FoundBefore(log: seq<Event>, first: seq<Origin>, parked: nat) returns (granted: int, found: nat)
    requires WellFounded(log, first) && parked < |log| && log[parked].Parked?
    requires !log[parked].entry.request.kind.Connect?
    ensures var request := log[parked].entry.request;
      && -1 <= granted < found < parked && log[found] == OriginFound(request.rid, request.origin)
      && (if granted == -1 then request.origin in first
          else log[granted].Accepted? && log[granted].decision == Approving(log[granted].entry)
               && log[granted].entry.request.kind.Connect? && log[granted].entry.request.origin == request.origin)
  {
    var request := log[parked].entry.request;
    BecauseAt(log, first, parked);
    found :| 0 <= found < parked && log[found] == OriginFound(request.rid, request.origin);
    BecauseAt(log, first, found);
    if request.origin in first {
      granted := -1;
    } else {
      var e :| Accepted(e, Approving(e)) in log[..found] && e.request.kind.Connect?
          && e.request.origin == request.origin;
      granted :| 0 <= granted < found && log[granted] == Accepted(e, Approving(e));
    }
  }

  /**
   However approvals and disconnects race on the stored list, it never comes to
   hold an origin twice, nor one that was neither there initially nor accepted.
   */
  lemma StoredOriginsStayClean(first: seq<Origin>, wallet: Wallet, actions: seq<Action>)
    ensures var s := Run(Init(first, wallet), actions);
            (Distinct(first) ==> Distinct(s.origins)) && forall o :: o in s.origins ==> Granted(s.log, first, o)
  {
    RunSafe(first, wallet, actions);
  }
}
