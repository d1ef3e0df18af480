/**
 The stored approval descriptor is what the user is asked about; the parked
 map is what a decision acts on. When do they agree once everything settled?
 */
module ApprovalDisplay {
  import opened Prelude
  import opened SessionKey
  import opened Approvals
  import opened ApprovalLedger
  import opened ApprovalDeciders

  /** The descriptor that the last issued write carries. */
  function Shown(log: seq<Event>): Option<Descriptor> {
    if log == [] then None
    else match log[|log| - 1]
      case Parked(entry) => Some(Describe(entry))
      case Cleared => None
      case _ => Shown(log[..|log| - 1])
  }

  /** The entry parked last and not removed since. */
  function Outstanding(log: seq<Event>): Option<Entry> {
    if log == [] then None
    else match log[|log| - 1]
      case Parked(entry) => Some(entry)
      case Taken(_) => None
      case Suspended(_) => None
      case _ => Outstanding(log[..|log| - 1])
  }

  /** The null descriptor was issued while this still parked request was already parked. */
  predicate ClearedWhileParked(log: seq<Event>) {
    log != [] && match log[|log| - 1]
      case Cleared => Outstanding(log[..|log| - 1]).Some?
      case Parked(_) => false
      case Taken(_) => false
      case Suspended(_) => false
      case _ => ClearedWhileParked(log[..|log| - 1])
  }

  /** The worker was suspended while a descriptor was up, and none was issued since. */
  predicate SuspendedWhileShown(log: seq<Event>) {
    log != [] && match log[|log| - 1]
      case Suspended(_) => Shown(log[..|log| - 1]).Some?
      case Parked(_) => false
      case Cleared => false
      case _ => SuspendedWhileShown(log[..|log| - 1])
  }

  /** When the parked request was parked, an accepted decision on an earlier one had not ended. */
  ghost predicate BusyWhenParked(log: seq<Event>) {
    log != [] && match log[|log| - 1]
      case Parked(_) => DecisionUnderWay(log[..|log| - 1])
      case Taken(_) => false
      case Suspended(_) => false
      case _ => BusyWhenParked(log[..|log| - 1])
  }

  function LastWrite(stored: Option<Descriptor>, writes: seq<Option<Descriptor>>): Option<Descriptor> {
    if writes == [] then stored else writes[|writes| - 1]
  }

  function Entries(e: Option<Entry>): seq<Entry> {
    if e.None? then [] else [e.value]
  }

  ghost predicate Display(s: State) {
    && LastWrite(s.descriptor, s.descriptorWrites) == Shown(s.log)
    && s.pending == Entries(Outstanding(s.log))
    && (Shown(s.log).Some? && Outstanding(s.log).None? ==> SuspendedWhileShown(s.log) || DecisionRunning(s.tasks))
    && (Outstanding(s.log).Some? ==>
          Shown(s.log) == if ClearedWhileParked(s.log) then None else Some(Describe(Outstanding(s.log).value)))
    && (Outstanding(s.log).None? ==> !ClearedWhileParked(s.log))
    && (SuspendedWhileShown(s.log) ==> Shown(s.log).Some? && Outstanding(s.log).None?)
    && (Outstanding(s.log).Some? ==>
          (BusyWhenParked(s.log) <==> ClearedWhileParked(s.log) || DecisionRunning(s.tasks)))
  }

  /** How one more event changes what the log says. */
  lemma ReadLog(log: seq<Event>, e: Event)
    ensures Shown(log + [e]) == (match e case Parked(x) => Some(Describe(x)) case Cleared => None case _ => Shown(log))
    ensures Outstanding(log + [e]) ==
            (match e case Parked(x) => Some(x) case Taken(_) => None case Suspended(_) => None
                     case _ => Outstanding(log))
    ensures ClearedWhileParked(log + [e]) ==
            (match e case Cleared => Outstanding(log).Some? case Parked(_) => false case Taken(_) => false
                     case Suspended(_) => false case _ => ClearedWhileParked(log))
    ensures SuspendedWhileShown(log + [e]) ==
            (match e case Suspended(_) => Shown(log).Some? case Parked(_) => false case Cleared => false
                     case _ => SuspendedWhileShown(log))
    ensures BusyWhenParked(log + [e]) <==>
            (match e case Parked(_) => DecisionUnderWay(log) case Taken(_) => false
                     case Suspended(_) => false case _ => BusyWhenParked(log))
  {
    assert (log + [e])[..|log|] == log;
  }

  /** Events that neither park, take, clear nor suspend leave the picture as it is. */
  predicate Plain(e: Event) {
    !e.Parked? && !e.Taken? && !e.Cleared? && !e.Suspended?
  }

  lemma {:induction false} ReadPlainLog(log: seq<Event>, more: seq<Event>)
    requires forall e :: e in more ==> Plain(e)
    ensures Shown(log + more) == Shown(log) && Outstanding(log + more) == Outstanding(log)
    ensures ClearedWhileParked(log + more) == ClearedWhileParked(log)
    ensures SuspendedWhileShown(log + more) == SuspendedWhileShown(log)
    ensures BusyWhenParked(log + more) <==> BusyWhenParked(log)
    decreases |more|
  {
    if more == [] {
      assert log + more == log;
    } else {
      var step := log + [more[0]];
      assert Plain(more[0]);
      assert log + more == step + more[1..];
      ReadLog(log, more[0]);
      ReadPlainLog(step, more[1..]);
    }
  }

  lemma FinishDisplay(s: State, t: nat, e: Event)
    requires Display(s) && t in s.tasks && Deciding(s.tasks[t]) && Plain(e)
    ensures Display(IssueClear(Note(End(s, t), e)))
  {
    ReadLog(s.log, e);
    ReadLog(s.log + [e], Cleared);
  }

  /** A handler that is no decision answers, moves on or ends. */
  lemma QuietDisplay(s: State, s': State, more: seq<Event>)
    requires Display(s)
    requires s'.descriptor == s.descriptor && s'.descriptorWrites == s.descriptorWrites && s'.pending == s.pending
    requires s'.log == s.log + more && forall e :: e in more ==> Plain(e)
    requires DecisionRunning(s.tasks) <==> DecisionRunning(s'.tasks)
    ensures Display(s')
  {
    ReadPlainLog(s.log, more);
  }

  /** Once a request was just parked, everything about the display is determined. */
  lemma JustParkedDisplay(s: State, log: seq<Event>, entry: Entry, writes: seq<Option<Descriptor>>)
    requires s.log == log + [Parked(entry)] && s.pending == [entry]
    requires s.descriptorWrites == writes + [Some(Describe(entry))]
    requires DecisionRunning(s.tasks) <==> DecisionUnderWay(log)
    ensures Display(s)
  {
    ReadLog(log, Parked(entry));
  }

  lemma ParkDisplay(s: State, request: Request)
    requires DecisionRunning(s.tasks) <==> DecisionUnderWay(RejectStale(s, request.rid).log)
    ensures Display(Park(s, request))
  {
    var entry := Entry(s.nextToken, s.nextToken + 1, request);
    JustParkedDisplay(Park(s, request), RejectStale(s, request.rid).log, entry, s.descriptorWrites);
  }

  /** A decision takes the parked entry out and is refused at once. */
  lemma RefuseDisplay(s: State, id: nat, rid: nat, reply: Reply)
    requires Display(s)
    ensures Display(IssueClear(Note(Note(s.(pending := []), Taken(id)), Answered(rid, reply))))
  {
    ReadLog(s.log, Taken(id));
    ReadLog(s.log + [Taken(id)], Answered(rid, reply));
    ReadLog(s.log + [Taken(id)] + [Answered(rid, reply)], Cleared);
  }

  /** A decision takes the parked entry out and starts its continuation. */
  lemma AcceptDisplay(s: State, id: nat, entry: Entry, decision: Decision, stage: Stage)
    requires Display(s) && Deciding(stage)
    ensures Display(Spawn(Note(Note(s.(pending := []), Taken(id)), Accepted(entry, decision)), stage))
  {
    ReadLog(s.log, Taken(id));
    ReadLog(s.log + [Taken(id)], Accepted(entry, decision));
    assert Deciding(s.tasks[s.nextTask := stage][s.nextTask]);
  }

  lemma DecideDisplay(s: State, trusted: bool, id: nat, nonce: nat, approved: bool)
    requires Display(s)
    ensures Display(StepDecide(s, trusted, id, nonce, approved))
  {
    var found := Find(s.pending, id);
    if trusted && found.Some? {
      var entry := found.value;
      OnlyEntryGoes(s.pending, id);
      if nonce != entry.nonce {
        RefuseDisplay(s, id, entry.request.rid, BadToken);
      } else if !approved {
        RefuseDisplay(s, id, entry.request.rid, Denied);
      } else {
        AcceptDisplay(s, id, entry, Decision(trusted, id, nonce, approved),
                      if entry.request.kind.Connect? then ConnectKey(entry.request) else ReadingKey(entry.request));
      }
    }
  }

  lemma OnlyEntryGoes(pending: seq<Entry>, id: nat)
    requires |pending| <= 1 && Find(pending, id).Some?
    ensures pending == [Find(pending, id).value] && Without(pending, id) == []
  {
    assert pending[1..] == [];
  }

  lemma MoveDisplay(s: State, s': State, t: nat, stage: Stage, more: seq<Event>)
    requires Display(s) && t in s.tasks && s'.tasks == s.tasks[t := stage]
    requires Deciding(s.tasks[t]) <==> Deciding(stage)
    requires s'.descriptor == s.descriptor && s'.descriptorWrites == s.descriptorWrites && s'.pending == s.pending
    requires s'.log == s.log + more && forall e :: e in more ==> Plain(e)
    ensures Display(s')
  {
    SameRunning(s.tasks, s'.tasks);
    QuietDisplay(s, s', more);
  }

  lemma EndDisplay(s: State, s': State, t: nat, more: seq<Event>)
    requires Display(s) && t in s.tasks && s'.tasks == s.tasks - {t} && !Deciding(s.tasks[t])
    requires s'.descriptor == s.descriptor && s'.descriptorWrites == s.descriptorWrites && s'.pending == s.pending
    requires s'.log == s.log + more && forall e :: e in more ==> Plain(e)
    ensures Display(s')
  {
    SameRunning(s.tasks, s'.tasks);
    QuietDisplay(s, s', more);
  }

  /** The same decisions run in both. */
  lemma SameRunning(tasks: map<nat, Stage>, tasks': map<nat, Stage>)
    requires forall d :: d in tasks && Deciding(tasks[d]) ==> d in tasks' && Deciding(tasks'[d])
    requires forall d :: d in tasks' && Deciding(tasks'[d]) ==> d in tasks && Deciding(tasks[d])
    ensures DecisionRunning(tasks) <==> DecisionRunning(tasks')
  {
  }

  lemma ResumeCheckedDisplay(s: State, t: nat)
    requires Display(s) && Ledger(s) && Deciders(s.log, s.tasks) && t in s.tasks && s.tasks[t].Checked?
    ensures Display(ResumeChecked(s, t, s.tasks[t].request, s.tasks[t].seen))
  {
    var Checked(request, seen) := s.tasks[t];
    var end := ResumeChecked(s, t, request, seen);
    if request.kind.Connect? && request.origin in seen {
      MoveDisplay(s, end, t, FetchingKey(request), []);
    } else if request.kind.Connect? {
      RunningWhenParking(s, t, End(s, t));
      ParkDisplay(End(s, t), request);
    } else if request.origin !in seen {
      EndDisplay(s, end, t, [Answered(request.rid, NotConnected)]);
    } else {
      var e := OriginFound(request.rid, request.origin);
      RunningWhenParking(s, t, Note(End(s, t), e));
      ParkDisplay(Note(End(s, t), e), request);
    }
  }

  lemma ResumeDecisionDisplay(s: State, t: nat, given: Given)
    requires Display(s) && t in s.tasks && Deciding(s.tasks[t])
    ensures Display(StepResume(s, t, given))
  {
    var end := StepResume(s, t, given);
    var request := s.tasks[t].request;
    match s.tasks[t]
    case ConnectKey(_) =>
      if Truthy(given.publicKey) {
        MoveDisplay(s, end, t, ConnectOrigins(request, given.publicKey.value), []);
      } else {
        FinishDisplay(s, t, Answered(request.rid, Failed));
      }
    case ConnectRead(_, key, seen) =>
      if request.origin in seen {
        FinishDisplay(s, t, Answered(request.rid, Connected(key)));
      } else {
        MoveDisplay(s, end, t, ConnectWriting(request, key), []);
      }
    case ConnectWritten(_, key) => FinishDisplay(s, t, Answered(request.rid, Connected(key)));
    case ReadingKey(_) =>
      var (wallet, key) := ReadActiveKey(s.wallet, given.works);
      var read := s.(wallet := wallet);
      if Truthy(key) {
        MoveDisplay(s, end, t, Signing(request, key.value), [KeyRead(request, key.value, s.wallet, given.works)]);
      } else {
        FinishDisplay(read, t, Answered(request.rid, Failed));
      }
    case Signing(_, key) =>
      if request.payload == "" {
        FinishDisplay(s, t, Dropped(request));
      } else if request.kind.SignTransaction? {
        FinishDisplay(s, t, Answered(request.rid, Signed(request, key)));
      } else {
        MoveDisplay(s, end, t, SigningMessage(request, key), []);
      }
    case SigningMessage(_, key) => FinishDisplay(s, t, Answered(request.rid, Signed(request, key)));
    case _ =>
  }

  lemma ResumeDisplay(s: State, t: nat, given: Given)
    requires Display(s) && Ledger(s) && Deciders(s.log, s.tasks) && t in s.tasks
    ensures Display(StepResume(s, t, given))
  {
    var end := StepResume(s, t, given);
    if Deciding(s.tasks[t]) {
      ResumeDecisionDisplay(s, t, given);
    } else {
      match s.tasks[t]
      case Checked(_, _) => ResumeCheckedDisplay(s, t);
      case FetchingKey(request) => EndDisplay(s, end, t, [Answered(request.rid, AutoConnected(given.publicKey))]);
      case DisconnectRead(_, _) => EndDisplay(s, end, t, []);
      case _ =>
    }
  }

  lemma ThrowDisplay(s: State, t: nat)
    requires Display(s) && t in s.tasks
    ensures Display(StepThrow(s, t))
  {
    if CanThrow(s.tasks[t]) {
      var rid := s.tasks[t].request.rid;
      QuietDisplay(s, Note(s, CallFailed(rid)), [CallFailed(rid)]);
      FinishDisplay(Note(s, CallFailed(rid)), t, Answered(rid, Failed));
    } else if ReadsUncaught(s.tasks[t]) {
      EndDisplay(s, StepThrow(s, t), t, [ReadRejected(s.tasks[t].request.rid)]);
    } else if s.tasks[t].Disconnecting? {
      EndDisplay(s, StepThrow(s, t), t, []);
    }
  }

  lemma ReadOriginsDisplay(s: State, t: nat)
    requires Display(s) && t in s.tasks
    ensures Display(StepReadOrigins(s, t))
  {
    var end := StepReadOrigins(s, t);
    if end != s {
      MoveDisplay(s, end, t, end.tasks[t], []);
    }
  }

  lemma LandOriginsDisplay(s: State)
    requires Display(s) && s.originWrites != []
    ensures Display(StepLandOrigins(s))
  {
    var end := StepLandOrigins(s);
    var t := s.originWrites[0].task;
    if t in s.tasks && s.tasks[t].ConnectWriting? {
      MoveDisplay(s, end, t, end.tasks[t], []);
    } else {
      QuietDisplay(s, end, []);
    }
  }

  /** A new handler starts, or none. */
  lemma SpawnDisplay(s: State, s': State, more: seq<Event>)
    requires Display(s) && (forall t :: t in s.tasks ==> t < s.nextTask)
    requires forall t :: t in s.tasks ==> t in s'.tasks && s'.tasks[t] == s.tasks[t]
    requires forall t :: t in s'.tasks && t !in s.tasks ==> !Deciding(s'.tasks[t])
    requires s'.descriptor == s.descriptor && s'.descriptorWrites == s.descriptorWrites && s'.pending == s.pending
    requires s'.log == s.log + more && forall e :: e in more ==> Plain(e)
    ensures Display(s')
  {
    SameRunning(s.tasks, s'.tasks);
    QuietDisplay(s, s', more);
  }

  lemma ReceiveDisplay(s: State, kind: Kind, origin: Option<Origin>, payload: string)
    requires Display(s) && (forall t :: t in s.tasks ==> t < s.nextTask)
    ensures Display(StepReceive(s, kind, origin, payload))
  {
    var arrived := [Received(s.nextRid, kind, origin, payload)];
    if origin.None? {
      SpawnDisplay(s, StepReceive(s, kind, origin, payload), arrived + [Answered(s.nextRid, NoOrigin)]);
    } else {
      SpawnDisplay(s, StepReceive(s, kind, origin, payload), arrived);
    }
  }

  lemma SuspendDisplay(s: State)
    requires Display(s)
    ensures Display(StepSuspend(s))
  {
    ReadLog(s.log, Suspended(InFlight(s)));
  }

  lemma LandDescriptorDisplay(s: State)
    requires Display(s)
    ensures Display(StepLandDescriptor(s))
  {
  }

  lemma StepDisplay(s: State, a: Action)
    requires Display(s) && Ledger(s) && Deciders(s.log, s.tasks)
    ensures Display(Step(s, a))
  {
    match a
    case Receive(kind, origin, payload) => ReceiveDisplay(s, kind, origin, payload);
    case ReceiveDisconnect(None) =>
    case ReceiveDisconnect(Some(origin)) => SpawnDisplay(s, Spawn(s, Disconnecting(origin)), []);
    case Decide(trusted, id, nonce, approved) => DecideDisplay(s, trusted, id, nonce, approved);
    case ReadOrigins(t) => if t in s.tasks { ReadOriginsDisplay(s, t); }
    case Resume(t, given) => if t in s.tasks { ResumeDisplay(s, t, given); }
    case Throw(t) => if t in s.tasks { ThrowDisplay(s, t); }
    case LandOrigins => if s.originWrites != [] { LandOriginsDisplay(s); }
    case LandDescriptor => LandDescriptorDisplay(s);
    case WalletStep(op) => QuietDisplay(s, Step(s, a), []);
    case Suspend => SuspendDisplay(s);
  }

  lemma {:induction false} RunDisplay(first: seq<Origin>, wallet: Wallet, actions: seq<Action>)
    ensures Display(Run(Init(first, wallet), actions))
  {
    if actions != [] {
      RunDisplay(first, wallet, actions[..|actions| - 1]);
      RunLedger(first, wallet, actions[..|actions| - 1]);
      RunDeciders(first, wallet, actions[..|actions| - 1]);
      StepDisplay(Run(Init(first, wallet), actions[..|actions| - 1]), actions[|actions| - 1]);
    }
  }

  // ------------------------------------------------------------------
  // Main results
  // ------------------------------------------------------------------

  /** No continuation is in flight and every issued descriptor write has landed. */
  predicate Quiescent(s: State) {
    s.tasks == map[] && s.descriptorWrites == []
  }

  /** What the user sees is what a decision would act on. */
  predicate Agree(s: State) {
    s.descriptor == if s.pending == [] then None else Some(Describe(s.pending[0]))
  }

  /**
   Exactly when the two stores agree in a settled state, over every
   interleaving. With a request parked: no accepted decision on an earlier
   request was still under way when it was parked. With nothing parked: no
   suspension took a request that was on display.
   */
  lemma AgreeExactly(s: State, first: seq<Origin>)
    requires Reachable(s, first) && Quiescent(s)
    ensures Agree(s) <==> if s.pending == [] then !SuspendedWhileShown(s.log) else !BusyWhenParked(s.log)
  {
    var wallet, actions :| s == Run(Init(first, wallet), actions);
    RunDisplay(first, wallet, actions);
  }

  /** Some interleaving leads there from a fresh worker with these stored origins. */
  ghost predicate Reachable(s: State, first: seq<Origin>) {
    exists wallet, actions :: s == Run(Init(first, wallet), actions)
  }

  /** Requests come one at a time, and the worker is not suspended. */
  predicate OneAtATime(s: State, actions: seq<Action>) {
    actions == [] ||
    (var front := actions[..|actions| - 1];
     && OneAtATime(s, front)
     && !actions[|actions| - 1].Suspend?
     && (actions[|actions| - 1].Receive? ==> InFlight(Run(s, front)) == {}))
  }

  /** Every request but the newest has ended. */
  ghost predicate OnlyNewest(s: State) {
    forall r: nat :: r + 1 < s.nextRid ==> Tally(s.log, r) == 1
  }

  lemma StepOnlyNewest(s: State, a: Action)
    requires Ledger(s) && OnlyNewest(s)
    requires a.Receive? ==> InFlight(s) == {}
    ensures OnlyNewest(Step(s, a))
  {
    StepGrows(s, a);
    StepLedger(s, a);
    GrowsOnlyNewest(s, Step(s, a));
  }

  /** A request that had ended stays ended; a new one arrives only when every other has ended. */
  lemma GrowsOnlyNewest(s: State, end: State)
    requires Ledger(s) && Ledger(end) && OnlyNewest(s) && s.log <= end.log
    requires end.nextRid == s.nextRid || (end.nextRid == s.nextRid + 1 && InFlight(s) == {})
    ensures OnlyNewest(end)
  {
    forall r: nat | r + 1 < end.nextRid ensures Tally(end.log, r) == 1 {
      InFlightMeans(s, r);
      assert Places(s.log, s.tasks, s.pending, r) == 1;
      assert Places(end.log, end.tasks, end.pending, r) == 1;
      TallyGrows(s.log, end.log[|s.log|..], r);
      assert s.log + end.log[|s.log|..] == end.log;
    }
  }

  /** A continuation that owes a response and a parked request would be two requests in flight. */
  lemma HolderAlone(s: State, t: nat)
    requires Ledger(s) && OnlyNewest(s) && t in s.tasks && Owner(s.tasks[t]).Some?
    ensures s.pending == []
  {
    var r := Owner(s.tasks[t]).value;
    assert Holds(s.tasks, t, r);
    assert Places(s.log, s.tasks, s.pending, r) >= 1;
    assert s.pending != [] ==> Places(s.log, s.tasks, s.pending, s.pending[0].request.rid) >= 1;
  }

  /** The last issued descriptor is the parked request's; with nothing parked, a decision will clear it. */
  ghost predicate Backed(s: State) {
    && (s.pending != [] ==> LastWrite(s.descriptor, s.descriptorWrites) == Some(Describe(s.pending[0])))
    && (s.pending == [] && LastWrite(s.descriptor, s.descriptorWrites).Some? ==> DecisionRunning(s.tasks))
  }

  lemma MoveBacked(s: State, s': State, t: nat, stage: Stage)
    requires Backed(s) && (t in s.tasks && Deciding(s.tasks[t]) ==> Deciding(stage))
    requires s'.tasks == s.tasks[t := stage]
    requires s'.pending == s.pending && s'.descriptor == s.descriptor && s'.descriptorWrites == s.descriptorWrites
    ensures Backed(s')
  {
    if DecisionRunning(s.tasks) {
      var d :| d in s.tasks && Deciding(s.tasks[d]);
      assert d in s'.tasks && Deciding(s'.tasks[d]);
    }
  }

  lemma EndBacked(s: State, s': State, t: nat)
    requires Backed(s) && t in s.tasks && !Deciding(s.tasks[t]) && s'.tasks == s.tasks - {t}
    requires s'.pending == s.pending && s'.descriptor == s.descriptor && s'.descriptorWrites == s.descriptorWrites
    ensures Backed(s')
  {
    if DecisionRunning(s.tasks) {
      var d :| d in s.tasks && Deciding(s.tasks[d]);
      assert d in s'.tasks && Deciding(s'.tasks[d]);
    }
  }

  /** Issuing the null descriptor over an empty map settles the matter. */
  lemma ClearBacked(s: State)
    requires s.pending == [] && s.descriptorWrites != [] && s.descriptorWrites[|s.descriptorWrites| - 1] == None
    ensures Backed(s)
  {
  }

  lemma DecideBacked(s: State, trusted: bool, id: nat, nonce: nat, approved: bool)
    requires Backed(s) && |s.pending| <= 1
    ensures Backed(StepDecide(s, trusted, id, nonce, approved))
  {
    var found := Find(s.pending, id);
    if trusted && found.Some? {
      var end := StepDecide(s, trusted, id, nonce, approved);
      OnlyEntryGoes(s.pending, id);
      if nonce == found.value.nonce && approved {
        assert Deciding(end.tasks[s.nextTask]);
      } else {
        ClearBacked(end);
      }
    }
  }

  lemma FinishBacked(s: State, t: nat, e: Event)
    requires s.pending == []
    ensures Backed(IssueClear(Note(End(s, t), e)))
  {
  }

  lemma ResumeDecisionBacked(s: State, t: nat, given: Given)
    requires Backed(s) && t in s.tasks && Deciding(s.tasks[t]) && s.pending == []
    ensures Backed(StepResume(s, t, given))
  {
    var request := s.tasks[t].request;
    match s.tasks[t]
    case ConnectKey(_) =>
      if Truthy(given.publicKey) {
        var stage := ConnectOrigins(request, given.publicKey.value);
        MoveBacked(s, Continue(s, t, stage), t, stage);
      } else {
        FinishBacked(s, t, Answered(request.rid, Failed));
      }
    case ConnectRead(_, key, seen) =>
      if request.origin in seen {
        FinishBacked(s, t, Answered(request.rid, Connected(key)));
      } else {
        MoveBacked(s, StepResume(s, t, given), t, ConnectWriting(request, key));
      }
    case ConnectWritten(_, key) => FinishBacked(s, t, Answered(request.rid, Connected(key)));
    case ReadingKey(_) =>
      var (wallet, key) := ReadActiveKey(s.wallet, given.works);
      if Truthy(key) {
        MoveBacked(s, StepResume(s, t, given), t, Signing(request, key.value));
      } else {
        FinishBacked(s.(wallet := wallet), t, Answered(request.rid, Failed));
      }
    case Signing(_, key) =>
      if request.payload == "" {
        FinishBacked(s, t, Dropped(request));
      } else if request.kind.SignTransaction? {
        FinishBacked(s, t, Answered(request.rid, Signed(request, key)));
      } else {
        MoveBacked(s, StepResume(s, t, given), t, SigningMessage(request, key));
      }
    case SigningMessage(_, key) => FinishBacked(s, t, Answered(request.rid, Signed(request, key)));
    case _ =>
  }

  lemma ResumeCheckedBacked(s: State, t: nat)
    requires Backed(s) && t in s.tasks && s.tasks[t].Checked? && s.pending == []
    ensures Backed(ResumeChecked(s, t, s.tasks[t].request, s.tasks[t].seen))
  {
    var Checked(request, seen) := s.tasks[t];
    var end := ResumeChecked(s, t, request, seen);
    if request.kind.Connect? && request.origin in seen {
      MoveBacked(s, end, t, FetchingKey(request));
    } else if !request.kind.Connect? && request.origin !in seen {
      EndBacked(s, end, t);
    } else {
      assert end.pending == [Entry(s.nextToken, s.nextToken + 1, request)];
    }
  }

  lemma ResumeBacked(s: State, t: nat, given: Given)
    requires Backed(s) && t in s.tasks && (Owner(s.tasks[t]).Some? ==> s.pending == [])
    ensures Backed(StepResume(s, t, given))
  {
    if Deciding(s.tasks[t]) {
      ResumeDecisionBacked(s, t, given);
    } else {
      match s.tasks[t]
      case Checked(_, _) => ResumeCheckedBacked(s, t);
      case FetchingKey(_) => EndBacked(s, StepResume(s, t, given), t);
      case DisconnectRead(_, _) => EndBacked(s, StepResume(s, t, given), t);
      case _ =>
    }
  }

  lemma ThrowBacked(s: State, t: nat)
    requires Backed(s) && t in s.tasks && (Owner(s.tasks[t]).Some? ==> s.pending == [])
    ensures Backed(StepThrow(s, t))
  {
    if CanThrow(s.tasks[t]) {
      ClearBacked(StepThrow(s, t));
    } else if ReadsUncaught(s.tasks[t]) || s.tasks[t].Disconnecting? {
      EndBacked(s, StepThrow(s, t), t);
    }
  }

  lemma ReceiveBacked(s: State, kind: Kind, origin: Option<Origin>, payload: string)
    requires Backed(s) && s.nextTask !in s.tasks
    ensures Backed(StepReceive(s, kind, origin, payload))
  {
    if origin.Some? {
      MoveBacked(s, StepReceive(s, kind, origin, payload), s.nextTask,
                 Checking(Request(s.nextRid, kind, origin.value, payload)));
    }
  }

  lemma LandBacked(s: State)
    requires Backed(s) && s.originWrites != []
    ensures Backed(StepLandOrigins(s))
  {
    var t, end := s.originWrites[0].task, StepLandOrigins(s);
    if t in s.tasks {
      MoveBacked(s, end, t, end.tasks[t]);
    }
  }

  lemma StepBacked(s: State, a: Action)
    requires Backed(s) && Ledger(s) && OnlyNewest(s) && !a.Suspend?
    ensures Backed(Step(s, a))
  {
    var end := Step(s, a);
    match a
    case Receive(kind, origin, payload) => ReceiveBacked(s, kind, origin, payload);
    case ReceiveDisconnect(None) =>
    case ReceiveDisconnect(Some(origin)) => MoveBacked(s, end, s.nextTask, Disconnecting(origin));
    case Decide(trusted, id, nonce, approved) => DecideBacked(s, trusted, id, nonce, approved);
    case ReadOrigins(t) => if t in s.tasks { MoveBacked(s, end, t, end.tasks[t]); }
    case Resume(t, given) =>
      if t in s.tasks {
        if Owner(s.tasks[t]).Some? { HolderAlone(s, t); }
        ResumeBacked(s, t, given);
      }
    case Throw(t) =>
      if t in s.tasks {
        if Owner(s.tasks[t]).Some? { HolderAlone(s, t); }
        ThrowBacked(s, t);
      }
    case LandOrigins => if s.originWrites != [] { LandBacked(s); }
    case LandDescriptor =>
    case WalletStep(_) =>
  }

  /**
   Requests that come one at a time never lose their place on display: in
   every such run, each settled state shows exactly the parked request.
   */
  lemma {:induction false} OneAtATimeAgrees(first: seq<Origin>, wallet: Wallet, actions: seq<Action>)
    requires OneAtATime(Init(first, wallet), actions)
    ensures var s := Run(Init(first, wallet), actions);
            Backed(s) && OnlyNewest(s) && (Quiescent(s) ==> Agree(s))
  {
    if actions != [] {
      var front := actions[..|actions| - 1];
      OneAtATimeAgrees(first, wallet, front);
      RunLedger(first, wallet, front);
      StepOnlyNewest(Run(Init(first, wallet), front), actions[|actions| - 1]);
      StepBacked(Run(Init(first, wallet), front), actions[|actions| - 1]);
    }
  }

  // ------------------------------------------------------------------
  // Two at a time: how the display is lost
  // ------------------------------------------------------------------

  /** A sign request arrives, its handler finds the origin connected and parks it. */
  function ParkSchedule(task: nat, origin: Origin, payload: string): seq<Action> {
    [Receive(SignMessage, Some(origin), payload), ReadOrigins(task), Resume(task, NOTHING)]
  }

  lemma ParkRun(s: State, origin: Origin, payload: string)
    requires s.pending == [] && s.nextTask !in s.tasks && origin in s.origins
    ensures ParkedOne(s, Run(s, ParkSchedule(s.nextTask, origin, payload)),
                      Entry(s.nextToken, s.nextToken + 1, Request(s.nextRid, SignMessage, origin, payload)))
  {
    RunThree(s, Receive(SignMessage, Some(origin), payload), ReadOrigins(s.nextTask), Resume(s.nextTask, NOTHING));
    ParkSteps(s, origin, payload);
  }

  /** `end` is `s` with one more request, parked as `entry` and issued for display. */
  ghost predicate ParkedOne(s: State, end: State, entry: Entry) {
    && end.tasks == s.tasks && end.pending == [entry] && end.origins == s.origins && end.wallet == s.wallet
    && end.descriptor == s.descriptor && end.descriptorWrites == s.descriptorWrites + [Some(Describe(entry))]
    && end.nextTask == s.nextTask + 1 && end.nextRid == s.nextRid + 1 && end.nextToken == s.nextToken + 2
  }

  lemma ParkSteps(s: State, origin: Origin, payload: string)
    requires s.pending == [] && s.nextTask !in s.tasks && origin in s.origins
    ensures var t := s.nextTask;
            ParkedOne(s, Step(Step(Step(s, Receive(SignMessage, Some(origin), payload)), ReadOrigins(t)),
                Resume(t, NOTHING)),
                      Entry(s.nextToken, s.nextToken + 1, Request(s.nextRid, SignMessage, origin, payload)))
  {
    var request := Request(s.nextRid, SignMessage, origin, payload);
    var s2 := Step(Step(s, Receive(SignMessage, Some(origin), payload)), ReadOrigins(s.nextTask));
    assert s2.tasks[s.nextTask] == Checked(request, s.origins);
    assert s2.tasks - {s.nextTask} == s.tasks;
  }

  lemma AcceptStep(s: State, entry: Entry)
    requires s.pending == [entry] && !entry.request.kind.Connect?
    ensures var end := Step(s, Decide(true, entry.id, entry.nonce, true));
      && end.tasks == s.tasks[s.nextTask := ReadingKey(entry.request)] && end.pending == [] && end.wallet == s.wallet
      && end.origins == s.origins && end.descriptor == s.descriptor && end.descriptorWrites == s.descriptorWrites
      && end.nextTask == s.nextTask + 1 && end.nextRid == s.nextRid && end.nextToken == s.nextToken
  {
    assert s.pending[1..] == [] && Without(s.pending, entry.id) == [];
  }

  lemma LandThree(s: State)
    requires |s.descriptorWrites| == 3
    ensures var end := Run(s, [LandDescriptor, LandDescriptor, LandDescriptor]);
      end.descriptorWrites == [] && end.descriptor == s.descriptorWrites[2]
      && end.tasks == s.tasks && end.pending == s.pending
  {
    RunThree(s, LandDescriptor, LandDescriptor, LandDescriptor);
  }

  /**
   The decision on the first request fails to get a key only after the second
   request has parked; then every write lands.
   */
  function OverlapSchedule(task: nat, token: nat, origin: Origin, first: string, second: string): seq<Action> {
    ParkSchedule(task, origin, first)
    + [Decide(true, token, token + 1, true)]
    + ParkSchedule(task + 2, origin, second)
    + [Throw(task + 1)]
    + [LandDescriptor, LandDescriptor, LandDescriptor]
  }

  /** Settled with this request parked and nothing on display. */
  ghost predicate ParkedUnseen(s: State, entry: Entry) {
    Quiescent(s) && s.pending == [entry] && s.descriptor == None
  }

  /**
   From any settled state with nothing parked, two overlapping sign requests of
   a connected origin end settled with the second parked and nothing on display.
   */
  lemma OverlapLosesDisplay(s: State, origin: Origin, first: string, second: string)
    requires Quiescent(s) && s.pending == [] && origin in s.origins
    ensures ParkedUnseen(Run(s, OverlapSchedule(s.nextTask, s.nextToken, origin, first, second)),
                         Entry(s.nextToken + 2, s.nextToken + 3, Request(s.nextRid + 1, SignMessage, origin, second)))
  {
    OverlapEnds(s, origin, first, second);
    RunPieces(s, ParkSchedule(s.nextTask, origin, first), Decide(true, s.nextToken, s.nextToken + 1, true),
              ParkSchedule(s.nextTask + 2, origin, second), Throw(s.nextTask + 1),
              [LandDescriptor, LandDescriptor, LandDescriptor]);
  }

  lemma OverlapEnds(s: State, origin: Origin, first: string, second: string)
    requires Quiescent(s) && s.pending == [] && origin in s.origins
    ensures var mid := Step(Run(s, ParkSchedule(s.nextTask, origin, first)),
            Decide(true, s.nextToken, s.nextToken + 1, true));
            ParkedUnseen(Run(Step(Run(mid, ParkSchedule(s.nextTask + 2, origin, second)), Throw(s.nextTask + 1)),
                             [LandDescriptor, LandDescriptor, LandDescriptor]),
                         Entry(s.nextToken + 2, s.nextToken + 3, Request(s.nextRid + 1, SignMessage, origin, second)))
  {
    ParkAccept(s, origin, first);
    var mid := Step(Run(s, ParkSchedule(s.nextTask, origin, first)), Decide(true, s.nextToken, s.nextToken + 1, true));
    SecondParked(mid, s, Request(s.nextRid, SignMessage, origin, first), origin, second);
  }

  /** `mid` is `s` after its first request was parked and accepted. */
  ghost predicate AcceptedOne(s: State, mid: State, request: Request) {
    && mid.tasks == map[s.nextTask + 1 := ReadingKey(request)] && mid.pending == [] && mid.origins == s.origins
    && |mid.descriptorWrites| == 1
    && mid.nextTask == s.nextTask + 2 && mid.nextRid == s.nextRid + 1 && mid.nextToken == s.nextToken + 2
  }

  lemma SecondParked(mid: State, s: State, deciding: Request, origin: Origin, payload: string)
    requires AcceptedOne(s, mid, deciding) && origin in s.origins
    ensures ParkedUnseen(Run(Step(Run(mid, ParkSchedule(s.nextTask + 2, origin, payload)), Throw(s.nextTask + 1)),
                             [LandDescriptor, LandDescriptor, LandDescriptor]),
                         Entry(s.nextToken + 2, s.nextToken + 3, Request(s.nextRid + 1, SignMessage, origin, payload)))
  {
    var parked := Run(mid, ParkSchedule(s.nextTask + 2, origin, payload));
    ParkRun(mid, origin, payload);
    ThrowLast(parked, s.nextTask + 1, deciding);
    LandThree(Step(parked, Throw(s.nextTask + 1)));
  }

  lemma ParkAccept(s: State, origin: Origin, payload: string)
    requires Quiescent(s) && s.pending == [] && origin in s.origins
    ensures AcceptedOne(s, Step(Run(s, ParkSchedule(s.nextTask, origin, payload)),
                                Decide(true, s.nextToken, s.nextToken + 1, true)),
                        Request(s.nextRid, SignMessage, origin, payload))
  {
    ParkRun(s, origin, payload);
    AcceptStep(Run(s, ParkSchedule(s.nextTask, origin, payload)),
               Entry(s.nextToken, s.nextToken + 1, Request(s.nextRid, SignMessage, origin, payload)));
  }

  lemma ThrowLast(s: State, t: nat, request: Request)
    requires s.tasks == map[t := ReadingKey(request)]
    ensures var end := Step(s, Throw(t));
      end.tasks == map[] && end.pending == s.pending && end.descriptorWrites == s.descriptorWrites + [None]
  {
    assert s.tasks - {t} == map[];
  }

  lemma RunPieces(s: State, xs: seq<Action>, a: Action, ys: seq<Action>, b: Action, zs: seq<Action>)
    ensures Run(s, xs + [a] + ys + [b] + zs) == Run(Step(Run(Step(Run(s, xs), a), ys), b), zs)
  {
    assert forall u, c :: Run(u, [c]) == Step(Run(u, []), c) by {
      assert forall c: Action :: [c][..0] == [];
    }
    RunJoin(s, xs, [a]);
    RunJoin(s, xs + [a], ys);
    RunJoin(s, xs + [a] + ys, [b]);
    RunJoin(s, xs + [a] + ys + [b], zs);
  }
}
