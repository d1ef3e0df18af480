/**
 Conservation of dApp requests over every interleaving: a request that arrived
 is in exactly one place, and it is answered at most once.
 */
module ApprovalLedger {
  import opened Prelude
  import opened SessionKey
  import opened Approvals
  import opened ApprovalSafety

  /** 1 when the event ends request `r`: an answer, a silent end or a suspension that loses it. */
  function Ends(e: Event, r: nat): nat {
    match e
    case Answered(rid, _) => if rid == r then 1 else 0
    case Dropped(request) => if request.rid == r then 1 else 0
    case ReadRejected(rid) => if rid == r then 1 else 0
    case Suspended(lost) => if r in lost then 1 else 0
    case _ => 0
  }

  function Tally(log: seq<Event>, r: nat): nat {
    if log == [] then 0 else Tally(log[..|log| - 1], r) + Ends(log[|log| - 1], r)
  }

  ghost predicate Holds(tasks: map<nat, Stage>, t: nat, r: nat) {
    t in tasks && Owner(tasks[t]) == Some(r)
  }

  ghost predicate InTask(tasks: map<nat, Stage>, r: nat) {
    exists t :: Holds(tasks, t, r)
  }

  ghost predicate IsParked(pending: seq<Entry>, r: nat) {
    pending != [] && pending[0].request.rid == r
  }

  /** How many places hold request `r`: ends in the log, continuations, the parked map. */
  ghost function Places(log: seq<Event>, tasks: map<nat, Stage>, pending: seq<Entry>, r: nat): nat {
    Tally(log, r) + (if InTask(tasks, r) then 1 else 0) + (if IsParked(pending, r) then 1 else 0)
  }

  ghost predicate Injective(tasks: map<nat, Stage>) {
    forall t1, t2, r: nat :: Holds(tasks, t1, r) && Holds(tasks, t2, r) ==> t1 == t2
  }

  ghost predicate Conserved(log: seq<Event>, tasks: map<nat, Stage>, pending: seq<Entry>, nextRid: nat) {
    forall r: nat :: Places(log, tasks, pending, r) == if r < nextRid then 1 else 0
  }

  ghost predicate Ledger(s: State) {
    && |s.pending| <= 1
    && (forall t :: t in s.tasks ==> t < s.nextTask)
    && Injective(s.tasks)
    && Conserved(s.log, s.tasks, s.pending, s.nextRid)
  }

  // ------------------------------------------------------------------
  // How the pieces move a request
  // ------------------------------------------------------------------

  lemma TallyOne(log: seq<Event>, e: Event, r: nat)
    ensures Tally(log + [e], r) == Tally(log, r) + Ends(e, r)
  {
    assert (log + [e])[..|log|] == log;
  }

  /** Appending an event shifts the tallies by what it ends. */
  lemma NoteTally(s: State, e: Event)
    ensures forall r: nat :: Tally(Note(s, e).log, r) == Tally(s.log, r) + Ends(e, r)
  {
    forall r: nat ensures Tally(Note(s, e).log, r) == Tally(s.log, r) + Ends(e, r) {
      TallyOne(s.log, e, r);
    }
  }

  /** Ending a continuation frees exactly the request it held. */
  lemma EndFrees(tasks: map<nat, Stage>, t: nat)
    requires Injective(tasks) && t in tasks
    ensures Injective(tasks - {t})
    ensures forall r: nat :: InTask(tasks - {t}, r) <==> InTask(tasks, r) && Owner(tasks[t]) != Some(r)
  {
    var rest := tasks - {t};
    assert forall t', r: nat :: Holds(rest, t', r) <==> t' != t && Holds(tasks, t', r);
    forall r: nat ensures InTask(rest, r) <==> InTask(tasks, r) && Owner(tasks[t]) != Some(r) {
      if InTask(tasks, r) && Owner(tasks[t]) != Some(r) {
        var t' :| Holds(tasks, t', r);
        assert Holds(rest, t', r);
      }
      if InTask(rest, r) {
        var t' :| Holds(rest, t', r);
        assert Holds(tasks, t', r);
        assert Owner(tasks[t]) == Some(r) ==> Holds(tasks, t, r);
      }
    }
  }

  /** A continuation that moves on keeps its request. */
  lemma MoveKeeps(tasks: map<nat, Stage>, t: nat, stage: Stage)
    requires Injective(tasks) && t in tasks && Owner(stage) == Owner(tasks[t])
    ensures Injective(tasks[t := stage])
    ensures forall r: nat :: InTask(tasks[t := stage], r) <==> InTask(tasks, r)
  {
    var moved := tasks[t := stage];
    assert forall t', r: nat :: Holds(moved, t', r) <==> Holds(tasks, t', r);
  }

  /** A new continuation holds its own request besides the old ones. */
  lemma SpawnAdds(tasks: map<nat, Stage>, t: nat, stage: Stage)
    requires Injective(tasks) && t !in tasks
    requires Owner(stage).Some? ==> !InTask(tasks, Owner(stage).value)
    ensures Injective(tasks[t := stage])
    ensures forall r: nat :: InTask(tasks[t := stage], r) <==> InTask(tasks, r) || Owner(stage) == Some(r)
  {
    var more := tasks[t := stage];
    assert forall t', r: nat :: Holds(more, t', r) <==> Holds(tasks, t', r) || (t' == t && Owner(stage) == Some(r));
    forall r: nat ensures InTask(more, r) <==> InTask(tasks, r) || Owner(stage) == Some(r) {
      if InTask(tasks, r) {
        var t' :| Holds(tasks, t', r);
        assert Holds(more, t', r);
      }
      if Owner(stage) == Some(r) {
        assert Holds(more, t, r);
      }
    }
  }

  // ------------------------------------------------------------------
  // Every step keeps the ledger
  // ------------------------------------------------------------------

  /** A request is conserved when only events that end nothing are added. */
  lemma QuietNote(s: State, e: Event)
    requires Ledger(s) && forall r: nat :: Ends(e, r) == 0
    ensures Ledger(Note(s, e))
  {
    var noted := Note(s, e);
    NoteTally(s, e);
    forall r: nat ensures Places(noted.log, noted.tasks, noted.pending, r) == Places(s.log, s.tasks, s.pending, r) {
    }
  }

  lemma MoveLedger(s: State, t: nat, stage: Stage)
    requires Ledger(s) && t in s.tasks && Owner(stage) == Owner(s.tasks[t])
    ensures Ledger(Continue(s, t, stage))
  {
    MoveKeeps(s.tasks, t, stage);
    var moved := Continue(s, t, stage);
    forall r: nat ensures Places(moved.log, moved.tasks, moved.pending, r) == Places(s.log, s.tasks, s.pending, r) {
    }
  }

  /** A continuation ends together with the request it held. */
  lemma SettleLedger(s: State, t: nat, e: Event)
    requires Ledger(s) && t in s.tasks
    requires forall r: nat :: Ends(e, r) == if Owner(s.tasks[t]) == Some(r) then 1 else 0
    ensures Ledger(Note(End(s, t), e))
  {
    var end := Note(End(s, t), e);
    EndFrees(s.tasks, t);
    NoteTally(End(s, t), e);
    forall r: nat ensures Places(end.log, end.tasks, end.pending, r) == Places(s.log, s.tasks, s.pending, r) {
      if Owner(s.tasks[t]) == Some(r) {
        assert Holds(s.tasks, t, r);
      }
    }
  }

  lemma AnswerLedger(s: State, t: nat, rid: nat, reply: Reply)
    requires Ledger(s) && t in s.tasks && Owner(s.tasks[t]) == Some(rid)
    ensures Ledger(Answer(s, t, rid, reply)) && Ledger(Finish(s, t, rid, reply))
  {
    SettleLedger(s, t, Answered(rid, reply));
    var answered := Answer(s, t, rid, reply);
    QuietNote(answered.(descriptorWrites := answered.descriptorWrites + [None]), Cleared);
  }

  /** Parking moves the request from its continuation to the map and ends whatever was parked. */
  lemma ParkLedger(s: State, t: nat)
    requires Ledger(s) && t in s.tasks && Owner(s.tasks[t]).Some?
    ensures Ledger(Park(End(s, t), s.tasks[t].request))
  {
    var request := s.tasks[t].request;
    var room := RejectStale(End(s, t), request.rid);
    var parked := Park(End(s, t), request);
    EndFrees(s.tasks, t);
    assert Holds(s.tasks, t, request.rid);
    RejectTally(End(s, t), request.rid);
    NoteTally(room, Parked(Entry(s.nextToken, s.nextToken + 1, request)));
    assert parked.pending == [Entry(s.nextToken, s.nextToken + 1, request)];
    forall r: nat ensures Places(parked.log, parked.tasks, parked.pending, r) == Places(s.log, s.tasks, s.pending, r) {
    }
  }

  lemma RejectTally(s: State, newer: nat)
    requires |s.pending| <= 1
    ensures forall r: nat ::
              Tally(RejectStale(s, newer).log, r) == Tally(s.log, r) + if IsParked(s.pending, r) then 1 else 0
  {
    if s.pending == [] {
      assert s.log + [] == s.log;
    } else {
      var e := Answered(s.pending[0].request.rid, Replaced(newer));
      assert s.pending[1..] == [] && Rejections(s.pending, newer) == [e];
      NoteTally(s, e);
    }
  }

  /** A suspension ends everything in flight, once. */
  lemma SuspendLedger(s: State)
    requires Ledger(s)
    ensures Ledger(StepSuspend(s))
  {
    var lost := InFlight(s);
    var end := StepSuspend(s);
    NoteTally(s, Suspended(lost));
    forall r: nat ensures Places(end.log, end.tasks, end.pending, r) == Places(s.log, s.tasks, s.pending, r) {
      assert !InTask(map[], r) by {
        assert forall t :: !Holds(map[], t, r);
      }
      if InTask(s.tasks, r) {
        var t :| Holds(s.tasks, t, r);
        assert r in lost;
      }
      if r in lost && !IsParked(s.pending, r) {
        var t :| t in s.tasks && Owner(s.tasks[t]).Some? && Owner(s.tasks[t]).value == r;
        assert Holds(s.tasks, t, r);
      }
    }
  }

  /** A request without a verified origin is answered at once. */
  lemma NoOriginLedger(s: State, kind: Kind, payload: string)
    requires Ledger(s)
    ensures Ledger(StepReceive(s, kind, None, payload))
  {
    var arrived := Note(s.(nextRid := s.nextRid + 1), Received(s.nextRid, kind, None, payload));
    var end := Note(arrived, Answered(s.nextRid, NoOrigin));
    assert Places(s.log, s.tasks, s.pending, s.nextRid) == 0;
    NoteTally(s, Received(s.nextRid, kind, None, payload));
    NoteTally(arrived, Answered(s.nextRid, NoOrigin));
    forall r: nat ensures Places(end.log, end.tasks, end.pending, r) == if r < end.nextRid then 1 else 0 {
      assert Places(s.log, s.tasks, s.pending, r) == if r < s.nextRid then 1 else 0;
    }
  }

  /** The new request is in the new continuation, every other one where it was. */
  lemma NewcomerConserved(log: seq<Event>, log': seq<Event>, tasks: map<nat, Stage>, tasks': map<nat, Stage>,
                          pending: seq<Entry>, nextRid: nat)
    requires Conserved(log, tasks, pending, nextRid)
    requires forall r: nat :: Tally(log', r) == Tally(log, r)
    requires forall r: nat :: InTask(tasks', r) <==> InTask(tasks, r) || r == nextRid
    ensures Conserved(log', tasks', pending, nextRid + 1)
  {
    forall r: nat ensures Places(log', tasks', pending, r) == if r < nextRid + 1 then 1 else 0 {
      assert Places(log, tasks, pending, r) == if r < nextRid then 1 else 0;
    }
  }

  /** Any other request is held by the continuation that its handler leaves. */
  lemma ArrivalLedger(s: State, kind: Kind, origin: Origin, payload: string)
    requires Ledger(s)
    ensures Ledger(StepReceive(s, kind, Some(origin), payload))
  {
    var stage := Checking(Request(s.nextRid, kind, origin, payload));
    NewcomerIsNew(s);
    ArrivalEndsNothing(s.log, Received(s.nextRid, kind, Some(origin), payload));
    SpawnAdds(s.tasks, s.nextTask, stage);
    NewcomerConserved(s.log, s.log + [Received(s.nextRid, kind, Some(origin), payload)],
                      s.tasks, s.tasks[s.nextTask := stage], s.pending, s.nextRid);
  }

  lemma NewcomerIsNew(s: State)
    requires Ledger(s)
    ensures !InTask(s.tasks, s.nextRid)
  {
    assert Places(s.log, s.tasks, s.pending, s.nextRid) == 0;
  }

  lemma ArrivalEndsNothing(log: seq<Event>, e: Event)
    requires e.Received?
    ensures forall r: nat :: Tally(log + [e], r) == Tally(log, r)
  {
    forall r: nat ensures Tally(log + [e], r) == Tally(log, r) {
      TallyOne(log, e, r);
    }
  }

  lemma DecideLedger(s: State, trusted: bool, id: nat, nonce: nat, approved: bool)
    requires Ledger(s)
    ensures Ledger(StepDecide(s, trusted, id, nonce, approved))
  {
    var found := Find(s.pending, id);
    if trusted && found.Some? {
      var rid := found.value.request.rid;
      assert s.pending == [found.value];
      assert Without(s.pending, id) == [] by {
        assert s.pending[1..] == [];
      }
      assert Places(s.log, s.tasks, s.pending, rid) == 1 && IsParked(s.pending, rid);
      var taken := Note(s.(pending := []), Taken(id));
      NoteTally(s.(pending := []), Taken(id));
      if nonce == found.value.nonce && approved {
        AcceptLedger(s, taken, found.value, Decision(trusted, id, nonce, approved));
      } else {
        var reply := if nonce != found.value.nonce then BadToken else Denied;
        var answered := Note(taken, Answered(rid, reply));
        NoteTally(taken, Answered(rid, reply));
        forall r: nat
          ensures Places(answered.log, answered.tasks, answered.pending, r) == Places(s.log, s.tasks, s.pending, r)
        {
        }
        assert Ledger(answered);
        QuietNote(answered.(descriptorWrites := answered.descriptorWrites + [None]), Cleared);
      }
    }
  }

  lemma ParkedIsNoTask(s: State)
    requires Ledger(s) && s.pending != []
    ensures !InTask(s.tasks, s.pending[0].request.rid)
  {
    var r := s.pending[0].request.rid;
    assert Places(s.log, s.tasks, s.pending, r) <= 1;
  }

  /** The request moves from the map to a continuation; every other one stays where it was. */
  lemma TakenConserved(log: seq<Event>, log': seq<Event>, tasks: map<nat, Stage>, tasks': map<nat, Stage>,
                       pending: seq<Entry>, nextRid: nat)
    requires Conserved(log, tasks, pending, nextRid) && |pending| == 1
    requires forall r: nat :: Tally(log', r) == Tally(log, r)
    requires forall r: nat :: InTask(tasks', r) <==> InTask(tasks, r) || r == pending[0].request.rid
    requires !InTask(tasks, pending[0].request.rid)
    ensures Conserved(log', tasks', [], nextRid)
  {
    forall r: nat ensures Places(log', tasks', [], r) == if r < nextRid then 1 else 0 {
      assert Places(log, tasks, pending, r) == if r < nextRid then 1 else 0;
    }
  }

  lemma AcceptLedger(s: State, taken: State, entry: Entry, decision: Decision)
    requires Ledger(s) && s.pending == [entry]
    requires taken.pending == [] && taken.tasks == s.tasks
    requires taken.nextTask == s.nextTask && taken.nextRid == s.nextRid
    requires forall r: nat :: Tally(taken.log, r) == Tally(s.log, r)
    ensures var request := entry.request;
            Ledger(Spawn(Note(taken, Accepted(entry, decision)),
                         if request.kind.Connect? then ConnectKey(request) else ReadingKey(request)))
  {
    var request := entry.request;
    var stage := if request.kind.Connect? then ConnectKey(request) else ReadingKey(request);
    NoteTally(taken, Accepted(entry, decision));
    ParkedIsNoTask(s);
    SpawnAdds(s.tasks, s.nextTask, stage);
    TakenConserved(s.log, taken.log + [Accepted(entry, decision)], s.tasks, s.tasks[s.nextTask := stage],
                   s.pending, s.nextRid);
  }

  lemma ResumeCheckedLedger(s: State, t: nat)
    requires Ledger(s) && t in s.tasks && s.tasks[t].Checked?
    ensures Ledger(ResumeChecked(s, t, s.tasks[t].request, s.tasks[t].seen))
  {
    var Checked(request, seen) := s.tasks[t];
    if request.kind.Connect? {
      if request.origin in seen {
        MoveLedger(s, t, FetchingKey(request));
      } else {
        ParkLedger(s, t);
      }
    } else if request.origin !in seen {
      AnswerLedger(s, t, request.rid, NotConnected);
    } else {
      var e := OriginFound(request.rid, request.origin);
      QuietNote(s, e);
      ParkLedger(Note(s, e), t);
      assert End(Note(s, e), t) == Note(End(s, t), e);
    }
  }

  lemma ResumeSignLedger(s: State, t: nat, given: Given)
    requires Ledger(s) && t in s.tasks && (s.tasks[t].ReadingKey? || s.tasks[t].Signing?)
    ensures Ledger(StepResume(s, t, given))
  {
    var request := s.tasks[t].request;
    if s.tasks[t].ReadingKey? {
      var (wallet, key) := ReadActiveKey(s.wallet, given.works);
      var read := s.(wallet := wallet);
      if !Truthy(key) {
        AnswerLedger(read, t, request.rid, Failed);
      } else {
        QuietNote(read, KeyRead(request, key.value, s.wallet, given.works));
        MoveLedger(Note(read, KeyRead(request, key.value, s.wallet, given.works)), t, Signing(request, key.value));
      }
    } else if request.payload == "" {
      SettleLedger(s, t, Dropped(request));
      var dropped := Note(End(s, t), Dropped(request));
      QuietNote(dropped.(descriptorWrites := dropped.descriptorWrites + [None]), Cleared);
    } else if request.kind.SignTransaction? {
      AnswerLedger(s, t, request.rid, Signed(request, s.tasks[t].secretKey));
    } else {
      MoveLedger(s, t, SigningMessage(request, s.tasks[t].secretKey));
    }
  }

  lemma ResumeConnectLedger(s: State, t: nat, given: Given)
    requires Ledger(s) && t in s.tasks
    requires s.tasks[t].ConnectKey? || s.tasks[t].ConnectRead? || s.tasks[t].ConnectWritten?
    ensures Ledger(StepResume(s, t, given))
  {
    match s.tasks[t]
    case ConnectKey(request) =>
      if Truthy(given.publicKey) {
        MoveLedger(s, t, ConnectOrigins(request, given.publicKey.value));
      } else {
        AnswerLedger(s, t, request.rid, Failed);
      }
    case ConnectRead(request, key, seen) =>
      AnswerLedger(s, t, request.rid, Connected(key));
      MoveLedger(s, t, ConnectWriting(request, key));
    case ConnectWritten(request, key) => AnswerLedger(s, t, request.rid, Connected(key));
  }

  /** A continuation that owes no response ends. */
  lemma EndLedger(s: State, t: nat)
    requires Ledger(s) && t in s.tasks && Owner(s.tasks[t]).None?
    ensures Ledger(End(s, t))
  {
    EndFrees(s.tasks, t);
    var end := End(s, t);
    forall r: nat ensures Places(end.log, end.tasks, end.pending, r) == Places(s.log, s.tasks, s.pending, r) {
    }
  }

  lemma ThrowLedger(s: State, t: nat)
    requires Ledger(s) && t in s.tasks
    ensures Ledger(StepThrow(s, t))
  {
    if CanThrow(s.tasks[t]) {
      var rid := s.tasks[t].request.rid;
      QuietNote(s, CallFailed(rid));
      AnswerLedger(Note(s, CallFailed(rid)), t, rid, Failed);
    } else if ReadsUncaught(s.tasks[t]) {
      SettleLedger(s, t, ReadRejected(s.tasks[t].request.rid));
    } else if s.tasks[t].Disconnecting? {
      EndLedger(s, t);
    }
  }

  lemma ResumeLedger(s: State, t: nat, given: Given)
    requires Ledger(s) && t in s.tasks
    ensures Ledger(StepResume(s, t, given))
  {
    match s.tasks[t]
    case Checked(_, _) => ResumeCheckedLedger(s, t);
    case FetchingKey(request) => AnswerLedger(s, t, request.rid, AutoConnected(given.publicKey));
    case DisconnectRead(_, _) =>
      EndLedger(s, t);
    case ConnectKey(_) => ResumeConnectLedger(s, t, given);
    case ConnectRead(_, _, _) => ResumeConnectLedger(s, t, given);
    case ConnectWritten(_, _) => ResumeConnectLedger(s, t, given);
    case ReadingKey(_) => ResumeSignLedger(s, t, given);
    case Signing(_, _) => ResumeSignLedger(s, t, given);
    case SigningMessage(request, key) => AnswerLedger(s, t, request.rid, Signed(request, key));
    case _ =>
  }

  lemma ReadOriginsLedger(s: State, t: nat)
    requires Ledger(s) && t in s.tasks
    ensures Ledger(StepReadOrigins(s, t))
  {
    match s.tasks[t]
    case Checking(request) => MoveLedger(s, t, Checked(request, s.origins));
    case Disconnecting(origin) => MoveLedger(s, t, DisconnectRead(origin, s.origins));
    case ConnectOrigins(request, key) => MoveLedger(s, t, ConnectRead(request, key, s.origins));
    case _ =>
  }

  lemma LandOriginsLedger(s: State)
    requires Ledger(s) && s.originWrites != []
    ensures Ledger(StepLandOrigins(s))
  {
    var w := s.originWrites[0];
    var landed := s.(origins := w.origins, originWrites := s.originWrites[1..]);
    if w.task in s.tasks && s.tasks[w.task].ConnectWriting? {
      MoveLedger(landed, w.task, ConnectWritten(s.tasks[w.task].request, s.tasks[w.task].publicKey));
    }
  }

  lemma StepLedger(s: State, a: Action)
    requires Ledger(s)
    ensures Ledger(Step(s, a))
  {
    match a
    case Receive(kind, None, payload) => NoOriginLedger(s, kind, payload);
    case Receive(kind, Some(origin), payload) => ArrivalLedger(s, kind, origin, payload);
    case ReceiveDisconnect(None) =>
    case ReceiveDisconnect(Some(origin)) =>
      SpawnAdds(s.tasks, s.nextTask, Disconnecting(origin));
      var end := Step(s, a);
      forall r: nat ensures Places(end.log, end.tasks, end.pending, r) == Places(s.log, s.tasks, s.pending, r) {
      }
    case Decide(trusted, id, nonce, approved) => DecideLedger(s, trusted, id, nonce, approved);
    case ReadOrigins(t) => if t in s.tasks { ReadOriginsLedger(s, t); }
    case Resume(t, given) => if t in s.tasks { ResumeLedger(s, t, given); }
    case Throw(t) => if t in s.tasks { ThrowLedger(s, t); }
    case LandOrigins => if s.originWrites != [] { LandOriginsLedger(s); }
    case LandDescriptor =>
    case WalletStep(_) =>
    case Suspend => SuspendLedger(s);
  }

  /** The log only grows, and only an arrival takes a new request number. */
  lemma StepGrows(s: State, a: Action)
    ensures s.log <= Step(s, a).log
    ensures Step(s, a).nextRid == if a.Receive? then s.nextRid + 1 else s.nextRid
  {
    if a.Resume? && a.task in s.tasks {
      ResumeGrows(s, a.task, a.given);
    }
  }

  lemma ResumeGrows(s: State, t: nat, given: Given)
    requires t in s.tasks
    ensures s.log <= StepResume(s, t, given).log && StepResume(s, t, given).nextRid == s.nextRid
  {
    match s.tasks[t]
    case Checked(request, seen) =>
      assert ResumeChecked(s, t, request, seen).nextRid == s.nextRid;
    case ReadingKey(request) =>
      assert s.log <= ResumeReadingKey(s, t, request, given.works).log;
    case Signing(request, key) =>
      assert s.log <= ResumeSigning(s, t, request, key).log;
    case _ =>
  }

  lemma {:induction false} TallyGrows(log: seq<Event>, more: seq<Event>, r: nat)
    ensures Tally(log + more, r) >= Tally(log, r)
    decreases |more|
  {
    if more == [] {
      assert log + more == log;
    } else {
      assert (log + more)[..|log + more| - 1] == log + more[..|more| - 1];
      TallyGrows(log, more[..|more| - 1], r);
    }
  }

  lemma {:induction false} RunLedger(first: seq<Origin>, wallet: Wallet, actions: seq<Action>)
    ensures Ledger(Run(Init(first, wallet), actions))
  {
    var s := Init(first, wallet);
    if actions == [] {
      forall r: nat ensures Places(s.log, s.tasks, s.pending, r) == 0 {
        assert forall t :: !Holds(map[], t, r);
      }
    } else {
      RunLedger(first, wallet, actions[..|actions| - 1]);
      StepLedger(Run(s, actions[..|actions| - 1]), actions[|actions| - 1]);
    }
  }

  // ------------------------------------------------------------------
  // Main results
  // ------------------------------------------------------------------

  /** Position `i` of the log, and no other, ends `r`. */
  ghost predicate EndedAt(log: seq<Event>, r: nat, i: int) {
    && 0 <= i < |log| && Ends(log[i], r) == 1
    && forall j :: 0 <= j < |log| && j != i ==> Ends(log[j], r) == 0
  }

  ghost predicate NeverEnded(log: seq<Event>, r: nat) {
    forall i :: 0 <= i < |log| ==> Ends(log[i], r) == 0
  }

  lemma {:induction false} TallyZero(log: seq<Event>, r: nat)
    ensures Tally(log, r) == 0 <==> NeverEnded(log, r)
  {
    if log != [] {
      TallyZero(log[..|log| - 1], r);
      assert forall i :: 0 <= i < |log| - 1 ==> log[..|log| - 1][i] == log[i];
    }
  }

  lemma {:induction false} TallyOnce(log: seq<Event>, r: nat) returns (i: nat)
    requires Tally(log, r) == 1
    ensures EndedAt(log, r, i)
  {
    var front := log[..|log| - 1];
    assert forall j :: 0 <= j < |front| ==> front[j] == log[j];
    TallyZero(front, r);
    if Tally(front, r) == 0 {
      i := |front|;
    } else {
      i := TallyOnce(front, r);
    }
  }

  /**
   Conservation: in every interleaving a request that arrived is in exactly
   one place: held by one continuation, or parked (the map never holds more
   than that one entry), or ended by one event of the run. Nothing is known of
   requests that did not arrive.
   */
  lemma RequestsAreConserved(first: seq<Origin>, wallet: Wallet, actions: seq<Action>, r: nat)
    ensures var s := Run(Init(first, wallet), actions);
      && |s.pending| <= 1
      && (forall t1, t2 :: Holds(s.tasks, t1, r) && Holds(s.tasks, t2, r) ==> t1 == t2)
      && (r < s.nextRid ==>
            || (InTask(s.tasks, r) && !IsParked(s.pending, r) && NeverEnded(s.log, r))
            || (!InTask(s.tasks, r) && IsParked(s.pending, r) && NeverEnded(s.log, r))
            || (!InTask(s.tasks, r) && !IsParked(s.pending, r) && exists i :: EndedAt(s.log, r, i)))
      && (r >= s.nextRid ==> !InTask(s.tasks, r) && !IsParked(s.pending, r) && NeverEnded(s.log, r))
  {
    var s := Run(Init(first, wallet), actions);
    RunLedger(first, wallet, actions);
    assert Places(s.log, s.tasks, s.pending, r) == if r < s.nextRid then 1 else 0;
    TallyZero(s.log, r);
    if Tally(s.log, r) == 1 {
      var i := TallyOnce(s.log, r);
    }
  }

  /** No response callback is ever called twice. */
  lemma AnsweredAtMostOnce(first: seq<Origin>, wallet: Wallet, actions: seq<Action>, i: nat, j: nat)
    requires var log := Run(Init(first, wallet), actions).log;
             i < |log| && j < |log| && log[i].Answered? && log[j].Answered? && log[i].rid == log[j].rid
    ensures i == j
  {
    var s := Run(Init(first, wallet), actions);
    RequestsAreConserved(first, wallet, actions, s.log[i].rid);
    assert Ends(s.log[i], s.log[i].rid) == 1 && Ends(s.log[j], s.log[i].rid) == 1;
  }

  lemma InFlightMeans(s: State, r: nat)
    requires |s.pending| <= 1
    ensures r in InFlight(s) <==> InTask(s.tasks, r) || IsParked(s.pending, r)
  {
    if InTask(s.tasks, r) {
      var t :| Holds(s.tasks, t, r);
      assert t in s.tasks && Owner(s.tasks[t]).Some? && Owner(s.tasks[t]).value == r;
    }
    if r in InFlight(s) && !IsParked(s.pending, r) {
      var t :| t in s.tasks && Owner(s.tasks[t]).Some? && Owner(s.tasks[t]).value == r;
      assert Holds(s.tasks, t, r);
    }
  }
}
