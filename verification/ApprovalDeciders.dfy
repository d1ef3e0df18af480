/**
 The decisions in flight: a continuation of an approved decision runs exactly
 for those requests whose acceptance is on record and whose end is not.
 */
module ApprovalDeciders {
  import opened Prelude
  import opened SessionKey
  import opened Approvals
  import opened Continuations
  import opened ApprovalSafety
  import opened ApprovalLedger

  /** The stages of an approved decision. */
  ghost predicate Deciding(stage: Stage) {
    !stage.Checking? && !stage.Checked? && !stage.FetchingKey? && !stage.Disconnecting? && !stage.DisconnectRead?
  }

  ghost predicate DecisionRunning(tasks: map<nat, Stage>) {
    exists t :: t in tasks && Deciding(tasks[t])
  }

  /** The log shows a decision that was accepted and has not ended. */
  ghost predicate DecisionUnderWay(log: seq<Event>) {
    exists e, d :: Accepted(e, d) in log && Tally(log, e.request.rid) == 0
  }

  ghost predicate DecidedBy(tasks: map<nat, Stage>, t: nat, r: nat) {
    Holds(tasks, t, r) && Deciding(tasks[t])
  }

  ghost predicate Decided(tasks: map<nat, Stage>, r: nat) {
    exists t :: DecidedBy(tasks, t, r)
  }

  ghost predicate Deciders(log: seq<Event>, tasks: map<nat, Stage>) {
    && (forall e, d :: Accepted(e, d) in log && Tally(log, e.request.rid) == 0 ==> Decided(tasks, e.request.rid))
    && (forall t :: t in tasks && Deciding(tasks[t]) ==>
          exists e, d :: Accepted(e, d) in log && e.request.rid == tasks[t].request.rid)
  }

  lemma EndIsTallied(log: seq<Event>, e: Event, r: nat)
    requires e in log && Ends(e, r) == 1
    ensures Tally(log, r) >= 1
  {
    TallyZero(log, r);
    var i :| 0 <= i < |log| && log[i] == e;
  }

  /** An answered decision is over. */
  lemma FinishTallies(s: State, t: nat, e: Event, r: nat)
    requires Ends(e, r) == 1
    ensures Tally(IssueClear(Note(End(s, t), e)).log, r) >= 1
  {
    var log := IssueClear(Note(End(s, t), e)).log;
    assert log[|s.log|] == e;
    EndIsTallied(log, e, r);
  }

  /** The continuation of `r` goes on as a decision, or `r` is over. */
  ghost predicate GoesOn(end: State, t: nat, r: nat) {
    DecidedBy(end.tasks, t, r) || Tally(end.log, r) >= 1
  }

  lemma FinishGoesOn(s: State, t: nat, rid: nat, reply: Reply)
    ensures GoesOn(Finish(s, t, rid, reply), t, rid)
  {
    FinishTallies(s, t, Answered(rid, reply), rid);
  }

  lemma ConnectGoesOn(s: State, t: nat, given: Given)
    requires t in s.tasks && (s.tasks[t].ConnectKey? || s.tasks[t].ConnectRead? || s.tasks[t].ConnectWritten?)
    ensures GoesOn(StepResume(s, t, given), t, s.tasks[t].request.rid)
  {
    var rid := s.tasks[t].request.rid;
    if s.tasks[t].ConnectKey? {
      FinishGoesOn(s, t, rid, Failed);
    } else {
      FinishGoesOn(s, t, rid, Connected(s.tasks[t].publicKey));
    }
  }

  lemma SignGoesOn(s: State, t: nat, request: Request, given: Given)
    requires t in s.tasks && s.tasks[t] == ReadingKey(request)
    ensures GoesOn(ResumeReadingKey(s, t, request, given.works), t, request.rid)
  {
    FinishGoesOn(s.(wallet := ReadActiveKey(s.wallet, given.works).0), t, request.rid, Failed);
  }

  lemma DropGoesOn(s: State, t: nat, request: Request)
    ensures GoesOn(IssueClear(Note(End(s, t), Dropped(request))), t, request.rid)
  {
    FinishTallies(s, t, Dropped(request), request.rid);
  }

  lemma SigningGoesOn(s: State, t: nat, request: Request, key: string)
    requires t in s.tasks && s.tasks[t] == Signing(request, key)
    ensures GoesOn(ResumeSigning(s, t, request, key), t, request.rid)
  {
    if request.payload == "" {
      DropGoesOn(s, t, request);
    } else if request.kind.SignTransaction? {
      FinishGoesOn(s, t, request.rid, Signed(request, key));
    } else {
      assert DecidedBy(Continue(s, t, SigningMessage(request, key)).tasks, t, request.rid);
    }
  }

  lemma ResumeGoesOn(s: State, t: nat, given: Given)
    requires t in s.tasks && Deciding(s.tasks[t])
    ensures GoesOn(StepResume(s, t, given), t, s.tasks[t].request.rid)
  {
    match s.tasks[t]
    case ConnectKey(_) => ConnectGoesOn(s, t, given);
    case ConnectRead(_, _, _) => ConnectGoesOn(s, t, given);
    case ConnectWritten(_, _) => ConnectGoesOn(s, t, given);
    case ReadingKey(request) => SignGoesOn(s, t, request, given);
    case Signing(request, key) => SigningGoesOn(s, t, request, key);
    case SigningMessage(request, key) => FinishGoesOn(s, t, request.rid, Signed(request, key));
    case _ =>
  }

  lemma ThrowGoesOn(s: State, t: nat)
    requires t in s.tasks && Deciding(s.tasks[t])
    ensures GoesOn(StepThrow(s, t), t, s.tasks[t].request.rid)
  {
    var rid := s.tasks[t].request.rid;
    FinishGoesOn(Note(s, CallFailed(rid)), t, rid, Failed);
  }

  lemma SuspendGoesOn(s: State, t: nat)
    requires Ledger(s) && t in s.tasks && Deciding(s.tasks[t])
    ensures GoesOn(StepSuspend(s), t, s.tasks[t].request.rid)
  {
    var r := s.tasks[t].request.rid;
    assert Holds(s.tasks, t, r);
    InFlightMeans(s, r);
    EndIsTallied(StepSuspend(s).log, Suspended(InFlight(s)), r);
  }

  /** In every step a running decision goes on, or its request ends. */
  lemma DecisionGoesOn(s: State, a: Action, t: nat)
    requires Ledger(s) && t in s.tasks && Deciding(s.tasks[t])
    ensures GoesOn(Step(s, a), t, s.tasks[t].request.rid)
  {
    match a
    case Resume(u, given) => if u == t { ResumeGoesOn(s, t, given); } else { SparedGoesOn(s, a, t); }
    case Throw(u) => if u == t { ThrowGoesOn(s, t); } else { SparedGoesOn(s, a, t); }
    case Suspend => SuspendGoesOn(s, t);
    case ReadOrigins(_) =>
    case LandOrigins =>
    case _ => SparedGoesOn(s, a, t);
  }

  lemma SparedGoesOn(s: State, a: Action, t: nat)
    requires t in s.tasks && t < s.nextTask && Deciding(s.tasks[t]) && Spares(a, t) && !a.LandOrigins?
    ensures GoesOn(Step(s, a), t, s.tasks[t].request.rid)
  {
    StepSpares(s, a, t);
  }

  /** Only an acceptance is logged as one, and it starts its continuation. */
  lemma AcceptanceStarts(s: State, a: Action, e: Entry, d: Decision)
    requires Accepted(e, d) in Step(s, a).log && Accepted(e, d) !in s.log
    ensures DecidedBy(Step(s, a).tasks, s.nextTask, e.request.rid)
  {
    match a
    case Resume(t, given) => if t in s.tasks { ResumeAcceptsNothing(s, t, given, e, d); }
    case Decide(trusted, id, nonce, approved) => DecideStarts(s, trusted, id, nonce, approved, e, d);
    case _ =>
  }

  lemma DecideStarts(s: State, trusted: bool, id: nat, nonce: nat, approved: bool, e: Entry, d: Decision)
    requires Accepted(e, d) in StepDecide(s, trusted, id, nonce, approved).log && Accepted(e, d) !in s.log
    ensures DecidedBy(StepDecide(s, trusted, id, nonce, approved).tasks, s.nextTask, e.request.rid)
  {
  }

  lemma ResumeAcceptsNothing(s: State, t: nat, given: Given, e: Entry, d: Decision)
    requires t in s.tasks
    ensures Accepted(e, d) in StepResume(s, t, given).log ==> Accepted(e, d) in s.log
  {
    match s.tasks[t]
    case Checked(request, seen) => CheckedAcceptsNothing(s, t, request, seen, e, d);
    case ReadingKey(request) => ReadingAcceptsNothing(s, t, request, given.works, e, d);
    case Signing(request, key) => SigningAcceptsNothing(s, t, request, key, e, d);
    case _ =>
  }

  lemma ReadingAcceptsNothing(s: State, t: nat, request: Request, works: bool, e: Entry, d: Decision)
    ensures Accepted(e, d) in ResumeReadingKey(s, t, request, works).log ==> Accepted(e, d) in s.log
  {
  }

  lemma SigningAcceptsNothing(s: State, t: nat, request: Request, key: string, e: Entry, d: Decision)
    ensures Accepted(e, d) in ResumeSigning(s, t, request, key).log ==> Accepted(e, d) in s.log
  {
  }

  lemma CheckedAcceptsNothing(s: State, t: nat, request: Request, seen: seq<Origin>, e: Entry, d: Decision)
    ensures Accepted(e, d) in ResumeChecked(s, t, request, seen).log ==> Accepted(e, d) in s.log
  {
    RejectionsAreAnswers(s.pending, request.rid);
  }

  lemma StepDeciders(s: State, first: seq<Origin>, a: Action)
    requires Ledger(s) && Safe(s, first) && Deciders(s.log, s.tasks)
    ensures Deciders(Step(s, a).log, Step(s, a).tasks)
  {
    var end := Step(s, a);
    StepGrows(s, a);
    assert s.log + end.log[|s.log|..] == end.log;
    forall e, d | Accepted(e, d) in end.log && Tally(end.log, e.request.rid) == 0
      ensures Decided(end.tasks, e.request.rid)
    {
      if Accepted(e, d) in s.log {
        TallyGrows(s.log, end.log[|s.log|..], e.request.rid);
        var t :| DecidedBy(s.tasks, t, e.request.rid);
        DecisionGoesOn(s, a, t);
      } else {
        AcceptanceStarts(s, a, e, d);
      }
    }
    StepSafe(s, first, a);
    SafeDeciders(end.log, first, end.tasks);
  }

  /** A running decision's request was accepted. */
  lemma SafeDeciders(log: seq<Event>, first: seq<Origin>, tasks: map<nat, Stage>)
    requires StagesOk(log, first, tasks) && WellFounded(log, first)
    ensures forall t :: t in tasks && Deciding(tasks[t]) ==>
              exists e, d :: Accepted(e, d) in log && e.request.rid == tasks[t].request.rid
  {
    forall t | t in tasks && Deciding(tasks[t])
      ensures exists e, d :: Accepted(e, d) in log && e.request.rid == tasks[t].request.rid
    {
      var stage := tasks[t];
      assert StageOk(log, first, stage);
      if stage.Signing? || stage.SigningMessage? {
        var w, works :| KeyRead(stage.request, stage.secretKey, w, works) in log;
        var j :| 0 <= j < |log| && log[j] == KeyRead(stage.request, stage.secretKey, w, works);
        BecauseAt(log, first, j);
        var e :| Accepted(e, Approving(e)) in log[..j] && e.request == stage.request;
        assert Accepted(e, Approving(e)) in log;
      } else {
        assert AcceptedRequest(log, stage.request);
      }
    }
  }

  lemma {:induction false} RunDeciders(first: seq<Origin>, wallet: Wallet, actions: seq<Action>)
    ensures var s := Run(Init(first, wallet), actions); Deciders(s.log, s.tasks)
  {
    if actions != [] {
      RunDeciders(first, wallet, actions[..|actions| - 1]);
      RunLedger(first, wallet, actions[..|actions| - 1]);
      RunSafe(first, wallet, actions[..|actions| - 1]);
      StepDeciders(Run(Init(first, wallet), actions[..|actions| - 1]), first, actions[|actions| - 1]);
    }
  }

  /** Just before a request is parked, the log shows a decision under way exactly when one is running. */
  lemma RunningWhenParking(s: State, t: nat, s': State)
    requires Ledger(s) && Deciders(s.log, s.tasks) && t in s.tasks && s.tasks[t].Checked?
    requires s' == End(s, t)
             || s' == Note(End(s, t), OriginFound(s.tasks[t].request.rid, s.tasks[t].request.origin))
    ensures DecisionRunning(s'.tasks) <==> DecisionUnderWay(RejectStale(s', s.tasks[t].request.rid).log)
  {
    var newer := s.tasks[t].request.rid;
    var log := RejectStale(s', newer).log;
    RejectionsAreAnswers(s.pending, newer);
    NoteTally(End(s, t), OriginFound(newer, s.tasks[t].request.origin));
    RejectTally(s', newer);
    forall e, d | Accepted(e, d) in log && Tally(log, e.request.rid) == 0 ensures DecisionRunning(s'.tasks) {
      assert Accepted(e, d) in s.log;
      var u :| DecidedBy(s.tasks, u, e.request.rid);
      assert u in s'.tasks && Deciding(s'.tasks[u]);
    }
    forall u | u in s'.tasks && Deciding(s'.tasks[u]) ensures DecisionUnderWay(log) {
      var r := s.tasks[u].request.rid;
      var e, d :| Accepted(e, d) in s.log && e.request.rid == r;
      assert Holds(s.tasks, u, r);
      assert Places(s.log, s.tasks, s.pending, r) == if r < s.nextRid then 1 else 0;
      assert Accepted(e, d) in log;
    }
  }
}
