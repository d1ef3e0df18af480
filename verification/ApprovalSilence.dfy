/**
 Requests that end without a response: which inputs lead there, exactly.
 */
module ApprovalSilence {
  import opened Prelude
  import opened SessionKey
  import opened Approvals
  import opened Continuations
  import opened ApprovalSafety
  import opened ApprovalLedger
  import opened ApprovalDeciders
  import opened ApprovalDisplay

  // ------------------------------------------------------------------
  // An approved sign request with an empty payload
  // ------------------------------------------------------------------

  /** A continuation that is about to sign, and nothing rejects or erases it. */
  ghost predicate Unaborted(actions: seq<Action>, t: nat) {
    forall a :: a in actions ==> a != Throw(t) && !a.Suspend?
  }

  /** Still signing, or ended: answered with the signature, or dropped when there was nothing to sign. */
  ghost predicate SigningFate(s: State, t: nat, request: Request, key: string) {
    && t < s.nextTask
    && if t in s.tasks then
         s.tasks[t] == Signing(request, key) || (s.tasks[t] == SigningMessage(request, key) && request.payload != "")
       else if request.payload == "" then Dropped(request) in s.log
       else Answered(request.rid, Signed(request, key)) in s.log
  }

  lemma StepSigningFate(s: State, t: nat, request: Request, key: string, a: Action)
    requires Ledger(s) && SigningFate(s, t, request, key) && a != Throw(t) && !a.Suspend?
    ensures SigningFate(Step(s, a), t, request, key)
  {
    StepGrows(s, a);
    if a.Resume? && a.task == t {
      if t in s.tasks { OwnSigningFate(s, t, request, key, a.given); }
    } else if !Spares(a, t) {
      assert Step(s, a) == s;
    } else {
      StepSpares(s, a, t);
    }
  }

  lemma OwnSigningFate(s: State, t: nat, request: Request, key: string, given: Given)
    requires t in s.tasks && SigningFate(s, t, request, key)
    ensures SigningFate(StepResume(s, t, given), t, request, key)
  {
    if s.tasks[t].SigningMessage? || request.kind.SignTransaction? {
      assert Finish(s, t, request.rid, Signed(request, key)).log[|s.log|]
          == Answered(request.rid, Signed(request, key));
    }
    if request.payload == "" {
      assert ResumeSigning(s, t, request, key).log[|s.log|] == Dropped(request);
    }
  }

  lemma {:induction false} RunSigningFate(s: State, t: nat, request: Request, key: string, actions: seq<Action>)
    requires Ledger(s) && SigningFate(s, t, request, key) && Unaborted(actions, t)
    ensures Ledger(Run(s, actions)) && SigningFate(Run(s, actions), t, request, key)
  {
    if actions != [] {
      var front := actions[..|actions| - 1];
      var last := actions[|actions| - 1];
      assert last in actions;
      RunSigningFate(s, t, request, key, front);
      StepSigningFate(Run(s, front), t, request, key, last);
      StepLedger(Run(s, front), last);
    }
  }

  /** Two events that end the same request are the same event. */
  lemma OneEnd(s: State, r: nat, e: Event, f: Event)
    requires Ledger(s) && e in s.log && f in s.log && Ends(e, r) == 1 && Ends(f, r) == 1
    ensures e == f
  {
    EndIsTallied(s.log, e, r);
    assert Places(s.log, s.tasks, s.pending, r) == if r < s.nextRid then 1 else 0;
    var i := TallyOnce(s.log, r);
    var j :| 0 <= j < |s.log| && s.log[j] == e;
    var k :| 0 <= k < |s.log| && s.log[k] == f;
  }

  lemma {:induction false} RunGrows(s: State, actions: seq<Action>)
    requires Ledger(s)
    ensures Ledger(Run(s, actions)) && s.log <= Run(s, actions).log
  {
    if actions != [] {
      var front := actions[..|actions| - 1];
      RunGrows(s, front);
      StepGrows(Run(s, front), actions[|actions| - 1]);
      StepLedger(Run(s, front), actions[|actions| - 1]);
    }
  }

  /** What ended without a response is not answered later. */
  lemma SilentForever(s: State, r: nat, e: Event, more: seq<Action>)
    requires Ledger(s) && e in s.log && Ends(e, r) == 1 && !e.Answered?
    ensures forall reply :: Answered(r, reply) !in Run(s, more).log
  {
    RunGrows(s, more);
    var end := Run(s, more);
    assert e in end.log;
    forall reply ensures Answered(r, reply) !in end.log {
      if Answered(r, reply) in end.log {
        OneEnd(end, r, e, Answered(r, reply));
      }
    }
  }

  /**
   Whatever else happens meanwhile, a continuation that is about to sign and is
   neither rejected nor erased ends with the signature if and only if the
   payload is not empty; with an empty payload the request is never answered.
   */
  lemma SigningAnswersExactly(s: State, t: nat, request: Request, key: string, actions: seq<Action>, more: seq<Action>)
    requires Ledger(s) && t in s.tasks && s.tasks[t] == Signing(request, key) && Unaborted(actions, t)
    requires t !in Run(s, actions).tasks
    ensures var end := Run(s, actions);
      && (Answered(request.rid, Signed(request, key)) in end.log <==> request.payload != "")
      && (request.payload == "" ==> forall reply :: Answered(request.rid, reply) !in Run(end, more).log)
  {
    RunSigningFate(s, t, request, key, actions);
    if request.payload == "" {
      SilentForever(Run(s, actions), request.rid, Dropped(request), []);
      SilentForever(Run(s, actions), request.rid, Dropped(request), more);
      assert Run(Run(s, actions), []) == Run(s, actions);
    }
  }

  /** Approve the parked request, read the key, sign. */
  function EmptySchedule(task: nat, token: nat, origin: Origin): seq<Action> {
    ParkSchedule(task, origin, "")
    + [Decide(true, token, token + 1, true)]
    + [Resume(task + 1, NOTHING), Resume(task + 1, NOTHING)]
  }

  /**
   From any settled state with nothing parked and an unlocked key, a connected
   origin's sign request with an empty payload is approved, and neither then
   nor in any later run does it get a response.
   */
  lemma EmptyPayloadIsSilent(s: State, first: seq<Origin>, origin: Origin, more: seq<Action>)
    requires Reachable(s, first) && Quiescent(s) && s.pending == [] && origin in s.origins
    requires Truthy(ReadActiveKey(s.wallet, true).1)
    ensures var end := Run(s, EmptySchedule(s.nextTask, s.nextToken, origin));
      && end.tasks == map[] && end.pending == []
      && forall reply :: Answered(s.nextRid, reply) !in Run(end, more).log
  {
    var wallet, actions :| s == Run(Init(first, wallet), actions);
    RunLedger(first, wallet, actions);
    var schedule := EmptySchedule(s.nextTask, s.nextToken, origin);
    EmptyIsDropped(s, origin);
    RunGrows(s, schedule);
    SilentForever(Run(s, schedule), s.nextRid, Dropped(Request(s.nextRid, SignMessage, origin, "")), more);
  }

  /** The state ended with nothing in flight, and this request was dropped. */
  ghost predicate DroppedAndDone(s: State, request: Request) {
    s.tasks == map[] && s.pending == [] && Dropped(request) in s.log
  }

  lemma EmptyIsDropped(s: State, origin: Origin)
    requires Quiescent(s) && s.pending == [] && origin in s.origins && Truthy(ReadActiveKey(s.wallet, true).1)
    ensures DroppedAndDone(Run(s, EmptySchedule(s.nextTask, s.nextToken, origin)),
                           Request(s.nextRid, SignMessage, origin, ""))
  {
    var xs := ParkSchedule(s.nextTask, origin, "");
    var accept := Decide(true, s.nextToken, s.nextToken + 1, true);
    EmptyEnds(s, origin);
    RunAppend(s, xs, accept);
    RunJoin(s, xs + [accept], [Resume(s.nextTask + 1, NOTHING), Resume(s.nextTask + 1, NOTHING)]);
  }

  lemma EmptyEnds(s: State, origin: Origin)
    requires Quiescent(s) && s.pending == [] && origin in s.origins && Truthy(ReadActiveKey(s.wallet, true).1)
    ensures var accepted := Step(Run(s, ParkSchedule(s.nextTask, origin, "")),
                                 Decide(true, s.nextToken, s.nextToken + 1, true));
            DroppedAndDone(Run(accepted, [Resume(s.nextTask + 1, NOTHING), Resume(s.nextTask + 1, NOTHING)]),
                           Request(s.nextRid, SignMessage, origin, ""))
  {
    var request := Request(s.nextRid, SignMessage, origin, "");
    var parked := Run(s, ParkSchedule(s.nextTask, origin, ""));
    ParkRun(s, origin, "");
    AcceptStep(parked, Entry(s.nextToken, s.nextToken + 1, request));
    SignEmpty(Step(parked, Decide(true, s.nextToken, s.nextToken + 1, true)), s.nextTask + 1, request);
  }

  lemma SignEmpty(s: State, t: nat, request: Request)
    requires s.tasks == map[t := ReadingKey(request)] && s.pending == [] && request.payload == ""
    requires Truthy(ReadActiveKey(s.wallet, true).1)
    ensures DroppedAndDone(Run(s, [Resume(t, NOTHING), Resume(t, NOTHING)]), request)
  {
    RunTwo(s, Resume(t, NOTHING), Resume(t, NOTHING));
    KeyComes(s, t, request);
    DropEmpty(Step(s, Resume(t, NOTHING)), t, request, ReadActiveKey(s.wallet, true).1.value);
  }

  lemma KeyComes(s: State, t: nat, request: Request)
    requires s.tasks == map[t := ReadingKey(request)] && Truthy(ReadActiveKey(s.wallet, true).1)
    ensures var read := Step(s, Resume(t, NOTHING));
            read.tasks == map[t := Signing(request, ReadActiveKey(s.wallet, true).1.value)] && read.pending == s.pending
  {
    assert Step(s, Resume(t, NOTHING)) == ResumeReadingKey(s, t, request, true);
  }

  lemma DropEmpty(s: State, t: nat, request: Request, key: string)
    requires s.tasks == map[t := Signing(request, key)] && s.pending == [] && request.payload == ""
    ensures DroppedAndDone(Step(s, Resume(t, NOTHING)), request)
  {
    var end := ResumeSigning(s, t, request, key);
    assert Step(s, Resume(t, NOTHING)) == end;
    assert end.log[|s.log|] == Dropped(request);
    assert end.tasks == map[];
  }

  // ------------------------------------------------------------------
  // Every way to end without a response
  // ------------------------------------------------------------------

  /** Only an accepted sign request with an empty payload is ever dropped, after its key was read. */
  lemma DropsOnlyEmptyPayloads(log: seq<Event>, first: seq<Origin>, request: Request)
    requires History(log, first) && Dropped(request) in log
    ensures !request.kind.Connect? && request.payload == ""
    ensures exists key :: KeyWasRead(log, request, key)
  {
    HistoryIsSafe(log, first);
    var j :| 0 <= j < |log| && log[j] == Dropped(request);
    BecauseAt(log, first, j);
    var key :| KeyWasRead(log[..j], request, key);
    var w, works :| KeyRead(request, key, w, works) in log[..j];
    assert KeyRead(request, key, w, works) in log;
    assert KeyWasRead(log, request, key);
  }

  /** Every rejected call of the approved branch was answered. */
  ghost predicate FailuresAnswered(log: seq<Event>) {
    forall r :: CallFailed(r) in log ==> Answered(r, Failed) in log
  }

  /** What became of a sign request whose key was read. */
  ghost predicate KeyReadFate(log: seq<Event>, tasks: map<nat, Stage>, request: Request) {
    || (exists t, key :: t in tasks && tasks[t] == Signing(request, key))
    || Dropped(request) in log || CallFailed(request.rid) in log
    || (exists lost :: Suspended(lost) in log && request.rid in lost)
  }

  ghost predicate EmptyReadsFated(log: seq<Event>, tasks: map<nat, Stage>) {
    forall request, key :: KeyWasRead(log, request, key) && request.payload == "" ==> KeyReadFate(log, tasks, request)
  }

  /** What a step adds of these two kinds of events. */
  lemma ReadsAndFailuresAdded(s: State, a: Action, e: Event)
    requires e in Step(s, a).log && e !in s.log
    ensures e.KeyRead? ==>
              a.Resume? && a.task in s.tasks
              && Step(s, a).tasks == s.tasks[a.task := Signing(e.request, e.secretKey)]
    ensures e.CallFailed? ==> Answered(e.rid, Failed) in Step(s, a).log
  {
    match a
    case Resume(t, given) => if t in s.tasks { ResumeReads(s, t, given, e); }
    case Throw(t) => ThrowAnswers(s, t, e);
    case _ =>
  }

  lemma ThrowAnswers(s: State, t: nat, e: Event)
    requires e in StepThrow(s, t).log && e !in s.log
    ensures !e.KeyRead? && (e.CallFailed? ==> Answered(e.rid, Failed) in StepThrow(s, t).log)
  {
    if t in s.tasks && CanThrow(s.tasks[t]) {
      var rid := s.tasks[t].request.rid;
      FinishAnswers(Note(s, CallFailed(rid)), t, rid, Failed);
    }
  }

  lemma ResumeReads(s: State, t: nat, given: Given, e: Event)
    requires t in s.tasks && e in StepResume(s, t, given).log && e !in s.log
    ensures !e.CallFailed?
    ensures e.KeyRead? ==> StepResume(s, t, given).tasks == s.tasks[t := Signing(e.request, e.secretKey)]
  {
    match s.tasks[t]
    case Checked(request, seen) => CheckedReadsNothing(s, t, request, seen, e);
    case ReadingKey(request) => KeyIsRead(s, t, request, given.works, e);
    case Signing(request, key) => SigningReadsNothing(s, t, request, key, e);
    case _ =>
  }

  lemma CheckedReadsNothing(s: State, t: nat, request: Request, seen: seq<Origin>, e: Event)
    requires e in ResumeChecked(s, t, request, seen).log && e !in s.log
    ensures !e.KeyRead? && !e.CallFailed?
  {
    RejectionsAreAnswers(s.pending, request.rid);
  }

  lemma SigningReadsNothing(s: State, t: nat, request: Request, key: string, e: Event)
    requires e in ResumeSigning(s, t, request, key).log && e !in s.log
    ensures !e.KeyRead? && !e.CallFailed?
  {
  }

  lemma KeyIsRead(s: State, t: nat, request: Request, works: bool, e: Event)
    requires e in ResumeReadingKey(s, t, request, works).log && e !in s.log
    ensures !e.CallFailed?
    ensures e.KeyRead? ==> ResumeReadingKey(s, t, request, works).tasks == s.tasks[t := Signing(e.request, e.secretKey)]
  {
  }

  lemma StepFates(s: State, a: Action)
    requires Ledger(s) && FailuresAnswered(s.log) && EmptyReadsFated(s.log, s.tasks)
    ensures FailuresAnswered(Step(s, a).log) && EmptyReadsFated(Step(s, a).log, Step(s, a).tasks)
  {
    var end := Step(s, a);
    StepGrows(s, a);
    forall r | CallFailed(r) in end.log ensures Answered(r, Failed) in end.log {
      if CallFailed(r) !in s.log { ReadsAndFailuresAdded(s, a, CallFailed(r)); }
    }
    forall request, key | KeyWasRead(end.log, request, key) && request.payload == ""
      ensures KeyReadFate(end.log, end.tasks, request)
    {
      var w, works :| KeyRead(request, key, w, works) in end.log;
      if KeyRead(request, key, w, works) in s.log {
        assert KeyWasRead(s.log, request, key);
        FateGoesOn(s, a, request);
      } else {
        ReadsAndFailuresAdded(s, a, KeyRead(request, key, w, works));
      }
    }
  }

  lemma FateGoesOn(s: State, a: Action, request: Request)
    requires Ledger(s) && KeyReadFate(s.log, s.tasks, request) && request.payload == ""
    ensures KeyReadFate(Step(s, a).log, Step(s, a).tasks, request)
  {
    var end := Step(s, a);
    StepGrows(s, a);
    if t, key :| t in s.tasks && s.tasks[t] == Signing(request, key) {
      if a.Suspend? {
        assert Holds(s.tasks, t, request.rid);
        InFlightMeans(s, request.rid);
        assert end.log[|s.log|] == Suspended(InFlight(s));
      } else if a == Throw(t) {
        assert end.log[|s.log|] == CallFailed(request.rid);
      } else {
        StepSigningFate(s, t, request, key, a);
      }
    }
  }

  lemma {:induction false} RunFates(first: seq<Origin>, wallet: Wallet, actions: seq<Action>)
    ensures var s := Run(Init(first, wallet), actions); FailuresAnswered(s.log) && EmptyReadsFated(s.log, s.tasks)
  {
    if actions != [] {
      RunFates(first, wallet, actions[..|actions| - 1]);
      RunLedger(first, wallet, actions[..|actions| - 1]);
      StepFates(Run(Init(first, wallet), actions[..|actions| - 1]), actions[|actions| - 1]);
    }
  }

  /** The key was read for an empty payload, and no call of the approved branch was rejected. */
  ghost predicate SignedNothing(log: seq<Event>, r: nat) {
    && CallFailed(r) !in log
    && exists request, key :: KeyWasRead(log, request, key) && request.rid == r && request.payload == ""
  }

  /**
   A request that nothing works on any more and no suspension lost got its
   response exactly unless a read outside any try block was rejected while its
   handler checked it, or its approved payload was empty, its key was read and
   no later call was rejected.
   */
  lemma FinishedMeansAnswered(first: seq<Origin>, wallet: Wallet, actions: seq<Action>, r: nat)
    requires var s := Run(Init(first, wallet), actions);
             r < s.nextRid && r !in InFlight(s) && forall lost :: Suspended(lost) in s.log ==> r !in lost
    ensures var log := Run(Init(first, wallet), actions).log;
      (exists reply :: Answered(r, reply) in log) <==> ReadRejected(r) !in log && !SignedNothing(log, r)
  {
    var s := Run(Init(first, wallet), actions);
    RunLedger(first, wallet, actions);
    RunFates(first, wallet, actions);
    RequestsAreConserved(first, wallet, actions, r);
    InFlightMeans(s, r);
    var i :| EndedAt(s.log, r, i);
    if reply :| Answered(r, reply) in s.log {
      AnsweredIsNotSilent(s, r, reply);
    } else {
      assert History(s.log, first);
      SilentEnd(s, first, r, i);
    }
  }

  /** A request that ended without an answer had its read rejected, or was approved with an empty payload. */
  lemma SilentEnd(s: State, first: seq<Origin>, r: nat, i: int)
    requires Ledger(s) && FailuresAnswered(s.log) && History(s.log, first) && EndedAt(s.log, r, i)
    requires (forall lost :: Suspended(lost) in s.log ==> r !in lost) && forall reply :: Answered(r, reply) !in s.log
    ensures ReadRejected(r) in s.log || SignedNothing(s.log, r)
  {
    assert s.log[i] in s.log;
    if s.log[i].Dropped? {
      DropsOnlyEmptyPayloads(s.log, first, s.log[i].request);
    }
  }

  lemma AnsweredIsNotSilent(s: State, r: nat, reply: Reply)
    requires Ledger(s) && FailuresAnswered(s.log) && EmptyReadsFated(s.log, s.tasks)
    requires Answered(r, reply) in s.log && r !in InFlight(s) && forall lost :: Suspended(lost) in s.log ==> r !in lost
    ensures ReadRejected(r) !in s.log && !SignedNothing(s.log, r)
  {
    if ReadRejected(r) in s.log {
      OneEnd(s, r, Answered(r, reply), ReadRejected(r));
    }
    if SignedNothing(s.log, r) {
      var request, key :| KeyWasRead(s.log, request, key) && request.rid == r && request.payload == "";
      assert KeyReadFate(s.log, s.tasks, request);
      if t, k :| t in s.tasks && s.tasks[t] == Signing(request, k) {
        assert Holds(s.tasks, t, r);
        InFlightMeans(s, r);
      } else {
        OneEnd(s, r, Answered(r, reply), Dropped(request));
      }
    }
  }
}
