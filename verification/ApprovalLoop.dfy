/**
 From what the user sees to what is decided and signed: the identifiers on
 display are the ones that a decision needs, and the rest of the display is the
 request that the decision then acts on.
 */
module ApprovalLoop {
  import opened Prelude
  import opened SessionKey
  import opened Approvals
  import opened ApprovalSafety
  import opened ApprovalLedger
  import opened ApprovalDisplay
  import opened ApprovalSilence
  import opened ApprovalAnswers
  import opened Arrivals

  /** The page that was shown `d` sends the user's decision back with its identifiers. */
  function Answering(d: Descriptor, approved: bool): Action {
    Decide(true, d.id, d.nonce, approved)
  }

  /** Whatever is ever signed for request `r` is this. */
  ghost predicate OnlySigns(s: State, r: nat, kind: Kind, origin: Origin, payload: string) {
    forall request, key :: Answered(r, Signed(request, key)) in s.log ==>
      request.kind == kind && request.origin == origin && request.payload == payload
  }

  /**
   In a settled state in which display and map agree: approving what is
   displayed accepts the parked request, denying it denies that request, and
   kind, origin and payload on display are those that the page's request
   arrived with, and the only ones that can be signed for it, however the run
   goes on.
   */
  lemma DisplayLeadsToDecision(s: State, first: seq<Origin>, d: Descriptor, more: seq<Action>)
    requires Reachable(s, first) && Quiescent(s) && Agree(s) && s.descriptor == Some(d)
    ensures |s.pending| == 1
    ensures var e := s.pending[0];
            var r := e.request.rid;
            var approved := Step(s, Answering(d, true));
      && approved.pending == []
      && approved.log == s.log + [Taken(e.id), Accepted(e, Decision(true, d.id, d.nonce, true))]
      && Step(s, Answering(d, false)).log == s.log + [Taken(e.id), Answered(r, Denied), Cleared]
      && Received(r, d.kind, Some(d.origin), d.payload) in s.log
      && OnlySigns(Run(approved, more), r, d.kind, d.origin, d.payload)
  {
    var wallet, actions :| s == Run(Init(first, wallet), actions);
    var e := TheParked(first, wallet, actions);
    DisplayNames(s, e, d);
    DecisionTakes(s, e, true);
    DecisionTakes(s, e, false);
    LaterOnlySigns(first, wallet, actions, [Answering(d, true)] + more, e.request);
    RunFirst(s, Answering(d, true), more);
  }

  /** The display names the parked entry and shows its request. */
  lemma DisplayNames(s: State, e: Entry, d: Descriptor)
    requires s.pending == [e] && Agree(s) && s.descriptor == Some(d)
    ensures Answering(d, true) == Decide(true, e.id, e.nonce, true)
    ensures Answering(d, false) == Decide(true, e.id, e.nonce, false)
    ensures d.kind == e.request.kind && d.origin == e.request.origin && d.payload == e.request.payload
  {
  }

  lemma DecisionTakes(s: State, e: Entry, approved: bool)
    requires s.pending == [e]
    ensures var end := Step(s, Decide(true, e.id, e.nonce, approved));
      && end.pending == []
      && end.log == s.log + [Taken(e.id)] + if approved then [Accepted(e, Decision(true, e.id, e.nonce, true))]
                                            else [Answered(e.request.rid, Denied), Cleared]
  {
    assert s.pending[1..] == [];
  }

  lemma LaterOnlySigns(first: seq<Origin>, wallet: Wallet, actions: seq<Action>, more: seq<Action>, parked: Request)
    requires WasReceived(Run(Init(first, wallet), actions).log, parked)
    ensures OnlySigns(Run(Run(Init(first, wallet), actions), more), parked.rid, parked.kind, parked.origin,
                      parked.payload)
  {
    var end := Run(Init(first, wallet), actions + more);
    RunJoin(Init(first, wallet), actions, more);
    RunLedger(first, wallet, actions);
    RunGrows(Run(Init(first, wallet), actions), more);
    RunSafe(first, wallet, actions + more);
    RunArrivals(first, wallet, actions + more);
    assert WasReceived(end.log, parked);
    forall request, key | Answered(parked.rid, Signed(request, key)) in end.log
      ensures request.kind == parked.kind && request.origin == parked.origin && request.payload == parked.payload
    {
      SignedArrived(end.log, first, parked.rid, request, key);
    }
  }

  /** What is parked in a run is one entry, whose request arrived. */
  lemma TheParked(first: seq<Origin>, wallet: Wallet, actions: seq<Action>) returns (e: Entry)
    requires Run(Init(first, wallet), actions).pending != []
    ensures var s := Run(Init(first, wallet), actions); s.pending == [e] && WasReceived(s.log, e.request)
  {
    var s := Run(Init(first, wallet), actions);
    RunLedger(first, wallet, actions);
    RunSafe(first, wallet, actions);
    e := s.pending[0];
    assert s.pending == [e] && Parked(e) in s.log;
    ParkedArrived(s, first, e);
  }

  lemma ParkedArrived(s: State, first: seq<Origin>, e: Entry)
    requires Safe(s, first) && Parked(e) in s.log
    ensures WasReceived(s.log, e.request)
  {
    var i :| 0 <= i < |s.log| && s.log[i] == Parked(e);
    BecauseAt(s.log, first, i);
  }

  // ------------------------------------------------------------------
  // In any state, settled or not
  // ------------------------------------------------------------------

  /** The descriptor names this entry and shows its request. */
  predicate Shows(d: Descriptor, e: Entry) {
    && d.id == e.id && d.nonce == e.nonce
    && d.kind == e.request.kind && d.origin == e.request.origin && d.payload == e.request.payload
  }

  ghost predicate ShowsParked(log: seq<Event>, d: Option<Descriptor>) {
    d.Some? ==> exists e :: Parked(e) in log && Shows(d.value, e)
  }

  /** Whatever is on display, or on its way there, was parked. */
  ghost predicate DisplaysParked(s: State) {
    ShowsParked(s.log, s.descriptor) && forall d :: d in s.descriptorWrites ==> ShowsParked(s.log, d)
  }

  /** A step issues null descriptors, and one for the entry it parks. */
  ghost predicate IssuesParked(s: State, s': State) {
    && s.log <= s'.log
    && (s'.descriptor == s.descriptor || (s.descriptorWrites != [] && s'.descriptor == s.descriptorWrites[0]))
    && forall d :: d in s'.descriptorWrites ==> d in s.descriptorWrites || ShowsParked(s'.log, d)
  }

  lemma CheckedIssues(s: State, t: nat, request: Request, seen: seq<Origin>)
    requires |s.pending| <= 1
    ensures IssuesParked(s, ResumeChecked(s, t, request, seen))
  {
    var end := ResumeChecked(s, t, request, seen);
    CheckedLog(s, t, request, seen);
    var e := Entry(s.nextToken, s.nextToken + 1, request);
    if UserIsAsked(request, seen) {
      assert end.log[|end.log| - 1] == Parked(e);
      assert Shows(Describe(e), e);
    }
  }

  lemma ReadingIssues(s: State, t: nat, request: Request, works: bool)
    ensures IssuesParked(s, ResumeReadingKey(s, t, request, works))
  {
  }

  lemma SigningIssues(s: State, t: nat, request: Request, key: string)
    ensures IssuesParked(s, ResumeSigning(s, t, request, key))
  {
  }

  lemma DecideIssues(s: State, trusted: bool, id: nat, nonce: nat, approved: bool)
    ensures IssuesParked(s, StepDecide(s, trusted, id, nonce, approved))
  {
  }

  lemma StepIssues(s: State, a: Action)
    requires |s.pending| <= 1
    ensures IssuesParked(s, Step(s, a))
  {
    match a
    case Resume(t, given) =>
      if t in s.tasks {
        match s.tasks[t]
        case Checked(request, seen) => CheckedIssues(s, t, request, seen);
        case ReadingKey(request) => ReadingIssues(s, t, request, given.works);
        case Signing(request, key) => SigningIssues(s, t, request, key);
        case _ =>
      }
    case Decide(trusted, id, nonce, approved) => DecideIssues(s, trusted, id, nonce, approved);
    case LandDescriptor => assert forall d :: d in Step(s, a).descriptorWrites ==> d in s.descriptorWrites;
    case _ =>
  }

  lemma StepDisplaysParked(s: State, a: Action)
    requires |s.pending| <= 1 && DisplaysParked(s)
    ensures DisplaysParked(Step(s, a))
  {
    StepIssues(s, a);
    ParkedStays(s.log, Step(s, a).log);
  }

  lemma ParkedStays(log: seq<Event>, more: seq<Event>)
    requires log <= more
    ensures forall d :: ShowsParked(log, d) ==> ShowsParked(more, d)
  {
    forall d | ShowsParked(log, d) && d.Some? ensures ShowsParked(more, d) {
      var e :| Parked(e) in log && Shows(d.value, e);
      assert Parked(e) in more;
    }
  }

  lemma {:induction false} RunDisplaysParked(first: seq<Origin>, wallet: Wallet, actions: seq<Action>)
    ensures DisplaysParked(Run(Init(first, wallet), actions))
  {
    if actions != [] {
      var front := actions[..|actions| - 1];
      RunDisplaysParked(first, wallet, front);
      RunLedger(first, wallet, front);
      StepDisplaysParked(Run(Init(first, wallet), front), actions[|actions| - 1]);
    }
  }

  /**
   In every reachable state, settled or not, with the two stores in agreement
   or not: deciding on what is displayed does nothing at all, or it decides
   on a parked request that is exactly the one displayed.
   */
  lemma DecidesOnlyWhatIsSeen(s: State, first: seq<Origin>, d: Descriptor, approved: bool)
    requires Reachable(s, first) && s.descriptor == Some(d)
    ensures
      || Step(s, Answering(d, approved)) == s
      || (|s.pending| == 1 && Shows(d, s.pending[0]) && WasReceived(s.log, s.pending[0].request)
          && Step(s, Answering(d, approved)).pending == []
          && Step(s, Answering(d, approved)).log[..|s.log| + 2]
             == s.log + [Taken(d.id), if approved then Accepted(s.pending[0], Decision(true, d.id, d.nonce, true))
                                      else Answered(s.pending[0].request.rid, Denied)])
  {
    var wallet, actions :| s == Run(Init(first, wallet), actions);
    RunDisplaysParked(first, wallet, actions);
    var e :| Parked(e) in s.log && Shows(d, e);
    if s.pending == [e] {
      var parked := TheParked(first, wallet, actions);
      DecisionTakes(s, e, approved);
    } else {
      StaleDecisionsDoNothing(first, wallet, actions, e, true, d.nonce, approved);
    }
  }
}
