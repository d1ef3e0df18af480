/** Every success response fits the request that arrived: its kind, its key, its payload. */
module ApprovalReplies {
  import opened Prelude
  import opened SessionKey
  import opened Approvals
  import opened ApprovalSafety
  import opened ApprovalLedger
  import opened ApprovalAnswers
  import opened Arrivals

  /** A connect request with a verified origin arrived under this number. */
  ghost predicate ArrivedToConnect(log: seq<Event>, r: nat) {
    exists request :: WasReceived(log, request) && request.rid == r && request.kind.Connect?
  }

  ghost predicate ReplyFits(log: seq<Event>, r: nat, reply: Reply) {
    match reply
    case AutoConnected(_) => ArrivedToConnect(log, r)
    case Connected(key) => ArrivedToConnect(log, r) && key != ""
    case Signed(request, _) => request.rid == r && WasReceived(log, request) && !request.kind.Connect?
    case _ => true
  }

  /** A connection is answered with the key only for a connect request, and never with an empty key. */
  ghost predicate StageKeyed(log: seq<Event>, stage: Stage) {
    match stage
    case FetchingKey(request) => request.kind.Connect? && WasReceived(log, request)
    case ConnectOrigins(_, key) => key != ""
    case ConnectRead(_, key, _) => key != ""
    case ConnectWriting(_, key) => key != ""
    case ConnectWritten(_, key) => key != ""
    case _ => true
  }

  ghost predicate AnswerKeyed(log: seq<Event>, r: nat, reply: Reply) {
    (reply.AutoConnected? ==> ArrivedToConnect(log, r)) && (reply.Connected? ==> reply.key != "")
  }

  ghost predicate Keyed(s: State) {
    && (forall t :: t in s.tasks ==> StageKeyed(s.log, s.tasks[t]))
    && (forall r, reply :: Answered(r, reply) in s.log ==> AnswerKeyed(s.log, r, reply))
  }

  lemma ArrivedStays(log: seq<Event>, more: seq<Event>)
    requires log <= more
    ensures forall r :: ArrivedToConnect(log, r) ==> ArrivedToConnect(more, r)
    ensures forall stage :: StageKeyed(log, stage) ==> StageKeyed(more, stage)
  {
    forall r | ArrivedToConnect(log, r) ensures ArrivedToConnect(more, r) {
      var request :| WasReceived(log, request) && request.rid == r && request.kind.Connect?;
      assert WasReceived(more, request);
    }
  }

  /** A continuation is where it was, or came from a stage that had what this one needs. */
  lemma CheckedComes(s: State, first: seq<Origin>, t: nat, u: nat)
    requires Safe(s, first) && Keyed(s) && t in s.tasks && s.tasks[t].Checked?
    requires u in ResumeChecked(s, t, s.tasks[t].request, s.tasks[t].seen).tasks
    ensures StageKeyed(s.log, ResumeChecked(s, t, s.tasks[t].request, s.tasks[t].seen).tasks[u])
  {
    assert StageOk(s.log, first, s.tasks[t]);
  }

  lemma SignComes(s: State, t: nat, u: nat, given: Given)
    requires Keyed(s) && t in s.tasks && (s.tasks[t].ReadingKey? || s.tasks[t].Signing?)
    requires u in StepResume(s, t, given).tasks
    ensures StageKeyed(s.log, StepResume(s, t, given).tasks[u])
  {
    if s.tasks[t].ReadingKey? {
      assert StepResume(s, t, given) == ResumeReadingKey(s, t, s.tasks[t].request, given.works);
    } else {
      assert StepResume(s, t, given) == ResumeSigning(s, t, s.tasks[t].request, s.tasks[t].secretKey);
    }
  }

  lemma ResumeComes(s: State, first: seq<Origin>, t: nat, given: Given, u: nat)
    requires Safe(s, first) && Keyed(s) && t in s.tasks && u in StepResume(s, t, given).tasks
    ensures StageKeyed(s.log, StepResume(s, t, given).tasks[u])
  {
    match s.tasks[t]
    case Checked(_, _) => CheckedComes(s, first, t, u);
    case ReadingKey(_) => SignComes(s, t, u, given);
    case Signing(_, _) => SignComes(s, t, u, given);
    case _ =>
  }

  lemma StageComes(s: State, first: seq<Origin>, a: Action, u: nat)
    requires Safe(s, first) && Keyed(s) && u in Step(s, a).tasks
    ensures StageKeyed(s.log, Step(s, a).tasks[u])
  {
    match a
    case Resume(t, given) => if t in s.tasks { ResumeComes(s, first, t, given, u); }
    case _ =>
  }

  lemma AnswerComes(s: State, a: Action, r: nat, reply: Reply)
    requires Ledger(s) && Keyed(s) && Answered(r, reply) in Step(s, a).log
    ensures AnswerKeyed(s.log, r, reply)
  {
    StepAnswers(s, a, r, reply);
    if Answered(r, reply) !in s.log && (reply.AutoConnected? || reply.Connected?) {
      assert StageKeyed(s.log, s.tasks[a.task]);
    }
  }

  lemma StepKeyed(s: State, first: seq<Origin>, a: Action)
    requires Ledger(s) && Safe(s, first) && Keyed(s)
    ensures Keyed(Step(s, a))
  {
    var end := Step(s, a);
    StepGrows(s, a);
    ArrivedStays(s.log, end.log);
    forall u | u in end.tasks ensures StageKeyed(end.log, end.tasks[u]) {
      StageComes(s, first, a, u);
    }
    forall r, reply | Answered(r, reply) in end.log ensures AnswerKeyed(end.log, r, reply) {
      AnswerComes(s, a, r, reply);
    }
  }

  lemma {:induction false} RunKeyed(first: seq<Origin>, wallet: Wallet, actions: seq<Action>)
    ensures Keyed(Run(Init(first, wallet), actions))
  {
    if actions != [] {
      var front := actions[..|actions| - 1];
      RunKeyed(first, wallet, front);
      RunLedger(first, wallet, front);
      RunSafe(first, wallet, front);
      StepKeyed(Run(Init(first, wallet), front), first, actions[|actions| - 1]);
    }
  }

  /** With the invariants of every run, a success response fits its request. */
  lemma KeyedFits(s: State, first: seq<Origin>, r: nat, reply: Reply)
    requires Keyed(s) && Safe(s, first) && Answered(r, reply) in s.log
    ensures ReplyFits(s.log, r, reply)
  {
    assert AnswerKeyed(s.log, r, reply);
    match reply
    case Connected(key) => ConnectedArrived(s.log, first, r, key);
    case Signed(request, key) =>
      SignedArrived(s.log, first, r, request, key);
      var last :| 0 <= last < |s.log| && s.log[last] == Answered(r, Signed(request, key));
      var read := KeyReadBefore(s.log, first, last, r, request, key);
    case _ =>
  }

  lemma ConnectedArrived(log: seq<Event>, first: seq<Origin>, r: nat, key: string)
    requires WellFounded(log, first) && Answered(r, Connected(key)) in log
    ensures ArrivedToConnect(log, r)
  {
    var last :| 0 <= last < |log| && log[last] == Answered(r, Connected(key));
    BecauseAt(log, first, last);
    var e :| Accepted(e, Approving(e)) in log[..last] && e.request.rid == r && e.request.kind.Connect?;
    var accepted :| 0 <= accepted < last && log[accepted] == Accepted(e, Approving(e));
    BecauseAt(log, first, accepted);
    var parked :| 0 <= parked < accepted && log[parked] == Parked(e);
    BecauseAt(log, first, parked);
    assert forall x :: x in log[..parked] ==> x in log;
    assert WasReceived(log, e.request);
  }

  /**
   In every interleaving a public key is answered only to a connect request,
   after an approval never an empty one, and a signature only for the very
   request that arrived, kind and payload included.
   */
  lemma RepliesFit(first: seq<Origin>, wallet: Wallet, actions: seq<Action>, r: nat, reply: Reply)
    requires Answered(r, reply) in Run(Init(first, wallet), actions).log
    ensures ReplyFits(Run(Init(first, wallet), actions).log, r, reply)
  {
    RunKeyed(first, wallet, actions);
    RunSafe(first, wallet, actions);
    KeyedFits(Run(Init(first, wallet), actions), first, r, reply);
  }
}
