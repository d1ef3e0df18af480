/**
 Which response every request gets and why, and which requests are parked:
 tables of causes in terms of what came in, checked against every interleaving
 in both directions.
 */
module ApprovalAnswers {
  import opened Prelude
  import opened SessionKey
  import opened Approvals
  import opened Continuations
  import opened ApprovalSafety
  import opened ApprovalLedger

  // ------------------------------------------------------------------
  // The tables
  // ------------------------------------------------------------------

  /** The action lets this stage of its request's handler go on. */
  predicate GoesOnAt(s: State, a: Action, stage: Stage) {
    a.Resume? && a.task in s.tasks && s.tasks[a.task] == stage
  }

  /** The user is asked about connections of new origins, and about signatures for connected ones. */
  predicate UserIsAsked(request: Request, seen: seq<Origin>) {
    if request.kind.Connect? then request.origin !in seen else request.origin in seen
  }

  /** The handler of request `r` goes on with the origins it has read and parks its request. */
  ghost predicate ParksNow(s: State, a: Action, r: nat) {
    exists request, seen :: GoesOnAt(s, a, Checked(request, seen)) && request.rid == r && UserIsAsked(request, seen)
  }

  /** An extension page decides on the parked entry, which is the one of request `r`. */
  predicate DecidesOn(s: State, a: Action, r: nat) {
    a.Decide? && a.trusted && s.pending != [] && a.id == s.pending[0].id && s.pending[0].request.rid == r
  }

  /** No key is to be had: the wallet is locked, past its deadline, or without a cached key. */
  predicate KeyUnavailable(w: Wallet, works: bool) {
    !w.unlocked || !DeadlineOpen(w) || !Truthy(CachedKey(w, works))
  }

  /** An awaited call of the approved branch for request `r` is rejected. */
  ghost predicate ApprovedCallFails(s: State, a: Action, r: nat) {
    && a.Throw? && a.task in s.tasks
    && match s.tasks[a.task]
       case ConnectKey(request) => request.rid == r
       case ConnectOrigins(request, _) => request.rid == r
       case ReadingKey(request) => request.rid == r
       case Signing(request, _) => request.rid == r
       case SigningMessage(request, _) => request.rid == r
       case _ => false
  }

  /** The approved branch for request `r` finds no public key, or no session key. */
  ghost predicate KeyMissing(s: State, a: Action, r: nat) {
    && a.Resume? && a.task in s.tasks
    && match s.tasks[a.task]
       case ConnectKey(request) => request.rid == r && (a.given.publicKey.None? || a.given.publicKey.value == "")
       case ReadingKey(request) => request.rid == r && KeyUnavailable(s.wallet, a.given.works)
       case _ => false
  }

  /** The last await before request `r`, a connection, is answered with this key. */
  ghost predicate ConnectionStands(s: State, a: Action, r: nat, key: string) {
    && a.Resume? && a.task in s.tasks
    && match s.tasks[a.task]
       case ConnectRead(request, publicKey, seen) => request.rid == r && publicKey == key && request.origin in seen
       case ConnectWritten(request, publicKey) => request.rid == r && publicKey == key
       case _ => false
  }

  /** The last await before this request is signed with this key. */
  predicate SignsNow(s: State, a: Action, request: Request, key: string) {
    || GoesOnAt(s, a, SigningMessage(request, key))
    || (GoesOnAt(s, a, Signing(request, key)) && request.kind.SignTransaction? && request.payload != "")
  }

  /** Why request `r` gets this response in this step. */
  ghost predicate Causes(s: State, a: Action, r: nat, reply: Reply) {
    match reply
    case NoOrigin => a.Receive? && a.origin.None? && r == s.nextRid
    case NotConnected =>
      exists request, seen ::
        GoesOnAt(s, a, Checked(request, seen)) && request.rid == r && !request.kind.Connect? && request.origin !in seen
    case Replaced(newer) => s.pending != [] && s.pending[0].request.rid == r && ParksNow(s, a, newer)
    case BadToken => DecidesOn(s, a, r) && a.nonce != s.pending[0].nonce
    case Denied => DecidesOn(s, a, r) && a.nonce == s.pending[0].nonce && !a.approved
    case Failed => ApprovedCallFails(s, a, r) || KeyMissing(s, a, r)
    case AutoConnected(key) =>
      exists request :: GoesOnAt(s, a, FetchingKey(request)) && request.rid == r && key == a.given.publicKey
    case Connected(key) => ConnectionStands(s, a, r, key)
    case Signed(request, key) => r == request.rid && SignsNow(s, a, request, key)
  }

  // ------------------------------------------------------------------
  // One step
  // ------------------------------------------------------------------

  /** Among what a step adds to the log, `e` is there exactly if `caused`. */
  ghost predicate Adds(s: State, s': State, e: Event, caused: bool) {
    e in s'.log <==> e in s.log || caused
  }

  lemma ReceiveAnswers(s: State, kind: Kind, origin: Option<Origin>, payload: string, r: nat, reply: Reply)
    ensures Adds(s, StepReceive(s, kind, origin, payload), Answered(r, reply),
                 Causes(s, Receive(kind, origin, payload), r, reply))
  {
    if origin.None? {
      assert StepReceive(s, kind, origin, payload).log
          == s.log + [Received(s.nextRid, kind, origin, payload), Answered(s.nextRid, NoOrigin)];
    }
  }

  /** What a decision adds: nothing, or that its entry was taken and either accepted or refused. */
  lemma DecideLog(s: State, trusted: bool, id: nat, nonce: nat, approved: bool)
    requires |s.pending| <= 1
    ensures StepDecide(s, trusted, id, nonce, approved).log ==
            if !trusted || s.pending == [] || s.pending[0].id != id then s.log
            else if nonce == s.pending[0].nonce && approved then
              s.log + [Taken(id), Accepted(s.pending[0], Decision(trusted, id, nonce, approved))]
            else
              s.log + [Taken(id), Answered(s.pending[0].request.rid,
                                           if nonce != s.pending[0].nonce then BadToken else Denied), Cleared]
  {
    if s.pending != [] {
      assert s.pending[1..] == [];
    }
  }

  lemma DecideAnswers(s: State, trusted: bool, id: nat, nonce: nat, approved: bool, r: nat, reply: Reply)
    requires |s.pending| <= 1
    ensures Adds(s, StepDecide(s, trusted, id, nonce, approved), Answered(r, reply),
                 Causes(s, Decide(trusted, id, nonce, approved), r, reply))
  {
    DecideLog(s, trusted, id, nonce, approved);
  }

  /** What a handler that has read the origins adds. */
  lemma CheckedLog(s: State, t: nat, request: Request, seen: seq<Origin>)
    requires |s.pending| <= 1
    ensures var replaced := if s.pending == [] then [] else [Answered(s.pending[0].request.rid, Replaced(request.rid))];
            var found := if request.kind.Connect? then [] else [OriginFound(request.rid, request.origin)];
            var entry := Entry(s.nextToken, s.nextToken + 1, request);
      ResumeChecked(s, t, request, seen).log ==
      if UserIsAsked(request, seen) then s.log + (found + replaced + [Parked(entry)])
      else if request.kind.Connect? then s.log
      else s.log + [Answered(request.rid, NotConnected)]
  {
    if s.pending != [] {
      assert s.pending[1..] == [];
      assert Rejections(s.pending, request.rid) == [Answered(s.pending[0].request.rid, Replaced(request.rid))];
    }
  }

  lemma CheckedAnswers(s: State, a: Action, request: Request, seen: seq<Origin>, r: nat, reply: Reply)
    requires |s.pending| <= 1 && GoesOnAt(s, a, Checked(request, seen))
    ensures Adds(s, ResumeChecked(s, a.task, request, seen), Answered(r, reply), Causes(s, a, r, reply))
  {
    CheckedLog(s, a.task, request, seen);
    if UserIsAsked(request, seen) {
      assert ParksNow(s, a, request.rid);
    }
  }

  lemma FinishAdds(s: State, t: nat, rid: nat, reply: Reply, e: Event)
    requires e.Answered?
    ensures e in Finish(s, t, rid, reply).log <==> e in s.log || e == Answered(rid, reply)
  {
    assert Finish(s, t, rid, reply).log == s.log + [Answered(rid, reply), Cleared];
  }

  lemma ReadingAnswers(s: State, a: Action, request: Request, r: nat, reply: Reply)
    requires GoesOnAt(s, a, ReadingKey(request))
    ensures Adds(s, ResumeReadingKey(s, a.task, request, a.given.works), Answered(r, reply), Causes(s, a, r, reply))
  {
    KeyOnlyWhileUnlocked(s.wallet, a.given.works);
    var (wallet, key) := ReadActiveKey(s.wallet, a.given.works);
    FinishAdds(s.(wallet := wallet), a.task, request.rid, Failed, Answered(r, reply));
  }

  lemma SigningAnswers(s: State, a: Action, request: Request, key: string, r: nat, reply: Reply)
    requires GoesOnAt(s, a, Signing(request, key))
    ensures Adds(s, ResumeSigning(s, a.task, request, key), Answered(r, reply), Causes(s, a, r, reply))
  {
    FinishAdds(s, a.task, request.rid, Signed(request, key), Answered(r, reply));
  }

  lemma ConnectAnswers(s: State, a: Action, r: nat, reply: Reply)
    requires a.Resume? && a.task in s.tasks
    requires var stage := s.tasks[a.task]; stage.ConnectKey? || stage.ConnectRead? || stage.ConnectWritten?
    ensures Adds(s, StepResume(s, a.task, a.given), Answered(r, reply), Causes(s, a, r, reply))
  {
    var rid := s.tasks[a.task].request.rid;
    FinishAdds(s, a.task, rid, if s.tasks[a.task].ConnectKey? then Failed else Connected(s.tasks[a.task].publicKey),
               Answered(r, reply));
  }

  lemma ResumeAnswers(s: State, a: Action, r: nat, reply: Reply)
    requires |s.pending| <= 1 && a.Resume? && a.task in s.tasks
    ensures Adds(s, StepResume(s, a.task, a.given), Answered(r, reply), Causes(s, a, r, reply))
  {
    match s.tasks[a.task]
    case Checked(request, seen) => CheckedAnswers(s, a, request, seen, r, reply);
    case ReadingKey(request) => ReadingAnswers(s, a, request, r, reply);
    case Signing(request, key) => SigningAnswers(s, a, request, key, r, reply);
    case SigningMessage(request, key) => FinishAdds(s, a.task, request.rid, Signed(request, key), Answered(r, reply));
    case ConnectKey(_) => ConnectAnswers(s, a, r, reply);
    case ConnectRead(_, _, _) => ConnectAnswers(s, a, r, reply);
    case ConnectWritten(_, _) => ConnectAnswers(s, a, r, reply);
    case _ =>
  }

  lemma ThrowAnswers(s: State, a: Action, r: nat, reply: Reply)
    requires a.Throw? && a.task in s.tasks
    ensures Adds(s, StepThrow(s, a.task), Answered(r, reply), Causes(s, a, r, reply))
  {
    if CanThrow(s.tasks[a.task]) {
      var rid := s.tasks[a.task].request.rid;
      FinishAdds(Note(s, CallFailed(rid)), a.task, rid, Failed, Answered(r, reply));
    }
  }

  lemma StepAnswers(s: State, a: Action, r: nat, reply: Reply)
    requires |s.pending| <= 1
    ensures Adds(s, Step(s, a), Answered(r, reply), Causes(s, a, r, reply))
  {
    match a
    case Receive(kind, origin, payload) => ReceiveAnswers(s, kind, origin, payload, r, reply);
    case Decide(trusted, id, nonce, approved) => DecideAnswers(s, trusted, id, nonce, approved, r, reply);
    case Resume(t, given) => if t in s.tasks { ResumeAnswers(s, a, r, reply); }
    case Throw(t) => if t in s.tasks { ThrowAnswers(s, a, r, reply); }
    case _ =>
  }

  // ------------------------------------------------------------------
  // Every run
  // ------------------------------------------------------------------

  /** Some step of the run is a cause of this response. */
  ghost predicate Caused(start: State, actions: seq<Action>, r: nat, reply: Reply) {
    exists k :: 0 <= k < |actions| && Causes(Run(start, actions[..k]), actions[k], r, reply)
  }

  lemma CausedNext(start: State, actions: seq<Action>, r: nat, reply: Reply)
    requires actions != []
    ensures var front, last := actions[..|actions| - 1], actions[|actions| - 1];
      Caused(start, actions, r, reply) <==> Caused(start, front, r, reply) || Causes(Run(start, front), last, r, reply)
  {
    var front := actions[..|actions| - 1];
    forall k | 0 <= k < |front| ensures actions[..k] == front[..k] && actions[k] == front[k] {
    }
    if Caused(start, front, r, reply) {
      var k :| 0 <= k < |front| && Causes(Run(start, front[..k]), front[k], r, reply);
      assert Causes(Run(start, actions[..k]), actions[k], r, reply);
    }
    if Caused(start, actions, r, reply) {
      var k :| 0 <= k < |actions| && Causes(Run(start, actions[..k]), actions[k], r, reply);
      if k < |front| {
        assert Causes(Run(start, front[..k]), front[k], r, reply);
      }
    }
  }

  /**
   In every interleaving a request gets a response exactly when some step was a
   cause of it: no origin, an origin not connected, a newer request that parks,
   a decision with the wrong nonce, a denial, a failure of the approved branch,
   a known origin's key, an approved connection's key, or the signature.
   */
  lemma {:induction false} AnswersExactly(first: seq<Origin>, wallet: Wallet, actions: seq<Action>, r: nat,
      reply: Reply)
    ensures Answered(r, reply) in Run(Init(first, wallet), actions).log
            <==> Caused(Init(first, wallet), actions, r, reply)
  {
    if actions != [] {
      var front := actions[..|actions| - 1];
      AnswersExactly(first, wallet, front, r, reply);
      RunLedger(first, wallet, front);
      StepAnswers(Run(Init(first, wallet), front), actions[|actions| - 1], r, reply);
      CausedNext(Init(first, wallet), actions, r, reply);
    }
  }

  // ------------------------------------------------------------------
  // What is parked, under which tokens
  // ------------------------------------------------------------------

  /** Why this entry is parked in this step: its handler asks the user, under the next two tokens. */
  ghost predicate ParksAs(s: State, a: Action, e: Entry) {
    && e.id == s.nextToken && e.nonce == s.nextToken + 1
    && exists seen :: GoesOnAt(s, a, Checked(e.request, seen)) && UserIsAsked(e.request, seen)
  }

  lemma ResumeParks(s: State, a: Action, e: Entry)
    requires |s.pending| <= 1 && a.Resume? && a.task in s.tasks
    ensures Adds(s, StepResume(s, a.task, a.given), Parked(e), ParksAs(s, a, e))
  {
    match s.tasks[a.task]
    case Checked(request, seen) => CheckedParks(s, a, request, seen, e);
    case ReadingKey(request) => ReadingParksNothing(s, a.task, request, a.given.works, e);
    case Signing(request, key) => SigningParksNothing(s, a.task, request, key, e);
    case _ =>
  }

  lemma CheckedParks(s: State, a: Action, request: Request, seen: seq<Origin>, e: Entry)
    requires |s.pending| <= 1 && GoesOnAt(s, a, Checked(request, seen))
    ensures Adds(s, ResumeChecked(s, a.task, request, seen), Parked(e), ParksAs(s, a, e))
  {
    CheckedLog(s, a.task, request, seen);
  }

  lemma ReadingParksNothing(s: State, t: nat, request: Request, works: bool, e: Entry)
    ensures Parked(e) in ResumeReadingKey(s, t, request, works).log ==> Parked(e) in s.log
  {
  }

  lemma SigningParksNothing(s: State, t: nat, request: Request, key: string, e: Entry)
    ensures Parked(e) in ResumeSigning(s, t, request, key).log ==> Parked(e) in s.log
  {
  }

  lemma StepParks(s: State, a: Action, e: Entry)
    requires |s.pending| <= 1
    ensures Adds(s, Step(s, a), Parked(e), ParksAs(s, a, e))
  {
    match a
    case Resume(t, given) => if t in s.tasks { ResumeParks(s, a, e); }
    case _ =>
  }

  /** A step uses tokens only for the entry it parks. */
  lemma StepTokens(s: State, a: Action)
    requires |s.pending| <= 1
    ensures s.nextToken <= Step(s, a).nextToken
    ensures forall e :: ParksAs(s, a, e) ==> Step(s, a).nextToken == s.nextToken + 2
  {
    if a.Resume? && a.task in s.tasks {
      match s.tasks[a.task]
      case Checked(request, seen) => CheckedTokens(s, a.task, request, seen);
      case ReadingKey(request) =>
        assert ResumeReadingKey(s, a.task, request, a.given.works).nextToken == s.nextToken;
      case Signing(request, key) => assert ResumeSigning(s, a.task, request, key).nextToken == s.nextToken;
      case _ =>
    }
  }

  lemma CheckedTokens(s: State, t: nat, request: Request, seen: seq<Origin>)
    ensures ResumeChecked(s, t, request, seen).nextToken
            == if UserIsAsked(request, seen) then s.nextToken + 2 else s.nextToken
  {
  }

  function Tokens(e: Entry): set<nat> {
    {e.id, e.nonce}
  }

  /** No two entries ever parked share a token, and no entry's nonce is its id. */
  ghost predicate TokensFresh(s: State) {
    && (forall e :: Parked(e) in s.log ==> e.id != e.nonce && e.id < s.nextToken && e.nonce < s.nextToken)
    && (forall e, f :: Parked(e) in s.log && Parked(f) in s.log && e != f ==> Tokens(e) !! Tokens(f))
  }

  lemma StepTokensFresh(s: State, a: Action)
    requires |s.pending| <= 1 && TokensFresh(s)
    ensures TokensFresh(Step(s, a))
  {
    var end := Step(s, a);
    StepTokens(s, a);
    forall e | Parked(e) in end.log ensures Parked(e) in s.log || ParksAs(s, a, e) {
      StepParks(s, a, e);
    }
  }

  lemma {:induction false} RunTokensFresh(first: seq<Origin>, wallet: Wallet, actions: seq<Action>)
    ensures TokensFresh(Run(Init(first, wallet), actions))
  {
    if actions != [] {
      var front := actions[..|actions| - 1];
      RunTokensFresh(first, wallet, front);
      RunLedger(first, wallet, front);
      StepTokensFresh(Run(Init(first, wallet), front), actions[|actions| - 1]);
    }
  }

  /**
   A decision that names a request which was parked before and no longer is,
   because it was decided, replaced or lost, does nothing, in every interleaving.
   */
  lemma StaleDecisionsDoNothing(first: seq<Origin>, wallet: Wallet, actions: seq<Action>, e: Entry,
      trusted: bool, nonce: nat, approved: bool)
    requires var s := Run(Init(first, wallet), actions); Parked(e) in s.log && s.pending != [e]
    ensures var s := Run(Init(first, wallet), actions); Step(s, Decide(trusted, e.id, nonce, approved)) == s
  {
    var s := Run(Init(first, wallet), actions);
    RunLedger(first, wallet, actions);
    RunSafe(first, wallet, actions);
    RunTokensFresh(first, wallet, actions);
    if s.pending != [] {
      var parked := s.pending[0];
      assert Parked(parked) in s.log;
      assert s.pending == [parked] && parked != e;
      assert e.id in Tokens(e) && parked.id in Tokens(parked);
      assert s.pending[1..] == [];
    }
  }
}
