/**
 What every handler and every approved decision comes to when it is left
 alone: from any reachable state its own steps lead to its end, and this is
 what it then has delivered.
 */
module ApprovalProgress {
  import opened Prelude
  import opened SessionKey
  import opened Approvals
  import opened Continuations
  import opened ApprovalLedger
  import opened ApprovalAnswers

  // ------------------------------------------------------------------
  // A connection that waits for its write has one under way
  // ------------------------------------------------------------------

  predicate WritesFor(writes: seq<OriginWrite>, t: nat) {
    exists i :: 0 <= i < |writes| && writes[i].task == t
  }

  ghost predicate WritesAwaited(s: State) {
    forall t :: t in s.tasks && s.tasks[t].ConnectWriting? ==> WritesFor(s.originWrites, t)
  }

  /** No continuation begins to wait, and no write goes. */
  lemma StillAwaited(s: State, s': State)
    requires WritesAwaited(s) && s.originWrites <= s'.originWrites
    requires forall t :: t in s'.tasks && s'.tasks[t].ConnectWriting? ==>
               (t in s.tasks && s.tasks[t].ConnectWriting?) || WritesFor(s'.originWrites, t)
    ensures WritesAwaited(s')
  {
    forall t | t in s'.tasks && s'.tasks[t].ConnectWriting? ensures WritesFor(s'.originWrites, t) {
      if t in s.tasks && s.tasks[t].ConnectWriting? {
        var i :| 0 <= i < |s.originWrites| && s.originWrites[i].task == t;
        assert s'.originWrites[i].task == t;
      }
    }
  }

  lemma LandAwaited(s: State)
    requires WritesAwaited(s) && s.originWrites != []
    ensures WritesAwaited(StepLandOrigins(s))
  {
    var end := StepLandOrigins(s);
    forall t | t in end.tasks && end.tasks[t].ConnectWriting? ensures WritesFor(end.originWrites, t) {
      assert t in s.tasks && s.tasks[t].ConnectWriting?;
      var i :| 0 <= i < |s.originWrites| && s.originWrites[i].task == t;
      assert i > 0 && end.originWrites[i - 1].task == t;
    }
  }

  lemma ConnectReadAwaited(s: State, t: nat, request: Request, key: string, seen: seq<Origin>)
    requires WritesAwaited(s)
    ensures WritesAwaited(ResumeConnectRead(s, t, request, key, seen))
  {
    var end := ResumeConnectRead(s, t, request, key, seen);
    if request.origin !in seen {
      assert end.originWrites[|s.originWrites|].task == t;
    }
    StillAwaited(s, end);
  }

  lemma ResumeAwaited(s: State, t: nat, given: Given)
    requires WritesAwaited(s) && t in s.tasks
    ensures WritesAwaited(StepResume(s, t, given))
  {
    match s.tasks[t]
    case ConnectRead(request, key, seen) => ConnectReadAwaited(s, t, request, key, seen);
    case Checked(request, seen) => CheckedAwaited(s, t, request, seen);
    case ReadingKey(request) => ReadingAwaited(s, t, request, given.works);
    case Signing(request, key) => SigningAwaited(s, t, request, key);
    case _ => StillAwaited(s, StepResume(s, t, given));
  }

  lemma CheckedAwaited(s: State, t: nat, request: Request, seen: seq<Origin>)
    requires WritesAwaited(s)
    ensures WritesAwaited(ResumeChecked(s, t, request, seen))
  {
    StillAwaited(s, ResumeChecked(s, t, request, seen));
  }

  lemma ReadingAwaited(s: State, t: nat, request: Request, works: bool)
    requires WritesAwaited(s)
    ensures WritesAwaited(ResumeReadingKey(s, t, request, works))
  {
    StillAwaited(s, ResumeReadingKey(s, t, request, works));
  }

  lemma SigningAwaited(s: State, t: nat, request: Request, key: string)
    requires WritesAwaited(s)
    ensures WritesAwaited(ResumeSigning(s, t, request, key))
  {
    StillAwaited(s, ResumeSigning(s, t, request, key));
  }

  lemma StepAwaited(s: State, a: Action)
    requires WritesAwaited(s)
    ensures WritesAwaited(Step(s, a))
  {
    match a
    case LandOrigins => if s.originWrites != [] { LandAwaited(s); }
    case Resume(t, given) => if t in s.tasks { ResumeAwaited(s, t, given); }
    case _ => StillAwaited(s, Step(s, a));
  }

  lemma {:induction false} RunAwaited(s: State, actions: seq<Action>)
    requires WritesAwaited(s)
    ensures WritesAwaited(Run(s, actions))
  {
    if actions != [] {
      RunAwaited(s, actions[..|actions| - 1]);
      StepAwaited(Run(s, actions[..|actions| - 1]), actions[|actions| - 1]);
    }
  }

  // ------------------------------------------------------------------
  // What is delivered
  // ------------------------------------------------------------------

  /** A handler parks its request, or answers it at once. */
  predicate HandlerEnds(request: Request, seen: seq<Origin>, given: Given, end: State) {
    if UserIsAsked(request, seen) then |end.pending| == 1 && end.pending[0].request == request
    else
      Answered(request.rid, if request.kind.Connect? then AutoConnected(given.publicKey) else NotConnected) in end.log
  }

  /** The signature is answered, but for an empty payload. */
  predicate SignEnds(request: Request, key: string, end: State) {
    (if request.payload == "" then Dropped(request) else Answered(request.rid, Signed(request, key))) in end.log
  }

  /** A sign decision reads the key; without one it fails. */
  predicate ApprovedSignEnds(request: Request, wallet: Wallet, works: bool, end: State) {
    if KeyUnavailable(wallet, works) then Answered(request.rid, Failed) in end.log
    else SignEnds(request, CachedKey(wallet, works).value, end)
  }

  /** A connect decision reads the public key; without one it fails. */
  predicate ApprovedConnectEnds(request: Request, publicKey: Option<string>, end: State) {
    Answered(request.rid, if publicKey.None? || publicKey.value == "" then Failed else Connected(publicKey.value))
    in end.log
  }

  /** What the continuation has delivered at its end, from the stage it was at in `s`. */
  predicate Delivered(s: State, stage: Stage, given: Given, end: State) {
    match stage
    case Checking(request) => HandlerEnds(request, s.origins, given, end)
    case Checked(request, seen) => HandlerEnds(request, seen, given, end)
    case FetchingKey(request) => Answered(request.rid, AutoConnected(given.publicKey)) in end.log
    case ConnectKey(request) => ApprovedConnectEnds(request, given.publicKey, end)
    case ConnectOrigins(request, key) => Answered(request.rid, Connected(key)) in end.log
    case ConnectRead(request, key, _) => Answered(request.rid, Connected(key)) in end.log
    case ConnectWriting(request, key) => Answered(request.rid, Connected(key)) in end.log
    case ConnectWritten(request, key) => Answered(request.rid, Connected(key)) in end.log
    case ReadingKey(request) => ApprovedSignEnds(request, s.wallet, given.works, end)
    case Signing(request, key) => SignEnds(request, key, end)
    case SigningMessage(request, key) => Answered(request.rid, Signed(request, key)) in end.log
    case _ => true
  }

  // ------------------------------------------------------------------
  // Its own steps lead there
  // ------------------------------------------------------------------

  /** A step that the continuation takes by itself, or that lands a write it may wait for. */
  predicate OwnStep(a: Action, t: nat) {
    (a.ReadOrigins? && a.task == t) || (a.Resume? && a.task == t) || a.LandOrigins?
  }

  function Rank(stage: Stage): nat {
    match stage
    case Checking(_) => 3
    case Checked(_, _) => 2
    case FetchingKey(_) => 1
    case Disconnecting(_) => 2
    case DisconnectRead(_, _) => 1
    case ConnectKey(_) => 5
    case ConnectOrigins(_, _) => 4
    case ConnectRead(_, _, _) => 3
    case ConnectWriting(_, _) => 2
    case ConnectWritten(_, _) => 1
    case ReadingKey(_) => 3
    case Signing(_, _) => 2
    case SigningMessage(_, _) => 1
  }

  /** What the continuation waits for. */
  function NextStep(stage: Stage, t: nat, given: Given): Action {
    if stage.Checking? || stage.Disconnecting? || stage.ConnectOrigins? then ReadOrigins(t)
    else if stage.ConnectWriting? then LandOrigins
    else Resume(t, given)
  }

  /** The stages of a handler that parks or refuses, and of a decision to sign: they leave the list alone. */
  predicate LeavesList(stage: Stage) {
    || stage.Checking? || stage.Checked? || stage.FetchingKey?
    || stage.ReadingKey? || stage.Signing? || stage.SigningMessage?
  }

  /** The wallet after the continuation: only reading the session key touches it. */
  function WalletLeft(wallet: Wallet, stage: Stage, given: Given): Wallet {
    if stage.ReadingKey? then ReadActiveKey(wallet, given.works).0 else wallet
  }

  /** What the continuation leaves alone on its way. */
  predicate Left(s: State, stage: Stage, given: Given, end: State) {
    && end.wallet == WalletLeft(s.wallet, stage, given)
    && (LeavesList(stage) ==> end.origins == s.origins)
  }

  /** One step: the continuation is further on, or has ended and delivered. */
  ghost predicate MovesOn(s: State, t: nat, given: Given, next: State)
    requires t in s.tasks
  {
    var stage := s.tasks[t];
    Left(s, stage, given, next) &&
    if t !in next.tasks then Delivered(s, stage, given, next)
    else
      && !next.tasks[t].ReadingKey? && (LeavesList(stage) ==> LeavesList(next.tasks[t]))
      && (Rank(next.tasks[t]) < Rank(stage) || (next.tasks[t] == stage && |next.originWrites| < |s.originWrites|))
      && forall end :: Delivered(next, next.tasks[t], given, end) ==> Delivered(s, stage, given, end)
  }

  lemma CheckedMoves(s: State, t: nat, given: Given)
    requires t in s.tasks && s.tasks[t].Checked? && |s.pending| <= 1
    ensures MovesOn(s, t, given, ResumeChecked(s, t, s.tasks[t].request, s.tasks[t].seen))
  {
    var Checked(request, seen) := s.tasks[t];
    var end := ResumeChecked(s, t, request, seen);
    CheckedLog(s, t, request, seen);
    if !UserIsAsked(request, seen) && !request.kind.Connect? {
      assert end.log[|s.log|] == Answered(request.rid, NotConnected);
    }
  }

  lemma ReadingMoves(s: State, t: nat, given: Given)
    requires t in s.tasks && s.tasks[t].ReadingKey?
    ensures MovesOn(s, t, given, ResumeReadingKey(s, t, s.tasks[t].request, given.works))
  {
    KeyOnlyWhileUnlocked(s.wallet, given.works);
    FinishAnswers(s.(wallet := ReadActiveKey(s.wallet, given.works).0), t, s.tasks[t].request.rid, Failed);
  }

  lemma SigningMoves(s: State, t: nat, given: Given)
    requires t in s.tasks && s.tasks[t].Signing?
    ensures MovesOn(s, t, given, ResumeSigning(s, t, s.tasks[t].request, s.tasks[t].secretKey))
  {
    var Signing(request, key) := s.tasks[t];
    var end := ResumeSigning(s, t, request, key);
    FinishAnswers(s, t, request.rid, Signed(request, key));
    if request.payload == "" {
      assert end.log[|s.log|] == Dropped(request);
    }
  }

  lemma ConnectMoves(s: State, t: nat, given: Given)
    requires t in s.tasks && (s.tasks[t].ConnectKey? || s.tasks[t].ConnectRead? || s.tasks[t].ConnectWritten?)
    ensures MovesOn(s, t, given, StepResume(s, t, given))
  {
    match s.tasks[t]
    case ConnectKey(request) => FinishAnswers(s, t, request.rid, Failed);
    case ConnectRead(request, key, _) => FinishAnswers(s, t, request.rid, Connected(key));
    case ConnectWritten(request, key) => FinishAnswers(s, t, request.rid, Connected(key));
  }

  lemma PlainMoves(s: State, t: nat, given: Given)
    requires t in s.tasks
    requires s.tasks[t].FetchingKey? || s.tasks[t].SigningMessage? || s.tasks[t].DisconnectRead?
    ensures MovesOn(s, t, given, StepResume(s, t, given))
  {
    match s.tasks[t]
    case FetchingKey(request) =>
      assert StepResume(s, t, given).log[|s.log|] == Answered(request.rid, AutoConnected(given.publicKey));
    case SigningMessage(request, key) => FinishAnswers(s, t, request.rid, Signed(request, key));
    case DisconnectRead(_, _) =>
  }

  lemma LandMoves(s: State, t: nat, given: Given)
    requires t in s.tasks && s.tasks[t].ConnectWriting? && WritesAwaited(s)
    ensures MovesOn(s, t, given, StepLandOrigins(s))
  {
    assert WritesFor(s.originWrites, t);
  }

  lemma ReadMoves(s: State, t: nat, given: Given)
    requires t in s.tasks && (s.tasks[t].Checking? || s.tasks[t].Disconnecting? || s.tasks[t].ConnectOrigins?)
    ensures MovesOn(s, t, given, StepReadOrigins(s, t))
  {
  }

  lemma StepMoves(s: State, t: nat, given: Given)
    requires t in s.tasks && |s.pending| <= 1 && WritesAwaited(s)
    ensures MovesOn(s, t, given, Step(s, NextStep(s.tasks[t], t, given)))
    ensures OwnStep(NextStep(s.tasks[t], t, given), t)
  {
    match s.tasks[t]
    case Checking(_) => ReadMoves(s, t, given);
    case Disconnecting(_) => ReadMoves(s, t, given);
    case ConnectOrigins(_, _) => ReadMoves(s, t, given);
    case ConnectWriting(_, _) => LandMoves(s, t, given);
    case Checked(_, _) => CheckedMoves(s, t, given);
    case ReadingKey(_) => ReadingMoves(s, t, given);
    case Signing(_, _) => SigningMoves(s, t, given);
    case ConnectKey(_) => ConnectMoves(s, t, given);
    case ConnectRead(_, _, _) => ConnectMoves(s, t, given);
    case ConnectWritten(_, _) => ConnectMoves(s, t, given);
    case _ => PlainMoves(s, t, given);
  }

  /**
   Left alone, a continuation comes to its end by its own steps, and has then
   delivered what its stage calls for.
   */
  lemma {:induction false} Finishes(s: State, t: nat, given: Given) returns (rest: seq<Action>)
    requires Ledger(s) && WritesAwaited(s) && t in s.tasks
    ensures forall a :: a in rest ==> OwnStep(a, t)
    ensures t !in Run(s, rest).tasks && Delivered(s, s.tasks[t], given, Run(s, rest))
    ensures Left(s, s.tasks[t], given, Run(s, rest))
    decreases Rank(s.tasks[t]), |s.originWrites|
  {
    var a := NextStep(s.tasks[t], t, given);
    var next := Step(s, a);
    StepMoves(s, t, given);
    var more := [];
    if t in next.tasks {
      StepLedger(s, a);
      StepAwaited(s, a);
      more := Finishes(next, t, given);
    } else {
      assert Run(next, []) == next;
    }
    rest := [a] + more;
    RunFirst(s, a, more);
  }

  /**
   In every interleaving, every handler and every approved decision that is
   under way can still come to its end by its own steps: a new connection is
   parked and a known one answered with the key, a sign request is parked or
   refused, an approved connection is answered with the key, an approved sign
   request is signed, each but for a missing key or an empty payload.
   */
  lemma EveryContinuationCanFinish(first: seq<Origin>, wallet: Wallet, actions: seq<Action>, t: nat, given: Given)
      returns (rest: seq<Action>)
    requires t in Run(Init(first, wallet), actions).tasks
    ensures forall a :: a in rest ==> OwnStep(a, t)
    ensures var s := Run(Init(first, wallet), actions);
      t !in Run(s, rest).tasks && Delivered(s, s.tasks[t], given, Run(s, rest))
  {
    RunLedger(first, wallet, actions);
    RunAwaited(Init(first, wallet), actions);
    rest := Finishes(Run(Init(first, wallet), actions), t, given);
  }

  /** The same for a whole decision: approving a parked request leads to its answer. */
  lemma ApprovalDelivers(first: seq<Origin>, wallet: Wallet, actions: seq<Action>, e: Entry, given: Given)
      returns (rest: seq<Action>)
    requires Run(Init(first, wallet), actions).pending == [e]
    ensures var s := Run(Init(first, wallet), actions);
            var end := Run(Step(s, Decide(true, e.id, e.nonce, true)), rest);
      && (forall a :: a in rest ==> OwnStep(a, s.nextTask))
      && (!e.request.kind.Connect? ==> end.origins == s.origins && end.wallet == ReadActiveKey(s.wallet, given.works).0)
      && if e.request.kind.Connect? then ApprovedConnectEnds(e.request, given.publicKey, end)
         else ApprovedSignEnds(e.request, s.wallet, given.works, end)
  {
    var s := Run(Init(first, wallet), actions);
    var accept := Decide(true, e.id, e.nonce, true);
    var accepted := Step(s, accept);
    RunLedger(first, wallet, actions);
    RunAwaited(Init(first, wallet), actions);
    StepLedger(s, accept);
    StepAwaited(s, accept);
    assert s.nextTask in accepted.tasks && accepted.wallet == s.wallet;
    rest := Finishes(accepted, s.nextTask, given);
  }

  /** And for a request that just arrived: it is parked, or answered at once. */
  lemma ArrivalDelivers(first: seq<Origin>, wallet: Wallet, actions: seq<Action>, kind: Kind, origin: Origin,
      payload: string, given: Given) returns (rest: seq<Action>)
    ensures var s := Run(Init(first, wallet), actions);
            var end := Run(Step(s, Receive(kind, Some(origin), payload)), rest);
      && (forall a :: a in rest ==> OwnStep(a, s.nextTask))
      && end.origins == s.origins && end.wallet == s.wallet
      && HandlerEnds(Request(s.nextRid, kind, origin, payload), s.origins, given, end)
  {
    var s := Run(Init(first, wallet), actions);
    var arrive := Receive(kind, Some(origin), payload);
    RunLedger(first, wallet, actions);
    RunAwaited(Init(first, wallet), actions);
    StepLedger(s, arrive);
    StepAwaited(s, arrive);
    rest := Finishes(Step(s, arrive), s.nextTask, given);
  }
}
