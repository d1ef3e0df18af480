/** What a step of the approval protocol leaves alone: continuations it does not name. */
module Continuations {
  import opened Prelude
  import opened SessionKey
  import opened Approvals

  /** The step does not concern continuation `t`. */
  predicate Spares(a: Action, t: nat) {
    !a.Suspend? && (a.ReadOrigins? || a.Resume? || a.Throw? ==> a.task != t)
  }

  ghost predicate AllSpare(actions: seq<Action>, t: nat) {
    forall a :: a in actions ==> Spares(a, t)
  }

  ghost predicate SameTask(s: State, s': State, t: nat) {
    && (t in s'.tasks <==> t in s.tasks) && (t in s.tasks ==> s'.tasks[t] == s.tasks[t])
    && t < s.nextTask <= s'.nextTask
  }

  /** A landing write moves the approval that waits for it. */
  predicate AwaitsWrite(s: State, t: nat) {
    t in s.tasks && s.tasks[t].ConnectWriting?
  }

  lemma StepSpares(s: State, a: Action, t: nat)
    requires t < s.nextTask && Spares(a, t) && (a.LandOrigins? ==> !AwaitsWrite(s, t))
    ensures SameTask(s, Step(s, a), t)
  {
    match a
    case Resume(u, given) => if u in s.tasks { ResumeSpares(s, u, given, t); }
    case Receive(_, origin, _) =>
    case Decide(trusted, id, nonce, approved) => DecideSpares(s, trusted, id, nonce, approved, t);
    case _ =>
  }

  lemma DecideSpares(s: State, trusted: bool, id: nat, nonce: nat, approved: bool, t: nat)
    requires t < s.nextTask
    ensures SameTask(s, StepDecide(s, trusted, id, nonce, approved), t)
  {
  }

  lemma ResumeSpares(s: State, u: nat, given: Given, t: nat)
    requires t < s.nextTask && u in s.tasks && u != t
    ensures SameTask(s, StepResume(s, u, given), t)
  {
    match s.tasks[u]
    case Checked(request, seen) => CheckedSpares(s, u, request, seen, t);
    case ReadingKey(request) => ReadingSpares(s, u, request, given.works, t);
    case Signing(request, key) => SigningSpares(s, u, request, key, t);
    case _ =>
  }

  lemma CheckedSpares(s: State, u: nat, request: Request, seen: seq<Origin>, t: nat)
    requires t < s.nextTask && u in s.tasks && u != t
    ensures SameTask(s, ResumeChecked(s, u, request, seen), t)
  {
  }

  lemma ReadingSpares(s: State, u: nat, request: Request, works: bool, t: nat)
    requires t < s.nextTask && u in s.tasks && u != t
    ensures SameTask(s, ResumeReadingKey(s, u, request, works), t)
  {
  }

  lemma SigningSpares(s: State, u: nat, request: Request, key: string, t: nat)
    requires t < s.nextTask && u in s.tasks && u != t
    ensures SameTask(s, ResumeSigning(s, u, request, key), t)
  {
  }

  /** A continuation that waits for no write stays where it is while everything else happens. */
  lemma {:induction false} RunSparing(s: State, actions: seq<Action>, t: nat)
    requires t < s.nextTask && AllSpare(actions, t) && !AwaitsWrite(s, t)
    ensures SameTask(s, Run(s, actions), t)
  {
    if actions != [] {
      var last := actions[|actions| - 1];
      assert last in actions;
      RunSparing(s, actions[..|actions| - 1], t);
      StepSpares(Run(s, actions[..|actions| - 1]), last, t);
    }
  }

  lemma FinishAnswers(s: State, t: nat, rid: nat, reply: Reply)
    ensures Answered(rid, reply) in Finish(s, t, rid, reply).log
  {
    assert Finish(s, t, rid, reply).log[|s.log|] == Answered(rid, reply);
  }

  lemma {:induction false} RejectionsAreAnswers(pending: seq<Entry>, newer: nat)
    ensures forall e :: e in Rejections(pending, newer) ==> e.Answered?
  {
    if pending != [] {
      RejectionsAreAnswers(pending[1..], newer);
    }
  }
}
