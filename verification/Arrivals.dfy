/** What the worker's log says of the requests that arrived, and what one step adds to it. */
module Arrivals {
  import opened Prelude
  import opened SessionKey
  import opened Approvals
  import opened ApprovalSafety
  import opened ApprovalLedger

  // ------------------------------------------------------------------
  // What one step adds to the log
  // ------------------------------------------------------------------

  lemma ParkReplaces(s: State, request: Request, e: Event)
    requires e in Park(s, request).log && e !in s.log && |s.pending| <= 1
    ensures !e.Received?
    ensures e.Answered? && e.reply.Replaced? ==> IsParked(s.pending, e.rid) && e.reply.newer == request.rid
  {
    if s.pending != [] {
      assert s.pending[1..] == [];
      assert Rejections(s.pending, request.rid) == [Answered(s.pending[0].request.rid, Replaced(request.rid))];
    }
  }

  lemma CheckedAdds(s: State, t: nat, e: Event)
    requires Ledger(s) && t in s.tasks && s.tasks[t].Checked?
    requires e in ResumeChecked(s, t, s.tasks[t].request, s.tasks[t].seen).log && e !in s.log
    ensures !e.Received?
    ensures e.Answered? && e.reply.Replaced? ==> IsParked(s.pending, e.rid) && InTask(s.tasks, e.reply.newer)
  {
    var Checked(request, seen) := s.tasks[t];
    assert Holds(s.tasks, t, request.rid);
    if request.kind.Connect? {
      if request.origin !in seen {
        ParkReplaces(End(s, t), request, e);
      }
    } else if request.origin in seen {
      var found := Note(End(s, t), OriginFound(request.rid, request.origin));
      if e !in found.log {
        ParkReplaces(found, request, e);
      }
    }
  }

  lemma ResumeAdds(s: State, t: nat, given: Given, e: Event)
    requires Ledger(s) && t in s.tasks && e in StepResume(s, t, given).log && e !in s.log
    ensures !e.Received?
    ensures e.Answered? && e.reply.Replaced? ==> IsParked(s.pending, e.rid) && InTask(s.tasks, e.reply.newer)
  {
    match s.tasks[t]
    case Checked(_, _) => CheckedAdds(s, t, e);
    case ReadingKey(request) => ReadingAdds(s, t, request, given.works, e);
    case Signing(request, key) => SigningAdds(s, t, request, key, e);
    case _ =>
  }

  predicate ArrivesOrReplaces(e: Event) {
    e.Received? || (e.Answered? && e.reply.Replaced?)
  }

  lemma ReadingAdds(s: State, t: nat, request: Request, works: bool, e: Event)
    requires e in ResumeReadingKey(s, t, request, works).log && e !in s.log
    ensures !ArrivesOrReplaces(e)
  {
  }

  lemma SigningAdds(s: State, t: nat, request: Request, key: string, e: Event)
    requires e in ResumeSigning(s, t, request, key).log && e !in s.log
    ensures !ArrivesOrReplaces(e)
  {
  }

  /** Only an arrival is logged as received; only a request that parks replaces another, which was parked. */
  lemma StepAdds(s: State, a: Action, e: Event)
    requires Ledger(s) && e in Step(s, a).log && e !in s.log
    ensures e.Received? ==> a.Receive? && e == Received(s.nextRid, a.kind, a.origin, a.payload)
    ensures e.Answered? && e.reply.Replaced? ==> IsParked(s.pending, e.rid) && InTask(s.tasks, e.reply.newer)
  {
    match a
    case Decide(trusted, id, nonce, approved) => DecideAdds(s, trusted, id, nonce, approved, e);
    case Resume(t, given) => if t in s.tasks { ResumeAdds(s, t, given, e); }
    case _ =>
  }

  lemma DecideAdds(s: State, trusted: bool, id: nat, nonce: nat, approved: bool, e: Event)
    requires e in StepDecide(s, trusted, id, nonce, approved).log && e !in s.log
    ensures !e.Received? && !(e.Answered? && e.reply.Replaced?)
  {
  }

  // ------------------------------------------------------------------
  // What every run keeps
  // ------------------------------------------------------------------

  /** Requests are numbered as they arrive, one arrival each. */
  ghost predicate ArrivalsOk(log: seq<Event>, nextRid: nat) {
    && (forall e :: e in log && e.Received? ==> e.rid < nextRid)
    && (forall e :: e in log && e.Answered? && e.reply.Replaced? ==> e.rid < nextRid && e.reply.newer < nextRid)
    && (forall e1, e2 :: e1 in log && e2 in log && e1.Received? && e2.Received? && e1.rid == e2.rid ==> e1 == e2)
  }

  lemma WorkerKeepsArrivals(s: State, a: Action)
    requires Ledger(s) && ArrivalsOk(s.log, s.nextRid)
    ensures ArrivalsOk(Step(s, a).log, Step(s, a).nextRid)
  {
    var end := Step(s, a);
    StepGrows(s, a);
    forall e | e in end.log && e.Received?
      ensures e in s.log || (a.Receive? && e == Received(s.nextRid, a.kind, a.origin, a.payload))
    {
      if e !in s.log {
        StepAdds(s, a, e);
      }
    }
    forall e | e in end.log && e.Answered? && e.reply.Replaced?
      ensures e.rid < end.nextRid && e.reply.newer < end.nextRid
    {
      if e !in s.log {
        StepAdds(s, a, e);
        assert Places(s.log, s.tasks, s.pending, e.rid) >= 1;
        assert Places(s.log, s.tasks, s.pending, e.reply.newer) >= 1;
      }
    }
  }

  lemma {:induction false} RunArrivals(first: seq<Origin>, wallet: Wallet, actions: seq<Action>)
    ensures var s := Run(Init(first, wallet), actions); ArrivalsOk(s.log, s.nextRid)
  {
    if actions != [] {
      var front := actions[..|actions| - 1];
      RunArrivals(first, wallet, front);
      RunLedger(first, wallet, front);
      WorkerKeepsArrivals(Run(Init(first, wallet), front), actions[|actions| - 1]);
    }
  }

  /** A signed request is, payload and origin included, the one that arrived under this number. */
  lemma SignedArrived(log: seq<Event>, first: seq<Origin>, rid: nat, request: Request, key: string)
    requires WellFounded(log, first) && Answered(rid, Signed(request, key)) in log
    ensures rid == request.rid && WasReceived(log, request)
  {
    var last :| 0 <= last < |log| && log[last] == Answered(rid, Signed(request, key));
    var read := KeyReadBefore(log, first, last, rid, request, key);
    var parked, accepted := AcceptedBefore(log, first, read, request);
    BecauseAt(log, first, parked);
    assert forall e :: e in log[..parked] ==> e in log;
  }
}
