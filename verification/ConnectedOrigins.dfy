/**
 What approvals and disconnects do to the stored list of connected origins:
 each reads it, computes a new list, and writes that list back at a later step.
 Exactly when that race can bring an origin back or lose one, and what the
 operations do when no other write comes between.
 */
module ConnectedOrigins {
  import opened Prelude
  import opened SessionKey
  import opened Approvals
  import opened Continuations

  // ------------------------------------------------------------------
  // Filtering
  // ------------------------------------------------------------------

  lemma {:induction false} FilteredExactly(origins: seq<Origin>, gone: Origin, o: Origin)
    ensures multiset(Filtered(origins, gone))[o] == if o == gone then 0 else multiset(origins)[o]
  {
    if origins != [] {
      FilteredExactly(origins[1..], gone, o);
      assert origins == [origins[0]] + origins[1..];
    }
  }

  lemma {:induction false} FilteredJoins(front: seq<Origin>, rest: seq<Origin>, gone: Origin)
    ensures Filtered(front + rest, gone) == Filtered(front, gone) + Filtered(rest, gone)
  {
    if front == [] {
      assert front + rest == rest;
    } else {
      assert (front + rest)[1..] == front[1..] + rest;
      FilteredJoins(front[1..], rest, gone);
    }
  }

  lemma FilteredHas(origins: seq<Origin>, gone: Origin, o: Origin)
    ensures o in Filtered(origins, gone) <==> o in origins && o != gone
  {
    FilteredExactly(origins, gone, o);
    assert o in Filtered(origins, gone) <==> o in multiset(Filtered(origins, gone));
    assert o in origins <==> o in multiset(origins);
  }

  // ------------------------------------------------------------------
  // What is already under way
  // ------------------------------------------------------------------

  /** The list this continuation writes once it goes on, from the list it has read. */
  function WillWrite(stage: Stage): Option<seq<Origin>> {
    match stage
    case ConnectRead(request, _, seen) => if request.origin in seen then None else Some(seen + [request.origin])
    case DisconnectRead(gone, seen) => Some(Filtered(seen, gone))
    case _ => None
  }

  /** An approved connection of the origin has not read the list yet. */
  predicate WillConnect(stage: Stage, o: Origin) {
    (stage.ConnectKey? || stage.ConnectOrigins?) && stage.request.origin == o
  }

  /** The continuation leads to a list that holds the origin, or that does not. */
  ghost predicate Leads(stage: Stage, o: Origin, held: bool) {
    || (WillWrite(stage).Some? && (o in WillWrite(stage).value <==> held))
    || (held && WillConnect(stage, o))
    || (!held && stage == Disconnecting(o))
  }

  /** A write or a continuation under way leads there. */
  ghost predicate UnderWay(s: State, o: Origin, held: bool) {
    || (exists i :: 0 <= i < |s.originWrites| && (o in s.originWrites[i].origins <==> held))
    || (exists t :: t in s.tasks && Leads(s.tasks[t], o, held))
  }

  /** The decision approves a connection of this origin. */
  predicate ApprovesConnection(s: State, a: Action, o: Origin) {
    && a.Decide? && a.trusted && a.approved
    && var found := Find(s.pending, a.id);
       found.Some? && found.value.nonce == a.nonce && found.value.request.kind.Connect?
           && found.value.request.origin == o
  }

  /** A fresh reason for the list to hold the origin, or not to: an approval, or a disconnect, of that very origin. */
  predicate NewReason(s: State, a: Action, o: Origin, held: bool) {
    if held then ApprovesConnection(s, a, o) else a == ReceiveDisconnect(Some(o))
  }

  ghost predicate NoNewReason(s: State, actions: seq<Action>, o: Origin, held: bool)
    decreases |actions|
  {
    actions == [] ||
    (!NewReason(s, actions[0], o, held) && NoNewReason(Step(s, actions[0]), actions[1..], o, held))
  }

  /** Some continuation without such a reason ends with the origin in the list, or not in it. */
  ghost predicate CanBecome(s: State, o: Origin, held: bool) {
    exists actions :: NoNewReason(s, actions, o, held) && (o in Run(s, actions).origins <==> held)
  }

  // ------------------------------------------------------------------
  // Nothing else leads there
  // ------------------------------------------------------------------

  ghost predicate Ruled(s: State, o: Origin, held: bool) {
    !(o in s.origins <==> held) && !UnderWay(s, o, held)
  }

  /** One continuation moves on, and perhaps issues a write. */
  lemma MoveRuled(s: State, s': State, t: nat, o: Origin, held: bool)
    requires Ruled(s, o, held) && s'.origins == s.origins
    requires forall u :: u in s'.tasks && u != t ==> u in s.tasks && s'.tasks[u] == s.tasks[u]
    requires t in s'.tasks ==> !Leads(s'.tasks[t], o, held)
    requires s'.originWrites == s.originWrites
             || exists w :: s'.originWrites == s.originWrites + [w] && !(o in w.origins <==> held)
    ensures Ruled(s', o, held)
  {
    forall i | 0 <= i < |s'.originWrites| ensures !(o in s'.originWrites[i].origins <==> held) {
      if i < |s.originWrites| {
        assert s'.originWrites[i] == s.originWrites[i];
      }
    }
  }

  lemma ReadRuled(s: State, t: nat, o: Origin, held: bool)
    requires Ruled(s, o, held) && t in s.tasks
    ensures Ruled(StepReadOrigins(s, t), o, held)
  {
    if s.tasks[t].Disconnecting? {
      FilteredHas(s.origins, s.tasks[t].origin, o);
    }
    assert !Leads(s.tasks[t], o, held);
    MoveRuled(s, StepReadOrigins(s, t), t, o, held);
  }

  lemma ConnectReadRuled(s: State, t: nat, request: Request, key: string, seen: seq<Origin>, o: Origin, held: bool)
    requires Ruled(s, o, held) && t in s.tasks && s.tasks[t] == ConnectRead(request, key, seen)
    ensures Ruled(ResumeConnectRead(s, t, request, key, seen), o, held)
  {
    assert !Leads(s.tasks[t], o, held);
    if request.origin !in seen {
      var w := OriginWrite(seen + [request.origin], t);
      assert !(o in w.origins <==> held);
    }
    MoveRuled(s, ResumeConnectRead(s, t, request, key, seen), t, o, held);
  }

  lemma SigningRuled(s: State, t: nat, works: bool, o: Origin, held: bool)
    requires Ruled(s, o, held) && t in s.tasks
    ensures s.tasks[t].ReadingKey? ==> Ruled(ResumeReadingKey(s, t, s.tasks[t].request, works), o, held)
    ensures s.tasks[t].Signing? ==> Ruled(ResumeSigning(s, t, s.tasks[t].request, s.tasks[t].secretKey), o, held)
  {
    if s.tasks[t].ReadingKey? {
      MoveRuled(s, ResumeReadingKey(s, t, s.tasks[t].request, works), t, o, held);
    } else if s.tasks[t].Signing? {
      MoveRuled(s, ResumeSigning(s, t, s.tasks[t].request, s.tasks[t].secretKey), t, o, held);
    }
  }

  lemma CheckedRuled(s: State, t: nat, request: Request, seen: seq<Origin>, o: Origin, held: bool)
    requires Ruled(s, o, held) && t in s.tasks
    ensures Ruled(ResumeChecked(s, t, request, seen), o, held)
  {
    MoveRuled(s, ResumeChecked(s, t, request, seen), t, o, held);
  }

  lemma ResumeRuled(s: State, t: nat, given: Given, o: Origin, held: bool)
    requires Ruled(s, o, held) && t in s.tasks
    ensures Ruled(StepResume(s, t, given), o, held)
  {
    match s.tasks[t]
    case FetchingKey(_) => MoveRuled(s, StepResume(s, t, given), t, o, held);
    case Checked(request, seen) => CheckedRuled(s, t, request, seen, o, held);
    case ConnectRead(request, key, seen) => ConnectReadRuled(s, t, request, key, seen, o, held);
    case ReadingKey(_) => SigningRuled(s, t, given.works, o, held);
    case Signing(_, _) => SigningRuled(s, t, given.works, o, held);
    case _ =>
      assert !Leads(s.tasks[t], o, held);
      MoveRuled(s, StepResume(s, t, given), t, o, held);
  }

  lemma LandRuled(s: State, o: Origin, held: bool)
    requires Ruled(s, o, held) && s.originWrites != []
    ensures Ruled(StepLandOrigins(s), o, held)
  {
    var end := StepLandOrigins(s);
    assert !(o in s.originWrites[0].origins <==> held);
    forall i | 0 <= i < |end.originWrites| ensures !(o in end.originWrites[i].origins <==> held) {
      assert end.originWrites[i] == s.originWrites[i + 1];
    }
    forall t | t in end.tasks ensures !Leads(end.tasks[t], o, held) {
      assert t in s.tasks && !Leads(s.tasks[t], o, held);
    }
  }

  /** A handler or a decision starts a continuation. */
  lemma SpawnRuled(s: State, s': State, stage: Stage, o: Origin, held: bool)
    requires Ruled(s, o, held) && s'.origins == s.origins && s'.originWrites == s.originWrites
    requires s'.tasks == s.tasks[s.nextTask := stage] && !Leads(stage, o, held)
    ensures Ruled(s', o, held)
  {
  }

  lemma DecideRuled(s: State, trusted: bool, id: nat, nonce: nat, approved: bool, o: Origin, held: bool)
    requires Ruled(s, o, held) && !NewReason(s, Decide(trusted, id, nonce, approved), o, held)
    ensures Ruled(StepDecide(s, trusted, id, nonce, approved), o, held)
  {
    var found := Find(s.pending, id);
    if trusted && found.Some? && nonce == found.value.nonce && approved {
      var request := found.value.request;
      var stage := if request.kind.Connect? then ConnectKey(request) else ReadingKey(request);
      SpawnRuled(s, StepDecide(s, trusted, id, nonce, approved), stage, o, held);
    }
  }

  lemma ReceiveRuled(s: State, kind: Kind, origin: Option<Origin>, payload: string, o: Origin, held: bool)
    requires Ruled(s, o, held)
    ensures Ruled(StepReceive(s, kind, origin, payload), o, held)
  {
    if origin.Some? {
      var stage := Checking(Request(s.nextRid, kind, origin.value, payload));
      SpawnRuled(s, StepReceive(s, kind, origin, payload), stage, o, held);
    }
  }

  lemma ThrowRuled(s: State, t: nat, o: Origin, held: bool)
    requires Ruled(s, o, held)
    ensures Ruled(StepThrow(s, t), o, held)
  {
    if t in s.tasks {
      assert !Leads(s.tasks[t], o, held);
    }
    MoveRuled(s, StepThrow(s, t), t, o, held);
  }

  lemma StepRuled(s: State, a: Action, o: Origin, held: bool)
    requires Ruled(s, o, held) && !NewReason(s, a, o, held)
    ensures Ruled(Step(s, a), o, held)
  {
    match a
    case ReadOrigins(t) => if t in s.tasks { ReadRuled(s, t, o, held); }
    case Resume(t, given) => if t in s.tasks { ResumeRuled(s, t, given, o, held); }
    case LandOrigins => if s.originWrites != [] { LandRuled(s, o, held); }
    case Receive(kind, origin, payload) => ReceiveRuled(s, kind, origin, payload, o, held);
    case ReceiveDisconnect(None) =>
    case ReceiveDisconnect(Some(origin)) =>
      SpawnRuled(s, Spawn(s, Disconnecting(origin)), Disconnecting(origin), o, held);
    case Decide(trusted, id, nonce, approved) => DecideRuled(s, trusted, id, nonce, approved, o, held);
    case Throw(t) => ThrowRuled(s, t, o, held);
    case Suspend => MoveRuled(s, StepSuspend(s), 0, o, held);
    case LandDescriptor =>
    case WalletStep(_) =>
  }

  lemma {:induction false} RunRuled(s: State, actions: seq<Action>, o: Origin, held: bool)
    requires Ruled(s, o, held) && NoNewReason(s, actions, o, held)
    ensures !(o in Run(s, actions).origins <==> held)
    decreases |actions|
  {
    if actions != [] {
      assert actions == [actions[0]] + actions[1..];
      RunFirst(s, actions[0], actions[1..]);
      StepRuled(s, actions[0], o, held);
      RunRuled(Step(s, actions[0]), actions[1..], o, held);
    }
  }

  // ------------------------------------------------------------------
  // What is under way does lead there
  // ------------------------------------------------------------------

  lemma BecomesAfter(s: State, a: Action, o: Origin, held: bool)
    requires !NewReason(s, a, o, held) && CanBecome(Step(s, a), o, held)
    ensures CanBecome(s, o, held)
  {
    var actions :| NoNewReason(Step(s, a), actions, o, held) && (o in Run(Step(s, a), actions).origins <==> held);
    RunFirst(s, a, actions);
    assert ([a] + actions)[1..] == actions;
    assert NoNewReason(s, [a] + actions, o, held);
  }

  lemma BecomesNow(s: State, o: Origin, held: bool)
    requires o in s.origins <==> held
    ensures CanBecome(s, o, held)
  {
    assert NoNewReason(s, [], o, held) && Run(s, []) == s;
  }

  /** Writes land one after the other until this one has. */
  lemma {:induction false} WriteLeads(s: State, i: nat, o: Origin, held: bool)
    requires i < |s.originWrites| && (o in s.originWrites[i].origins <==> held)
    ensures CanBecome(s, o, held)
    decreases i
  {
    var landed := StepLandOrigins(s);
    if i == 0 {
      BecomesNow(landed, o, held);
    } else {
      assert landed.originWrites[i - 1] == s.originWrites[i];
      WriteLeads(landed, i - 1, o, held);
    }
    BecomesAfter(s, LandOrigins, o, held);
  }

  lemma SnapshotLeads(s: State, t: nat, o: Origin, held: bool)
    requires t in s.tasks && WillWrite(s.tasks[t]).Some? && (o in WillWrite(s.tasks[t]).value <==> held)
    ensures CanBecome(s, o, held)
  {
    var issued := Step(s, Resume(t, NOTHING));
    assert issued.originWrites[|s.originWrites|].origins == WillWrite(s.tasks[t]).value;
    WriteLeads(issued, |s.originWrites|, o, held);
    BecomesAfter(s, Resume(t, NOTHING), o, held);
  }

  lemma StageLeads(s: State, t: nat, o: Origin, held: bool)
    requires t in s.tasks && Leads(s.tasks[t], o, held) && !(o in s.origins <==> held)
    ensures CanBecome(s, o, held)
  {
    if WillWrite(s.tasks[t]).Some? && (o in WillWrite(s.tasks[t]).value <==> held) {
      SnapshotLeads(s, t, o, held);
    } else if s.tasks[t].ConnectKey? {
      var a := Resume(t, Given(Some("key"), true));
      UnreadLeads(Step(s, a), t, o, held);
      BecomesAfter(s, a, o, held);
    } else {
      UnreadLeads(s, t, o, held);
    }
  }

  lemma UnreadLeads(s: State, t: nat, o: Origin, held: bool)
    requires t in s.tasks && !(o in s.origins <==> held)
    requires (held && s.tasks[t].ConnectOrigins? && s.tasks[t].request.origin == o)
             || (!held && s.tasks[t] == Disconnecting(o))
    ensures CanBecome(s, o, held)
  {
    FilteredHas(s.origins, o, o);
    SnapshotLeads(Step(s, ReadOrigins(t)), t, o, held);
    BecomesAfter(s, ReadOrigins(t), o, held);
  }

  // ------------------------------------------------------------------
  // Main results: the race
  // ------------------------------------------------------------------

  lemma BecomesExactly(s: State, o: Origin, held: bool)
    requires !(o in s.origins <==> held)
    ensures CanBecome(s, o, held) <==> UnderWay(s, o, held)
  {
    if CanBecome(s, o, held) && !UnderWay(s, o, held) {
      var actions :| NoNewReason(s, actions, o, held) && (o in Run(s, actions).origins <==> held);
      RunRuled(s, actions, o, held);
    }
    if i :| 0 <= i < |s.originWrites| && (o in s.originWrites[i].origins <==> held) {
      WriteLeads(s, i, o, held);
    } else if t :| t in s.tasks && Leads(s.tasks[t], o, held) {
      StageLeads(s, t, o, held);
    }
  }

  /** A write, or a snapshot that will be written back, holds the origin; or a connection of it was approved. */
  ghost predicate Carried(s: State, o: Origin) {
    || (exists i :: 0 <= i < |s.originWrites| && o in s.originWrites[i].origins)
    || (exists t :: t in s.tasks && Carries(s.tasks[t], o))
  }

  ghost predicate Carries(stage: Stage, o: Origin) {
    match stage
    case ConnectKey(request) => request.origin == o
    case ConnectOrigins(request, _) => request.origin == o
    case ConnectRead(request, _, seen) => request.origin !in seen && (o in seen || request.origin == o)
    case DisconnectRead(gone, seen) => o in seen && o != gone
    case _ => false
  }

  lemma LeadsCarries(stage: Stage, o: Origin)
    ensures Leads(stage, o, true) <==> Carries(stage, o)
    ensures Leads(stage, o, false) <==> Drops(stage, o)
  {
    if stage.DisconnectRead? {
      FilteredHas(stage.seen, stage.origin, o);
    }
  }

  /**
   Exactly when an origin that is not in the list can come to be in it, in any
   continuation in which no connection of it is newly approved: some write
   under way holds it, some approval's snapshot or some other origin's
   disconnect's snapshot holds it, or a connection of it was approved before.
   */
  lemma OriginReturnsExactly(s: State, o: Origin)
    requires o !in s.origins
    ensures CanBecome(s, o, true) <==> Carried(s, o)
  {
    BecomesExactly(s, o, true);
    forall t | t in s.tasks ensures Leads(s.tasks[t], o, true) <==> Carries(s.tasks[t], o) {
      LeadsCarries(s.tasks[t], o);
    }
  }

  /** A write, or a snapshot that will be written back, lacks the origin; or a disconnect of it is in progress. */
  ghost predicate Threatened(s: State, o: Origin) {
    || (exists i :: 0 <= i < |s.originWrites| && o !in s.originWrites[i].origins)
    || (exists t :: t in s.tasks && Drops(s.tasks[t], o))
  }

  ghost predicate Drops(stage: Stage, o: Origin) {
    match stage
    case Disconnecting(gone) => gone == o
    case ConnectRead(request, _, seen) => request.origin !in seen && o !in seen && request.origin != o
    case DisconnectRead(gone, seen) => o !in seen || o == gone
    case _ => false
  }

  /**
   The dual: exactly when a connected origin can be lost in a continuation in
   which nobody newly disconnects it.
   */
  lemma OriginLostExactly(s: State, o: Origin)
    requires o in s.origins
    ensures CanBecome(s, o, false) <==> Threatened(s, o)
  {
    BecomesExactly(s, o, false);
    forall t | t in s.tasks ensures Leads(s.tasks[t], o, false) <==> Drops(s.tasks[t], o) {
      LeadsCarries(s.tasks[t], o);
    }
  }

  // ------------------------------------------------------------------
  // Main results: no other write comes between
  // ------------------------------------------------------------------

  /** The step neither issues nor lands a write of the list. */
  predicate NoWrite(s: State, a: Action) {
    !a.LandOrigins? && (a.Resume? && a.task in s.tasks ==> WillWrite(s.tasks[a.task]).None?)
  }

  lemma StepNoWrite(s: State, a: Action)
    requires NoWrite(s, a)
    ensures Step(s, a).origins == s.origins && Step(s, a).originWrites == s.originWrites
  {
    if a.Resume? && a.task in s.tasks {
      match s.tasks[a.task]
      case Checked(request, seen) => assert ResumeChecked(s, a.task, request, seen).originWrites == s.originWrites;
      case ReadingKey(request) =>
        assert ResumeReadingKey(s, a.task, request, a.given.works).originWrites == s.originWrites;
      case Signing(request, key) => assert ResumeSigning(s, a.task, request, key).originWrites == s.originWrites;
      case _ =>
    }
  }

  ghost predicate NoneWrites(s: State, actions: seq<Action>)
    decreases |actions|
  {
    actions == [] || (NoWrite(s, actions[0]) && NoneWrites(Step(s, actions[0]), actions[1..]))
  }

  lemma {:induction false} RunNoneWrites(s: State, actions: seq<Action>)
    requires NoneWrites(s, actions)
    ensures Run(s, actions).origins == s.origins && Run(s, actions).originWrites == s.originWrites
    decreases |actions|
  {
    if actions != [] {
      assert actions == [actions[0]] + actions[1..];
      RunFirst(s, actions[0], actions[1..]);
      StepNoWrite(s, actions[0]);
      RunNoneWrites(Step(s, actions[0]), actions[1..]);
    }
  }

  lemma {:induction false} RunElsewhere(s: State, actions: seq<Action>, t: nat)
    requires t in s.tasks && t < s.nextTask && NoneWrites(s, actions) && AllSpare(actions, t)
    ensures SameTask(s, Run(s, actions), t)
    ensures Run(s, actions).origins == s.origins && Run(s, actions).originWrites == s.originWrites
    decreases |actions|
  {
    RunNoneWrites(s, actions);
    if actions != [] {
      assert actions == [actions[0]] + actions[1..];
      RunFirst(s, actions[0], actions[1..]);
      StepSpares(s, actions[0], t);
      RunElsewhere(Step(s, actions[0]), actions[1..], t);
    }
  }

  /** Read the list, do anything elsewhere, go on, and again do anything elsewhere. */
  function Between(s: State, t: nat, xs: seq<Action>): State {
    Run(Step(s, ReadOrigins(t)), xs)
  }

  /**
   An approved connection with no write of the list between its read and its
   own write, whatever else happens meanwhile, adds its origin behind the
   others, keeps those, and answers with the key.
   */
  lemma UndisturbedConnectAdds(s: State, t: nat, request: Request, key: string,
                               xs: seq<Action>, ys: seq<Action>, zs: seq<Action>)
    requires t in s.tasks && t < s.nextTask && s.tasks[t] == ConnectOrigins(request, key)
    requires s.originWrites == [] && request.origin !in s.origins
    requires NoneWrites(Step(s, ReadOrigins(t)), xs) && AllSpare(xs, t)
    requires NoneWrites(Step(Between(s, t, xs), Resume(t, NOTHING)), ys) && AllSpare(ys, t)
    requires var landed := Step(Run(Step(Between(s, t, xs), Resume(t, NOTHING)), ys), LandOrigins);
             NoneWrites(landed, zs) && AllSpare(zs, t)
    ensures var landed := Step(Run(Step(Between(s, t, xs), Resume(t, NOTHING)), ys), LandOrigins);
      && Run(landed, zs).origins == s.origins + [request.origin] && Run(landed, zs).originWrites == []
      && Answered(request.rid, Connected(key)) in Step(Run(landed, zs), Resume(t, NOTHING)).log
  {
    RunElsewhere(Step(s, ReadOrigins(t)), xs, t);
    ConnectIssues(Between(s, t, xs), t, request, key, s.origins);
    var issued := Step(Between(s, t, xs), Resume(t, NOTHING));
    RunElsewhere(issued, ys, t);
    OwnWriteLands(Run(issued, ys), t, request, key, s.origins + [request.origin]);
    var landed := Step(Run(issued, ys), LandOrigins);
    RunElsewhere(landed, zs, t);
    ConnectAnswers(Run(landed, zs), t, request, key);
  }

  lemma ConnectIssues(s: State, t: nat, request: Request, key: string, seen: seq<Origin>)
    requires t in s.tasks && s.tasks[t] == ConnectRead(request, key, seen) && request.origin !in seen
    requires s.originWrites == []
    ensures var issued := Step(s, Resume(t, NOTHING));
      && issued.originWrites == [OriginWrite(seen + [request.origin], t)] && issued.origins == s.origins
      && issued.tasks == s.tasks[t := ConnectWriting(request, key)] && issued.nextTask == s.nextTask
  {
  }

  lemma OwnWriteLands(s: State, t: nat, request: Request, key: string, origins: seq<Origin>)
    requires t in s.tasks && s.tasks[t] == ConnectWriting(request, key) && s.originWrites == [OriginWrite(origins, t)]
    ensures var landed := Step(s, LandOrigins);
      && landed.origins == origins && landed.originWrites == [] && landed.nextTask == s.nextTask
      && landed.tasks == s.tasks[t := ConnectWritten(request, key)]
  {
    assert s.originWrites[1..] == [];
  }

  /** One that finds its origin already there leaves the list alone and answers with the key. */
  lemma RepeatedConnectKeeps(s: State, t: nat, request: Request, key: string, xs: seq<Action>)
    requires t in s.tasks && t < s.nextTask && s.tasks[t] == ConnectOrigins(request, key) && request.origin in s.origins
    requires NoneWrites(Step(s, ReadOrigins(t)), xs) && AllSpare(xs, t)
    ensures var end := Step(Between(s, t, xs), Resume(t, NOTHING));
      && end.origins == s.origins && end.originWrites == s.originWrites
      && Answered(request.rid, Connected(key)) in end.log
  {
    RunElsewhere(Step(s, ReadOrigins(t)), xs, t);
    ConnectFinds(Between(s, t, xs), t, request, key, s.origins);
  }

  lemma ConnectFinds(s: State, t: nat, request: Request, key: string, seen: seq<Origin>)
    requires t in s.tasks && s.tasks[t] == ConnectRead(request, key, seen) && request.origin in seen
    ensures var end := Step(s, Resume(t, NOTHING));
      && end.origins == s.origins && end.originWrites == s.originWrites
      && Answered(request.rid, Connected(key)) in end.log
  {
    FinishAnswers(s, t, request.rid, Connected(key));
  }

  /**
   A disconnect with no write of the list between its read and its own write
   removes its origin, every time it occurs, and keeps the others as they are.
   */
  lemma UndisturbedDisconnectRemoves(s: State, t: nat, gone: Origin, o: Origin, xs: seq<Action>, ys: seq<Action>)
    requires t in s.tasks && t < s.nextTask && s.tasks[t] == Disconnecting(gone) && s.originWrites == []
    requires NoneWrites(Step(s, ReadOrigins(t)), xs) && AllSpare(xs, t)
    requires NoneWrites(Step(Between(s, t, xs), Resume(t, NOTHING)), ys)
    ensures var end := Step(Run(Step(Between(s, t, xs), Resume(t, NOTHING)), ys), LandOrigins);
      && end.originWrites == [] && end.origins == Filtered(s.origins, gone)
      && multiset(end.origins)[o] == if o == gone then 0 else multiset(s.origins)[o]
  {
    RunElsewhere(Step(s, ReadOrigins(t)), xs, t);
    DisconnectIssues(Between(s, t, xs), t, gone, s.origins);
    var issued := Step(Between(s, t, xs), Resume(t, NOTHING));
    RunNoneWrites(issued, ys);
    LastWriteLands(Run(issued, ys), OriginWrite(Filtered(s.origins, gone), t));
    FilteredExactly(s.origins, gone, o);
  }

  lemma DisconnectIssues(s: State, t: nat, gone: Origin, seen: seq<Origin>)
    requires t in s.tasks && s.tasks[t] == DisconnectRead(gone, seen) && s.originWrites == []
    ensures Step(s, Resume(t, NOTHING)).originWrites == [OriginWrite(Filtered(seen, gone), t)]
    ensures Step(s, Resume(t, NOTHING)).origins == s.origins
  {
  }

  lemma LastWriteLands(s: State, w: OriginWrite)
    requires s.originWrites == [w]
    ensures Step(s, LandOrigins).origins == w.origins && Step(s, LandOrigins).originWrites == []
  {
    assert s.originWrites[1..] == [];
  }

  // ------------------------------------------------------------------
  // Two schedules of the race
  // ------------------------------------------------------------------

  /** Read, go on, land: nothing else happens. */
  function Straight(s: State, t: nat): State {
    Step(Step(Step(s, ReadOrigins(t)), Resume(t, NOTHING)), LandOrigins)
  }

  /** A disconnect that runs wholly between an approval's read and its write is undone by that write. */
  lemma DisconnectUndoneByApproval(s: State, connect: nat, disconnect: nat, request: Request, key: string, gone: Origin)
    requires connect in s.tasks && s.tasks[connect] == ConnectOrigins(request, key)
    requires disconnect in s.tasks && s.tasks[disconnect] == Disconnecting(gone)
    requires s.originWrites == [] && request.origin !in s.origins && gone in s.origins
    ensures var gap := Straight(Step(s, ReadOrigins(connect)), disconnect);
            var end := Step(Step(gap, Resume(connect, NOTHING)), LandOrigins);
            gone !in gap.origins && gone in end.origins
  {
    var read := Step(s, ReadOrigins(connect));
    DisconnectLands(read, disconnect, gone);
    var gap := Straight(read, disconnect);
    ConnectIssues(gap, connect, request, key, s.origins);
    OwnWriteLands(Step(gap, Resume(connect, NOTHING)), connect, request, key, s.origins + [request.origin]);
  }

  lemma DisconnectLands(s: State, t: nat, gone: Origin)
    requires t in s.tasks && s.tasks[t] == Disconnecting(gone) && s.originWrites == []
    ensures var end := Straight(s, t);
      && end.origins == Filtered(s.origins, gone) && gone !in end.origins && end.originWrites == []
      && end.tasks == s.tasks - {t} && end.nextTask == s.nextTask && end.log == s.log
      && end.pending == s.pending && end.wallet == s.wallet && end.nextToken == s.nextToken
  {
    var issued := Step(Step(s, ReadOrigins(t)), Resume(t, NOTHING));
    assert issued.originWrites == [OriginWrite(Filtered(s.origins, gone), t)] && issued.originWrites[1..] == [];
    assert issued.tasks == s.tasks - {t};
    FilteredHas(s.origins, gone, gone);
  }

  /**
   An approval that runs wholly between another origin's disconnect's read and its write is lost,
   although it was answered.
   */
  lemma ApprovalLostToDisconnect(s: State, connect: nat, disconnect: nat, request: Request, key: string, gone: Origin)
    requires connect in s.tasks && s.tasks[connect] == ConnectOrigins(request, key)
    requires disconnect in s.tasks && s.tasks[disconnect] == Disconnecting(gone)
    requires s.originWrites == [] && request.origin !in s.origins && gone != request.origin
    ensures var answered := Step(Straight(Step(s, ReadOrigins(disconnect)), connect), Resume(connect, NOTHING));
            var end := Step(Step(answered, Resume(disconnect, NOTHING)), LandOrigins);
      && Answered(request.rid, Connected(key)) in answered.log && request.origin in answered.origins
      && request.origin !in end.origins
  {
    var read := Step(s, ReadOrigins(disconnect));
    assert disconnect in read.tasks && read.tasks[disconnect] == DisconnectRead(gone, s.origins);
    ConnectAnswered(read, connect, request, key, disconnect);
    var answered := Step(Straight(read, connect), Resume(connect, NOTHING));
    StaleDisconnectLands(answered, disconnect, gone, s.origins, request.origin);
  }

  /** The approval goes through and answers, while continuation `t` stands by. */
  lemma ConnectAnswered(s: State, connect: nat, request: Request, key: string, t: nat)
    requires connect in s.tasks && s.tasks[connect] == ConnectOrigins(request, key)
    requires s.originWrites == [] && request.origin !in s.origins && t in s.tasks && t != connect
    ensures var answered := Step(Straight(s, connect), Resume(connect, NOTHING));
      && answered.origins == s.origins + [request.origin] && answered.originWrites == []
      && t in answered.tasks && answered.tasks[t] == s.tasks[t]
      && Answered(request.rid, Connected(key)) in answered.log
  {
    ConnectLands(s, connect, request, key);
    ConnectAnswers(Straight(s, connect), connect, request, key);
  }

  lemma ConnectLands(s: State, t: nat, request: Request, key: string)
    requires t in s.tasks && s.tasks[t] == ConnectOrigins(request, key)
    requires s.originWrites == [] && request.origin !in s.origins
    ensures var landed := Straight(s, t);
      && landed.origins == s.origins + [request.origin] && landed.originWrites == []
      && landed.tasks == s.tasks[t := ConnectWritten(request, key)]
  {
    var read := Step(s, ReadOrigins(t));
    assert read.tasks[t] == ConnectRead(request, key, s.origins);
    ConnectIssues(read, t, request, key, s.origins);
    OwnWriteLands(Step(read, Resume(t, NOTHING)), t, request, key, s.origins + [request.origin]);
  }

  lemma ConnectAnswers(s: State, t: nat, request: Request, key: string)
    requires t in s.tasks && s.tasks[t] == ConnectWritten(request, key)
    ensures var answered := Step(s, Resume(t, NOTHING));
      && answered.origins == s.origins && answered.originWrites == s.originWrites && answered.tasks == s.tasks - {t}
      && Answered(request.rid, Connected(key)) in answered.log
  {
    FinishAnswers(s, t, request.rid, Connected(key));
  }

  lemma StaleDisconnectLands(s: State, t: nat, gone: Origin, seen: seq<Origin>, o: Origin)
    requires t in s.tasks && s.tasks[t] == DisconnectRead(gone, seen) && s.originWrites == [] && o !in seen
    ensures o !in Step(Step(s, Resume(t, NOTHING)), LandOrigins).origins
  {
    assert Step(s, Resume(t, NOTHING)).originWrites == [OriginWrite(Filtered(seen, gone), t)];
    FilteredHas(seen, gone, o);
  }
}
