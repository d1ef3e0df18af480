/**
 What a call of the provider comes to: how the response to each of its
 messages decides whether it throws, goes on or returns, and with what.
 */
module Promises {
  import opened Prelude
  import opened SessionKey
  import opened Approvals
  import opened ApprovalSafety
  import opened ApprovalLedger
  import opened ApprovalReplies
  import opened Arrivals
  import opened Correlation
  import opened MessageIds
  import opened MessageLedger

  // ------------------------------------------------------------------
  // What a response means to the page
  // ------------------------------------------------------------------

  /** The response is an error, or brings no key. */
  predicate Rejects(outcome: Outcome) {
    match outcome
    case BridgeError => true
    case FromWorker(_, AutoConnected(key)) => key.None? || key.value == ""
    case FromWorker(_, Connected(_)) => false
    case FromWorker(_, Signed(_, _)) => false
    case _ => true
  }

  /** What the response brings: the account, or the signature. */
  function Brings(outcome: Outcome): Output
    requires !Rejects(outcome)
  {
    match outcome.reply
    case AutoConnected(key) => Account(key.value)
    case Connected(key) => Account(key)
    case Signed(request, key) => Signature(request, key)
  }

  /** The arrival that carried the message says what was asked for. */
  lemma ArrivedOnce(w: World, first: seq<Origin>, id: string, rid: nat, request: Request)
    requires WorldOk(w, first) && id in w.sent && rid in w.routed && w.routed[rid] == id
    requires WasReceived(w.worker.log, request) && request.rid == rid
    ensures w.sent[id].batch in w.batches && request.kind == w.batches[w.sent[id].batch].kind
  {
    assert Delivered(w.worker.log, w.page, w.batches, w.sent[id], rid);
  }

  /** The provider takes a response to one of its own messages exactly when it does not reject. */
  lemma AcceptsExactly(w: World, first: seq<Origin>, id: string, outcome: Outcome)
    requires WorldOk(w, first) && Keyed(w.worker) && id in w.sent && w.sent[id].batch in w.batches
    requires OutcomeOk(w.worker.log, w.routed, id, outcome)
    ensures var kind := w.batches[w.sent[id].batch].kind;
      if Rejects(outcome) then IsError(outcome) || Accept(kind, outcome.reply).None?
      else !IsError(outcome) && Accept(kind, outcome.reply) == Some(Brings(outcome))
  {
    if outcome.FromWorker? {
      var rid, reply := outcome.rid, outcome.reply;
      KeyedFits(w.worker, first, rid, reply);
      match reply
      case AutoConnected(_) => ConnectAsked(w, first, id, rid);
      case Connected(_) => ConnectAsked(w, first, id, rid);
      case Signed(request, _) => ArrivedOnce(w, first, id, rid, request);
      case _ =>
    }
  }

  lemma ConnectAsked(w: World, first: seq<Origin>, id: string, rid: nat)
    requires WorldOk(w, first) && id in w.sent && rid in w.routed && w.routed[rid] == id
    requires ArrivedToConnect(w.worker.log, rid)
    ensures w.sent[id].batch in w.batches && w.batches[w.sent[id].batch].kind.Connect?
  {
    var request :| WasReceived(w.worker.log, request) && request.rid == rid && request.kind.Connect?;
    ArrivedOnce(w, first, id, rid, request);
  }

  // ------------------------------------------------------------------
  // What the settled promises made of their batches
  // ------------------------------------------------------------------

  /** The promise of message `k` settled with this outcome, and its batch shows it. */
  predicate Shown(batch: Batch, k: nat, outcome: Outcome) {
    if Rejects(outcome) then batch.status.Threw? && |batch.results| == k && |batch.ids| == k + 1
    else
      && k < |batch.results| && batch.results[k] == Brings(outcome)
      && if k + 1 == |batch.inputs| then batch.status.Returned? else k + 1 < |batch.ids|
  }

  ghost predicate Tells(w: World, s: Settlement) {
    s.id in w.sent && w.sent[s.id].batch in w.batches
    && Shown(w.batches[w.sent[s.id].batch], w.sent[s.id].index, s.outcome)
  }

  ghost predicate AllTell(w: World) {
    forall i :: 0 <= i < |w.settled| ==> Tells(w, w.settled[i])
  }

  /** A batch that still runs awaits its newest message; a connect call has just one. */
  ghost predicate Awaits(w: World, b: nat)
    requires b in w.batches
  {
    var batch := w.batches[b];
    && (batch.status.Running? ==> batch.ids != [] && batch.ids[|batch.ids| - 1] in w.listeners)
    && (batch.kind.Connect? ==> batch.inputs == [""])
  }

  ghost predicate AllAwait(w: World) {
    forall b :: b in w.batches ==> Awaits(w, b)
  }

  ghost predicate PromisesOk(w: World) {
    Keyed(w.worker) && OnePlace(w) && AllTell(w) && AllAwait(w)
  }

  // ------------------------------------------------------------------
  // Every step
  // ------------------------------------------------------------------

  lemma SameTold(w: World, w': World)
    requires AllTell(w) && AllAwait(w)
    requires w'.batches == w.batches && w'.sent == w.sent && w'.settled == w.settled && w'.listeners == w.listeners
    ensures AllTell(w') && AllAwait(w')
  {
    assert forall s :: Tells(w, s) ==> Tells(w', s);
    assert forall b :: b in w.batches ==> Awaits(w, b) ==> Awaits(w', b);
  }

  /** Every batch but `b` awaits its newest message. */
  ghost predicate OthersAwait(w: World, b: nat) {
    forall c :: c in w.batches && c != b ==> Awaits(w, c)
  }

  /** A batch that runs sends its next input: nothing that settled is told differently. */
  lemma PostTells(w: World, b: nat, now: nat)
    requires AllTell(w) && OthersAwait(w, b) && IdsMinted(w.counter, w.sent)
    requires b in w.batches && w.batches[b].status.Running?
    requires w.batches[b].kind.Connect? ==> w.batches[b].inputs == [""]
    requires SentOk(w.batches, w.nextBatch, w.sent)
    ensures AllTell(Post(w, b, now)) && AllAwait(Post(w, b, now))
  {
    var id := MessageId(now, w.counter);
    var next := Post(w, b, now);
    FreshId(w, now);
    forall i | 0 <= i < |w.settled| ensures Tells(next, w.settled[i]) {
      assert Tells(w, w.settled[i]);
    }
    forall c | c in next.batches ensures Awaits(next, c) {
      if c != b {
        assert Awaits(w, c);
      }
    }
  }

  lemma CallTells(w: World, first: seq<Origin>, kind: Kind, inputs: seq<string>, now: nat)
    requires WorldOk(w, first) && AllTell(w) && AllAwait(w)
    ensures AllTell(StepCall(w, kind, inputs, now)) && AllAwait(StepCall(w, kind, inputs, now))
  {
    var payloads := Payloads(kind, inputs);
    var batch := Batch(kind, payloads, [], [], if payloads == [] then Returned else Running);
    var called := WithBatch(w, batch);
    CalledKeeps(w, first, batch);
    forall i | 0 <= i < |w.settled| ensures Tells(called, w.settled[i]) {
      assert Tells(w, w.settled[i]);
    }
    forall c | c in w.batches ensures Awaits(called, c) {
      assert Awaits(w, c);
    }
    if payloads != [] {
      PostTells(called, w.nextBatch, now);
    }
  }

  /** The batch makes progress: what had settled before is told as before. */
  lemma ProgressTells(w: World, b: nat, more: Batch, s: Settlement)
    requires b in w.batches && w.batches[b].status.Running? && Tells(w, s)
    requires SameMessages(more, w.batches[b]) && w.batches[b].results <= more.results
    requires |w.batches[b].results| + 1 == |w.batches[b].ids| <= |w.batches[b].inputs|
    ensures Tells(w.(batches := w.batches[b := more]), s)
  {
  }

  /** The other batches' newest messages are still listened for. */
  lemma OthersStillAwait(w: World, m: nat)
    requires AllAwait(w) && m in w.mail && w.mail[m].ToProvider? && w.mail[m].id in w.sent
    requires SentOk(w.batches, w.nextBatch, w.sent)
    ensures OthersAwait(SettledBy(w, m), w.sent[w.mail[m].id].batch)
  {
    forall c | c in w.batches && c != w.sent[w.mail[m].id].batch ensures Awaits(SettledBy(w, m), c) {
      assert Awaits(w, c);
    }
  }

  lemma SettledTells(w: World, m: nat, b: nat, more: Batch)
    requires AllTell(w) && m in w.mail && w.mail[m].ToProvider? && w.mail[m].id in w.sent && b in w.batches
    requires w.batches[b].status.Running? && !more.status.Running?
    requires w.sent[w.mail[m].id] == Sent(b, |w.batches[b].results|)
    requires SameMessages(more, w.batches[b]) && w.batches[b].results <= more.results
    requires |w.batches[b].results| + 1 == |w.batches[b].ids| <= |w.batches[b].inputs|
    requires Shown(more, |w.batches[b].results|, w.mail[m].outcome)
    requires OthersAwait(SettledBy(w, m), b) && Awaits(w, b)
    ensures var end := SettledBy(w, m).(batches := w.batches[b := more]);
            AllTell(end) && AllAwait(end)
  {
    var end := SettledBy(w, m).(batches := w.batches[b := more]);
    forall i | 0 <= i < |end.settled| ensures Tells(end, end.settled[i]) {
      if i < |w.settled| {
        assert Tells(w, w.settled[i]);
        ProgressTells(w, b, more, w.settled[i]);
      }
    }
    forall c | c in end.batches ensures Awaits(end, c) {
      if c != b {
        assert Awaits(SettledBy(w, m), c);
      }
    }
  }

  /** The batch with the settled message's result, about to send its next input. */
  function GoingOn(w: World, m: nat): World
    requires m in w.mail && w.mail[m].ToProvider? && w.mail[m].id in w.sent && w.sent[w.mail[m].id].batch in w.batches
    requires !Rejects(w.mail[m].outcome)
  {
    var b := w.sent[w.mail[m].id].batch;
    var results := w.batches[b].results + [Brings(w.mail[m].outcome)];
    SettledBy(w, m).(batches := w.batches[b := w.batches[b].(results := results)])
  }

  /** The settled message is its batch's newest, and not for its last input. */
  ghost predicate SettlesBeforeLast(w: World, m: nat) {
    && m in w.mail && w.mail[m].ToProvider? && w.mail[m].id in w.sent && w.sent[w.mail[m].id].batch in w.batches
    && !Rejects(w.mail[m].outcome)
    && var batch := w.batches[w.sent[w.mail[m].id].batch];
       && batch.status.Running? && |batch.results| + 1 == |batch.ids| < |batch.inputs|
       && w.sent[w.mail[m].id].index == |batch.results|
  }

  lemma GoesOnTells(w: World, m: nat, now: nat)
    requires AllTell(w) && AllAwait(w) && SettlesBeforeLast(w, m)
    requires IdsMinted(w.counter, w.sent) && SentOk(w.batches, w.nextBatch, w.sent)
    requires OthersAwait(SettledBy(w, m), w.sent[w.mail[m].id].batch)
    ensures var next := Post(GoingOn(w, m), w.sent[w.mail[m].id].batch, now);
            AllTell(next) && AllAwait(next)
  {
    var b := w.sent[w.mail[m].id].batch;
    var batch := w.batches[b];
    var next := GoingOn(w, m);
    assert Awaits(w, b);
    forall i | 0 <= i < |w.settled| ensures Tells(next, w.settled[i]) {
      assert Tells(w, w.settled[i]);
      ProgressTells(w, b, next.batches[b], w.settled[i]);
    }
    GoingOnSent(w, m);
    assert OthersAwait(next, b) by {
      forall c | c in next.batches && c != b ensures Awaits(next, c) {
        assert Awaits(SettledBy(w, m), c);
      }
    }
    PostShows(next, b, now, |batch.results|);
  }

  lemma GoingOnSent(w: World, m: nat)
    requires SentOk(w.batches, w.nextBatch, w.sent) && SettlesBeforeLast(w, m)
    ensures SentOk(GoingOn(w, m).batches, w.nextBatch, w.sent)
  {
    var b := w.sent[w.mail[m].id].batch;
    ProgressKeepsSent(w.batches, w.nextBatch, w.sent, b, GoingOn(w, m).batches[b]);
  }

  /** Sending the next input completes what the settled message means to its batch. */
  lemma PostShows(w: World, b: nat, now: nat, k: nat)
    requires w.settled != [] && forall i :: 0 <= i < |w.settled| - 1 ==> Tells(w, w.settled[i])
    requires OthersAwait(w, b) && IdsMinted(w.counter, w.sent) && SentOk(w.batches, w.nextBatch, w.sent)
    requires b in w.batches && w.batches[b].status.Running?
    requires w.batches[b].kind.Connect? ==> w.batches[b].inputs == [""]
    requires var s := w.settled[|w.settled| - 1];
      && s.id in w.sent && w.sent[s.id] == Sent(b, k) && !Rejects(s.outcome)
      && k + 1 == |w.batches[b].results| == |w.batches[b].ids| < |w.batches[b].inputs|
      && w.batches[b].results[k] == Brings(s.outcome)
    ensures AllTell(Post(w, b, now)) && AllAwait(Post(w, b, now))
  {
    var id := MessageId(now, w.counter);
    var next := Post(w, b, now);
    FreshId(w, now);
    forall i | 0 <= i < |w.settled| ensures Tells(next, w.settled[i]) {
      assert i < |w.settled| - 1 ==> Tells(w, w.settled[i]);
    }
    forall c | c in next.batches ensures Awaits(next, c) {
      if c != b {
        assert Awaits(w, c);
      }
    }
  }

  /** What a settled promise makes of its batch: it throws, returns, or sends the next input. */
  function Resumed(w: World, m: nat, now: nat): World
    requires m in w.mail && w.mail[m].ToProvider? && w.mail[m].id in w.sent && w.sent[w.mail[m].id].batch in w.batches
  {
    var b := w.sent[w.mail[m].id].batch;
    var batch := w.batches[b];
    if Rejects(w.mail[m].outcome) then SettledBy(w, m).(batches := w.batches[b := batch.(status := Threw)])
    else if |batch.results| + 1 == |batch.inputs| then
      var results := batch.results + [Brings(w.mail[m].outcome)];
      SettledBy(w, m).(batches := w.batches[b := batch.(results := results, status := Returned)])
    else Post(GoingOn(w, m), b, now)
  }

  lemma ResumesSo(w: World, first: seq<Origin>, m: nat, now: nat)
    requires WorldOk(w, first) && Keyed(w.worker) && m in w.mail && w.mail[m].ToProvider? && w.mail[m].id in w.listeners
    ensures w.mail[m].id in w.sent && w.sent[w.mail[m].id].batch in w.batches
    ensures StepCarryToProvider(w, m, now) == Resumed(w, m, now)
  {
    AcceptsExactly(w, first, w.mail[m].id, w.mail[m].outcome);
  }

  /** The promise of the awaited message settles, and its batch throws, returns or goes on. */
  lemma ResumeTells(w: World, first: seq<Origin>, m: nat, now: nat)
    requires WorldOk(w, first) && PromisesOk(w)
    requires m in w.mail && w.mail[m].ToProvider? && w.mail[m].id in w.listeners
    ensures AllTell(StepCarryToProvider(w, m, now)) && AllAwait(StepCarryToProvider(w, m, now))
  {
    var id := w.mail[m].id;
    var b := w.sent[id].batch;
    var batch := w.batches[b];
    SettledAwaited(w, first, m);
    assert w.sent[id] == Sent(b, |batch.results|) && BatchShape(batch);
    OthersStillAwait(w, m);
    ResumesSo(w, first, m, now);
    assert Awaits(w, b);
    if Rejects(w.mail[m].outcome) {
      SettledTells(w, m, b, batch.(status := Threw));
    } else if |batch.results| + 1 == |batch.inputs| {
      SettledTells(w, m, b, batch.(results := batch.results + [Brings(w.mail[m].outcome)], status := Returned));
    } else {
      GoesOnTells(w, m, now);
    }
  }

  lemma BridgeWorker(w: World, m: nat) returns (a: Action)
    requires StepCarryToBridge(w, m) != w
    ensures StepCarryToBridge(w, m).worker == Step(w.worker, a)
  {
    a := ArrivalOf(w, w.sent[w.mail[m].id]);
  }

  lemma WorkerKeyed(w: World, first: seq<Origin>, a: WorldAction)
    requires WorldOk(w, first) && Keyed(w.worker)
    ensures Keyed(StepWorld(w, a).worker)
  {
    if a.Background? {
      StepKeyed(w.worker, first, a.action);
    } else if a.CarryToBridge? && StepCarryToBridge(w, a.m) != w {
      var arrival := BridgeWorker(w, a.m);
      StepKeyed(w.worker, first, arrival);
    } else {
      WorkerStays(w, a);
    }
  }

  lemma WorkerStays(w: World, a: WorldAction)
    requires !a.Background? && (a.CarryToBridge? ==> StepCarryToBridge(w, a.m) == w)
    ensures StepWorld(w, a).worker == w.worker
  {
  }

  lemma StepPromises(w: World, first: seq<Origin>, a: WorldAction)
    requires WorldOk(w, first) && PromisesOk(w)
    ensures PromisesOk(StepWorld(w, a))
  {
    StepPlaces(w, first, a);
    WorkerKeyed(w, first, a);
    StepTells(w, first, a);
  }

  lemma StepTells(w: World, first: seq<Origin>, a: WorldAction)
    requires WorldOk(w, first) && PromisesOk(w)
    ensures AllTell(StepWorld(w, a)) && AllAwait(StepWorld(w, a))
  {
    if a.Call? {
      CallTells(w, first, a.kind, a.inputs, a.now);
    } else if a.CarryToProvider? {
      CarryTells(w, first, a.m, a.now);
    } else {
      QuietStep(w, a);
      SameTold(w, StepWorld(w, a));
    }
  }

  lemma CarryTells(w: World, first: seq<Origin>, m: nat, now: nat)
    requires WorldOk(w, first) && PromisesOk(w)
    ensures AllTell(StepCarryToProvider(w, m, now)) && AllAwait(StepCarryToProvider(w, m, now))
  {
    if m in w.mail && w.mail[m].ToProvider? {
      SettlePlaces(w, m);
      ResumeTells(w, first, m, now);
    }
  }

  lemma QuietStep(w: World, a: WorldAction)
    requires !a.Call? && !a.CarryToProvider?
    ensures var w' := StepWorld(w, a);
      w'.batches == w.batches && w'.sent == w.sent && w'.settled == w.settled && w'.listeners == w.listeners
  {
  }

  lemma {:induction false} RunPromises(page: Option<Origin>, first: seq<Origin>, wallet: Wallet,
      actions: seq<WorldAction>)
    ensures PromisesOk(After(page, first, wallet, actions))
  {
    if actions == [] {
      RunPlaces(page, first, wallet, []);
    } else {
      var front := actions[..|actions| - 1];
      RunPromises(page, first, wallet, front);
      RunWorldKeeps(page, first, wallet, front);
      StepPromises(After(page, first, wallet, front), first, actions[|actions| - 1]);
    }
  }

  // ------------------------------------------------------------------
  // Main results
  // ------------------------------------------------------------------

  /**
   However mail and channels are reordered: once the message of a connect call
   has settled, the call has returned the account with that key exactly when
   the response was a key, of an approval or, non-empty, of a known origin; it
   has thrown exactly when the response was anything else.
   */
  lemma ConnectReturnsExactly(page: Option<Origin>, first: seq<Origin>, wallet: Wallet, actions: seq<WorldAction>,
      b: nat, i: nat)
    requires var w := After(page, first, wallet, actions);
      && b in w.batches && w.batches[b].kind.Connect?
      && i < |w.settled| && w.settled[i].id in w.batches[b].ids
    ensures var w := After(page, first, wallet, actions);
            ConnectEnded(w.batches[b], w.settled[i].outcome)
  {
    RunPromises(page, first, wallet, actions);
    RunWorldKeeps(page, first, wallet, actions);
    ConnectTold(After(page, first, wallet, actions), first, b, i);
  }

  predicate ConnectEnded(batch: Batch, outcome: Outcome) {
    match outcome
    case FromWorker(_, Connected(key)) => batch.status.Returned? && batch.results == [Account(key)]
    case FromWorker(_, AutoConnected(Some(key))) =>
      if key != "" then batch.status.Returned? && batch.results == [Account(key)] else batch.status.Threw?
    case _ => batch.status.Threw?
  }

  /** The settlement of one of the batch's messages is told at that message's position. */
  lemma SettlementTells(w: World, b: nat, k: nat, i: nat)
    requires SentOk(w.batches, w.nextBatch, w.sent) && AllTell(w)
    requires b in w.batches && k < |w.batches[b].ids| && i < |w.settled| && w.settled[i].id == w.batches[b].ids[k]
    ensures Tells(w, w.settled[i]) && w.sent[w.settled[i].id] == Sent(b, k)
    ensures Shown(w.batches[b], k, w.settled[i].outcome)
  {
    assert Tells(w, w.settled[i]);
    assert w.sent[w.batches[b].ids[k]] == Sent(b, k);
  }

  /** A connect call has one message, which is its first. */
  lemma OneMessage(w: World, b: nat)
    requires ShapesOk(w.batches) && AllAwait(w) && b in w.batches && w.batches[b].kind.Connect?
    ensures w.batches[b].inputs == [""] && |w.batches[b].ids| <= 1 && BatchShape(w.batches[b])
  {
    assert Awaits(w, b) && BatchShape(w.batches[b]);
  }

  lemma ConnectTold(w: World, first: seq<Origin>, b: nat, i: nat)
    requires WorldOk(w, first) && PromisesOk(w)
    requires b in w.batches && w.batches[b].kind.Connect? && i < |w.settled| && w.settled[i].id in w.batches[b].ids
    ensures ConnectEnded(w.batches[b], w.settled[i].outcome)
  {
    var batch := w.batches[b];
    var k :| 0 <= k < |batch.ids| && batch.ids[k] == w.settled[i].id;
    SettlementTells(w, b, k, i);
    OneMessage(w, b);
    ConnectOutcome(w, first, w.settled[i]);
    OneResult(batch, w.settled[i].outcome);
  }

  lemma OneResult(batch: Batch, outcome: Outcome)
    requires batch.inputs == [""] && BatchShape(batch) && Shown(batch, 0, outcome)
    requires outcome.FromWorker? ==> !outcome.reply.Signed?
    ensures ConnectEnded(batch, outcome)
  {
  }

  lemma ConnectOutcome(w: World, first: seq<Origin>, s: Settlement)
    requires WorldOk(w, first) && Keyed(w.worker) && Tells(w, s) && w.batches[w.sent[s.id].batch].kind.Connect?
    requires OutcomeOk(w.worker.log, w.routed, s.id, s.outcome)
    ensures s.outcome.FromWorker? ==> !s.outcome.reply.Signed?
  {
    AcceptsExactly(w, first, s.id, s.outcome);
  }

  /**
   A sign call: a signature for message `k` becomes result `k`, and the call
   returns after the last input and otherwise sends the next one; anything
   else makes it throw with the results it had.
   */
  lemma SignGoesOnExactly(page: Option<Origin>, first: seq<Origin>, wallet: Wallet, actions: seq<WorldAction>,
      b: nat, k: nat, i: nat)
    requires var w := After(page, first, wallet, actions);
      && b in w.batches && !w.batches[b].kind.Connect?
      && i < |w.settled| && k < |w.batches[b].ids| && w.settled[i].id == w.batches[b].ids[k]
    ensures var w := After(page, first, wallet, actions);
            SignEnded(w.batches[b], k, w.settled[i].outcome)
  {
    RunPromises(page, first, wallet, actions);
    RunWorldKeeps(page, first, wallet, actions);
    SignTold(After(page, first, wallet, actions), first, b, k, i);
  }

  predicate SignEnded(batch: Batch, k: nat, outcome: Outcome) {
    match outcome
    case FromWorker(_, Signed(request, key)) =>
      && k < |batch.results| && batch.results[k] == Signature(request, key)
      && if k + 1 == |batch.inputs| then batch.status.Returned? else k + 1 < |batch.ids|
    case _ => batch.status.Threw? && |batch.results| == k && |batch.ids| == k + 1
  }

  lemma SignTold(w: World, first: seq<Origin>, b: nat, k: nat, i: nat)
    requires WorldOk(w, first) && PromisesOk(w)
    requires b in w.batches && !w.batches[b].kind.Connect?
    requires i < |w.settled| && k < |w.batches[b].ids| && w.settled[i].id == w.batches[b].ids[k]
    ensures SignEnded(w.batches[b], k, w.settled[i].outcome)
  {
    SettlementTells(w, b, k, i);
    SignOutcome(w, first, w.settled[i]);
  }

  lemma SignOutcome(w: World, first: seq<Origin>, s: Settlement)
    requires WorldOk(w, first) && Keyed(w.worker) && Tells(w, s) && !w.batches[w.sent[s.id].batch].kind.Connect?
    requires OutcomeOk(w.worker.log, w.routed, s.id, s.outcome)
    ensures s.outcome.FromWorker? ==> !s.outcome.reply.AutoConnected? && !s.outcome.reply.Connected?
  {
    if s.outcome.FromWorker? {
      KeyedFits(w.worker, first, s.outcome.rid, s.outcome.reply);
      if ArrivedToConnect(w.worker.log, s.outcome.rid) {
        ConnectAsked(w, first, s.id, s.outcome.rid);
      }
    }
  }

  /** A call still runs exactly as long as one of its messages, its newest, has not settled. */
  lemma RunsUntilSettled(page: Option<Origin>, first: seq<Origin>, wallet: Wallet, actions: seq<WorldAction>, b: nat)
    requires b in After(page, first, wallet, actions).batches
    ensures var w := After(page, first, wallet, actions);
      var batch := w.batches[b];
      && (batch.status.Running? <==> exists k :: 0 <= k < |batch.ids| && !HasSettled(w, batch.ids[k]))
      && (batch.status.Running? ==> forall k :: 0 <= k < |batch.ids| - 1 ==> HasSettled(w, batch.ids[k]))
  {
    RunPromises(page, first, wallet, actions);
    RunWorldKeeps(page, first, wallet, actions);
    var w := After(page, first, wallet, actions);
    var batch := w.batches[b];
    assert Awaits(w, b);
    forall k | 0 <= k < |batch.ids| && !HasSettled(w, batch.ids[k])
      ensures batch.status.Running? && k + 1 == |batch.ids|
    {
      assert batch.ids[k] in w.sent && w.sent[batch.ids[k]] == Sent(b, k);
      assert batch.ids[k] in w.listeners;
    }
  }
}
