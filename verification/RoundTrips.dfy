/**
 From end to end: left alone, a message of the page reaches the user, and what
 the user approves reaches the page.
 */
module RoundTrips {
  import opened Prelude
  import opened SessionKey
  import opened Approvals
  import opened ApprovalLedger
  import opened ApprovalAnswers
  import opened ApprovalProgress
  import opened Correlation
  import opened MessageLedger
  import opened Promises

  // ------------------------------------------------------------------
  // Runs of the composed machine and of the worker in it
  // ------------------------------------------------------------------

  lemma {:induction false} WorldRunJoin(w: World, xs: seq<WorldAction>, ys: seq<WorldAction>)
    ensures RunWorld(w, xs + ys) == RunWorld(RunWorld(w, xs), ys)
    decreases |ys|
  {
    if ys == [] {
      assert xs + ys == xs;
    } else {
      assert (xs + ys)[..|xs + ys| - 1] == xs + ys[..|ys| - 1];
      WorldRunJoin(w, xs, ys[..|ys| - 1]);
    }
  }

  lemma WorldRunFirst(w: World, a: WorldAction, more: seq<WorldAction>)
    ensures RunWorld(w, [a] + more) == RunWorld(StepWorld(w, a), more)
  {
    WorldRunJoin(w, [a], more);
    assert [a][..0] == [];
  }

  /** Steps of the worker as steps of the composed machine. */
  function Lifted(actions: seq<Action>): seq<WorldAction> {
    seq(|actions|, i requires 0 <= i < |actions| => Background(actions[i]))
  }

  lemma {:induction false} LiftedRun(w: World, actions: seq<Action>)
    ensures RunWorld(w, Lifted(actions)) == w.(worker := Run(w.worker, actions))
  {
    if actions != [] {
      var front := actions[..|actions| - 1];
      LiftedRun(w, front);
      assert Lifted(actions)[..|actions| - 1] == Lifted(front);
    }
  }

  lemma WorkerStep(w: World, a: WorldAction) returns (acts: seq<Action>)
    ensures StepWorld(w, a).worker == Run(w.worker, acts)
  {
    if a.Background? {
      acts := [a.action];
      assert [a.action][..0] == [];
    } else if a.CarryToBridge? && StepCarryToBridge(w, a.m) != w {
      var arrival := BridgeWorker(w, a.m);
      acts := [arrival];
      assert [arrival][..0] == [];
    } else {
      WorkerStays(w, a);
      acts := [];
    }
  }

  /** Within the composed machine the worker goes through one of its own runs. */
  lemma {:induction false} WorkerRuns(page: Option<Origin>, first: seq<Origin>, wallet: Wallet,
      actions: seq<WorldAction>) returns (acts: seq<Action>)
    ensures After(page, first, wallet, actions).worker == Run(Init(first, wallet), acts)
  {
    if actions == [] {
      acts := [];
    } else {
      var before := WorkerRuns(page, first, wallet, actions[..|actions| - 1]);
      var more := WorkerStep(After(page, first, wallet, actions[..|actions| - 1]), actions[|actions| - 1]);
      acts := before + more;
      RunJoin(Init(first, wallet), before, more);
    }
  }

  // ------------------------------------------------------------------
  // The worker's answer reaches the page
  // ------------------------------------------------------------------

  /** The bridge receives the response, posts it, and the page's listener runs. */
  function Delivery(w: World, rid: nat, reply: Reply, now: nat): seq<WorldAction> {
    [Relay(rid, reply), CarryToProvider(w.nextMail, now)]
  }

  /** A message on an open channel is listened for. */
  lemma OpenIsAwaited(w: World, rid: nat)
    requires OnePlace(w) && rid in w.channels
    ensures w.channels[rid] in w.listeners && w.channels[rid] in w.sent
  {
    assert At(w, OnChannel(rid), w.channels[rid]);
    assert !HasSettled(w, w.channels[rid]);
  }

  lemma RelayPosts(w: World, rid: nat, reply: Reply)
    requires rid in w.channels && Answered(rid, reply) in w.worker.log
    ensures var relayed := StepWorld(w, Relay(rid, reply));
      && w.nextMail in relayed.mail && relayed.mail[w.nextMail] == ToProvider(w.channels[rid], FromWorker(rid, reply))
      && relayed.settled == w.settled && relayed.listeners == w.listeners && relayed.sent == w.sent
  {
  }

  lemma TwoSteps(w: World, a: WorldAction, b: WorldAction)
    ensures RunWorld(w, [a, b]) == StepWorld(StepWorld(w, a), b)
  {
    WorldRunFirst(w, a, [b]);
    WorldRunFirst(StepWorld(w, a), b, []);
    assert [a] + [b] == [a, b] && [b] + [] == [b];
  }

  lemma AnswerSettles(w: World, rid: nat, reply: Reply, now: nat)
    requires OnePlace(w) && rid in w.channels && Answered(rid, reply) in w.worker.log
    ensures RunWorld(w, Delivery(w, rid, reply, now)).settled
            == w.settled + [Settlement(w.channels[rid], FromWorker(rid, reply))]
  {
    OpenIsAwaited(w, rid);
    DeliverySettles(w, rid, reply, now);
  }

  lemma DeliverySettles(w: World, rid: nat, reply: Reply, now: nat)
    requires rid in w.channels && Answered(rid, reply) in w.worker.log
    requires w.channels[rid] in w.listeners && w.channels[rid] in w.sent
    ensures RunWorld(w, Delivery(w, rid, reply, now)).settled
            == w.settled + [Settlement(w.channels[rid], FromWorker(rid, reply))]
  {
    RelayPosts(w, rid, reply);
    TwoSteps(w, Relay(rid, reply), CarryToProvider(w.nextMail, now));
    SettlesThere(StepWorld(w, Relay(rid, reply)), w.nextMail, now);
  }

  lemma SettlesThere(w: World, m: nat, now: nat)
    requires m in w.mail && w.mail[m].ToProvider? && w.mail[m].id in w.listeners && w.mail[m].id in w.sent
    ensures StepCarryToProvider(w, m, now).settled == w.settled + [Settlement(w.mail[m].id, w.mail[m].outcome)]
  {
  }

  /** The response to a parked request that is approved. */
  function ApprovedReply(request: Request, wallet: Wallet, given: Given): Reply {
    if request.kind.Connect? then
      if given.publicKey.None? || given.publicKey.value == "" then Failed else Connected(given.publicKey.value)
    else if KeyUnavailable(wallet, given.works) then Failed
    else Signed(request, CachedKey(wallet, given.works).value)
  }

  /** An approval that is never answered: of an empty sign request, with the key at hand. */
  predicate NeverAnswered(request: Request, wallet: Wallet, given: Given) {
    !request.kind.Connect? && request.payload == "" && !KeyUnavailable(wallet, given.works)
  }

  lemma DeliveredReply(e: Entry, wallet: Wallet, given: Given, end: State)
    requires !NeverAnswered(e.request, wallet, given)
    requires if e.request.kind.Connect? then ApprovedConnectEnds(e.request, given.publicKey, end)
             else ApprovedSignEnds(e.request, wallet, given.works, end)
    ensures Answered(e.request.rid, ApprovedReply(e.request, wallet, given)) in end.log
  {
  }

  /** The decision and the worker's own steps after it. */
  lemma DecisionAnswers(page: Option<Origin>, first: seq<Origin>, wallet: Wallet, history: seq<WorldAction>,
      e: Entry, given: Given) returns (decided: seq<Action>)
    requires var w := After(page, first, wallet, history);
             w.worker.pending == [e] && !NeverAnswered(e.request, w.worker.wallet, given)
    ensures var worker := After(page, first, wallet, history).worker;
            Answered(e.request.rid, ApprovedReply(e.request, worker.wallet, given)) in Run(worker, decided).log
  {
    var worker := After(page, first, wallet, history).worker;
    var acts := WorkerRuns(page, first, wallet, history);
    var own := ApprovalDelivers(first, wallet, acts, e, given);
    decided := [Decide(true, e.id, e.nonce, true)] + own;
    RunFirst(worker, Decide(true, e.id, e.nonce, true), own);
    DeliveredReply(e, worker.wallet, given, Run(worker, decided));
  }

  lemma AfterMore(page: Option<Origin>, first: seq<Origin>, wallet: Wallet, history: seq<WorldAction>,
      more: seq<WorldAction>)
    ensures After(page, first, wallet, history + more) == RunWorld(After(page, first, wallet, history), more)
  {
    WorldRunJoin(InitWorld(page, Init(first, wallet)), history, more);
  }

  /**
   In every state of the composed machine: when the user approves a parked
   request of the page, its promise settles with the key or the signature, or
   with the failure when there is no key. No more is needed than the worker's
   own steps, the response and its delivery.
   */
  lemma ApprovalReachesThePage(page: Option<Origin>, first: seq<Origin>, wallet: Wallet, history: seq<WorldAction>,
      e: Entry, given: Given, now: nat) returns (rest: seq<WorldAction>)
    requires var w := After(page, first, wallet, history);
      && w.worker.pending == [e] && e.request.rid in w.channels
      && !NeverAnswered(e.request, w.worker.wallet, given)
    ensures var w := After(page, first, wallet, history);
      var outcome := FromWorker(e.request.rid, ApprovedReply(e.request, w.worker.wallet, given));
      After(page, first, wallet, history + rest).settled
      == w.settled + [Settlement(w.channels[e.request.rid], outcome)]
  {
    var w := After(page, first, wallet, history);
    var rid := e.request.rid;
    var reply := ApprovedReply(e.request, w.worker.wallet, given);
    var decided := DecisionAnswers(page, first, wallet, history, e, given);
    var answered := RunWorld(w, Lifted(decided));
    LiftedRun(w, decided);
    AfterMore(page, first, wallet, history, Lifted(decided));
    RunPlaces(page, first, wallet, history + Lifted(decided));
    AnswerSettles(answered, rid, reply, now);
    AfterMore(page, first, wallet, history + Lifted(decided), Delivery(answered, rid, reply, now));
    rest := Lifted(decided) + Delivery(answered, rid, reply, now);
    assert history + rest == history + Lifted(decided) + Delivery(answered, rid, reply, now);
  }

  // ------------------------------------------------------------------
  // A message of the page reaches the user
  // ------------------------------------------------------------------

  /** The request that message `id` brings to the worker. */
  function RequestOf(w: World, id: string, origin: Origin): Request
    requires id in w.sent && w.sent[id].batch in w.batches
    requires w.sent[id].index < |w.batches[w.sent[id].batch].inputs|
  {
    var batch := w.batches[w.sent[id].batch];
    Request(w.worker.nextRid, batch.kind, origin, batch.inputs[w.sent[id].index])
  }

  /** Every message that was sent has its payload. */
  lemma SentHasPayload(w: World, first: seq<Origin>, id: string)
    requires WorldOk(w, first) && id in w.sent
    ensures w.sent[id].batch in w.batches && w.sent[id].index < |w.batches[w.sent[id].batch].inputs|
  {
    assert BatchShape(w.batches[w.sent[id].batch]);
  }

  /**
   A posted message of a page with a verified origin: left alone it is parked
   for the user under its open channel when the user is to be asked, and
   otherwise the worker has answered it.
   */
  lemma MessageReachesTheUser(page: Option<Origin>, first: seq<Origin>, wallet: Wallet, history: seq<WorldAction>,
      m: nat, given: Given) returns (rest: seq<WorldAction>)
    requires var w := After(page, first, wallet, history);
      && m in w.mail && w.mail[m].ToBridge? && page.Some?
      && w.mail[m].id in w.sent && w.sent[w.mail[m].id].batch in w.batches
      && w.sent[w.mail[m].id].index < |w.batches[w.sent[w.mail[m].id].batch].inputs|
    ensures var w := After(page, first, wallet, history);
      var id := w.mail[m].id;
      var request := RequestOf(w, id, page.value);
      var end := After(page, first, wallet, history + rest);
      && HandlerEnds(request, w.worker.origins, given, end.worker)
      && end.worker.origins == w.worker.origins && end.worker.wallet == w.worker.wallet
      && end.channels == w.channels[request.rid := id] && end.batches == w.batches && end.settled == w.settled
      && end.sent == w.sent
  {
    var w := After(page, first, wallet, history);
    RunWorldKeeps(page, first, wallet, history);
    var id := w.mail[m].id;
    var request := RequestOf(w, id, page.value);
    var acts := WorkerRuns(page, first, wallet, history);
    var own := ArrivalDelivers(first, wallet, acts, request.kind, page.value, request.payload, given);
    rest := [CarryToBridge(m)] + Lifted(own);
    var carried := StepWorld(w, CarryToBridge(m));
    WorldRunFirst(w, CarryToBridge(m), Lifted(own));
    LiftedRun(carried, own);
    AfterMore(page, first, wallet, history, rest);
  }

  // ------------------------------------------------------------------
  // A whole connection
  // ------------------------------------------------------------------

  /** A connect call posts its one message. */
  lemma ConnectPosts(w: World, now: nat)
    ensures var called := StepWorld(w, Call(Connect, [], now));
      && w.nextMail in called.mail && called.mail[w.nextMail].ToBridge?
      && var id := called.mail[w.nextMail].id;
         && id in called.sent && called.sent[id] == Sent(w.nextBatch, 0)
         && w.nextBatch in called.batches && called.batches[w.nextBatch].kind.Connect?
         && called.batches[w.nextBatch].inputs == [""] && called.batches[w.nextBatch].ids == [id]
  {
  }

  /** The history goes on so that this channel's promise settles with this response. */
  ghost predicate SettlesWith(page: Option<Origin>, first: seq<Origin>, wallet: Wallet, history: seq<WorldAction>,
      rest: seq<WorldAction>, rid: nat, reply: Reply)
  {
    var w := After(page, first, wallet, history);
    && rid in w.channels
    && After(page, first, wallet, history + rest).settled
       == w.settled + [Settlement(w.channels[rid], FromWorker(rid, reply))]
  }

  lemma AnsweredSettles(page: Option<Origin>, first: seq<Origin>, wallet: Wallet, history: seq<WorldAction>, rid: nat,
      reply: Reply, now: nat) returns (rest: seq<WorldAction>)
    requires var w := After(page, first, wallet, history); rid in w.channels && Answered(rid, reply) in w.worker.log
    ensures SettlesWith(page, first, wallet, history, rest, rid, reply)
  {
    var w := After(page, first, wallet, history);
    RunPlaces(page, first, wallet, history);
    AnswerSettles(w, rid, reply, now);
    rest := Delivery(w, rid, reply, now);
    AfterMore(page, first, wallet, history, rest);
  }

  /** Once the user was asked or the worker has answered, the connection is answered with the key. */
  lemma ConnectSettles(page: Option<Origin>, first: seq<Origin>, wallet: Wallet, history: seq<WorldAction>,
      request: Request, seen: seq<Origin>, given: Given, now: nat) returns (rest: seq<WorldAction>, reply: Reply)
    requires var w := After(page, first, wallet, history);
             HandlerEnds(request, seen, given, w.worker) && request.rid in w.channels
    requires request.kind.Connect? && given.publicKey.Some? && given.publicKey.value != ""
    ensures reply in {Connected(given.publicKey.value), AutoConnected(given.publicKey)}
    ensures SettlesWith(page, first, wallet, history, rest, request.rid, reply)
  {
    var w := After(page, first, wallet, history);
    if UserIsAsked(request, seen) {
      var e := w.worker.pending[0];
      assert w.worker.pending == [e];
      reply := Connected(given.publicKey.value);
      rest := ApprovalReachesThePage(page, first, wallet, history, e, given, now);
    } else {
      reply := AutoConnected(given.publicKey);
      rest := AnsweredSettles(page, first, wallet, history, request.rid, reply, now);
    }
  }

  /** The call was made and its message has reached the worker under an open channel. */
  ghost predicate ConnectAsked(w: World, end: World, request: Request, given: Given) {
    && request.kind.Connect? && request.rid in end.channels
    && w.nextBatch in end.batches && end.batches[w.nextBatch].kind.Connect?
    && end.batches[w.nextBatch].ids == [end.channels[request.rid]]
    && HandlerEnds(request, w.worker.origins, given, end.worker)
  }

  lemma ConnectReachesTheUser(page: Option<Origin>, first: seq<Origin>, wallet: Wallet, history: seq<WorldAction>,
      given: Given, now: nat) returns (rest: seq<WorldAction>, request: Request)
    requires page.Some?
    ensures var w, end := After(page, first, wallet, history), After(page, first, wallet, history + rest);
            ConnectAsked(w, end, request, given)
  {
    var w := After(page, first, wallet, history);
    var call := Call(Connect, [], now);
    ConnectPosts(w, now);
    AfterMore(page, first, wallet, history, [call]);
    WorldRunFirst(w, call, []);
    assert [call] + [] == [call];
    var called := StepWorld(w, call);
    assert After(page, first, wallet, history + [call]) == called;
    var asks := MessageReachesTheUser(page, first, wallet, history + [call], w.nextMail, given);
    request := RequestOf(called, called.mail[w.nextMail].id, page.value);
    rest := [call] + asks;
    assert history + rest == history + [call] + asks;
    assert called.worker == w.worker;
  }

  /**
   The whole round: in any state of page, bridge and worker, a page with a
   verified origin that calls connect can be connected. If the origin is new
   the user is asked and approves; in any case the call returns the account
   with the stored key.
   */
  lemma ConnectRoundTrip(page: Option<Origin>, first: seq<Origin>, wallet: Wallet, history: seq<WorldAction>,
      given: Given, now: nat) returns (rest: seq<WorldAction>)
    requires page.Some? && given.publicKey.Some? && given.publicKey.value != ""
    ensures var b := After(page, first, wallet, history).nextBatch;
      var end := After(page, first, wallet, history + rest);
      b in end.batches && end.batches[b].status.Returned? && end.batches[b].results == [Account(given.publicKey.value)]
  {
    var w := After(page, first, wallet, history);
    var asks, request := ConnectReachesTheUser(page, first, wallet, history, given, now);
    var settles, reply :=
      ConnectSettles(page, first, wallet, history + asks, request, w.worker.origins, given, now);
    ConnectEnds(page, first, wallet, history + asks, settles, w.nextBatch, request.rid, reply);
    rest := asks + settles;
    assert history + rest == history + asks + settles;
  }

  /** The batch keeps its one message, and its settlement with a key makes it return. */
  lemma ConnectEnds(page: Option<Origin>, first: seq<Origin>, wallet: Wallet, history: seq<WorldAction>,
      rest: seq<WorldAction>, b: nat, rid: nat, reply: Reply)
    requires SettlesWith(page, first, wallet, history, rest, rid, reply)
    requires var w := After(page, first, wallet, history);
      b in w.batches && w.batches[b].kind.Connect? && w.batches[b].ids == [w.channels[rid]]
    requires reply.Connected? || (reply.AutoConnected? && reply.publicKey.Some? && reply.publicKey.value != "")
    ensures var end := After(page, first, wallet, history + rest);
      && b in end.batches && end.batches[b].status.Returned?
      && end.batches[b].results == [Account(if reply.Connected? then reply.key else reply.publicKey.value)]
  {
    var w, end := After(page, first, wallet, history), After(page, first, wallet, history + rest);
    AfterMore(page, first, wallet, history, rest);
    RunWorldKeeps(page, first, wallet, history);
    BatchesGrow(w, rest, b);
    var i := |w.settled|;
    assert end.settled[i] == Settlement(w.channels[rid], FromWorker(rid, reply));
    assert end.batches[b].ids[0] == w.channels[rid];
    ConnectReturnsExactly(page, first, wallet, history + rest, b, i);
  }

  /** A batch keeps its kind and the messages it has sent. */
  ghost predicate KeepsBatch(w: World, next: World, b: nat) {
    && b in next.batches && b in w.batches && next.batches[b].kind == w.batches[b].kind
    && w.batches[b].ids <= next.batches[b].ids
    && forall c :: c in next.batches ==> c < next.nextBatch
  }

  lemma CallKeepsBatch(w: World, kind: Kind, inputs: seq<string>, now: nat, b: nat)
    requires b in w.batches && forall c :: c in w.batches ==> c < w.nextBatch
    ensures KeepsBatch(w, StepCall(w, kind, inputs, now), b)
  {
  }

  lemma ResumeKeepsBatch(w: World, c: nat, outcome: Outcome, now: nat, b: nat)
    requires b in w.batches && forall c :: c in w.batches ==> c < w.nextBatch
    ensures KeepsBatch(w, ResumeBatch(w, c, outcome, now), b)
  {
  }

  lemma StepBatchesGrow(w: World, a: WorldAction, b: nat)
    requires b in w.batches && forall c :: c in w.batches ==> c < w.nextBatch
    ensures KeepsBatch(w, StepWorld(w, a), b)
  {
    match a
    case Call(kind, inputs, now) => CallKeepsBatch(w, kind, inputs, now, b);
    case CarryToProvider(m, now) =>
      if m in w.mail && w.mail[m].ToProvider? && w.mail[m].id in w.sent {
        ResumeKeepsBatch(SettledBy(w, m), w.sent[w.mail[m].id].batch, w.mail[m].outcome, now, b);
      }
    case _ =>
  }

  lemma {:induction false} BatchesGrow(w: World, actions: seq<WorldAction>, b: nat)
    requires b in w.batches && forall c :: c in w.batches ==> c < w.nextBatch
    ensures KeepsBatch(w, RunWorld(w, actions), b)
  {
    if actions != [] {
      BatchesGrow(w, actions[..|actions| - 1], b);
      StepBatchesGrow(RunWorld(w, actions[..|actions| - 1]), actions[|actions| - 1], b);
    }
  }
}
