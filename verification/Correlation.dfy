/**
 The whole path of a request: the page's provider
 (loyal-wallet-provider.content.ts), the bridge content script
 (loyal-wallet-bridge.content.ts) and the background worker, composed. The
 provider numbers its messages, keeps one listener per message and sends the
 inputs of a batch one after the other; the bridge forwards a payload over a
 runtime channel and posts the reply under the same message id. Mail and
 channels are delivered in any order; other pages talk to the same worker.
 */
module Correlation {
  import opened Prelude
  import opened SessionKey
  import opened Approvals
  import opened ApprovalSafety
  import opened ApprovalLedger
  import opened Arrivals
  import opened MessageIds

  // ------------------------------------------------------------------
  // The composed machine
  // ------------------------------------------------------------------

  /** What a promise settles with; `rid` is the channel the reply came through. */
  datatype Outcome = FromWorker(rid: nat, reply: Reply) | BridgeError

  datatype Output = Account(publicKey: string) | Signature(request: Request, secretKey: string)

  datatype Status = Running | Returned | Threw

  /** One call of connect, signTransaction or signMessage. `ids[k]` is the message sent for `inputs[k]`. */
  datatype Batch = Batch(kind: Kind, inputs: seq<string>, ids: seq<string>, results: seq<Output>, status: Status)

  datatype Sent = Sent(batch: nat, index: nat)

  datatype Mail = ToBridge(id: string) | ToProvider(id: string, outcome: Outcome)

  datatype Settlement = Settlement(id: string, outcome: Outcome)

  datatype World = World(
    page: Option<Origin>,            // the origin the browser verifies for this page
    worker: State,
    counter: nat,
    batches: map<nat, Batch>,
    nextBatch: nat,
    sent: map<string, Sent>,
    listeners: set<string>,
    mail: map<nat, Mail>,
    nextMail: nat,
    channels: map<nat, string>,      // open runtime channels
    routed: map<nat, string>,        // every channel there ever was
    settled: seq<Settlement>,        // history of the promises
    lost: set<string>                // messages that reached no bridge
  )

  function InitWorld(page: Option<Origin>, worker: State): World {
    World(page, worker, 0, map[], 0, map[], {}, map[], 0, map[], map[], [], {})
  }

  datatype WorldAction =
    | Call(kind: Kind, inputs: seq<string>, now: nat)
    | CarryToBridge(m: nat)
    | LoseMail(m: nat)                           // the bridge's context was invalidated
    | Relay(rid: nat, reply: Reply)              // the worker's response reaches the bridge
    | BreakChannel(rid: nat)                     // sendMessage rejects
    | CarryToProvider(m: nat, now: nat)
    | Background(action: Action)                 // any step of the worker, other pages' requests included

  /** A response that carries an `error` rejects the promise. */
  predicate IsError(outcome: Outcome) {
    outcome.BridgeError? ||
    outcome.reply.NoOrigin? || outcome.reply.NotConnected? || outcome.reply.Replaced? ||
    outcome.reply.BadToken? || outcome.reply.Denied? || outcome.reply.Failed?
  }

  /** What the provider makes of a response: an output, or nothing, in which case it throws. */
  function Accept(kind: Kind, reply: Reply): Option<Output> {
    match reply
    case AutoConnected(key) => if kind.Connect? && Truthy(key) then Some(Account(key.value)) else None
    case Connected(key) => if kind.Connect? && key != "" then Some(Account(key)) else None
    case Signed(request, key) => if !kind.Connect? && request.kind == kind then Some(Signature(request, key)) else None
    case _ => None
  }

  /** Send the next input of a batch under a fresh id and listen for its reply. */
  function Post(w: World, b: nat, now: nat): World
    requires b in w.batches
  {
    var id := MessageId(now, w.counter);
    var batch := w.batches[b];
    w.(counter := w.counter + 1,
       batches := w.batches[b := batch.(ids := batch.ids + [id])],
       sent := w.sent[id := Sent(b, |batch.ids|)],
       listeners := w.listeners + {id},
       mail := w.mail[w.nextMail := ToBridge(id)],
       nextMail := w.nextMail + 1)
  }

  /** What a call sends: connect one message without payload, the others one message per input. */
  function Payloads(kind: Kind, inputs: seq<string>): seq<string> {
    if kind.Connect? then [""] else inputs
  }

  function StepCall(w: World, kind: Kind, inputs: seq<string>, now: nat): World {
    var payloads := Payloads(kind, inputs);
    var batch := Batch(kind, payloads, [], [], if payloads == [] then Returned else Running);
    var called := w.(batches := w.batches[w.nextBatch := batch], nextBatch := w.nextBatch + 1);
    if payloads == [] then called else Post(called, w.nextBatch, now)
  }

  /** The bridge forwards the payload; the browser stamps the page's verified origin on it. */
  function StepCarryToBridge(w: World, m: nat): World {
    if m !in w.mail || !w.mail[m].ToBridge? then w
    else
      var id := w.mail[m].id;
      if id !in w.sent || w.sent[id].batch !in w.batches
         || w.sent[id].index >= |w.batches[w.sent[id].batch].inputs| then w
      else
        var batch := w.batches[w.sent[id].batch];
        var rid := w.worker.nextRid;
        w.(mail := w.mail - {m},
           worker := Step(w.worker, Receive(batch.kind, w.page, batch.inputs[w.sent[id].index])),
           channels := w.channels[rid := id],
           routed := w.routed[rid := id])
  }

  function StepReply(w: World, rid: nat, outcome: Outcome): World
    requires rid in w.channels
  {
    w.(mail := w.mail[w.nextMail := ToProvider(w.channels[rid], outcome)],
       nextMail := w.nextMail + 1,
       channels := w.channels - {rid})
  }

  /** The promise settled with `outcome`: the batch that awaits it goes on. */
  function ResumeBatch(w: World, b: nat, outcome: Outcome, now: nat): World {
    if b !in w.batches then w
    else
      var batch := w.batches[b];
      if IsError(outcome) || Accept(batch.kind, outcome.reply).None? then
        w.(batches := w.batches[b := batch.(status := Threw)])
      else
        var results := batch.results + [Accept(batch.kind, outcome.reply).value];
        if |results| == |batch.inputs| then
          w.(batches := w.batches[b := batch.(results := results, status := Returned)])
        else
          Post(w.(batches := w.batches[b := batch.(results := results)]), b, now)
  }

  function StepCarryToProvider(w: World, m: nat, now: nat): World {
    if m !in w.mail || !w.mail[m].ToProvider? then w
    else
      var ToProvider(id, outcome) := w.mail[m];
      var carried := w.(mail := w.mail - {m});
      if id !in w.listeners || id !in w.sent then carried
      else
        ResumeBatch(carried.(listeners := w.listeners - {id}, settled := w.settled + [Settlement(id, outcome)]),
                    w.sent[id].batch, outcome, now)
  }

  function StepLoseMail(w: World, m: nat): World {
    if m in w.mail && w.mail[m].ToBridge? then w.(mail := w.mail - {m}, lost := w.lost + {w.mail[m].id}) else w
  }

  function StepRelay(w: World, rid: nat, reply: Reply): World {
    if rid in w.channels && Answered(rid, reply) in w.worker.log then StepReply(w, rid, FromWorker(rid, reply)) else w
  }

  function StepBreakChannel(w: World, rid: nat): World {
    if rid in w.channels then StepReply(w, rid, BridgeError) else w
  }

  function StepBackground(w: World, action: Action): World {
    w.(worker := Step(w.worker, action))
  }

  function StepWorld(w: World, a: WorldAction): World {
    match a
    case Call(kind, inputs, now) => StepCall(w, kind, inputs, now)
    case CarryToBridge(m) => StepCarryToBridge(w, m)
    case LoseMail(m) => StepLoseMail(w, m)
    case Relay(rid, reply) => StepRelay(w, rid, reply)
    case BreakChannel(rid) => StepBreakChannel(w, rid)
    case CarryToProvider(m, now) => StepCarryToProvider(w, m, now)
    case Background(action) => StepBackground(w, action)
  }

  function RunWorld(w: World, actions: seq<WorldAction>): World {
    if actions == [] then w else StepWorld(RunWorld(w, actions[..|actions| - 1]), actions[|actions| - 1])
  }

  // ------------------------------------------------------------------
  // What every run of the composed machine keeps
  // ------------------------------------------------------------------

  type Log = seq<Event>

  ghost predicate IdsMinted(counter: nat, sent: map<string, Sent>) {
    forall id :: id in sent ==> exists now: nat, c: nat :: c < counter && id == MessageId(now, c)
  }

  /** `sent` and the batches' id lists describe each other. */
  ghost predicate SentOk(batches: map<nat, Batch>, nextBatch: nat, sent: map<string, Sent>) {
    && (forall b :: b in batches ==> b < nextBatch)
    && (forall id :: id in sent ==>
          sent[id].batch in batches && sent[id].index < |batches[sent[id].batch].ids|
          && batches[sent[id].batch].ids[sent[id].index] == id)
    && (forall b, k :: b in batches && 0 <= k < |batches[b].ids| ==>
          batches[b].ids[k] in sent && sent[batches[b].ids[k]] == Sent(b, k))
  }

  ghost predicate BatchShape(batch: Batch) {
    && |batch.ids| <= |batch.inputs|
    && (if batch.status.Returned? then |batch.results| == |batch.ids| == |batch.inputs|
        else |batch.results| + 1 == |batch.ids|)
  }

  ghost predicate ShapesOk(batches: map<nat, Batch>) {
    forall b :: b in batches ==> BatchShape(batches[b])
  }

  function PayloadOf(batches: map<nat, Batch>, at: Sent): Option<string> {
    if at.batch in batches && at.index < |batches[at.batch].inputs|
    then Some(batches[at.batch].inputs[at.index]) else None
  }

  /** Channel `rid` brought the request of message `id` to the worker, unchanged. */
  ghost predicate Delivered(log: Log, page: Option<Origin>, batches: map<nat, Batch>, at: Sent, rid: nat) {
    && at.batch in batches && PayloadOf(batches, at).Some?
    && Received(rid, batches[at.batch].kind, page, PayloadOf(batches, at).value) in log
  }

  ghost predicate RoutesOk(worker: State, page: Option<Origin>, batches: map<nat, Batch>, sent: map<string, Sent>,
                           channels: map<nat, string>, routed: map<nat, string>) {
    && (forall rid :: rid in channels ==> rid in routed && channels[rid] == routed[rid])
    && (forall rid :: rid in routed ==>
          rid < worker.nextRid && routed[rid] in sent && Delivered(worker.log, page, batches, sent[routed[rid]], rid))
    && (forall r1, r2 :: r1 in routed && r2 in routed && routed[r1] == routed[r2] ==> r1 == r2)
  }

  /** The outcome is the worker's own answer on the channel of this very message, or the bridge's error. */
  ghost predicate OutcomeOk(log: Log, routed: map<nat, string>, id: string, outcome: Outcome) {
    outcome.FromWorker? ==>
      outcome.rid in routed && routed[outcome.rid] == id && Answered(outcome.rid, outcome.reply) in log
  }

  ghost predicate MailOk(log: Log, routed: map<nat, string>, sent: map<string, Sent>, mail: map<nat, Mail>,
      nextMail: nat) {
    && (forall m :: m in mail ==> m < nextMail && mail[m].id in sent)
    && (forall m :: m in mail && mail[m].ToBridge? ==> mail[m].id !in routed.Values)
    && (forall m1, m2 :: m1 in mail && m2 in mail && mail[m1].ToBridge? && mail[m1] == mail[m2] ==> m1 == m2)
    && (forall m :: m in mail && mail[m].ToProvider? ==> OutcomeOk(log, routed, mail[m].id, mail[m].outcome))
  }

  /** Only the newest message of a running batch is awaited, and it has not settled. */
  ghost predicate ListenersOk(batches: map<nat, Batch>, sent: map<string, Sent>, listeners: set<string>,
      settled: seq<Settlement>) {
    forall id :: id in listeners ==>
      && id in sent && sent[id].batch in batches
      && batches[sent[id].batch].status.Running? && sent[id].index + 1 == |batches[sent[id].batch].ids|
      && forall i :: 0 <= i < |settled| ==> settled[i].id != id
  }

  ghost predicate SettledOk(log: Log, routed: map<nat, string>, sent: map<string, Sent>, settled: seq<Settlement>) {
    && (forall i, j :: 0 <= i < j < |settled| ==> settled[i].id != settled[j].id)
    && (forall i :: 0 <= i < |settled| ==>
          settled[i].id in sent && OutcomeOk(log, routed, settled[i].id, settled[i].outcome))
  }

  ghost predicate ResultOk(log: Log, routed: map<nat, string>, batch: Batch, k: nat)
    requires k < |batch.ids| && k < |batch.results|
  {
    exists rid, reply :: rid in routed && routed[rid] == batch.ids[k] && Answered(rid, reply) in log
                         && Accept(batch.kind, reply) == Some(batch.results[k])
  }

  ghost predicate ResultsOk(log: Log, routed: map<nat, string>, batches: map<nat, Batch>) {
    forall b, k :: b in batches && 0 <= k < |batches[b].results| && k < |batches[b].ids| ==>
      ResultOk(log, routed, batches[b], k)
  }

  ghost predicate NoSelfReplacement(log: Log, routed: map<nat, string>, sent: map<string, Sent>) {
    forall r, n | r in routed && n in routed && routed[r] in sent && routed[n] in sent
                  && Answered(r, Replaced(n)) in log :: sent[routed[r]].batch != sent[routed[n]].batch
  }

  /** All but what the progress of a batch changes. */
  ghost predicate CoreOk(w: World, first: seq<Origin>) {
    && Ledger(w.worker) && Safe(w.worker, first) && ArrivalsOk(w.worker.log, w.worker.nextRid)
    && IdsMinted(w.counter, w.sent)
    && SentOk(w.batches, w.nextBatch, w.sent)
    && RoutesOk(w.worker, w.page, w.batches, w.sent, w.channels, w.routed)
    && MailOk(w.worker.log, w.routed, w.sent, w.mail, w.nextMail)
    && SettledOk(w.worker.log, w.routed, w.sent, w.settled)
    && ResultsOk(w.worker.log, w.routed, w.batches)
    && NoSelfReplacement(w.worker.log, w.routed, w.sent)
  }

  ghost predicate WorldOk(w: World, first: seq<Origin>) {
    && CoreOk(w, first)
    && ShapesOk(w.batches)
    && ListenersOk(w.batches, w.sent, w.listeners, w.settled)
  }

  // ------------------------------------------------------------------
  // Steps of the worker
  // ------------------------------------------------------------------

  lemma AnsweredIsEnded(log: Log, rid: nat, reply: Reply)
    requires Answered(rid, reply) in log
    ensures Tally(log, rid) >= 1
  {
    TallyZero(log, rid);
    var i :| 0 <= i < |log| && log[i] == Answered(rid, reply);
    assert Ends(log[i], rid) == 1;
  }

  /** Every message of a batch that brought a result was answered by the worker. */
  lemma ResultsWereAnswered(w: World, first: seq<Origin>, rid: nat)
    requires WorldOk(w, first) && rid in w.routed
    ensures var at := w.sent[w.routed[rid]];
            at.index < |w.batches[at.batch].results| ==> Tally(w.worker.log, rid) >= 1
  {
    var at := w.sent[w.routed[rid]];
    var batch := w.batches[at.batch];
    if at.index < |batch.results| {
      assert BatchShape(batch) && ResultOk(w.worker.log, w.routed, batch, at.index);
      var r, reply :| r in w.routed && w.routed[r] == batch.ids[at.index] && Answered(r, reply) in w.worker.log
                      && Accept(batch.kind, reply) == Some(batch.results[at.index]);
      AnsweredIsEnded(w.worker.log, r, reply);
    }
  }

  /** An unanswered request is its batch's newest message. */
  lemma UnansweredIsNewest(w: World, first: seq<Origin>, rid: nat)
    requires WorldOk(w, first) && rid in w.routed && Tally(w.worker.log, rid) == 0
    ensures w.routed[rid] in w.sent && w.sent[w.routed[rid]].batch in w.batches
    ensures var at := w.sent[w.routed[rid]];
            at.index + 1 == |w.batches[at.batch].ids| && w.batches[at.batch].ids[at.index] == w.routed[rid]
  {
    ResultsWereAnswered(w, first, rid);
    assert BatchShape(w.batches[w.sent[w.routed[rid]].batch]);
  }

  /** Two unanswered requests of one batch are one request: both are its newest message. */
  lemma UnansweredOfOneBatch(w: World, first: seq<Origin>, r1: nat, r2: nat)
    requires WorldOk(w, first) && r1 in w.routed && r2 in w.routed
    requires Tally(w.worker.log, r1) == 0 && Tally(w.worker.log, r2) == 0
    ensures w.sent[w.routed[r1]].batch == w.sent[w.routed[r2]].batch ==> r1 == r2
  {
    UnansweredIsNewest(w, first, r1);
    UnansweredIsNewest(w, first, r2);
    assert w.routed[r1] == w.routed[r2] ==> r1 == r2;
  }

  /** A parked request and one that is about to park never belong to the same batch. */
  lemma ParkersDiffer(w: World, first: seq<Origin>, parked: nat, parking: nat)
    requires WorldOk(w, first) && parked in w.routed && parking in w.routed
    requires IsParked(w.worker.pending, parked) && InTask(w.worker.tasks, parking)
    ensures w.sent[w.routed[parked]].batch != w.sent[w.routed[parking]].batch
  {
    var s := w.worker;
    assert Places(s.log, s.tasks, s.pending, parked) <= 1;
    assert Places(s.log, s.tasks, s.pending, parking) <= 1;
    UnansweredOfOneBatch(w, first, parked, parking);
  }

  lemma WorkerKeepsReplacement(w: World, first: seq<Origin>, a: Action)
    requires WorldOk(w, first)
    ensures NoSelfReplacement(Step(w.worker, a).log, w.routed, w.sent)
  {
    var log := Step(w.worker, a).log;
    forall r, n | r in w.routed && n in w.routed && w.routed[r] in w.sent && w.routed[n] in w.sent
                  && Answered(r, Replaced(n)) in log
      ensures w.sent[w.routed[r]].batch != w.sent[w.routed[n]].batch
    {
      if Answered(r, Replaced(n)) !in w.worker.log {
        StepAdds(w.worker, a, Answered(r, Replaced(n)));
        ParkersDiffer(w, first, r, n);
      }
    }
  }

  /** A longer log keeps everything that is said by membership. */
  lemma LogGrows(w: World, log: Log)
    requires w.worker.log <= log
    requires MailOk(w.worker.log, w.routed, w.sent, w.mail, w.nextMail)
    requires SettledOk(w.worker.log, w.routed, w.sent, w.settled)
    requires ResultsOk(w.worker.log, w.routed, w.batches)
    ensures MailOk(log, w.routed, w.sent, w.mail, w.nextMail)
    ensures SettledOk(log, w.routed, w.sent, w.settled)
    ensures ResultsOk(log, w.routed, w.batches)
  {
    assert forall e :: e in w.worker.log ==> e in log;
    forall b, k | b in w.batches && 0 <= k < |w.batches[b].results| && k < |w.batches[b].ids|
      ensures ResultOk(log, w.routed, w.batches[b], k)
    {
      assert ResultOk(w.worker.log, w.routed, w.batches[b], k);
      var rid, reply :| rid in w.routed && w.routed[rid] == w.batches[b].ids[k] && Answered(rid, reply) in w.worker.log
                        && Accept(w.batches[b].kind, reply) == Some(w.batches[b].results[k]);
      assert Answered(rid, reply) in log;
    }
  }

  lemma RoutesGrow(w: World, worker: State)
    requires RoutesOk(w.worker, w.page, w.batches, w.sent, w.channels, w.routed)
    requires w.worker.log <= worker.log && w.worker.nextRid <= worker.nextRid
    ensures RoutesOk(worker, w.page, w.batches, w.sent, w.channels, w.routed)
  {
    assert forall e :: e in w.worker.log ==> e in worker.log;
  }

  lemma BackgroundKeeps(w: World, first: seq<Origin>, a: Action)
    requires WorldOk(w, first)
    ensures WorldOk(StepBackground(w, a), first)
  {
    StepGrows(w.worker, a);
    StepLedger(w.worker, a);
    StepSafe(w.worker, first, a);
    WorkerKeepsArrivals(w.worker, a);
    WorkerKeepsReplacement(w, first, a);
    LogGrows(w, Step(w.worker, a).log);
    RoutesGrow(w, Step(w.worker, a));
  }

  // ------------------------------------------------------------------
  // Steps of the bridge
  // ------------------------------------------------------------------

  /** The channel is fresh: nothing in the log is about its number but its arrival. */
  ghost predicate FreshChannel(worker: State, routed: map<nat, string>, rid: nat) {
    && rid !in routed && rid < worker.nextRid
    && forall e :: e in worker.log && e.Answered? && e.reply.Replaced? ==> e.rid != rid && e.reply.newer != rid
  }

  lemma OpenKeepsRoutes(w: World, id: string, rid: nat)
    requires RoutesOk(w.worker, w.page, w.batches, w.sent, w.channels, w.routed)
    requires FreshChannel(w.worker, w.routed, rid) && id in w.sent && id !in w.routed.Values
    requires Delivered(w.worker.log, w.page, w.batches, w.sent[id], rid)
    ensures RoutesOk(w.worker, w.page, w.batches, w.sent, w.channels[rid := id], w.routed[rid := id])
  {
    assert forall r :: r in w.routed ==> w.routed[r] in w.routed.Values;
  }

  lemma OpenKeepsMail(w: World, m: nat, rid: nat)
    requires MailOk(w.worker.log, w.routed, w.sent, w.mail, w.nextMail)
    requires m in w.mail && w.mail[m].ToBridge? && rid !in w.routed
    ensures MailOk(w.worker.log, w.routed[rid := w.mail[m].id], w.sent, w.mail - {m}, w.nextMail)
  {
    var id := w.mail[m].id;
    assert forall v :: v in w.routed[rid := id].Values ==> v in w.routed.Values || v == id;
  }

  lemma OpenKeepsSettled(w: World, id: string, rid: nat)
    requires SettledOk(w.worker.log, w.routed, w.sent, w.settled) && rid !in w.routed
    ensures SettledOk(w.worker.log, w.routed[rid := id], w.sent, w.settled)
  {
  }

  lemma OpenKeepsReplacement(w: World, id: string, rid: nat)
    requires NoSelfReplacement(w.worker.log, w.routed, w.sent) && FreshChannel(w.worker, w.routed, rid)
    ensures NoSelfReplacement(w.worker.log, w.routed[rid := id], w.sent)
  {
  }

  lemma OpenChannelKeeps(w: World, first: seq<Origin>, m: nat, rid: nat)
    requires WorldOk(w, first) && m in w.mail && w.mail[m].ToBridge?
    requires FreshChannel(w.worker, w.routed, rid)
    requires Delivered(w.worker.log, w.page, w.batches, w.sent[w.mail[m].id], rid)
    ensures var id := w.mail[m].id;
            WorldOk(w.(mail := w.mail - {m}, channels := w.channels[rid := id], routed := w.routed[rid := id]), first)
  {
    var id := w.mail[m].id;
    OpenKeepsRoutes(w, id, rid);
    OpenKeepsMail(w, m, rid);
    OpenKeepsSettled(w, id, rid);
    ResultsKeepRoutes(w.worker.log, w.routed, w.routed[rid := id], w.batches);
    OpenKeepsReplacement(w, id, rid);
  }

  lemma ResultsKeepRoutes(log: Log, routed: map<nat, string>, more: map<nat, string>, batches: map<nat, Batch>)
    requires ResultsOk(log, routed, batches)
    requires forall r :: r in routed ==> r in more && more[r] == routed[r]
    ensures ResultsOk(log, more, batches)
  {
    forall b, k | b in batches && 0 <= k < |batches[b].results| && k < |batches[b].ids|
      ensures ResultOk(log, more, batches[b], k)
    {
      assert ResultOk(log, routed, batches[b], k);
      var rid, reply :| rid in routed && routed[rid] == batches[b].ids[k] && Answered(rid, reply) in log
                        && Accept(batches[b].kind, reply) == Some(batches[b].results[k]);
      assert rid in more;
    }
  }

  /** The arrival that carries message `at` into the worker. */
  function ArrivalOf(w: World, at: Sent): Action
    requires at.batch in w.batches && at.index < |w.batches[at.batch].inputs|
  {
    Receive(w.batches[at.batch].kind, w.page, w.batches[at.batch].inputs[at.index])
  }

  lemma ArrivalIsFresh(w: World, first: seq<Origin>, at: Sent)
    requires WorldOk(w, first) && at.batch in w.batches && at.index < |w.batches[at.batch].inputs|
    ensures var worker := Step(w.worker, ArrivalOf(w, at));
      && FreshChannel(worker, w.routed, w.worker.nextRid)
      && Delivered(worker.log, w.page, w.batches, at, w.worker.nextRid)
  {
    var rid := w.worker.nextRid;
    var a := ArrivalOf(w, at);
    var worker := Step(w.worker, a);
    forall e | e in worker.log && e.Answered? && e.reply.Replaced? ensures e.rid != rid && e.reply.newer != rid {
      if e !in w.worker.log {
        StepAdds(w.worker, a, e);
        assert Places(w.worker.log, w.worker.tasks, w.worker.pending, rid) == 0;
      }
    }
  }

  lemma CarryToBridgeKeeps(w: World, first: seq<Origin>, m: nat, at: Sent)
    requires WorldOk(w, first) && m in w.mail && w.mail[m].ToBridge? && w.sent[w.mail[m].id] == at
    requires at.batch in w.batches && at.index < |w.batches[at.batch].inputs|
    ensures WorldOk(StepCarryToBridge(w, m), first)
  {
    BackgroundKeeps(w, first, ArrivalOf(w, at));
    ArrivalIsFresh(w, first, at);
    OpenChannelKeeps(w.(worker := Step(w.worker, ArrivalOf(w, at))), first, m, w.worker.nextRid);
  }

  lemma AddMailKeeps(log: Log, routed: map<nat, string>, sent: map<string, Sent>, mail: map<nat, Mail>, next: nat,
      item: Mail)
    requires MailOk(log, routed, sent, mail, next) && item.id in sent
    requires item.ToProvider? ==> OutcomeOk(log, routed, item.id, item.outcome)
    requires item.ToBridge? ==> item.id !in routed.Values && forall m :: m in mail ==> mail[m] != item
    ensures MailOk(log, routed, sent, mail[next := item], next + 1)
  {
  }

  lemma CloseKeepsRoutes(w: World, rid: nat)
    requires RoutesOk(w.worker, w.page, w.batches, w.sent, w.channels, w.routed) && rid in w.channels
    ensures RoutesOk(w.worker, w.page, w.batches, w.sent, w.channels - {rid}, w.routed)
    ensures rid in w.routed && w.routed[rid] == w.channels[rid] && w.channels[rid] in w.sent
  {
  }

  lemma ReplyKeeps(w: World, first: seq<Origin>, rid: nat, outcome: Outcome)
    requires WorldOk(w, first) && rid in w.channels
    requires outcome == BridgeError
             || (outcome.FromWorker? && outcome.rid == rid && Answered(rid, outcome.reply) in w.worker.log)
    ensures WorldOk(StepReply(w, rid, outcome), first)
  {
    CloseKeepsRoutes(w, rid);
    AddMailKeeps(w.worker.log, w.routed, w.sent, w.mail, w.nextMail, ToProvider(w.channels[rid], outcome));
  }

  // ------------------------------------------------------------------
  // Steps of the provider
  // ------------------------------------------------------------------

  /** The batch is between two inputs: every message sent so far brought its result, and none is awaited. */
  ghost predicate BetweenInputs(w: World, b: nat) {
    && b in w.batches && w.batches[b].status.Running?
    && |w.batches[b].results| == |w.batches[b].ids| < |w.batches[b].inputs|
    && (forall c :: c in w.batches && c != b ==> BatchShape(w.batches[c]))
    && (forall id :: id in w.listeners && id in w.sent ==> w.sent[id].batch != b)
  }

  lemma FreshId(w: World, now: nat)
    requires IdsMinted(w.counter, w.sent)
    ensures MessageId(now, w.counter) !in w.sent
  {
    var id := MessageId(now, w.counter);
    if id in w.sent {
      var n: nat, c: nat :| c < w.counter && id == MessageId(n, c);
      MessageIdsDiffer(n, c, now, w.counter);
    }
  }

  lemma MintNext(counter: nat, sent: map<string, Sent>, now: nat, at: Sent)
    requires IdsMinted(counter, sent)
    ensures IdsMinted(counter + 1, sent[MessageId(now, counter) := at])
  {
    var id := MessageId(now, counter);
    var more := sent[id := at];
    forall i | i in more ensures exists n: nat, c: nat :: c < counter + 1 && i == MessageId(n, c) {
      if i != id {
        var n: nat, c: nat :| c < counter && i == MessageId(n, c);
        assert c < counter + 1;
      }
    }
  }

  /** `batches` with one more id in batch `b`. */
  function WithId(batches: map<nat, Batch>, b: nat, id: string): map<nat, Batch>
    requires b in batches
  {
    batches[b := batches[b].(ids := batches[b].ids + [id])]
  }

  lemma PostKeepsSent(batches: map<nat, Batch>, nextBatch: nat, sent: map<string, Sent>, b: nat, id: string)
    requires SentOk(batches, nextBatch, sent) && b in batches && id !in sent
    ensures SentOk(WithId(batches, b, id), nextBatch, sent[id := Sent(b, |batches[b].ids|)])
  {
  }

  lemma PostKeepsResults(log: Log, routed: map<nat, string>, batches: map<nat, Batch>, b: nat, id: string)
    requires ResultsOk(log, routed, batches) && b in batches && |batches[b].results| <= |batches[b].ids|
    ensures ResultsOk(log, routed, WithId(batches, b, id))
  {
    var batch := WithId(batches, b, id)[b];
    forall k | 0 <= k < |batch.results| ensures ResultOk(log, routed, batch, k) {
      assert ResultOk(log, routed, batches[b], k);
      var rid, reply :| rid in routed && routed[rid] == batches[b].ids[k] && Answered(rid, reply) in log
                        && Accept(batches[b].kind, reply) == Some(batches[b].results[k]);
      assert routed[rid] == batch.ids[k];
    }
    forall c, k | c in batches && c != b && 0 <= k < |batches[c].results| && k < |batches[c].ids|
      ensures ResultOk(log, routed, batches[c], k)
    {
    }
  }

  lemma PostKeepsRoutes(w: World, b: nat, id: string, at: Sent)
    requires RoutesOk(w.worker, w.page, w.batches, w.sent, w.channels, w.routed) && b in w.batches && id !in w.sent
    ensures RoutesOk(w.worker, w.page, WithId(w.batches, b, id), w.sent[id := at], w.channels, w.routed)
    ensures id !in w.routed.Values
  {
    assert forall r :: r in w.routed ==> w.routed[r] in w.sent;
  }

  lemma PostKeepsMail(w: World, id: string, at: Sent)
    requires MailOk(w.worker.log, w.routed, w.sent, w.mail, w.nextMail) && id !in w.sent && id !in w.routed.Values
    ensures MailOk(w.worker.log, w.routed, w.sent[id := at], w.mail[w.nextMail := ToBridge(id)], w.nextMail + 1)
  {
    assert MailOk(w.worker.log, w.routed, w.sent[id := at], w.mail, w.nextMail);
    assert forall m :: m in w.mail ==> w.mail[m].id != id;
    AddMailKeeps(w.worker.log, w.routed, w.sent[id := at], w.mail, w.nextMail, ToBridge(id));
  }

  lemma PostKeepsHistory(w: World, id: string, at: Sent)
    requires SettledOk(w.worker.log, w.routed, w.sent, w.settled) && NoSelfReplacement(w.worker.log, w.routed, w.sent)
    requires id !in w.sent && id !in w.routed.Values
    ensures SettledOk(w.worker.log, w.routed, w.sent[id := at], w.settled)
    ensures NoSelfReplacement(w.worker.log, w.routed, w.sent[id := at])
    ensures forall i :: 0 <= i < |w.settled| ==> w.settled[i].id != id
  {
    assert forall r :: r in w.routed ==> w.routed[r] in w.routed.Values;
  }

  lemma PostKeepsListeners(w: World, b: nat, id: string)
    requires ListenersOk(w.batches, w.sent, w.listeners, w.settled) && BetweenInputs(w, b) && id !in w.sent
    requires forall i :: 0 <= i < |w.settled| ==> w.settled[i].id != id
    ensures ShapesOk(WithId(w.batches, b, id))
    ensures ListenersOk(WithId(w.batches, b, id), w.sent[id := Sent(b, |w.batches[b].ids|)], w.listeners + {id},
            w.settled)
  {
  }

  lemma PostKeeps(w: World, first: seq<Origin>, b: nat, now: nat)
    requires CoreOk(w, first) && BetweenInputs(w, b)
    requires ListenersOk(w.batches, w.sent, w.listeners, w.settled)
    ensures WorldOk(Post(w, b, now), first)
  {
    var id := MessageId(now, w.counter);
    var at := Sent(b, |w.batches[b].ids|);
    FreshId(w, now);
    MintNext(w.counter, w.sent, now, at);
    PostKeepsSent(w.batches, w.nextBatch, w.sent, b, id);
    PostKeepsResults(w.worker.log, w.routed, w.batches, b, id);
    PostKeepsRoutes(w, b, id, at);
    PostKeepsMail(w, id, at);
    PostKeepsHistory(w, id, at);
    PostKeepsListeners(w, b, id);
  }

  /** The worker's answer became a result of the batch that awaited it. */
  lemma AddResultKeeps(w: World, b: nat, outcome: Outcome, status: Status)
    requires ResultsOk(w.worker.log, w.routed, w.batches) && b in w.batches
    requires var batch := w.batches[b];
      && |batch.ids| == |batch.results| + 1
      && outcome.FromWorker? && Accept(batch.kind, outcome.reply).Some?
      && OutcomeOk(w.worker.log, w.routed, batch.ids[|batch.results|], outcome)
    ensures var batch := w.batches[b];
      var results := batch.results + [Accept(batch.kind, outcome.reply).value];
      ResultsOk(w.worker.log, w.routed, w.batches[b := batch.(results := results, status := status)])
  {
    var batch := w.batches[b];
    var results := batch.results + [Accept(batch.kind, outcome.reply).value];
    var more := batch.(results := results, status := status);
    forall k | 0 <= k < |results| ensures ResultOk(w.worker.log, w.routed, more, k) {
      if k < |batch.results| {
        assert ResultOk(w.worker.log, w.routed, batch, k);
        var rid, reply :| rid in w.routed && w.routed[rid] == batch.ids[k] && Answered(rid, reply) in w.worker.log
                          && Accept(batch.kind, reply) == Some(batch.results[k]);
        assert Accept(batch.kind, reply) == Some(results[k]);
      } else {
        assert outcome.rid in w.routed && Answered(outcome.rid, outcome.reply) in w.worker.log;
      }
    }
    OneBatchResults(w.worker.log, w.routed, w.batches, b, more);
  }

  lemma OneBatchResults(log: Log, routed: map<nat, string>, batches: map<nat, Batch>, b: nat, batch: Batch)
    requires ResultsOk(log, routed, batches)
    requires forall k :: 0 <= k < |batch.results| && k < |batch.ids| ==> ResultOk(log, routed, batch, k)
    ensures ResultsOk(log, routed, batches[b := batch])
  {
  }

  /** The promise of the awaited message settles: nothing of its batch is awaited any more. */
  lemma SettleKeeps(w: World, first: seq<Origin>, m: nat)
    requires WorldOk(w, first) && m in w.mail && w.mail[m].ToProvider? && w.mail[m].id in w.listeners
    ensures var ToProvider(id, outcome) := w.mail[m];
      var settled := w.(mail := w.mail - {m}, listeners := w.listeners - {id},
          settled := w.settled + [Settlement(id, outcome)]);
      && CoreOk(settled, first) && ShapesOk(settled.batches)
      && ListenersOk(settled.batches, settled.sent, settled.listeners, settled.settled)
  {
    var ToProvider(id, outcome) := w.mail[m];
    SettledGrows(w.worker.log, w.routed, w.batches, w.sent, w.listeners, w.settled, id, outcome);
    MailShrinks(w.worker.log, w.routed, w.sent, w.mail, w.nextMail, m);
  }

  lemma SettledGrows(log: Log, routed: map<nat, string>, batches: map<nat, Batch>, sent: map<string, Sent>,
                     listeners: set<string>, settled: seq<Settlement>, id: string, outcome: Outcome)
    requires SettledOk(log, routed, sent, settled) && ListenersOk(batches, sent, listeners, settled)
    requires id in listeners && OutcomeOk(log, routed, id, outcome)
    requires forall b, k :: b in batches && 0 <= k < |batches[b].ids| ==> batches[b].ids[k] in sent
    ensures SettledOk(log, routed, sent, settled + [Settlement(id, outcome)])
    ensures ListenersOk(batches, sent, listeners - {id}, settled + [Settlement(id, outcome)])
  {
  }

  lemma MailShrinks(log: Log, routed: map<nat, string>, sent: map<string, Sent>, mail: map<nat, Mail>,
      nextMail: nat, m: nat)
    requires MailOk(log, routed, sent, mail, nextMail)
    ensures MailOk(log, routed, sent, mail - {m}, nextMail)
  {
  }

  /** The promise that settles is the one its batch awaits, and the only one of that batch with a listener. */
  lemma SettledAwaited(w: World, first: seq<Origin>, m: nat)
    requires WorldOk(w, first) && m in w.mail && w.mail[m].ToProvider? && w.mail[m].id in w.listeners
    ensures var ToProvider(id, outcome) := w.mail[m];
      var b := w.sent[id].batch;
      && (forall other :: other in w.listeners - {id} ==> w.sent[other].batch != b)
      && b in w.batches && w.batches[b].status.Running? && |w.batches[b].ids| == |w.batches[b].results| + 1
      && w.batches[b].ids[|w.batches[b].results|] == id
      && OutcomeOk(w.worker.log, w.routed, id, outcome)
  {
    assert BatchShape(w.batches[w.sent[w.mail[m].id].batch]);
  }

  /** Ids, kind and inputs are all that `sent` and the channels know of a batch. */
  ghost predicate SameMessages(batch: Batch, other: Batch) {
    batch.kind == other.kind && batch.inputs == other.inputs && batch.ids == other.ids
  }

  lemma ProgressKeepsSent(batches: map<nat, Batch>, nextBatch: nat, sent: map<string, Sent>, b: nat, batch: Batch)
    requires SentOk(batches, nextBatch, sent) && b in batches && SameMessages(batch, batches[b])
    ensures SentOk(batches[b := batch], nextBatch, sent)
  {
  }

  lemma ProgressKeepsRoutes(w: World, b: nat, batch: Batch)
    requires RoutesOk(w.worker, w.page, w.batches, w.sent, w.channels, w.routed)
    requires b in w.batches && SameMessages(batch, w.batches[b])
    ensures RoutesOk(w.worker, w.page, w.batches[b := batch], w.sent, w.channels, w.routed)
  {
  }

  lemma ProgressKeepsCore(w: World, first: seq<Origin>, b: nat, results: seq<Output>, status: Status)
    requires CoreOk(w, first) && b in w.batches
    requires ResultsOk(w.worker.log, w.routed, w.batches[b := w.batches[b].(results := results, status := status)])
    ensures CoreOk(w.(batches := w.batches[b := w.batches[b].(results := results, status := status)]), first)
  {
    var batch := w.batches[b].(results := results, status := status);
    ProgressKeepsSent(w.batches, w.nextBatch, w.sent, b, batch);
    ProgressKeepsRoutes(w, b, batch);
  }

  lemma ListenersIgnoreBatch(batches: map<nat, Batch>, b: nat, batch: Batch, sent: map<string, Sent>,
                             listeners: set<string>, settled: seq<Settlement>)
    requires ListenersOk(batches, sent, listeners, settled)
    requires forall id :: id in listeners && id in sent ==> sent[id].batch != b
    ensures ListenersOk(batches[b := batch], sent, listeners, settled)
  {
  }

  lemma NextInputKeeps(w: World, first: seq<Origin>, b: nat, results: seq<Output>, now: nat)
    requires CoreOk(w, first) && ShapesOk(w.batches)
    requires ListenersOk(w.batches, w.sent, w.listeners, w.settled)
    requires forall id :: id in w.listeners && id in w.sent ==> w.sent[id].batch != b
    requires b in w.batches && w.batches[b].status.Running?
    requires |results| == |w.batches[b].ids| < |w.batches[b].inputs|
    requires ResultsOk(w.worker.log, w.routed, w.batches[b := w.batches[b].(results := results, status := Running)])
    ensures WorldOk(Post(w.(batches := w.batches[b := w.batches[b].(results := results)]), b, now), first)
  {
    ProgressKeepsCore(w, first, b, results, Running);
    var next := w.(batches := w.batches[b := w.batches[b].(results := results)]);
    ListenersIgnoreBatch(w.batches, b, w.batches[b].(results := results), w.sent, w.listeners, w.settled);
    assert BetweenInputs(next, b);
    PostKeeps(next, first, b, now);
  }

  lemma LastInputKeeps(w: World, first: seq<Origin>, b: nat, results: seq<Output>)
    requires CoreOk(w, first) && ShapesOk(w.batches)
    requires ListenersOk(w.batches, w.sent, w.listeners, w.settled)
    requires forall id :: id in w.listeners && id in w.sent ==> w.sent[id].batch != b
    requires b in w.batches && |results| == |w.batches[b].ids| == |w.batches[b].inputs|
    requires ResultsOk(w.worker.log, w.routed, w.batches[b := w.batches[b].(results := results, status := Returned)])
    ensures WorldOk(w.(batches := w.batches[b := w.batches[b].(results := results, status := Returned)]), first)
  {
    ProgressKeepsCore(w, first, b, results, Returned);
    ListenersIgnoreBatch(w.batches, b, w.batches[b].(results := results, status := Returned), w.sent, w.listeners,
        w.settled);
  }

  /** A settled promise lets its batch throw, return, or send the next input. */
  lemma ResumeBatchKeeps(w: World, first: seq<Origin>, b: nat, outcome: Outcome, now: nat)
    requires CoreOk(w, first) && ShapesOk(w.batches)
    requires ListenersOk(w.batches, w.sent, w.listeners, w.settled)
    requires forall id :: id in w.listeners && id in w.sent ==> w.sent[id].batch != b
    requires b in w.batches && w.batches[b].status.Running? && |w.batches[b].ids| == |w.batches[b].results| + 1
    requires OutcomeOk(w.worker.log, w.routed, w.batches[b].ids[|w.batches[b].results|], outcome)
    ensures WorldOk(ResumeBatch(w, b, outcome, now), first)
  {
    var batch := w.batches[b];
    assert BatchShape(batch);
    if IsError(outcome) || Accept(batch.kind, outcome.reply).None? {
      ThrowKeeps(w, first, b);
    } else {
      var results := batch.results + [Accept(batch.kind, outcome.reply).value];
      if |results| == |batch.inputs| {
        AddResultKeeps(w, b, outcome, Returned);
        LastInputKeeps(w, first, b, results);
      } else {
        AddResultKeeps(w, b, outcome, Running);
        NextInputKeeps(w, first, b, results, now);
      }
    }
  }

  lemma ThrowKeeps(w: World, first: seq<Origin>, b: nat)
    requires CoreOk(w, first) && ShapesOk(w.batches)
    requires ListenersOk(w.batches, w.sent, w.listeners, w.settled)
    requires forall id :: id in w.listeners && id in w.sent ==> w.sent[id].batch != b
    requires b in w.batches && w.batches[b].status.Running?
    ensures WorldOk(w.(batches := w.batches[b := w.batches[b].(status := Threw)]), first)
  {
    var batch := w.batches[b].(status := Threw);
    assert ResultsOk(w.worker.log, w.routed, w.batches[b := batch]) by {
      forall k | 0 <= k < |batch.results| && k < |batch.ids| ensures ResultOk(w.worker.log, w.routed, batch, k) {
        assert ResultOk(w.worker.log, w.routed, w.batches[b], k);
      }
    }
    ProgressKeepsCore(w, first, b, batch.results, Threw);
    ListenersIgnoreBatch(w.batches, b, batch, w.sent, w.listeners, w.settled);
    assert BatchShape(w.batches[b]);
  }

  lemma DropMailKeeps(w: World, first: seq<Origin>, m: nat)
    requires WorldOk(w, first)
    ensures WorldOk(w.(mail := w.mail - {m}), first)
  {
    assert MailOk(w.worker.log, w.routed, w.sent, w.mail - {m}, w.nextMail);
  }

  lemma CarryToProviderKeeps(w: World, first: seq<Origin>, m: nat, now: nat)
    requires WorldOk(w, first) && m in w.mail && w.mail[m].ToProvider?
    ensures WorldOk(StepCarryToProvider(w, m, now), first)
  {
    var ToProvider(id, outcome) := w.mail[m];
    if id !in w.listeners {
      DropMailKeeps(w, first, m);
    } else {
      SettleKeeps(w, first, m);
      SettledAwaited(w, first, m);
      var settled := w.(mail := w.mail - {m}, listeners := w.listeners - {id},
          settled := w.settled + [Settlement(id, outcome)]);
      ResumeBatchKeeps(settled, first, w.sent[id].batch, outcome, now);
    }
  }

  lemma NewBatchKeepsSent(batches: map<nat, Batch>, nextBatch: nat, sent: map<string, Sent>, batch: Batch)
    requires SentOk(batches, nextBatch, sent) && batch.ids == []
    ensures SentOk(batches[nextBatch := batch], nextBatch + 1, sent)
    ensures forall id :: id in sent ==> sent[id].batch != nextBatch
  {
  }

  lemma NewBatchKeepsRoutes(w: World, batch: Batch)
    requires RoutesOk(w.worker, w.page, w.batches, w.sent, w.channels, w.routed) && w.nextBatch !in w.batches
    ensures RoutesOk(w.worker, w.page, w.batches[w.nextBatch := batch], w.sent, w.channels, w.routed)
  {
  }

  lemma NewBatchKeepsResults(log: Log, routed: map<nat, string>, batches: map<nat, Batch>, b: nat, batch: Batch)
    requires ResultsOk(log, routed, batches) && batch.results == []
    ensures ResultsOk(log, routed, batches[b := batch])
  {
    var more := batches[b := batch];
    forall c, k | c in more && 0 <= k < |more[c].results| && k < |more[c].ids|
      ensures ResultOk(log, routed, more[c], k)
    {
      assert more[c] == batches[c];
    }
  }

  lemma CalledKeeps(w: World, first: seq<Origin>, batch: Batch)
    requires WorldOk(w, first) && batch.ids == [] && batch.results == []
    ensures CoreOk(WithBatch(w, batch), first)
    ensures ListenersOk(w.batches[w.nextBatch := batch], w.sent, w.listeners, w.settled)
    ensures forall id :: id in w.listeners && id in w.sent ==> w.sent[id].batch != w.nextBatch
  {
    NewBatchKeepsSent(w.batches, w.nextBatch, w.sent, batch);
    NewBatchKeepsRoutes(w, batch);
    NewBatchKeepsResults(w.worker.log, w.routed, w.batches, w.nextBatch, batch);
    ListenersIgnoreBatch(w.batches, w.nextBatch, batch, w.sent, w.listeners, w.settled);
  }

  function WithBatch(w: World, batch: Batch): World {
    w.(batches := w.batches[w.nextBatch := batch], nextBatch := w.nextBatch + 1)
  }

  lemma CalledIsBetween(w: World, first: seq<Origin>, batch: Batch)
    requires WorldOk(w, first) && batch.ids == [] && batch.results == [] && batch.inputs != []
             && batch.status == Running
    ensures BetweenInputs(WithBatch(w, batch), w.nextBatch)
  {
    CalledKeeps(w, first, batch);
  }

  lemma CallKeeps(w: World, first: seq<Origin>, kind: Kind, inputs: seq<string>, now: nat)
    requires WorldOk(w, first)
    ensures WorldOk(StepCall(w, kind, inputs, now), first)
  {
    var payloads := Payloads(kind, inputs);
    var batch := Batch(kind, payloads, [], [], if payloads == [] then Returned else Running);
    CalledKeeps(w, first, batch);
    if payloads == [] {
      assert BatchShape(batch);
    } else {
      CalledIsBetween(w, first, batch);
      PostKeeps(WithBatch(w, batch), first, w.nextBatch, now);
    }
  }

  lemma BridgeKeeps(w: World, first: seq<Origin>, m: nat)
    requires WorldOk(w, first)
    ensures WorldOk(StepCarryToBridge(w, m), first)
  {
    if StepCarryToBridge(w, m) != w {
      CarryToBridgeKeeps(w, first, m, w.sent[w.mail[m].id]);
    }
  }

  lemma RelayKeeps(w: World, first: seq<Origin>, rid: nat, reply: Reply)
    requires WorldOk(w, first)
    ensures WorldOk(StepRelay(w, rid, reply), first)
  {
    if rid in w.channels && Answered(rid, reply) in w.worker.log {
      ReplyKeeps(w, first, rid, FromWorker(rid, reply));
    }
  }

  lemma BreakChannelKeeps(w: World, first: seq<Origin>, rid: nat)
    requires WorldOk(w, first)
    ensures WorldOk(StepBreakChannel(w, rid), first)
  {
    if rid in w.channels {
      ReplyKeeps(w, first, rid, BridgeError);
    }
  }

  lemma LoseMailKeeps(w: World, first: seq<Origin>, m: nat)
    requires WorldOk(w, first)
    ensures WorldOk(StepLoseMail(w, m), first)
  {
    DropMailKeeps(w, first, m);
  }

  lemma ProviderKeeps(w: World, first: seq<Origin>, m: nat, now: nat)
    requires WorldOk(w, first)
    ensures WorldOk(StepCarryToProvider(w, m, now), first)
  {
    if m in w.mail && w.mail[m].ToProvider? {
      CarryToProviderKeeps(w, first, m, now);
    }
  }

  lemma ScriptStepKeeps(w: World, first: seq<Origin>, a: WorldAction)
    requires WorldOk(w, first) && (a.Call? || a.CarryToBridge? || a.CarryToProvider?)
    ensures WorldOk(StepWorld(w, a), first)
  {
    match a
    case Call(kind, inputs, now) => CallKeeps(w, first, kind, inputs, now);
    case CarryToBridge(m) => BridgeKeeps(w, first, m);
    case CarryToProvider(m, now) => ProviderKeeps(w, first, m, now);
  }

  lemma ChannelStepKeeps(w: World, first: seq<Origin>, a: WorldAction)
    requires WorldOk(w, first) && (a.Relay? || a.BreakChannel? || a.LoseMail?)
    ensures WorldOk(StepWorld(w, a), first)
  {
    match a
    case Relay(rid, reply) => RelayKeeps(w, first, rid, reply);
    case BreakChannel(rid) => BreakChannelKeeps(w, first, rid);
    case LoseMail(m) => LoseMailKeeps(w, first, m);
  }

  lemma StepWorldKeeps(w: World, first: seq<Origin>, a: WorldAction)
    requires WorldOk(w, first)
    ensures WorldOk(StepWorld(w, a), first)
  {
    if a.Background? {
      BackgroundKeeps(w, first, a.action);
    } else if a.Call? || a.CarryToBridge? || a.CarryToProvider? {
      ScriptStepKeeps(w, first, a);
    } else {
      ChannelStepKeeps(w, first, a);
    }
  }

  lemma PageIsFixed(w: World, a: WorldAction)
    ensures StepWorld(w, a).page == w.page
  {
    if a.CarryToProvider? && StepCarryToProvider(w, a.m, a.now) != w {
      assert StepCarryToProvider(w, a.m, a.now).page == w.page;
    }
  }

  /** The state of the composed machine after a run from a fresh worker. */
  function After(page: Option<Origin>, first: seq<Origin>, wallet: Wallet, actions: seq<WorldAction>): World {
    RunWorld(InitWorld(page, Init(first, wallet)), actions)
  }

  lemma {:induction false} RunWorldKeeps(page: Option<Origin>, first: seq<Origin>, wallet: Wallet,
      actions: seq<WorldAction>)
    ensures WorldOk(After(page, first, wallet, actions), first)
    ensures After(page, first, wallet, actions).page == page
  {
    if actions == [] {
      RunLedger(first, wallet, []);
      RunSafe(first, wallet, []);
    } else {
      RunWorldKeeps(page, first, wallet, actions[..|actions| - 1]);
      StepWorldKeeps(After(page, first, wallet, actions[..|actions| - 1]), first, actions[|actions| - 1]);
      PageIsFixed(After(page, first, wallet, actions[..|actions| - 1]), actions[|actions| - 1]);
    }
  }

  // ------------------------------------------------------------------
  // Main results
  // ------------------------------------------------------------------

  /**
   However mail and channels are reordered and whatever other pages do: no
   promise settles twice, and each one settles with the bridge's own error or
   with the worker's answer on the one channel that carried this message's own
   payload from this page.
   */
  lemma PromisesGetTheirOwnReply(page: Option<Origin>, first: seq<Origin>, wallet: Wallet, actions: seq<WorldAction>)
    ensures var w := After(page, first, wallet, actions);
      && (forall i, j :: 0 <= i < j < |w.settled| ==> w.settled[i].id != w.settled[j].id)
      && (forall i :: 0 <= i < |w.settled| && w.settled[i].outcome.FromWorker? ==>
            var Settlement(id, FromWorker(rid, reply)) := w.settled[i];
            && id in w.sent && rid in w.routed && w.routed[rid] == id
            && Answered(rid, reply) in w.worker.log
            && Delivered(w.worker.log, page, w.batches, w.sent[id], rid)
            && forall other :: other in w.routed && w.routed[other] == id ==> other == rid)
  {
    RunWorldKeeps(page, first, wallet, actions);
  }

  /** No request of a batch is ever rejected as replaced by another request of the same batch. */
  lemma BatchNeverReplacesItself(page: Option<Origin>, first: seq<Origin>, wallet: Wallet, actions: seq<WorldAction>,
                                 replaced: nat, newer: nat)
    requires var w := After(page, first, wallet, actions);
      replaced in w.routed && newer in w.routed && Answered(replaced, Replaced(newer)) in w.worker.log
    ensures var w := After(page, first, wallet, actions);
      && w.routed[replaced] in w.sent && w.routed[newer] in w.sent
      && w.sent[w.routed[replaced]].batch != w.sent[w.routed[newer]].batch
  {
    RunWorldKeeps(page, first, wallet, actions);
  }

  /**
   A sign batch that returns has one result per input, in input order: the
   k-th is the signature the worker answered for exactly the k-th payload,
   requested by this page's origin.
   */
  lemma BatchReturnsInOrder(page: Option<Origin>, first: seq<Origin>, wallet: Wallet, actions: seq<WorldAction>,
                            b: nat, k: nat)
    requires var w := After(page, first, wallet, actions);
      b in w.batches && w.batches[b].status.Returned? && k < |w.batches[b].inputs|
    ensures var w := After(page, first, wallet, actions);
      var batch := w.batches[b];
      && |batch.results| == |batch.inputs|
      && (!batch.kind.Connect? ==>
            && batch.results[k].Signature?
            && batch.results[k].request.payload == batch.inputs[k] && batch.results[k].request.kind == batch.kind
            && page == Some(batch.results[k].request.origin)
            && Answered(batch.results[k].request.rid,
                Signed(batch.results[k].request, batch.results[k].secretKey)) in w.worker.log)
  {
    RunWorldKeeps(page, first, wallet, actions);
    ResultIsForItsInput(After(page, first, wallet, actions), first, b, k);
  }

  lemma ResultIsForItsInput(w: World, first: seq<Origin>, b: nat, k: nat)
    requires WorldOk(w, first) && b in w.batches && w.batches[b].status.Returned? && k < |w.batches[b].inputs|
    ensures var batch := w.batches[b];
      && |batch.results| == |batch.inputs|
      && (!batch.kind.Connect? ==>
            && batch.results[k].Signature?
            && batch.results[k].request.payload == batch.inputs[k] && batch.results[k].request.kind == batch.kind
            && w.page == Some(batch.results[k].request.origin)
            && Answered(batch.results[k].request.rid,
                Signed(batch.results[k].request, batch.results[k].secretKey)) in w.worker.log)
  {
    var batch := w.batches[b];
    assert BatchShape(batch);
    if !batch.kind.Connect? {
      var rid := ResultChannel(w.worker.log, w.routed, w.batches, b, k);
      var request := batch.results[k].request;
      SignedArrived(w.worker.log, first, rid, request, batch.results[k].secretKey);
      OneArrivalPerChannel(w, rid, Sent(b, k), request);
    }
  }

  /** The channel whose answer became result `k` of a sign batch. */
  lemma ResultChannel(log: Log, routed: map<nat, string>, batches: map<nat, Batch>, b: nat, k: nat) returns (rid: nat)
    requires ResultsOk(log, routed, batches) && b in batches && !batches[b].kind.Connect?
    requires k < |batches[b].results| && k < |batches[b].ids|
    ensures rid in routed && routed[rid] == batches[b].ids[k] && batches[b].results[k].Signature?
    ensures var Signature(request, key) := batches[b].results[k];
            request.kind == batches[b].kind && Answered(rid, Signed(request, key)) in log
  {
    var batch := batches[b];
    assert ResultOk(log, routed, batch, k);
    var r, reply :| r in routed && routed[r] == batch.ids[k] && Answered(r, reply) in log
                    && Accept(batch.kind, reply) == Some(batch.results[k]);
    rid := r;
  }

  /** What arrived on the channel of message `at` is that message. */
  lemma OneArrivalPerChannel(w: World, rid: nat, at: Sent, request: Request)
    requires ArrivalsOk(w.worker.log, w.worker.nextRid)
    requires SentOk(w.batches, w.nextBatch, w.sent)
    requires RoutesOk(w.worker, w.page, w.batches, w.sent, w.channels, w.routed)
    requires at.batch in w.batches && at.index < |w.batches[at.batch].ids|
    requires rid in w.routed && w.routed[rid] == w.batches[at.batch].ids[at.index]
    requires rid == request.rid && WasReceived(w.worker.log, request)
    ensures at.index < |w.batches[at.batch].inputs| && request.payload == w.batches[at.batch].inputs[at.index]
    ensures w.page == Some(request.origin)
  {
    assert w.sent[w.routed[rid]] == at;
    assert Delivered(w.worker.log, w.page, w.batches, at, rid);
  }
}
