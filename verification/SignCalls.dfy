/**
 A whole sign call, from end to end: with a connected origin and an unlocked
 wallet, and approved each time, it returns one signature per input, in order.
 */
module SignCalls {
  import opened Prelude
  import opened SessionKey
  import opened Approvals
  import opened ApprovalLedger
  import opened ApprovalAnswers
  import opened ApprovalProgress
  import opened ApprovalReplies
  import opened Correlation
  import opened MessageIds
  import opened MessageLedger
  import opened Promises
  import opened RoundTrips

  /** A read finds this key: the wallet is unlocked, inside its deadline, and has it cached. */
  predicate KeyReady(w: Wallet, works: bool, key: string) {
    w.unlocked && DeadlineOpen(w) && key != "" && CachedKey(w, works) == Some(key)
  }

  /** Reading the key leaves it ready. */
  lemma KeyStaysReady(w: Wallet, works: bool, key: string)
    requires KeyReady(w, works, key)
    ensures !KeyUnavailable(w, works) && KeyReady(ReadActiveKey(w, works).0, works, key)
  {
  }

  /** The call is under way: message `m` carries the next of its inputs to the bridge, and all inputs are non-empty. */
  ghost predicate Sending(w: World, b: nat, m: nat) {
    && b in w.batches && w.batches[b].status.Running? && !w.batches[b].kind.Connect?
    && (forall p :: p in w.batches[b].inputs ==> p != "")
    && m in w.mail && w.mail[m].ToBridge?
    && w.mail[m].id in w.sent && w.sent[w.mail[m].id] == Sent(b, |w.batches[b].results|)
    && |w.batches[b].results| < |w.batches[b].inputs|
  }

  /** The worker will sign for this page. */
  ghost predicate WorkerReady(w: World, works: bool, key: string) {
    w.page.Some? && w.page.value in w.worker.origins && KeyReady(w.worker.wallet, works, key)
  }

  /** Result `k` is a signature of input `k` under the page's origin and this key. */
  predicate SignsInput(w: World, batch: Batch, k: nat, key: string)
    requires k < |batch.results| && k < |batch.inputs|
  {
    && batch.results[k].Signature? && batch.results[k].secretKey == key
    && batch.results[k].request.kind == batch.kind && Some(batch.results[k].request.origin) == w.page
    && batch.results[k].request.payload == batch.inputs[k]
  }

  // ------------------------------------------------------------------
  // One input
  // ------------------------------------------------------------------

  /** The decision and the worker's own steps after it sign the request and leave the worker ready. */
  lemma DecisionSigns(page: Option<Origin>, first: seq<Origin>, wallet: Wallet, history: seq<WorldAction>,
      e: Entry, given: Given, key: string) returns (decided: seq<Action>)
    requires var w := After(page, first, wallet, history);
             w.worker.pending == [e] && WorkerReady(w, given.works, key)
    requires !e.request.kind.Connect? && e.request.payload != ""
    ensures var worker := After(page, first, wallet, history).worker;
      && Answered(e.request.rid, Signed(e.request, key)) in Run(worker, decided).log
      && Run(worker, decided).origins == worker.origins && KeyReady(Run(worker, decided).wallet, given.works, key)
  {
    var worker := After(page, first, wallet, history).worker;
    var acts := WorkerRuns(page, first, wallet, history);
    var own := ApprovalDelivers(first, wallet, acts, e, given);
    decided := [Decide(true, e.id, e.nonce, true)] + own;
    RunFirst(worker, Decide(true, e.id, e.nonce, true), own);
    KeyStaysReady(worker.wallet, given.works, key);
    DeliveredReply(e, worker.wallet, given, Run(worker, decided));
  }

  /** The relayed response waits for the page, and nothing else changed. */
  function Relayed(w: World, rid: nat, reply: Reply): World
    requires rid in w.channels
  {
    StepReply(w, rid, FromWorker(rid, reply))
  }

  lemma RelayShape(w: World, rid: nat, reply: Reply)
    requires rid in w.channels && Answered(rid, reply) in w.worker.log
    ensures var relayed := Relayed(w, rid, reply);
      && StepWorld(w, Relay(rid, reply)) == relayed && w.nextMail in relayed.mail
      && relayed.mail[w.nextMail] == ToProvider(w.channels[rid], FromWorker(rid, reply))
  {
  }

  lemma DeliveryIsCarried(w: World, rid: nat, reply: Reply, now: nat)
    requires rid in w.channels && Answered(rid, reply) in w.worker.log
    ensures RunWorld(w, Delivery(w, rid, reply, now)) == StepCarryToProvider(Relayed(w, rid, reply), w.nextMail, now)
  {
    RelayShape(w, rid, reply);
    TwoSteps(w, Relay(rid, reply), CarryToProvider(w.nextMail, now));
  }

  /** What one signature makes of its call: it returned, or it sends the next input. */
  ghost predicate OneSigned(w: World, end: World, b: nat, works: bool, key: string) {
    && b in w.batches && b in end.batches && end.page == w.page
    && |w.batches[b].results| < |w.batches[b].inputs|
    && end.batches[b].inputs == w.batches[b].inputs && end.batches[b].kind == w.batches[b].kind
    && |end.batches[b].results| == |w.batches[b].results| + 1 && w.batches[b].results <= end.batches[b].results
    && SignsInput(w, end.batches[b], |w.batches[b].results|, key)
    && if |end.batches[b].results| == |end.batches[b].inputs| then end.batches[b].status.Returned?
       else (exists m :: Sending(end, b, m)) && WorkerReady(end, works, key)
  }

  lemma ResumedSigns(w: World, b: nat, m: nat, now: nat, works: bool, request: Request, key: string)
    requires m in w.mail && w.mail[m].ToProvider? && m < w.nextMail && IdsMinted(w.counter, w.sent)
    requires w.mail[m].outcome.FromWorker? && w.mail[m].outcome.reply == Signed(request, key)
    requires b in w.batches && w.batches[b].status.Running? && !w.batches[b].kind.Connect?
    requires forall p :: p in w.batches[b].inputs ==> p != ""
    requires w.mail[m].id in w.sent && w.sent[w.mail[m].id] == Sent(b, |w.batches[b].results|)
    requires |w.batches[b].results| < |w.batches[b].inputs| && |w.batches[b].ids| == |w.batches[b].results| + 1
    requires WorkerReady(w, works, key) && request.kind == w.batches[b].kind && Some(request.origin) == w.page
    requires request.payload == w.batches[b].inputs[|w.batches[b].results|]
    ensures OneSigned(w, Resumed(w, m, now), b, works, key)
  {
    var end := Resumed(w, m, now);
    var batch := w.batches[b];
    if |batch.results| + 1 < |batch.inputs| {
      assert end == Post(GoingOn(w, m), b, now);
      assert Sending(end, b, w.nextMail);
    }
  }

  /** The request of the call's next input is in the worker, under its open channel. */
  ghost predicate Asking(w: World, b: nat, request: Request) {
    && b in w.batches && w.batches[b].status.Running? && !w.batches[b].kind.Connect?
    && (forall p :: p in w.batches[b].inputs ==> p != "")
    && |w.batches[b].results| < |w.batches[b].inputs|
    && request.rid in w.channels && w.channels[request.rid] in w.sent
    && w.sent[w.channels[request.rid]] == Sent(b, |w.batches[b].results|)
    && request.kind == w.batches[b].kind && Some(request.origin) == w.page
    && request.payload == w.batches[b].inputs[|w.batches[b].results|]
  }

  /** The worker signed: the response and its delivery make the call go on. */
  lemma SignatureArrives(w: World, first: seq<Origin>, b: nat, request: Request, works: bool, key: string, now: nat)
    requires WorldOk(w, first) && OnePlace(w) && Keyed(w.worker) && Asking(w, b, request)
    requires WorkerReady(w, works, key) && Answered(request.rid, Signed(request, key)) in w.worker.log
    ensures OneSigned(w, RunWorld(w, Delivery(w, request.rid, Signed(request, key), now)), b, works, key)
  {
    var reply := Signed(request, key);
    OpenIsAwaited(w, request.rid);
    ReplyKeeps(w, first, request.rid, FromWorker(request.rid, reply));
    DeliveryIsCarried(w, request.rid, reply, now);
    RelayShape(w, request.rid, reply);
    ResumesSo(Relayed(w, request.rid, reply), first, w.nextMail, now);
    AskedShape(w, first, b);
    ResumedSigns(Relayed(w, request.rid, reply), b, w.nextMail, now, works, request, key);
  }

  lemma AskingNonempty(w: World, b: nat, request: Request)
    requires Asking(w, b, request)
    ensures !request.kind.Connect? && request.payload != ""
  {
    assert w.batches[b].inputs[|w.batches[b].results|] in w.batches[b].inputs;
  }

  lemma AskedShape(w: World, first: seq<Origin>, b: nat)
    requires WorldOk(w, first) && b in w.batches && w.batches[b].status.Running?
    ensures |w.batches[b].ids| == |w.batches[b].results| + 1 && IdsMinted(w.counter, w.sent)
  {
    assert BatchShape(w.batches[b]);
  }

  /** The message has reached the user. */
  lemma InputAsks(page: Option<Origin>, first: seq<Origin>, wallet: Wallet, history: seq<WorldAction>,
      b: nat, m: nat, given: Given, key: string) returns (rest: seq<WorldAction>, e: Entry)
    requires var w := After(page, first, wallet, history); Sending(w, b, m) && WorkerReady(w, given.works, key)
    ensures var w, asked := After(page, first, wallet, history), After(page, first, wallet, history + rest);
      && asked.worker.pending == [e] && Asking(asked, b, e.request) && WorkerReady(asked, given.works, key)
      && asked.batches == w.batches
  {
    var w := After(page, first, wallet, history);
    PageStays(page, first, wallet, history);
    rest := MessageReachesTheUser(page, first, wallet, history, m, given);
    PageStays(page, first, wallet, history + rest);
    var asked := After(page, first, wallet, history + rest);
    e := asked.worker.pending[0];
    assert asked.worker.pending == [e];
  }

  lemma PageStays(page: Option<Origin>, first: seq<Origin>, wallet: Wallet, history: seq<WorldAction>)
    ensures After(page, first, wallet, history).page == page
  {
    RunWorldKeeps(page, first, wallet, history);
  }

  /** The worker has signed this request of the call. */
  ghost predicate HasSigned(w: World, b: nat, request: Request, works: bool, key: string) {
    Asking(w, b, request) && WorkerReady(w, works, key) && Answered(request.rid, Signed(request, key)) in w.worker.log
  }

  /** The parked input is approved and signed. */
  lemma InputDecided(page: Option<Origin>, first: seq<Origin>, wallet: Wallet, history: seq<WorldAction>,
      b: nat, e: Entry, given: Given, key: string) returns (rest: seq<WorldAction>)
    requires var w := After(page, first, wallet, history);
             w.worker.pending == [e] && Asking(w, b, e.request) && WorkerReady(w, given.works, key)
    ensures var w, signed := After(page, first, wallet, history), After(page, first, wallet, history + rest);
      && HasSigned(signed, b, e.request, given.works, key)
      && signed.batches == w.batches && signed.page == w.page
  {
    var w := After(page, first, wallet, history);
    AskingNonempty(w, b, e.request);
    var decided := DecisionSigns(page, first, wallet, history, e, given, key);
    LiftedRun(w, decided);
    rest := Lifted(decided);
    AfterMore(page, first, wallet, history, rest);
  }

  /** The signature reaches the page; `w` is an earlier state with the call as it still is. */
  lemma SignatureDelivered(page: Option<Origin>, first: seq<Origin>, wallet: Wallet, history: seq<WorldAction>,
      w: World, b: nat, request: Request, works: bool, key: string, now: nat) returns (rest: seq<WorldAction>)
    requires HasSigned(After(page, first, wallet, history), b, request, works, key)
    requires After(page, first, wallet, history).batches == w.batches
             && After(page, first, wallet, history).page == w.page
    ensures OneSigned(w, After(page, first, wallet, history + rest), b, works, key)
  {
    var signed := After(page, first, wallet, history);
    RunPromises(page, first, wallet, history);
    RunWorldKeeps(page, first, wallet, history);
    SignatureArrives(signed, first, b, request, works, key, now);
    rest := Delivery(signed, request.rid, Signed(request, key), now);
    AfterMore(page, first, wallet, history, rest);
    SameCall(w, signed, After(page, first, wallet, history + rest), b, works, key);
  }

  lemma InputSigned(page: Option<Origin>, first: seq<Origin>, wallet: Wallet, history: seq<WorldAction>,
      b: nat, e: Entry, given: Given, key: string, now: nat) returns (rest: seq<WorldAction>)
    requires var w := After(page, first, wallet, history);
             w.worker.pending == [e] && Asking(w, b, e.request) && WorkerReady(w, given.works, key)
    ensures OneSigned(After(page, first, wallet, history), After(page, first, wallet, history + rest), b, given.works,
                      key)
  {
    var w := After(page, first, wallet, history);
    var decides := InputDecided(page, first, wallet, history, b, e, given, key);
    var delivers := SignatureDelivered(page, first, wallet, history + decides, w, b, e.request, given.works, key, now);
    rest := decides + delivers;
    assert history + rest == history + decides + delivers;
  }

  lemma SameCall(w: World, signed: World, end: World, b: nat, works: bool, key: string)
    requires OneSigned(signed, end, b, works, key) && signed.batches == w.batches && signed.page == w.page
    ensures OneSigned(w, end, b, works, key)
  {
  }

  /** One input: it reaches the user, is approved and signed, and the signature reaches the page. */
  lemma SignOne(page: Option<Origin>, first: seq<Origin>, wallet: Wallet, history: seq<WorldAction>,
      b: nat, m: nat, given: Given, key: string, now: nat) returns (rest: seq<WorldAction>)
    requires var w := After(page, first, wallet, history); Sending(w, b, m) && WorkerReady(w, given.works, key)
    ensures OneSigned(After(page, first, wallet, history), After(page, first, wallet, history + rest), b, given.works,
                      key)
  {
    var asks, e := InputAsks(page, first, wallet, history, b, m, given, key);
    var more := InputSigned(page, first, wallet, history + asks, b, e, given, key, now);
    rest := asks + more;
    assert history + rest == history + asks + more;
    PageStays(page, first, wallet, history);
    PageStays(page, first, wallet, history + asks);
    SameCall(After(page, first, wallet, history), After(page, first, wallet, history + asks),
             After(page, first, wallet, history + rest), b, given.works, key);
  }

  // ------------------------------------------------------------------
  // All inputs
  // ------------------------------------------------------------------

  /** The call returned, with a signature for each of its inputs from `k` on. */
  ghost predicate SignedFrom(w: World, b: nat, inputs: seq<string>, k: nat, key: string) {
    && b in w.batches && w.batches[b].status.Returned? && w.batches[b].inputs == inputs
    && |w.batches[b].results| == |inputs|
    && forall i :: k <= i < |inputs| ==> SignsInput(w, w.batches[b], i, key)
  }

  lemma {:induction false} SignRest(page: Option<Origin>, first: seq<Origin>, wallet: Wallet,
      history: seq<WorldAction>, b: nat, m: nat, given: Given, key: string, now: nat)
      returns (rest: seq<WorldAction>)
    requires var w := After(page, first, wallet, history); Sending(w, b, m) && WorkerReady(w, given.works, key)
    ensures var batch := After(page, first, wallet, history).batches[b];
      && SignedFrom(After(page, first, wallet, history + rest), b, batch.inputs, |batch.results|, key)
      && batch.results <= After(page, first, wallet, history + rest).batches[b].results
      && batch.kind == After(page, first, wallet, history + rest).batches[b].kind
      && After(page, first, wallet, history + rest).page == After(page, first, wallet, history).page
    decreases |After(page, first, wallet, history).batches[b].inputs|
              - |After(page, first, wallet, history).batches[b].results|
  {
    var batch := After(page, first, wallet, history).batches[b];
    var one := SignOne(page, first, wallet, history, b, m, given, key, now);
    var next := After(page, first, wallet, history + one);
    if |next.batches[b].results| == |batch.inputs| {
      rest := one;
    } else {
      var m' :| Sending(next, b, m');
      var more := SignRest(page, first, wallet, history + one, b, m', given, key, now);
      rest := one + more;
      assert history + rest == history + one + more;
      FirstAndRest(After(page, first, wallet, history), next, After(page, first, wallet, history + rest), b,
                   given.works, key);
    }
  }

  lemma FirstAndRest(w: World, next: World, end: World, b: nat, works: bool, key: string)
    requires OneSigned(w, next, b, works, key)
    requires SignedFrom(end, b, next.batches[b].inputs, |next.batches[b].results|, key)
    requires next.batches[b].results <= end.batches[b].results
    requires end.page == next.page && end.batches[b].kind == next.batches[b].kind
    ensures SignedFrom(end, b, w.batches[b].inputs, |w.batches[b].results|, key)
    ensures w.batches[b].results <= end.batches[b].results
  {
    var k := |w.batches[b].results|;
    assert end.batches[b].results[k] == next.batches[b].results[k];
  }

  /** A sign call with inputs posts the first of them. */
  lemma CallSends(w: World, kind: Kind, inputs: seq<string>, now: nat)
    requires !kind.Connect? && inputs != [] && forall p :: p in inputs ==> p != ""
    ensures var called := StepWorld(w, Call(kind, inputs, now));
      && Sending(called, w.nextBatch, w.nextMail) && called.batches[w.nextBatch].inputs == inputs
      && called.batches[w.nextBatch].results == [] && called.page == w.page && called.worker == w.worker
  {
  }

  /**
   The whole round of signTransaction or signMessage: in any state of page,
   bridge and worker, for a connected origin, with the key ready and no input
   empty, the call can be approved input by input, and returns exactly one
   signature per input, in order, each for that input, this page and that key.
   */
  lemma SignRoundTrip(page: Option<Origin>, first: seq<Origin>, wallet: Wallet, history: seq<WorldAction>, kind: Kind,
      inputs: seq<string>, given: Given, key: string, now: nat) returns (rest: seq<WorldAction>)
    requires WorkerReady(After(page, first, wallet, history), given.works, key) && !kind.Connect?
    requires forall p :: p in inputs ==> p != ""
    ensures SignedFrom(After(page, first, wallet, history + rest), After(page, first, wallet, history).nextBatch,
                       inputs, 0, key)
  {
    var w := After(page, first, wallet, history);
    var call := Call(kind, inputs, now);
    AfterMore(page, first, wallet, history, [call]);
    WorldRunFirst(w, call, []);
    assert [call] + [] == [call];
    var called := StepWorld(w, call);
    assert After(page, first, wallet, history + [call]) == called;
    if inputs == [] {
      rest := [call];
    } else {
      CallSends(w, kind, inputs, now);
      var more := SignRest(page, first, wallet, history + [call], w.nextBatch, w.nextMail, given, key, now);
      rest := [call] + more;
      assert history + rest == history + [call] + more;
    }
  }
}
