/**
 The dApp approval protocol of the extension's background worker
 (apps/extension/entrypoints/background.ts) as a state machine. Every async
 handler is cut at its awaits; `tasks` holds the continuations in flight, each
 with its local snapshots, and the scheduler may pick any of them next. Writes
 to a storage item land in issue order. `log` is a history variable.
 */
module Approvals {
  import opened Prelude
  import opened SessionKey

  type Origin = string

  datatype Kind = Connect | SignTransaction | SignMessage

  /** One dApp request; `rid` stands for its `sendResponse` callback. */
  datatype Request = Request(rid: nat, kind: Kind, origin: Origin, payload: string)

  /** An entry of the parked-request map, which keeps insertion order. */
  datatype Entry = Entry(id: nat, nonce: nat, request: Request)

  /** The stored approval descriptor, which is what the user sees. */
  datatype Descriptor = Descriptor(id: nat, nonce: nat, kind: Kind, origin: Origin, payload: string)

  /** Responses. `newer` in `Replaced` is not on the wire: it names the request that took the place. */
  datatype Reply =
    | NoOrigin
    | NotConnected
    | Replaced(newer: nat)
    | BadToken
    | Denied
    | Failed
    | AutoConnected(publicKey: Option<string>)
    | Connected(key: string)
    | Signed(request: Request, secretKey: string)

  /** A decision message: whether an extension page sent it, and what it says. */
  datatype Decision = Decision(trusted: bool, id: nat, nonce: nat, approved: bool)

  /** The decision that approves this very entry: trusted, and naming both of its tokens. */
  function Approving(e: Entry): Decision {
    Decision(true, e.id, e.nonce, true)
  }

  datatype Event =
    | Received(rid: nat, kind: Kind, sender: Option<Origin>, payload: string)
    | OriginFound(rid: nat, origin: Origin)
    | Parked(entry: Entry)
    | Taken(id: nat)                 // a decision removed this entry
    | Accepted(entry: Entry, decision: Decision)   // the decision that was carried out
    | KeyRead(request: Request, secretKey: string, wallet: Wallet, works: bool)
    | CallFailed(rid: nat)           // an awaited call of the approved branch was rejected
    | Answered(rid: nat, reply: Reply)
    | Dropped(request: Request)      // its decision ended without a response
    | ReadRejected(rid: nat)         // its handler ended without a response: a stored item could not be read
    | Cleared                        // the null descriptor was issued
    | Suspended(lost: set<nat>)

  /** Continuations. A task that has answered only has user-interface work left and is gone. */
  datatype Stage =
    | Checking(request: Request)
    | Checked(request: Request, seen: seq<Origin>)
    | FetchingKey(request: Request)
    | Disconnecting(origin: Origin)
    | DisconnectRead(origin: Origin, seen: seq<Origin>)
    | ConnectKey(request: Request)
    | ConnectOrigins(request: Request, publicKey: string)
    | ConnectRead(request: Request, publicKey: string, seen: seq<Origin>)
    | ConnectWriting(request: Request, publicKey: string)
    | ConnectWritten(request: Request, publicKey: string)
    | ReadingKey(request: Request)
    | Signing(request: Request, secretKey: string)
    | SigningMessage(request: Request, secretKey: string)

  datatype OriginWrite = OriginWrite(origins: seq<Origin>, task: nat)

  datatype State = State(
    origins: seq<Origin>,
    originWrites: seq<OriginWrite>,
    descriptor: Option<Descriptor>,
    descriptorWrites: seq<Option<Descriptor>>,
    pending: seq<Entry>,
    tasks: map<nat, Stage>,
    wallet: Wallet,
    nextRid: nat,
    nextTask: nat,
    nextToken: nat,
    log: seq<Event>
  )

  function Init(origins: seq<Origin>, wallet: Wallet): State {
    State(origins, [], None, [], [], map[], wallet, 0, 0, 0, [])
  }

  /**
   What the outside supplies to a continuation: the stored public key, and whether the session area
   can be reached.
   */
  datatype Given = Given(publicKey: Option<string>, works: bool)

  const NOTHING := Given(None, true)

  datatype Action =
    | Receive(kind: Kind, origin: Option<Origin>, payload: string)
    | ReceiveDisconnect(origin: Option<Origin>)
    | Decide(trusted: bool, id: nat, nonce: nat, approved: bool)
    | ReadOrigins(task: nat)                          // an awaited getValue takes its snapshot
    | Resume(task: nat, given: Given)                 // the continuation runs to its next await
    | Throw(task: nat)                                // the call it awaits is rejected
    | LandOrigins
    | LandDescriptor
    | WalletStep(op: WalletOp)
    | Suspend

  // ------------------------------------------------------------------
  // Pieces of the handlers
  // ------------------------------------------------------------------

  function Describe(e: Entry): Descriptor {
    Descriptor(e.id, e.nonce, e.request.kind, e.request.origin, e.request.payload)
  }

  function Find(pending: seq<Entry>, id: nat): (e: Option<Entry>)
    ensures e.Some? ==> e.value in pending && e.value.id == id
  {
    if pending == [] then None
    else if pending[0].id == id then Some(pending[0])
    else Find(pending[1..], id)
  }

  function Without(pending: seq<Entry>, id: nat): (rest: seq<Entry>)
    ensures |rest| <= |pending|
    ensures forall e :: e in rest ==> e in pending && e.id != id
  {
    if pending == [] then []
    else (if pending[0].id == id then [] else [pending[0]]) + Without(pending[1..], id)
  }

  function Filtered(origins: seq<Origin>, gone: Origin): seq<Origin> {
    if origins == [] then []
    else (if origins[0] == gone then [] else [origins[0]]) + Filtered(origins[1..], gone)
  }

  function Note(s: State, e: Event): State {
    s.(log := s.log + [e])
  }

  function Spawn(s: State, stage: Stage): State {
    s.(tasks := s.tasks[s.nextTask := stage], nextTask := s.nextTask + 1)
  }

  function Continue(s: State, t: nat, stage: Stage): State {
    s.(tasks := s.tasks[t := stage])
  }

  function End(s: State, t: nat): State {
    s.(tasks := s.tasks - {t})
  }

  function IssueClear(s: State): State {
    Note(s.(descriptorWrites := s.descriptorWrites + [None]), Cleared)
  }

  function Rejections(pending: seq<Entry>, newer: nat): seq<Event> {
    if pending == [] then []
    else [Answered(pending[0].request.rid, Replaced(newer))] + Rejections(pending[1..], newer)
  }

  function RejectStale(s: State, newer: nat): State {
    s.(pending := [], log := s.log + Rejections(s.pending, newer))
  }

  /** Reject what is parked, park this request under fresh tokens, issue its descriptor. */
  function Park(s: State, request: Request): State {
    var entry := Entry(s.nextToken, s.nextToken + 1, request);
    var room := RejectStale(s, request.rid);
    Note(room.(pending := room.pending + [entry],
                nextToken := s.nextToken + 2,
                descriptorWrites := s.descriptorWrites + [Some(Describe(entry))]),
         Parked(entry))
  }

  /** A handler answers and ends. */
  function Answer(s: State, t: nat, rid: nat, reply: Reply): State {
    Note(End(s, t), Answered(rid, reply))
  }

  /** A decision answers, issues the null descriptor and ends. */
  function Finish(s: State, t: nat, rid: nat, reply: Reply): State {
    IssueClear(Answer(s, t, rid, reply))
  }

  // ------------------------------------------------------------------
  // Steps
  // ------------------------------------------------------------------

  function StepReceive(s: State, kind: Kind, origin: Option<Origin>, payload: string): State {
    var arrived := Note(s.(nextRid := s.nextRid + 1), Received(s.nextRid, kind, origin, payload));
    match origin
    case None => Note(arrived, Answered(s.nextRid, NoOrigin))
    case Some(o) => Spawn(arrived, Checking(Request(s.nextRid, kind, o, payload)))
  }

  function StepDecide(s: State, trusted: bool, id: nat, nonce: nat, approved: bool): State {
    var found := Find(s.pending, id);
    if !trusted || found.None? then s
    else
      var request := found.value.request;
      var taken := Note(s.(pending := Without(s.pending, id)), Taken(id));
      if nonce != found.value.nonce then IssueClear(Note(taken, Answered(request.rid, BadToken)))
      else if !approved then IssueClear(Note(taken, Answered(request.rid, Denied)))
      else Spawn(Note(taken, Accepted(found.value, Decision(trusted, id, nonce, approved))),
                 if request.kind.Connect? then ConnectKey(request) else ReadingKey(request))
  }

  function StepReadOrigins(s: State, t: nat): State {
    if t !in s.tasks then s
    else match s.tasks[t]
      case Checking(request) => Continue(s, t, Checked(request, s.origins))
      case Disconnecting(origin) => Continue(s, t, DisconnectRead(origin, s.origins))
      case ConnectOrigins(request, key) => Continue(s, t, ConnectRead(request, key, s.origins))
      case _ => s
  }

  function ResumeChecked(s: State, t: nat, request: Request, seen: seq<Origin>): State {
    if request.kind.Connect? then
      if request.origin in seen then Continue(s, t, FetchingKey(request))
      else Park(End(s, t), request)
    else if request.origin !in seen then Answer(s, t, request.rid, NotConnected)
    else Park(Note(End(s, t), OriginFound(request.rid, request.origin)), request)
  }

  function ResumeConnectRead(s: State, t: nat, request: Request, key: string, seen: seq<Origin>): State {
    if request.origin in seen then Finish(s, t, request.rid, Connected(key))
    else Continue(s, t, ConnectWriting(request, key)).(
           originWrites := s.originWrites + [OriginWrite(seen + [request.origin], t)])
  }

  function ResumeReadingKey(s: State, t: nat, request: Request, works: bool): State {
    var (wallet, key) := ReadActiveKey(s.wallet, works);
    var read := s.(wallet := wallet);
    if !Truthy(key) then Finish(read, t, request.rid, Failed)
    else Continue(Note(read, KeyRead(request, key.value, s.wallet, works)), t, Signing(request, key.value))
  }

  function ResumeSigning(s: State, t: nat, request: Request, key: string): State {
    if request.payload == "" then IssueClear(Note(End(s, t), Dropped(request)))
    else if request.kind.SignTransaction? then Finish(s, t, request.rid, Signed(request, key))
    else Continue(s, t, SigningMessage(request, key))
  }

  function StepResume(s: State, t: nat, given: Given): State {
    if t !in s.tasks then s
    else match s.tasks[t]
      case Checked(request, seen) => ResumeChecked(s, t, request, seen)
      case FetchingKey(request) => Answer(s, t, request.rid, AutoConnected(given.publicKey))
      case DisconnectRead(origin, seen) =>
        End(s, t).(originWrites := s.originWrites + [OriginWrite(Filtered(seen, origin), t)])
      case ConnectKey(request) =>
        if Truthy(given.publicKey) then Continue(s, t, ConnectOrigins(request, given.publicKey.value))
        else Finish(s, t, request.rid, Failed)
      case ConnectRead(request, key, seen) => ResumeConnectRead(s, t, request, key, seen)
      case ConnectWritten(request, key) => Finish(s, t, request.rid, Connected(key))
      case ReadingKey(request) => ResumeReadingKey(s, t, request, given.works)
      case Signing(request, key) => ResumeSigning(s, t, request, key)
      case SigningMessage(request, key) => Finish(s, t, request.rid, Signed(request, key))
      case _ => s
  }

  /** Any await inside the try block can be rejected, except a write, which lands. */
  predicate CanThrow(stage: Stage) {
    stage.ConnectKey? || stage.ConnectOrigins? || stage.ReadingKey? || stage.Signing? || stage.SigningMessage?
  }

  /** The reads that a request's handler awaits outside any try block. */
  predicate ReadsUncaught(stage: Stage) {
    stage.Checking? || stage.FetchingKey?
  }

  /** Inside the try block a rejection is answered; outside it ends the handler without a response. */
  function StepThrow(s: State, t: nat): State {
    if t !in s.tasks then s
    else if CanThrow(s.tasks[t]) then
      Finish(Note(s, CallFailed(s.tasks[t].request.rid)), t, s.tasks[t].request.rid, Failed)
    else if ReadsUncaught(s.tasks[t]) then Note(End(s, t), ReadRejected(s.tasks[t].request.rid))
    else if s.tasks[t].Disconnecting? then End(s, t)
    else s
  }

  function StepLandOrigins(s: State): State {
    if s.originWrites == [] then s
    else
      var w := s.originWrites[0];
      var landed := s.(origins := w.origins, originWrites := s.originWrites[1..]);
      if w.task in s.tasks && s.tasks[w.task].ConnectWriting? then
        Continue(landed, w.task, ConnectWritten(s.tasks[w.task].request, s.tasks[w.task].publicKey))
      else landed
  }

  function StepLandDescriptor(s: State): State {
    if s.descriptorWrites == [] then s
    else s.(descriptor := s.descriptorWrites[0], descriptorWrites := s.descriptorWrites[1..])
  }

  /** The request whose response this continuation still owes. */
  function Owner(stage: Stage): Option<nat> {
    if stage.Disconnecting? || stage.DisconnectRead? then None else Some(stage.request.rid)
  }

  /** The requests a suspension would lose: those in a continuation and those parked. */
  function InFlight(s: State): set<nat> {
    (set t | t in s.tasks && Owner(s.tasks[t]).Some? :: Owner(s.tasks[t]).value)
    + (set i | 0 <= i < |s.pending| :: s.pending[i].request.rid)
  }

  /** Suspension erases the worker's memory: continuations, parked requests and the cached key. */
  function StepSuspend(s: State): State {
    Note(s.(tasks := map[], pending := [], wallet := ApplyWallet(s.wallet, SuspendWorker)),
         Suspended(InFlight(s)))
  }

  function Step(s: State, a: Action): State {
    match a
    case Receive(kind, origin, payload) => StepReceive(s, kind, origin, payload)
    case ReceiveDisconnect(None) => s
    case ReceiveDisconnect(Some(origin)) => Spawn(s, Disconnecting(origin))
    case Decide(trusted, id, nonce, approved) => StepDecide(s, trusted, id, nonce, approved)
    case ReadOrigins(t) => StepReadOrigins(s, t)
    case Resume(t, given) => StepResume(s, t, given)
    case Throw(t) => StepThrow(s, t)
    case LandOrigins => StepLandOrigins(s)
    case LandDescriptor => StepLandDescriptor(s)
    case WalletStep(op) => if op.SuspendWorker? then s else s.(wallet := ApplyWallet(s.wallet, op))
    case Suspend => StepSuspend(s)
  }

  function Run(s: State, actions: seq<Action>): State {
    if actions == [] then s else Step(Run(s, actions[..|actions| - 1]), actions[|actions| - 1])
  }

  lemma RunJoin(s: State, xs: seq<Action>, ys: seq<Action>)
    ensures Run(s, xs + ys) == Run(Run(s, xs), ys)
    decreases |ys|
  {
    if ys == [] {
      assert xs + ys == xs;
    } else {
      assert (xs + ys)[..|xs + ys| - 1] == xs + ys[..|ys| - 1];
      RunJoin(s, xs, ys[..|ys| - 1]);
    }
  }

  lemma RunFirst(s: State, a: Action, actions: seq<Action>)
    ensures Run(s, [a] + actions) == Run(Step(s, a), actions)
  {
    RunAppend(s, [], a);
    assert [] + [a] == [a];
    RunJoin(s, [a], actions);
  }

  lemma RunAppend(s: State, actions: seq<Action>, a: Action)
    ensures Run(s, actions + [a]) == Step(Run(s, actions), a)
  {
    assert (actions + [a])[..|actions|] == actions;
  }

  lemma RunTwo(s: State, a: Action, b: Action)
    ensures Run(s, [a, b]) == Step(Step(s, a), b)
  {
    RunAppend(s, [], a);
    RunAppend(s, [a], b);
    assert [] + [a] == [a] && [a] + [b] == [a, b];
  }

  lemma RunThree(s: State, a: Action, b: Action, c: Action)
    ensures Run(s, [a, b, c]) == Step(Step(Step(s, a), b), c)
  {
    RunTwo(s, a, b);
    RunAppend(s, [a, b], c);
    assert [a, b] + [c] == [a, b, c];
  }
}
