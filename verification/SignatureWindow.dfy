/**
 When a disconnect stops a signature, and when it comes too late: the stored
 origins matter to a sign request only at the one step that reads them.
 */
module SignatureWindow {
  import opened Prelude
  import opened SessionKey
  import opened Approvals
  import opened Continuations
  import opened ApprovalSafety
  import opened ApprovalLedger
  import opened ApprovalDisplay
  import opened ConnectedOrigins

  /**
   Up to the check: whatever happens to the list between the read and the rest
   of the handler, the request is parked if and only if its origin was in the
   list when it was read, and is refused otherwise.
   */
  lemma CheckDecidesExactly(s: State, t: nat, request: Request, mid: seq<Action>)
    requires t in s.tasks && t < s.nextTask && s.tasks[t] == Checking(request) && !request.kind.Connect?
    requires AllSpare(mid, t)
    ensures var read := Run(Step(s, ReadOrigins(t)), mid);
            var end := Step(read, Resume(t, NOTHING));
      if request.origin in s.origins then |end.pending| == 1 && end.pending[0].request == request
      else end.pending == read.pending && end.log == read.log + [Answered(request.rid, NotConnected)]
  {
    RunSparing(Step(s, ReadOrigins(t)), mid, t);
  }

  /** From parking on: deciding on a request, reading the key and signing. */
  predicate AfterParking(s: State, a: Action) {
    || a.Decide?
    || (a.Resume? && a.task in s.tasks
        && (s.tasks[a.task].ReadingKey? || s.tasks[a.task].Signing? || s.tasks[a.task].SigningMessage?))
  }

  function WithList(s: State, origins: seq<Origin>, writes: seq<OriginWrite>): State {
    s.(origins := origins, originWrites := writes)
  }

  /** From parking on the stored list, and any write to it, makes no difference. */
  lemma ListMakesNoDifference(s: State, a: Action, origins: seq<Origin>, writes: seq<OriginWrite>)
    requires AfterParking(s, a)
    ensures Step(WithList(s, origins, writes), a) == WithList(Step(s, a), origins, writes)
  {
    match a
    case Resume(t, given) => SigningIgnoresList(s, t, given, origins, writes);
    case Decide(trusted, id, nonce, approved) => DecideIgnoresList(s, trusted, id, nonce, approved, origins, writes);
  }

  lemma DecideIgnoresList(s: State, trusted: bool, id: nat, nonce: nat, approved: bool,
                          origins: seq<Origin>, writes: seq<OriginWrite>)
    ensures StepDecide(WithList(s, origins, writes), trusted, id, nonce, approved)
            == WithList(StepDecide(s, trusted, id, nonce, approved), origins, writes)
  {
  }

  lemma SigningIgnoresList(s: State, t: nat, given: Given, origins: seq<Origin>, writes: seq<OriginWrite>)
    requires AfterParking(s, Resume(t, given))
    ensures StepResume(WithList(s, origins, writes), t, given) == WithList(StepResume(s, t, given), origins, writes)
  {
    var other := WithList(s, origins, writes);
    match s.tasks[t]
    case ReadingKey(request) =>
      assert ResumeReadingKey(other, t, request, given.works)
             == WithList(ResumeReadingKey(s, t, request, given.works), origins, writes);
    case Signing(request, key) =>
      assert ResumeSigning(other, t, request, key) == WithList(ResumeSigning(s, t, request, key), origins, writes);
    case SigningMessage(request, key) =>
      assert Finish(other, t, request.rid, Signed(request, key))
             == WithList(Finish(s, t, request.rid, Signed(request, key)), origins, writes);
  }

  /** The origin disconnects, and the disconnect has landed. */
  function Disconnected(s: State, origin: Origin): State {
    Straight(Step(s, ReceiveDisconnect(Some(origin))), s.nextTask)
  }

  /** Approve what is parked, read the key, sign. */
  function Approved(s: State, entry: Entry): State {
    var t := s.nextTask;
    var accepted := Step(s, Decide(true, entry.id, entry.nonce, true));
    Step(Step(Step(accepted, Resume(t, NOTHING)), Resume(t, NOTHING)), Resume(t, NOTHING))
  }

  /**
   Too late: from any state with only a parked sign request and an unlocked
   key, a disconnect of its origin lands, and the approval then still signs.
   */
  lemma SignedAfterDisconnect(s: State, entry: Entry)
    requires s.tasks == map[] && s.pending == [entry] && s.originWrites == []
    requires entry.request.kind.SignMessage? && entry.request.payload != "" && Truthy(ReadActiveKey(s.wallet, true).1)
    ensures var gone := Disconnected(s, entry.request.origin);
            var end := Approved(gone, entry);
      && entry.request.origin !in gone.origins && entry.request.origin !in end.origins
      && Answered(entry.request.rid, Signed(entry.request, ReadActiveKey(s.wallet, true).1.value)) in end.log
  {
    var started := Step(s, ReceiveDisconnect(Some(entry.request.origin)));
    DisconnectLands(started, s.nextTask, entry.request.origin);
    var gone := Disconnected(s, entry.request.origin);
    assert gone.tasks == map[];
    AcceptStep(gone, entry);
    var accepted := Step(gone, Decide(true, entry.id, entry.nonce, true));
    SignParked(accepted, gone.nextTask, entry.request);
  }

  lemma SignParked(s: State, t: nat, request: Request)
    requires t in s.tasks && s.tasks[t] == ReadingKey(request) && request.kind.SignMessage? && request.payload != ""
    requires Truthy(ReadActiveKey(s.wallet, true).1)
    ensures var end := Step(Step(Step(s, Resume(t, NOTHING)), Resume(t, NOTHING)), Resume(t, NOTHING));
      && end.origins == s.origins
      && Answered(request.rid, Signed(request, ReadActiveKey(s.wallet, true).1.value)) in end.log
  {
    var key := ReadActiveKey(s.wallet, true).1.value;
    var read := Step(s, Resume(t, NOTHING));
    assert read == ResumeReadingKey(s, t, request, true) && read.tasks[t] == Signing(request, key);
    var signing := Step(read, Resume(t, NOTHING));
    assert signing == ResumeSigning(read, t, request, key) && signing.tasks[t] == SigningMessage(request, key);
    FinishAnswers(signing, t, request.rid, Signed(request, key));
  }
}
