/**
 The production canaries around the start gate
 (scripts/autoswap-verifier-runtime.ts), with every database and service call
 able to fail, commits whose acknowledgement is lost included, and with other
 owners and operators acting between any two calls.
 */
module CanaryRun {
  import opened Prelude
  import opened StartGate

  /**
   What others may do to the row: anything, as long as they do not put our
   owner id, which carries a random UUID, on a gate state of their own.
   */
  ghost predicate ByOthers(me: Owner, before: Option<Row>, after: Option<Row>) {
    after.Some? && after.value.updatedBy == me ==>
      before.Some? && before.value.(recovery := after.value.recovery) == after.value
  }

  /** The start gate is open by our own transaction. */
  predicate OurOpening(me: Owner, row: Option<Row>) {
    row.Some? && row.value.open && row.value.updatedBy == me
  }

  /** The lease does not stand in the way of closing our own opening. */
  predicate LeaseFits(me: Owner, row: Option<Row>, lease: Option<nat>) {
    OurOpening(me, row) && lease.Some? ==> lease.value == row.value.generation
  }

  predicate ReadsSafe(row: Option<Row>) {
    row.Some? && !row.value.open && row.value.recovery
  }

  lemma OthersKeep(me: Owner, before: Option<Row>, after: Option<Row>, lease: Option<nat>)
    requires ByOthers(me, before, after)
    ensures OurOpening(me, after) ==> OurOpening(me, before)
    ensures LeaseFits(me, before, lease) ==> LeaseFits(me, after, lease)
  {
  }

  /** With a fitting lease, one undisturbed attempt closes our opening. */
  lemma FittingLeaseCloses(me: Owner, row: Option<Row>, lease: Option<nat>)
    requires OurOpening(me, row)
    ensures LeaseFits(me, row, lease) <==> Transact(row, me, false, lease).1.Ok?
    ensures LeaseFits(me, row, lease) ==> !Transact(row, me, false, lease).0.value.open
  {
  }

  datatype Failure = Refused(why: Refusal) | Unacknowledged | NotCommitted

  type Attempt = Result<nat, Failure>

  datatype Step = Done | Raised

  /** The row and the outcome that one transaction on row `before` can leave. */
  ghost predicate Attempted(before: Option<Row>, me: Owner, enabled: bool, owned: Option<nat>, r: Attempt,
      row: Option<Row>)
  {
    var (left, result) := Transact(before, me, enabled, owned);
    match r
    case Ok(generation) => row == left && result == Ok(generation)
    case Err(Refused(why)) => row == before && result == Err(why)
    case Err(Unacknowledged) => row == left && result.Ok?
    case Err(NotCommitted) => row == before
  }

  // ------------------------------------------------------------------
  // What was called
  // ------------------------------------------------------------------

  /** The calls awaited around the gate: to the services, and reads of other tables. */
  datatype Service =
    | Baseline           // the enrolment is installed, and the production baseline holds
    | NewestDecision     // the newest decision; in the zero-start proof also that none is newer
    | Published          // a new movement, bound to the policy, whose withdrawal is published
    | BlockedDelete      // pausing, and a deletion that the movement blocks
    | Finalized          // the withdrawal is final
    | Resettled          // resuming and pausing again
    | Terminal           // the movement is terminal, and its evidence holds
    | EnrollmentPaused
    | EnrollmentOn
    | CleanedUp          // the enrolment is deleted, nothing of it remains, both sources were covered
    | FailClosed
    | ConnectionEnd

  /** A gate transaction, a read of the row, or a call outside, with its outcome. */
  datatype Call =
    | Tx(enabled: bool, owned: Option<nat>, outcome: Attempt)
    | Read(gate: Result<Option<Row>, Failure>)
    | Outside(service: Service, ok: bool)

  predicate SafeRead(c: Call) {
    c.Read? && c.gate.Ok? && ReadsSafe(c.gate.value)
  }

  predicate Acknowledged(c: Call, enabled: bool, owned: Option<nat>) {
    c.Tx? && c.enabled == enabled && c.owned == owned && c.outcome.Ok?
  }

  predicate Rejected(c: Call, enabled: bool) {
    c.Tx? && c.enabled == enabled && c.outcome.Err?
  }

  /** A close that was acknowledged and then read back safe. */
  predicate SafeRound(calls: seq<Call>) {
    |calls| == 2 && calls[0].Tx? && Acknowledged(calls[0], false, calls[0].owned) && SafeRead(calls[1])
  }

  /** A close that failed, or one whose readback failed or was not safe. */
  predicate FailedRound(calls: seq<Call>) {
    || (|calls| == 1 && Rejected(calls[0], false))
    || (|calls| == 2 && calls[0].Tx? && Acknowledged(calls[0], false, calls[0].owned)
        && calls[1].Read? && !SafeRead(calls[1]))
  }

  type Round = seq<Call>

  function Flat(rounds: seq<Round>): seq<Call> {
    if rounds == [] then [] else Flat(rounds[..|rounds| - 1]) + rounds[|rounds| - 1]
  }

  lemma FlatNext(rounds: seq<Round>, round: Round)
    ensures Flat(rounds + [round]) == Flat(rounds) + round
  {
    assert (rounds + [round])[..|rounds|] == rounds;
  }

  /** What `ensureCanaryStartGateClosed` called, its outcome, and what it read at last. */
  datatype Closing = Closing(rounds: seq<Round>, outcome: Step, seen: Option<Row>)

  /** At most three rounds; it succeeds with the first safe one, and fails when all three failed. */
  predicate Closes(c: Closing) {
    && 1 <= |c.rounds| <= 3
    && (forall i :: 0 <= i < |c.rounds| - 1 ==> FailedRound(c.rounds[i]))
    && var last := c.rounds[|c.rounds| - 1];
       if c.outcome.Done? then SafeRound(last) && last[1] == Read(Ok(c.seen)) else |c.rounds| == 3 && FailedRound(last)
  }

  function ClosingCalls(closing: Option<Closing>): seq<Call> {
    if closing.None? then [] else Flat(closing.value.rounds)
  }

  predicate ClosedSafely(closing: Option<Closing>) {
    closing.Some? && closing.value.outcome.Done?
  }

  // ------------------------------------------------------------------
  // The calls of each stage, and its outcome
  // ------------------------------------------------------------------

  /** These calls in this order, all answered, or up to the first that failed. */
  predicate Ran(calls: seq<Call>, services: seq<Service>, ok: bool) {
    && |calls| <= |services|
    && (ok ==> |calls| == |services|)
    && (!ok ==> calls != [])
    && forall i :: 0 <= i < |calls| ==> calls[i] == Outside(services[i], ok || i + 1 < |calls|)
  }

  function Optionally(included: bool, service: Service): seq<Service> {
    if included then [service] else []
  }

  function Watched(controlledPause: bool): seq<Service> {
    [Published] + Optionally(controlledPause, BlockedDelete)
  }

  function Finished(controlledPause: bool): seq<Service> {
    [Finalized] + Optionally(controlledPause, Resettled)
  }

  /** An acknowledged opening without a lease, which is then the lease. */
  predicate Opened(c: Call) {
    c.Tx? && Acknowledged(c, true, None)
  }

  /** After the opening: the watched calls failed, or the close under the lease was rejected. */
  predicate NotSeenClosed(calls: seq<Call>, lease: nat, watched: seq<Service>) {
    || Ran(calls, watched, false)
    || (|calls| == |watched| + 1 && Ran(calls[..|watched|], watched, true)
        && Rejected(calls[|watched|], false) && calls[|watched|].owned == Some(lease))
  }

  /** After the opening: the watched calls, the close under the lease, and the calls after it. */
  predicate ClosedBetween(calls: seq<Call>, lease: nat, watched: seq<Service>, finished: seq<Service>, ok: bool) {
    && |calls| > |watched| && Ran(calls[..|watched|], watched, true)
    && Acknowledged(calls[|watched|], false, Some(lease))
    && Ran(calls[|watched| + 1..], finished, ok)
  }

  /** The try block of a canary, by its outcome and by whether it leaves the gate to the finally block. */
  predicate CanaryTried(calls: seq<Call>, controlledPause: bool, body: Step, gateOpen: bool) {
    && calls != []
    && if Rejected(calls[0], true) then |calls| == 1 && body.Raised? && !gateOpen
       else
         && Opened(calls[0])
         && var lease := calls[0].outcome.value;
            if gateOpen then body.Raised? && NotSeenClosed(calls[1..], lease, Watched(controlledPause))
            else ClosedBetween(calls[1..], lease, Watched(controlledPause), Finished(controlledPause), body.Done?)
  }

  /** One canary: its first read, its try block, the finally block's closing if any, and what came after. */
  datatype Canary = Canary(prepared: bool, tried: seq<Call>, body: Step, closing: Option<Closing>, terminal: seq<Call>,
                           outcome: Step)

  function CanaryCalls(c: Canary): seq<Call> {
    [Outside(NewestDecision, c.prepared)] + c.tried + ClosingCalls(c.closing) + c.terminal
  }

  /**
   Whenever the try block leaves the gate open, the closing follows at once, is the last thing called, and the
   canary raises; only an undisturbed try block leads to the terminal checks, which decide.
   */
  predicate CanaryRuns(c: Canary, controlledPause: bool) {
    if !c.prepared then c.tried == [] && c.closing.None? && c.terminal == [] && c.outcome.Raised?
    else
      && CanaryTried(c.tried, controlledPause, c.body, c.closing.Some?)
      && (c.closing.Some? ==> Closes(c.closing.value))
      && if c.body.Raised? then c.terminal == [] && c.outcome.Raised? else Ran(c.terminal, [Terminal], c.outcome.Done?)
  }

  const POLLS := 45

  function Polls(n: nat): seq<Service> {
    seq(n, _ => NewestDecision)
  }

  /** The zero-start proof: its checks, its try block, and the closing if the gate was opened. */
  datatype Proof = Proof(prepare: seq<Call>, tried: seq<Call>, quiet: bool, closing: Option<Closing>, outcome: Step)

  function ProofCalls(p: Proof): seq<Call> {
    p.prepare + p.tried + ClosingCalls(p.closing)
  }

  /** It opens the gate, sees no newer decision in any of its polls, and closes; then it succeeds, and only then. */
  predicate ProofRuns(p: Proof) {
    && (p.outcome.Done? <==> p.quiet && ClosedSafely(p.closing))
    && (p.tried == [] ==> Ran(p.prepare, [EnrollmentPaused, NewestDecision], false))
    && (p.tried != [] ==> Ran(p.prepare, [EnrollmentPaused, NewestDecision], true))
    && if p.closing.None? then p.tried == [] || (|p.tried| == 1 && Rejected(p.tried[0], true))
       else p.tried != [] && Opened(p.tried[0]) && Ran(p.tried[1..], Polls(POLLS), p.quiet) && Closes(p.closing.value)
  }

  /** A stage that is one call. */
  predicate Once(calls: seq<Call>, service: Service) {
    Ran(calls, [service], true) || Ran(calls, [service], false)
  }

  /** The first canary and, once it succeeded, the zero-start proof. */
  datatype Opening = Opening(first: Canary, proof: Option<Proof>)

  function OpeningCalls(o: Opening): seq<Call> {
    CanaryCalls(o.first) + if o.proof.Some? then ProofCalls(o.proof.value) else []
  }

  predicate OpeningRuns(o: Opening) {
    && CanaryRuns(o.first, true)
    && (o.proof.Some? <==> o.first.outcome.Done?)
    && (o.proof.Some? ==> ProofRuns(o.proof.value))
  }

  predicate OpeningDone(o: Opening) {
    o.proof.Some? && o.proof.value.outcome.Done?
  }

  /** The resumed enrolment, once it is on the second canary, and once that succeeded the cleanup. */
  datatype Ending = Ending(resumed: bool, second: Option<Canary>, cleanup: seq<Call>)

  function EndingCalls(e: Ending): seq<Call> {
    [Outside(EnrollmentOn, e.resumed)] + (if e.second.Some? then CanaryCalls(e.second.value) else []) + e.cleanup
  }

  predicate EndingRuns(e: Ending) {
    && (e.second.Some? <==> e.resumed)
    && (e.second.Some? ==> CanaryRuns(e.second.value, false))
    && if e.second.Some? && e.second.value.outcome.Done? then Once(e.cleanup, CleanedUp) else e.cleanup == []
  }

  /** The last stage, which is reached only after all the others succeeded, did too. */
  predicate EndingDone(e: Ending) {
    e.cleanup == [Outside(CleanedUp, true)]
  }

  /** The stages after the baseline: each is reached exactly when the one before it succeeded. */
  datatype Sequence = Sequence(opening: Opening, ending: Option<Ending>)

  function SequenceCalls(s: Sequence): seq<Call> {
    OpeningCalls(s.opening) + if s.ending.Some? then EndingCalls(s.ending.value) else []
  }

  predicate SequenceRuns(s: Sequence) {
    && OpeningRuns(s.opening)
    && (s.ending.Some? <==> OpeningDone(s.opening))
    && (s.ending.Some? ==> EndingRuns(s.ending.value))
  }

  predicate SequenceDone(s: Sequence) {
    s.ending.Some? && EndingDone(s.ending.value)
  }

  /** The whole verification; the sequence and the closing are there once the baseline passed. */
  datatype Verification = Verification(passed: bool, sequence: Option<Sequence>, caught: seq<Call>,
                                       closing: Option<Closing>, ended: bool)

  /** The calls up to the finally block. */
  function TriedCalls(passed: bool, sequence: Option<Sequence>, caught: seq<Call>): seq<Call> {
    [Outside(Baseline, passed)] + (if sequence.Some? then SequenceCalls(sequence.value) else []) + caught
  }

  function VerificationCalls(v: Verification): seq<Call> {
    TriedCalls(v.passed, v.sequence, v.caught) + ClosingCalls(v.closing) + [Outside(ConnectionEnd, v.ended)]
  }

  /** The sequence after the baseline succeeded, up to its last stage. */
  predicate BodyDone(v: Verification) {
    v.sequence.Some? && SequenceDone(v.sequence.value)
  }

  /**
   After an error the enrolment is failed closed, whether or not that works; the closing of the gate comes on
   every path once the baseline passed.
   */
  predicate VerificationRuns(v: Verification) {
    && (v.sequence.Some? <==> v.passed) && (v.sequence.Some? ==> SequenceRuns(v.sequence.value))
    && (if BodyDone(v) then v.caught == [] else Once(v.caught, FailClosed))
    && (v.closing.Some? <==> v.passed) && (v.closing.Some? ==> Closes(v.closing.value))
  }

  lemma CloseIsBetween(watched: seq<Call>, close: Call, finished: seq<Call>)
    ensures var calls := watched + [close] + finished;
      calls[..|watched|] == watched && calls[|watched|] == close && calls[|watched| + 1..] == finished
  {
  }

  lemma Joined3(before: seq<Call>, a: seq<Call>, b: seq<Call>, c: seq<Call>)
    ensures before + a + b + c == before + (a + b) + c
  {
    Joined(before, a, b);
  }

  lemma Joined(before: seq<Call>, calls: seq<Call>, more: seq<Call>)
    ensures before + calls + more == before + (calls + more)
  {
  }

  class Lease {
    var generation: Option<nat>

    constructor ()
      ensures generation.None?
    {
      generation := None;
    }
  }

  class Control {
    var row: Option<Row>
    ghost var trace: seq<Call>

    /** Whatever others do between two of our calls. */
    method Others(me: Owner)
      modifies this`row
      ensures ByOthers(me, old(row), row)
    {
      var deletes: bool, next: Row := *, *;
      if deletes {
        row := None;
      } else if next.updatedBy != me {
        row := Some(next);
      } else if row.Some? {
        row := Some(row.value.(recovery := next.recovery));
      }
    }

    /**
     One transaction of ours. It fails before its commit and leaves the row; or it is refused, for the reason the
     gate gives, and leaves the row; or it commits, and its acknowledgement arrives or is lost.
     */
    method Commit(me: Owner, enabled: bool, owned: Option<nat>) returns (r: Attempt, ghost before: Option<Row>)
      modifies this`row
      ensures ByOthers(me, old(row), before)
      ensures Attempted(before, me, enabled, owned, r, row)
    {
      Others(me);
      before := row;
      var connects: bool := *;
      if !connects {
        return Err(NotCommitted), before;
      }
      if row.None? {
        return Err(Refused(RowMissing)), before;
      }
      var current := row.value;
      if enabled && !current.recovery {
        return Err(Refused(RecoveryOff)), before;
      }
      if enabled && current.open {
        return Err(Refused(AlreadyOpen)), before;
      }
      var result := current.generation;
      if enabled || current.open {
        if !enabled && (current.updatedBy != me || (owned.Some? && current.generation != owned.value)) {
          return Err(Refused(OwnershipChanged)), before;
        }
        result := current.generation + 1;
        row := Some(current.(open := enabled, generation := result, updatedBy := me));
      }
      var acknowledged: bool := *;
      if !acknowledged {
        return Err(Unacknowledged), before;
      }
      return Ok(result), before;
    }

    method SetCanaryStartGate(me: Owner, enabled: bool, owned: Option<nat>)
        returns (r: Attempt, ghost before: Option<Row>)
      modifies this
      ensures ByOthers(me, old(row), before)
      ensures Attempted(before, me, enabled, owned, r, row)
      ensures trace == old(trace) + [Tx(enabled, owned, r)]
    {
      r, before := Commit(me, enabled, owned);
      trace := trace + [Tx(enabled, owned, r)];
    }

    /**
     A close keeps the lease fitting, whether or not it is acknowledged; an acknowledged one leaves
     no opening of ours.
     */
    method Close(me: Owner, lease: Lease) returns (r: Attempt)
      requires LeaseFits(me, row, lease.generation)
      modifies this
      ensures LeaseFits(me, row, lease.generation)
      ensures r.Ok? ==> !OurOpening(me, row)
      ensures OurOpening(me, row) ==> old(OurOpening(me, row))
      ensures trace == old(trace) + [Tx(false, lease.generation, r)]
    {
      ghost var start, before := row, row;
      r, before := SetCanaryStartGate(me, false, lease.generation);
      OthersKeep(me, start, before, lease.generation);
    }

    method ReadControl(me: Owner) returns (gate: Result<Option<Row>, Failure>)
      modifies this
      ensures ByOthers(me, old(row), row)
      ensures gate.Ok? ==> gate.value == row
      ensures trace == old(trace) + [Read(gate)]
    {
      Others(me);
      var answers: bool := *;
      gate := if answers then Ok(row) else Err(NotCommitted);
      trace := trace + [Read(gate)];
    }

    /** The try block of one round: close, drop the lease, read back. */
    method CloseRound(me: Owner, lease: Lease) returns (safe: bool, ghost seen: Option<Row>, ghost round: seq<Call>)
      requires LeaseFits(me, row, lease.generation)
      modifies this, lease
      ensures LeaseFits(me, row, lease.generation)
      ensures OurOpening(me, row) ==> old(OurOpening(me, row))
      ensures trace == old(trace) + round
      ensures if safe then SafeRound(round) && round[1] == Read(Ok(seen)) else FailedRound(round)
      ensures safe ==> ReadsSafe(seen) && seen == row && lease.generation.None?
    {
      ghost var leased := lease.generation;
      var closed := Close(me, lease);
      if closed.Err? {
        return false, None, [Tx(false, leased, closed)];
      }
      lease.generation := None;
      ghost var start := row;
      var gate := ReadControl(me);
      OthersKeep(me, start, row, None);
      safe := gate.Ok? && gate.value.Some? && !gate.value.value.open && gate.value.value.recovery;
      seen := if gate.Ok? then gate.value else None;
      round := [Tx(false, leased, closed), Read(gate)];
    }

    /**
     At most three rounds of closing and reading back. It ends without an error
     only after a safe readback, which nothing followed; otherwise all three
     rounds failed.
     */
    method EnsureCanaryStartGateClosed(me: Owner, lease: Lease) returns (r: Step, ghost closing: Closing)
      requires LeaseFits(me, row, lease.generation)
      modifies this, lease
      ensures LeaseFits(me, row, lease.generation)
      ensures r.Done? ==> ReadsSafe(closing.seen) && closing.seen == row && lease.generation.None?
      ensures OurOpening(me, row) ==> old(OurOpening(me, row))
      ensures trace == old(trace) + Flat(closing.rounds) && Closes(closing) && closing.outcome == r
    {
      ghost var seen, rounds: seq<Round> := None, [];
      for attempt := 0 to 3
        invariant LeaseFits(me, row, lease.generation)
        invariant OurOpening(me, row) ==> old(OurOpening(me, row))
        invariant trace == old(trace) + Flat(rounds) && |rounds| == attempt
        invariant forall i :: 0 <= i < attempt ==> FailedRound(rounds[i])
      {
        var safe;
        ghost var round;
        safe, seen, round := CloseRound(me, lease);
        FlatNext(rounds, round);
        rounds := rounds + [round];
        if safe {
          return Done, Closing(rounds, Done, seen);
        }
      }
      return Raised, Closing(rounds, Raised, seen);
    }

    /** A call that does not touch the row: others act, and it may raise. */
    method CallOut(me: Owner, service: Service) returns (ok: bool)
      modifies this
      ensures ByOthers(me, old(row), row)
      ensures trace == old(trace) + [Outside(service, ok)]
    {
      Others(me);
      ok := *;
      trace := trace + [Outside(service, ok)];
    }

    /** Open with no lease held: on success the lease is this opening's; on failure none is held. */
    method Open(me: Owner, lease: Lease) returns (opens: bool, ghost call: Call)
      requires lease.generation.None?
      modifies this, lease
      ensures LeaseFits(me, row, lease.generation)
      ensures trace == old(trace) + [call]
      ensures if opens then Opened(call) && lease.generation == Some(call.outcome.value)
              else Rejected(call, true) && lease.generation.None?
    {
      ghost var before;
      var generation;
      generation, before := SetCanaryStartGate(me, true, None);
      if generation.Ok? {
        lease.generation := Some(generation.value);
      }
      return generation.Ok?, Tx(true, None, generation);
    }

    /** The calls awaited between the opening and the close. */
    method Watch(me: Owner, controlledPause: bool) returns (ok: bool, ghost calls: seq<Call>)
      modifies this
      ensures ByOthers(me, old(row), row)
      ensures trace == old(trace) + calls && Ran(calls, Watched(controlledPause), ok)
    {
      ok := CallOut(me, Published);
      calls := [Outside(Published, ok)];
      if ok && controlledPause {
        ok := CallOut(me, BlockedDelete);
        calls := calls + [Outside(BlockedDelete, ok)];
      }
    }

    /** The calls awaited after the close. */
    method Finish(me: Owner, controlledPause: bool) returns (ok: bool, ghost calls: seq<Call>)
      modifies this
      ensures ByOthers(me, old(row), row)
      ensures trace == old(trace) + calls && Ran(calls, Finished(controlledPause), ok)
    {
      ok := CallOut(me, Finalized);
      calls := [Outside(Finalized, ok)];
      if ok && controlledPause {
        ok := CallOut(me, Resettled);
        calls := calls + [Outside(Resettled, ok)];
      }
    }

    /** The try block once the gate is open: watch a movement publish, close, watch it finalise. */
    method WatchAndClose(me: Owner, lease: Lease, controlledPause: bool)
        returns (r: Step, gateOpen: bool, ghost calls: seq<Call>)
      requires lease.generation.Some? && LeaseFits(me, row, lease.generation)
      modifies this, lease
      ensures LeaseFits(me, row, lease.generation)
      ensures trace == old(trace) + calls
      ensures var leased := old(lease.generation.value);
        if gateOpen then r.Raised? && NotSeenClosed(calls, leased, Watched(controlledPause))
        else lease.generation.None?
             && ClosedBetween(calls, leased, Watched(controlledPause), Finished(controlledPause), r.Done?)
    {
      ghost var start, leased := row, lease.generation;
      var published;
      ghost var watched;
      published, watched := Watch(me, controlledPause);
      OthersKeep(me, start, row, leased);
      if !published {
        return Raised, true, watched;
      }
      var closed := Close(me, lease);
      ghost var close := Tx(false, leased, closed);
      calls := watched + [close];
      assert trace == old(trace) + calls && calls[..|watched|] == watched;
      if closed.Err? {
        return Raised, true, calls;
      }
      lease.generation := None;
      var finalized;
      ghost var finished;
      finalized, finished := Finish(me, controlledPause);
      CloseIsBetween(watched, close, finished);
      return if finalized then Done else Raised, false, calls + finished;
    }

    /** The whole try block of a canary. */
    method CanaryBody(me: Owner, lease: Lease, controlledPause: bool)
        returns (r: Step, gateOpen: bool, ghost calls: seq<Call>)
      requires lease.generation.None?
      modifies this, lease
      ensures LeaseFits(me, row, lease.generation)
      ensures !gateOpen ==> lease.generation.None?
      ensures trace == old(trace) + calls && CanaryTried(calls, controlledPause, r, gateOpen)
    {
      ghost var open, more;
      gateOpen, open := Open(me, lease);
      if !gateOpen {
        return Raised, false, [open];
      }
      r, gateOpen, more := WatchAndClose(me, lease, controlledPause);
      calls := [open] + more;
      assert calls[1..] == more;
    }

    /** The finally block, and behind it the terminal checks. */
    method AfterTry(me: Owner, lease: Lease, body: Step, gateOpen: bool)
        returns (r: Step, ghost closing: Option<Closing>, ghost terminal: seq<Call>)
      requires LeaseFits(me, row, lease.generation) && (!gateOpen ==> lease.generation.None?)
      requires gateOpen ==> body.Raised?
      modifies this, lease
      ensures LeaseFits(me, row, lease.generation) && (r.Done? ==> lease.generation.None?)
      ensures trace == old(trace) + (ClosingCalls(closing) + terminal)
      ensures (closing.Some? <==> gateOpen) && (closing.Some? ==> Closes(closing.value))
      ensures if body.Raised? then terminal == [] && r.Raised? else Ran(terminal, [Terminal], r.Done?)
      ensures ClosedSafely(closing) ==>
                ReadsSafe(closing.value.seen) && closing.value.seen == row && lease.generation.None?
    {
      r, closing, terminal := body, None, [];
      if gateOpen {
        var closed;
        ghost var rounds;
        closed, rounds := EnsureCanaryStartGateClosed(me, lease);
        closing := Some(rounds);
      } else if body.Done? {
        var finished := CallOut(me, Terminal);
        terminal := [Outside(Terminal, finished)];
        r := if finished then Done else Raised;
      }
    }

    /**
     Whatever fails: if the try block left the gate open, the closing follows,
     and an error of the closing is raised; a closing that succeeds has read the
     gate back safe, and nothing followed that read. Its calls determine its outcome.
     */
    method RunProductionCanary(me: Owner, lease: Lease, controlledPause: bool) returns (r: Step, ghost canary: Canary)
      requires lease.generation.None?
      modifies this, lease
      ensures LeaseFits(me, row, lease.generation)
      ensures r.Done? ==> lease.generation.None?
      ensures trace == old(trace) + CanaryCalls(canary) && CanaryRuns(canary, controlledPause) && canary.outcome == r
      ensures ClosedSafely(canary.closing) ==>
                ReadsSafe(canary.closing.value.seen) && canary.closing.value.seen == row && lease.generation.None?
    {
      var prepared := CallOut(me, NewestDecision);
      if !prepared {
        return Raised, Canary(false, [], Raised, None, [], Raised);
      }
      var gateOpen, body;
      ghost var tried, closing, terminal;
      body, gateOpen, tried := CanaryBody(me, lease, controlledPause);
      r, closing, terminal := AfterTry(me, lease, body, gateOpen);
      canary := Canary(true, tried, body, closing, terminal, r);
      Joined3(old(trace), [Outside(NewestDecision, true)], tried, ClosingCalls(closing) + terminal);
      Joined(old(trace), [Outside(NewestDecision, true)] + tried, ClosingCalls(closing) + terminal);
      Joined([Outside(NewestDecision, true)] + tried, ClosingCalls(closing), terminal);
    }

    /** The checks before the zero-start proof opens the gate. */
    method Prepare(me: Owner) returns (ok: bool, ghost calls: seq<Call>)
      modifies this
      ensures trace == old(trace) + calls && Ran(calls, [EnrollmentPaused, NewestDecision], ok)
    {
      ok := CallOut(me, EnrollmentPaused);
      calls := [Outside(EnrollmentPaused, ok)];
      if ok {
        ok := CallOut(me, NewestDecision);
        calls := calls + [Outside(NewestDecision, ok)];
      }
    }

    /** The try block of the zero-start proof after the opening: poll that nothing starts. */
    method PollNothing(me: Owner) returns (quiet: bool, ghost calls: seq<Call>)
      modifies this
      ensures ByOthers(me, old(row), row)
      ensures trace == old(trace) + calls && Ran(calls, Polls(POLLS), quiet)
    {
      calls := [];
      for attempt := 0 to POLLS
        invariant ByOthers(me, old(row), row)
        invariant trace == old(trace) + calls && |calls| == attempt
        invariant forall i :: 0 <= i < attempt ==> calls[i] == Outside(NewestDecision, true)
      {
        quiet := CallOut(me, NewestDecision);
        calls := calls + [Outside(NewestDecision, quiet)];
        if !quiet {
          return;
        }
      }
      quiet := true;
    }

    /** The try block of the zero-start proof: open, and poll. */
    method PausedBody(me: Owner, lease: Lease) returns (gateOpen: bool, quiet: bool, ghost calls: seq<Call>)
      requires lease.generation.None?
      modifies this, lease
      ensures LeaseFits(me, row, lease.generation)
      ensures trace == old(trace) + calls && calls != []
      ensures if gateOpen then Opened(calls[0]) && Ran(calls[1..], Polls(POLLS), quiet)
              else |calls| == 1 && Rejected(calls[0], true)
    {
      quiet := false;
      ghost var open;
      gateOpen, open := Open(me, lease);
      calls := [open];
      if gateOpen {
        ghost var start := row;
        ghost var polls;
        quiet, polls := PollNothing(me);
        OthersKeep(me, start, row, lease.generation);
        calls := calls + polls;
        assert calls[1..] == polls;
      }
    }

    /** The same for the zero-start proof, which only ends without an error after such a safe readback. */
    method ProvePausedEnrollmentStartsNothing(me: Owner, lease: Lease) returns (r: Step, ghost proof: Proof)
      requires lease.generation.None?
      modifies this, lease
      ensures LeaseFits(me, row, lease.generation)
      ensures r.Done? ==> lease.generation.None?
      ensures trace == old(trace) + ProofCalls(proof) && ProofRuns(proof) && proof.outcome == r
      ensures ClosedSafely(proof.closing) ==>
                ReadsSafe(proof.closing.value.seen) && proof.closing.value.seen == row && lease.generation.None?
    {
      var prepared;
      ghost var prepare;
      prepared, prepare := Prepare(me);
      if !prepared {
        return Raised, Proof(prepare, [], false, None, Raised);
      }
      var gateOpen, quiet;
      ghost var tried;
      gateOpen, quiet, tried := PausedBody(me, lease);
      if !gateOpen {
        return Raised, Proof(prepare, tried, false, None, Raised);
      }
      var closed;
      ghost var closing;
      closed, closing := EnsureCanaryStartGateClosed(me, lease);
      r := if quiet && closed.Done? then Done else Raised;
      proof := Proof(prepare, tried, quiet, Some(closing), r);
    }

    method OpeningStages(me: Owner, lease: Lease) returns (r: Step, ghost opening: Opening)
      requires lease.generation.None?
      modifies this, lease
      ensures LeaseFits(me, row, lease.generation) && (r.Done? ==> lease.generation.None?)
      ensures trace == old(trace) + OpeningCalls(opening) && OpeningRuns(opening)
      ensures r.Done? <==> OpeningDone(opening)
    {
      ghost var first, proof;
      r, first := RunProductionCanary(me, lease, true);
      opening := Opening(first, None);
      if r.Done? {
        r, proof := ProvePausedEnrollmentStartsNothing(me, lease);
        opening := Opening(first, Some(proof));
        Joined(old(trace), CanaryCalls(first), ProofCalls(proof));
      }
    }

    method EndingStages(me: Owner, lease: Lease) returns (r: Step, ghost ending: Ending)
      requires lease.generation.None?
      modifies this, lease
      ensures LeaseFits(me, row, lease.generation)
      ensures trace == old(trace) + EndingCalls(ending) && EndingRuns(ending)
      ensures r.Done? <==> EndingDone(ending)
    {
      var resumed := CallOut(me, EnrollmentOn);
      if !resumed {
        return Raised, Ending(false, None, []);
      }
      ghost var second;
      r, second := RunProductionCanary(me, lease, false);
      ending := Ending(true, Some(second), []);
      assert trace == old(trace) + EndingCalls(ending);
      if r.Done? {
        ghost var start := row;
        var cleaned := CallOut(me, CleanedUp);
        OthersKeep(me, start, row, lease.generation);
        r := if cleaned then Done else Raised;
        assert EndingCalls(ending) + [Outside(CleanedUp, cleaned)]
            == EndingCalls(ending.(cleanup := [Outside(CleanedUp, cleaned)]));
        ending := ending.(cleanup := [Outside(CleanedUp, cleaned)]);
      }
    }

    /** Everything after the baseline passed, up to the catch block: the first stage that raises ends it. */
    method CanarySequence(me: Owner, lease: Lease) returns (r: Step, ghost stages: Sequence)
      requires lease.generation.None?
      modifies this, lease
      ensures LeaseFits(me, row, lease.generation)
      ensures trace == old(trace) + SequenceCalls(stages) && SequenceRuns(stages)
      ensures r.Done? <==> SequenceDone(stages)
    {
      ghost var opening, ending;
      r, opening := OpeningStages(me, lease);
      stages := Sequence(opening, None);
      if r.Done? {
        r, ending := EndingStages(me, lease);
        stages := Sequence(opening, Some(ending));
        Joined(old(trace), OpeningCalls(opening), EndingCalls(ending));
      }
    }

    /** The catch block: fail the enrolment closed, then rethrow, whether or not that succeeded. */
    method Catch(me: Owner, body: Step) returns (ghost calls: seq<Call>)
      modifies this
      ensures ByOthers(me, old(row), row)
      ensures trace == old(trace) + calls && if body.Done? then calls == [] else Once(calls, FailClosed)
    {
      calls := [];
      if body.Raised? {
        var paused := CallOut(me, FailClosed);
        calls := [Outside(FailClosed, paused)];
      }
    }

    /** The try block: after a failed baseline nothing of it runs. */
    method GuardedSequence(me: Owner, lease: Lease, passed: bool) returns (r: Step, ghost sequence: Option<Sequence>)
      requires lease.generation.None?
      modifies this, lease
      ensures LeaseFits(me, row, lease.generation) && (!passed ==> lease.generation.None?)
      ensures trace == old(trace) + if sequence.Some? then SequenceCalls(sequence.value) else []
      ensures (sequence.Some? <==> passed) && (sequence.Some? ==> SequenceRuns(sequence.value))
      ensures r.Done? <==> sequence.Some? && SequenceDone(sequence.value)
    {
      r, sequence := Raised, None;
      if passed {
        ghost var stages;
        r, stages := CanarySequence(me, lease);
        sequence := Some(stages);
      }
    }

    /** The finally block: the gate is closed on every path once the baseline passed. */
    method FinalClose(me: Owner, lease: Lease, passed: bool) returns (r: Step, ghost closing: Option<Closing>)
      requires LeaseFits(me, row, lease.generation)
      modifies this, lease
      ensures LeaseFits(me, row, lease.generation)
      ensures trace == old(trace) + ClosingCalls(closing)
      ensures (closing.Some? <==> passed) && (closing.Some? ==> Closes(closing.value))
      ensures r.Raised? <==> closing.Some? && closing.value.outcome.Raised?
      ensures ClosedSafely(closing) ==>
                ReadsSafe(closing.value.seen) && closing.value.seen == row && lease.generation.None?
    {
      r, closing := Done, None;
      if passed {
        ghost var rounds;
        r, rounds := EnsureCanaryStartGateClosed(me, lease);
        closing := Some(rounds);
      }
    }

    /** The try block and the catch block: after an error the enrolment is failed closed. */
    method TryAndCatch(me: Owner, lease: Lease)
        returns (passed: bool, body: Step, ghost sequence: Option<Sequence>, ghost caught: seq<Call>)
      requires lease.generation.None?
      modifies this, lease
      ensures LeaseFits(me, row, lease.generation) && (!passed ==> lease.generation.None?)
      ensures trace == old(trace) + TriedCalls(passed, sequence, caught)
      ensures (sequence.Some? <==> passed) && (sequence.Some? ==> SequenceRuns(sequence.value))
      ensures body.Done? <==> sequence.Some? && SequenceDone(sequence.value)
      ensures if body.Done? then caught == [] else Once(caught, FailClosed)
    {
      passed := CallOut(me, Baseline);
      body, sequence := GuardedSequence(me, lease, passed);
      ghost var stages := if sequence.Some? then SequenceCalls(sequence.value) else [];
      ghost var start := row;
      caught := Catch(me, body);
      OthersKeep(me, start, row, lease.generation);
      Joined(old(trace), [Outside(Baseline, passed)], stages);
      Joined(old(trace), [Outside(Baseline, passed)] + stages, caught);
    }

    /** The finally block: the closing, and then the end of the connection. */
    method FinallyBlock(me: Owner, lease: Lease, passed: bool)
        returns (r: Step, ended: bool, ghost closing: Option<Closing>)
      requires LeaseFits(me, row, lease.generation)
      modifies this, lease
      ensures LeaseFits(me, row, lease.generation)
      ensures trace == old(trace) + (ClosingCalls(closing) + [Outside(ConnectionEnd, ended)])
      ensures (closing.Some? <==> passed) && (closing.Some? ==> Closes(closing.value))
      ensures r.Raised? <==> closing.Some? && closing.value.outcome.Raised?
      ensures ClosedSafely(closing) ==>
                && ReadsSafe(closing.value.seen) && ByOthers(me, closing.value.seen, row)
                && !OurOpening(me, row) && lease.generation.None?
    {
      r, closing := FinalClose(me, lease, passed);
      ghost var start := row;
      ended := CallOut(me, ConnectionEnd);
      OthersKeep(me, start, row, lease.generation);
    }

    /**
     The whole verification. Its calls, in every pattern of failures, are those of the stages up to the first
     that raises, the fail-closed call after an error, and then, once the baseline has passed, a closing of the gate
     and the end of the connection; it ends without an error exactly when all stages and that closing succeeded and
     the connection ended. If the closing succeeded, it read the gate back closed with recovery on, nobody but
     others touched the row since, no opening of ours is in effect and no lease is held.
     */
    method VerifyProductionCanaries(me: Owner) returns (r: Step, lease: Lease, ghost whole: Verification)
      modifies this
      ensures fresh(lease) && LeaseFits(me, row, lease.generation)
      ensures trace == old(trace) + VerificationCalls(whole) && VerificationRuns(whole)
      ensures r.Done? <==> BodyDone(whole) && ClosedSafely(whole.closing) && whole.ended
      ensures ClosedSafely(whole.closing) ==>
                && ReadsSafe(whole.closing.value.seen) && ByOthers(me, whole.closing.value.seen, row)
                && !OurOpening(me, row) && lease.generation.None?
    {
      lease := new Lease();
      var passed, body, sequence, caught := TryAndCatch(me, lease);
      var closed, ended, closing := FinallyBlock(me, lease, passed);
      r := if body.Done? && ended && closed.Done? then Done else Raised;
      whole := Verification(passed, sequence, caught, closing, ended);
      ghost var tried := TriedCalls(passed, sequence, caught);
      Joined(old(trace), tried, ClosingCalls(closing) + [Outside(ConnectionEnd, ended)]);
      Joined(tried, ClosingCalls(closing), [Outside(ConnectionEnd, ended)]);
    }
  }
}
