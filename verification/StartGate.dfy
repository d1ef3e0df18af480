/**
 The generation-fenced start gate (scripts/autoswap-verifier-runtime.ts): one
 control row, changed only by serialised transactions that carry an owner, and
 what any interleaving of owners can do to it.
 */
module StartGate {
  import opened Prelude

  type Owner = string

  /** `loyal_yield.cross_mint_movement_controls` for the canary's cluster. */
  datatype Row = Row(recovery: bool, generation: nat, open: bool, updatedBy: Owner)

  datatype Refusal = RowMissing | RecoveryOff | AlreadyOpen | OwnershipChanged

  /** The transaction of `setCanaryStartGate`: the row it leaves and what it returns when it commits. */
  function Transact(row: Option<Row>, owner: Owner, enabled: bool, owned: Option<nat>)
      : (Option<Row>, Result<nat, Refusal>)
  {
    if row.None? then (row, Err(RowMissing))
    else
      var current := row.value;
      if enabled && !current.recovery then (row, Err(RecoveryOff))
      else if enabled && current.open then (row, Err(AlreadyOpen))
      else if !enabled && !current.open then (row, Ok(current.generation))
      else if !enabled && (current.updatedBy != owner || (owned.Some? && owned.value != current.generation)) then
        (row, Err(OwnershipChanged))
      else
        var next := current.generation + 1;
        (Some(current.(open := enabled, generation := next, updatedBy := owner)), Ok(next))
  }

  /** A transaction of some owner; `commits` is false when it fails before its commit. */
  datatype Op =
    | SetGate(owner: Owner, enabled: bool, owned: Option<nat>, commits: bool)
    | SetRecovery(on: bool)       // an operator flips the recovery flag

  /** A real open or close: who made it, the generation it took, and the lease it presented. */
  datatype Change = Change(owner: Owner, opens: bool, generation: nat, owned: Option<nat>)

  function Apply(row: Row, op: Op): Row {
    match op
    case SetRecovery(on) => row.(recovery := on)
    case SetGate(owner, enabled, owned, commits) =>
      if commits then Transact(Some(row), owner, enabled, owned).0.value else row
  }

  /** The change an operation makes, read off the start flag alone. */
  function ChangeOf(row: Row, op: Op): seq<Change> {
    if op.SetGate? && Apply(row, op).open != row.open
    then [Change(op.owner, op.enabled, Apply(row, op).generation, op.owned)] else []
  }

  function RunOps(row: Row, ops: seq<Op>): Row {
    if ops == [] then row else Apply(RunOps(row, ops[..|ops| - 1]), ops[|ops| - 1])
  }

  function Changes(row: Row, ops: seq<Op>): seq<Change> {
    if ops == [] then []
    else Changes(row, ops[..|ops| - 1]) + ChangeOf(RunOps(row, ops[..|ops| - 1]), ops[|ops| - 1])
  }

  predicate Odd(n: nat) {
    n % 2 == 1
  }

  /** Who held the gate when change `i` was made. */
  function HolderBefore(row: Row, changes: seq<Change>, i: nat): Owner
    requires i <= |changes|
  {
    if i == 0 then row.updatedBy else changes[i - 1].owner
  }

  /** Opens and closes alternate, take consecutive generations, and every close is the holder's, under its own lease. */
  ghost predicate Fenced(row: Row, changes: seq<Change>) {
    forall i :: 0 <= i < |changes| ==> FencedAt(row, changes, i)
  }

  ghost predicate FencedAt(row: Row, changes: seq<Change>, i: nat)
    requires i < |changes|
  {
    && changes[i].opens == (row.open == Odd(i))
    && changes[i].generation == row.generation + i + 1
    && (!changes[i].opens ==>
          && changes[i].owner == HolderBefore(row, changes, i)
          && (changes[i].owned.Some? ==> changes[i].owned.value == row.generation + i))
  }

  /** What the changes so far say about the row they led to. */
  ghost predicate Tracks(row: Row, changes: seq<Change>, end: Row) {
    && end.generation == row.generation + |changes|
    && end.open == (row.open != Odd(|changes|))
    && end.updatedBy == HolderBefore(row, changes, |changes|)
  }

  lemma OddNext(n: nat)
    ensures Odd(n + 1) == !Odd(n)
  {
  }

  lemma StepFenced(row: Row, changes: seq<Change>, end: Row, op: Op)
    requires Tracks(row, changes, end) && Fenced(row, changes)
    ensures Tracks(row, changes + ChangeOf(end, op), Apply(end, op))
    ensures Fenced(row, changes + ChangeOf(end, op))
  {
    var more := ChangeOf(end, op);
    if more == [] {
      assert changes + more == changes;
    } else {
      var all := changes + more;
      OddNext(|changes|);
      assert all[|changes|] == more[0];
      forall i | 0 <= i < |all| ensures FencedAt(row, all, i) {
        if i < |changes| {
          assert FencedAt(row, changes, i);
        }
      }
    }
  }

  /**
   Fencing, for every interleaving of owners, failures and recovery flips: the
   generation counts the real opens and closes, the start flag is their parity,
   the row names the maker of the last one, and the history is fenced. Refused
   operations, failed ones and closes of a closed gate make no change.
   */
  lemma {:induction false} GateIsFenced(row: Row, ops: seq<Op>)
    ensures Tracks(row, Changes(row, ops), RunOps(row, ops)) && Fenced(row, Changes(row, ops))
  {
    if ops != [] {
      var front := ops[..|ops| - 1];
      GateIsFenced(row, front);
      StepFenced(row, Changes(row, front), RunOps(row, front), ops[|ops| - 1]);
    }
  }

  /** An operation moves the generation exactly when it flips the start flag; otherwise it leaves the gate alone. */
  lemma GenerationCountsFlips(row: Row, op: Op)
    ensures Apply(row, op).open != row.open ==>
              Apply(row, op).generation == row.generation + 1 && Apply(row, op).updatedBy == op.owner
    ensures Apply(row, op).open == row.open ==>
              Apply(row, op).generation == row.generation && Apply(row, op).updatedBy == row.updatedBy
  {
  }

  lemma FencedLease(row: Row, changes: seq<Change>, i: nat)
    requires !row.open && Fenced(row, changes) && i < |changes| && !changes[i].opens && changes[i].owned.Some?
    ensures i > 0 && changes[i - 1].opens && changes[i - 1].owner == changes[i].owner
    ensures changes[i - 1].generation == changes[i].owned.value
    ensures forall j :: 0 <= j < |changes| && changes[j].generation == changes[i].owned.value ==> j == i - 1
  {
    assert FencedAt(row, changes, i);
    OddNext(i - 1);
    assert FencedAt(row, changes, i - 1);
    forall j | 0 <= j < |changes| && changes[j].generation == changes[i].owned.value ensures j == i - 1 {
      assert FencedAt(row, changes, j);
    }
  }

  /**
   Exactly when a transaction commits, what it leaves, and otherwise why it is refused: by the first
   condition that fails, in this order.
   */
  lemma TransactExactly(row: Option<Row>, owner: Owner, owned: Option<nat>)
    ensures var (left, opens) := Transact(row, owner, true, owned);
      && (opens.Ok? <==> row.Some? && row.value.recovery && !row.value.open)
      && (opens.Ok? ==> left == Some(Row(true, row.value.generation + 1, true, owner))
                        && opens.value == row.value.generation + 1)
      && (opens.Err? ==> left == row)
      && (opens == Err(RowMissing) <==> row.None?)
      && (opens == Err(RecoveryOff) <==> row.Some? && !row.value.recovery)
      && (opens == Err(AlreadyOpen) <==> row.Some? && row.value.recovery && row.value.open)
    ensures var (left, closes) := Transact(row, owner, false, owned);
      var holds := row.Some? && row.value.updatedBy == owner && owned in {None, Some(row.value.generation)};
      && (closes.Ok? <==> row.Some? && (!row.value.open || holds))
      && (closes.Ok? && !row.value.open ==> left == row && closes.value == row.value.generation)
      && (closes.Ok? && row.value.open ==>
            left == Some(Row(row.value.recovery, row.value.generation + 1, false, owner))
            && closes.value == row.value.generation + 1)
      && (closes.Err? ==> left == row)
      && (closes == Err(RowMissing) <==> row.None?)
      && (closes == Err(OwnershipChanged) <==> row.Some? && row.value.open && !holds)
  {
  }

  /** What the row must say for an operation to flip the gate, and then it does. */
  predicate Flips(row: Row, op: Op) {
    op.SetGate? && op.commits &&
    if op.enabled then row.recovery && !row.open
    else row.open && row.updatedBy == op.owner && (op.owned.Some? ==> op.owned.value == row.generation)
  }

  /** Operation `k` of the run makes change `i`. */
  ghost predicate MadeAt(row: Row, ops: seq<Op>, i: nat, k: nat)
    requires i < |Changes(row, ops)| && k < |ops|
  {
    && |Changes(row, ops[..k])| == i
    && ops[k].SetGate?
    && Changes(row, ops)[i] == Change(ops[k].owner, ops[k].enabled, RunOps(row, ops[..k]).generation + 1, ops[k].owned)
  }

  lemma {:induction false} ChangeMadeAt(row: Row, ops: seq<Op>, i: nat) returns (k: nat)
    requires i < |Changes(row, ops)|
    ensures k < |ops| && MadeAt(row, ops, i, k) && Flips(RunOps(row, ops[..k]), ops[k])
  {
    var front := ops[..|ops| - 1];
    if i < |Changes(row, front)| {
      k := ChangeMadeAt(row, front, i);
      assert front[..k] == ops[..k];
    } else {
      k := |front|;
    }
  }

  lemma {:induction false} ChangesOfPrefix(row: Row, ops: seq<Op>, k: nat)
    requires k <= |ops|
    ensures Changes(row, ops[..k]) <= Changes(row, ops)
  {
    if k == |ops| {
      assert ops[..k] == ops;
    } else {
      var front := ops[..|ops| - 1];
      ChangesOfPrefix(row, front, k);
      assert front[..k] == ops[..k];
    }
  }

  /**
   In every interleaving the changes are made by exactly the operations that
   find the row in the right state: an opening needs recovery on and the gate
   closed, a close needs the gate open, its owner to be the holder, and no
   other lease. The recovery flag is only ever changed by its own operation.
   */
  lemma ChangesAreMadeExactly(row: Row, ops: seq<Op>, k: nat)
    requires k < |ops|
    ensures Flips(RunOps(row, ops[..k]), ops[k]) <==> exists i: nat :: MakesChange(row, ops, i, k)
    ensures ops[k].SetGate? ==> RunOps(row, ops[..k + 1]).recovery == RunOps(row, ops[..k]).recovery
  {
    var before := RunOps(row, ops[..k]);
    assert ops[..k + 1][..k] == ops[..k];
    FlipsIffChanges(before, ops[k]);
    ChangesOfPrefix(row, ops, k + 1);
    if Flips(before, ops[k]) {
      var i := |Changes(row, ops[..k])|;
      assert Changes(row, ops)[i] == ChangeOf(before, ops[k])[0];
      assert MakesChange(row, ops, i, k);
    }
  }

  /** Operation `k` makes change `i`: it is recorded with that operation. */
  ghost predicate MakesChange(row: Row, ops: seq<Op>, i: nat, k: nat)
    requires k < |ops|
  {
    i < |Changes(row, ops)| && MadeAt(row, ops, i, k) && |Changes(row, ops[..k + 1])| == i + 1
  }

  lemma FlipsIffChanges(row: Row, op: Op)
    ensures Flips(row, op) <==> ChangeOf(row, op) != []
    ensures Flips(row, op) ==> ChangeOf(row, op) == [Change(op.owner, op.enabled, row.generation + 1, op.owned)]
    ensures op.SetGate? ==> Apply(row, op).recovery == row.recovery
  {
  }

  /** Every change was made by such an operation. */
  lemma ChangesNeedTheRow(row: Row, ops: seq<Op>, i: nat) returns (k: nat)
    requires i < |Changes(row, ops)|
    ensures k < |ops| && ops[k].SetGate? && ops[k].commits && ops[k].owner == Changes(row, ops)[i].owner
    ensures var before := RunOps(row, ops[..k]);
      if Changes(row, ops)[i].opens then before.recovery && !before.open
      else
        before.open && before.updatedBy == ops[k].owner && Changes(row, ops)[i].owned in {None, Some(before.generation)}
  {
    k := ChangeMadeAt(row, ops, i);
  }

  /**
   Two openings never share a lease: a close under lease `g` ended exactly the
   opening that took generation `g`, and it was made by that opening's owner.
   */
  lemma LeaseEndsItsOpening(row: Row, ops: seq<Op>, i: nat)
    requires !row.open && i < |Changes(row, ops)|
    requires !Changes(row, ops)[i].opens && Changes(row, ops)[i].owned.Some?
    ensures var changes := Changes(row, ops);
      && i > 0 && changes[i - 1].opens && changes[i - 1].owner == changes[i].owner
      && changes[i - 1].generation == changes[i].owned.value
      && forall j :: 0 <= j < |changes| && changes[j].generation == changes[i].owned.value ==> j == i - 1
  {
    GateIsFenced(row, ops);
    FencedLease(row, Changes(row, ops), i);
  }
}
