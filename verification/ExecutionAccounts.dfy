/**
 `buildExecutionAccountsForCompiledMessage`
 (scripts/propose-smart-account-transaction.ts): the flat account list of a
 compiled message whose lookup tables have been loaded.
 */
module ExecutionAccounts {
  import opened Prelude

  type Key = string

  datatype Table = Table(key: Key, addresses: seq<Key>)

  datatype Lookup = Lookup(key: Key, writable: seq<nat>, readonly: seq<nat>)

  /** `writable` and `signer` answer for static indexes, as the compiled message's own predicates do. */
  datatype Message = Message(staticKeys: seq<Key>, lookups: seq<Lookup>, writable: nat -> bool, signer: nat -> bool)

  datatype Meta = Meta(key: Key, isWritable: bool, isSigner: bool)

  datatype Fault =
    | UnloadedTable(table: Key)
    | MissingWritable(table: Key, index: nat)
    | MissingReadonly(table: Key, index: nat)

  /** A `Map` built from pairs: a later table replaces an earlier one of the same address. */
  function ByAddress(tables: seq<Table>): map<Key, Table> {
    if tables == [] then map[]
    else ByAddress(tables[..|tables| - 1])[tables[|tables| - 1].key := tables[|tables| - 1]]
  }

  /** The table at `i` has the address, and no later one does. */
  predicate LastOf(tables: seq<Table>, key: Key, i: nat)
    requires i < |tables|
  {
    tables[i].key == key && forall j :: i < j < |tables| ==> tables[j].key != key
  }

  /** A key is known exactly when some table has it, and then stands for the last such table. */
  lemma {:induction false} LastTableWins(tables: seq<Table>, key: Key)
    ensures key in ByAddress(tables) <==> exists i :: 0 <= i < |tables| && tables[i].key == key
    ensures forall i :: 0 <= i < |tables| && LastOf(tables, key, i) ==> ByAddress(tables)[key] == tables[i]
  {
    if tables != [] {
      var front := tables[..|tables| - 1];
      LastTableWins(front, key);
      assert forall i :: 0 <= i < |front| ==> front[i] == tables[i];
      assert tables[|tables| - 1].key == key || forall i :: 0 <= i < |tables| && tables[i].key == key ==> i < |front|;
    }
  }

  // ------------------------------------------------------------------
  // The layout, entry by entry
  // ------------------------------------------------------------------

  function LookupSize(lookup: Lookup): nat {
    |lookup.writable| + |lookup.readonly|
  }

  /** How many accounts the first lookups contribute. */
  function Offset(lookups: seq<Lookup>): nat {
    if lookups == [] then 0 else Offset(lookups[..|lookups| - 1]) + LookupSize(lookups[|lookups| - 1])
  }

  predicate InRange(indexes: seq<nat>, table: Table) {
    forall j :: 0 <= j < |indexes| ==> indexes[j] < |table.addresses|
  }

  predicate Resolvable(tables: map<Key, Table>, lookup: Lookup) {
    && lookup.key in tables
    && InRange(lookup.writable, tables[lookup.key]) && InRange(lookup.readonly, tables[lookup.key])
  }

  predicate AllResolvable(tables: map<Key, Table>, lookups: seq<Lookup>) {
    forall k :: 0 <= k < |lookups| ==> Resolvable(tables, lookups[k])
  }

  /** Where the accounts of lookup `k` begin. */
  function LookupStart(m: Message, k: nat): nat
    requires k <= |m.lookups|
  {
    |m.lookups| + |m.staticKeys| + Offset(m.lookups[..k])
  }

  /** From position `at` on stand the addresses the indexes point to, in order. */
  ghost predicate PointedAt(metas: seq<Meta>, at: nat, indexes: seq<nat>, table: Table, writable: bool)
    requires InRange(indexes, table)
  {
    && at + |indexes| <= |metas|
    && forall j :: 0 <= j < |indexes| ==> metas[at + j] == Meta(table.addresses[indexes[j]], writable, false)
  }

  /** The lookup's accounts sit at `at`: its writable ones in order, then its readonly ones. */
  ghost predicate LookupAt(metas: seq<Meta>, at: nat, lookup: Lookup, table: Table)
    requires InRange(lookup.writable, table) && InRange(lookup.readonly, table)
  {
    && PointedAt(metas, at, lookup.writable, table, true)
    && PointedAt(metas, at + |lookup.writable|, lookup.readonly, table, false)
  }

  /** The lookup tables themselves, then the static accounts with the vault's signature removed. */
  ghost predicate HeadLaidOut(metas: seq<Meta>, m: Message, vault: Key) {
    && |metas| >= |m.lookups| + |m.staticKeys|
    && (forall k :: 0 <= k < |m.lookups| ==> metas[k] == Meta(m.lookups[k].key, false, false))
    && (forall i :: 0 <= i < |m.staticKeys| ==>
          metas[|m.lookups| + i] == Meta(m.staticKeys[i], m.writable(i), m.signer(i) && m.staticKeys[i] != vault))
  }

  /** After the head, the first `upTo` lookups one after the other. */
  ghost predicate TailLaidOut(metas: seq<Meta>, m: Message, tables: map<Key, Table>, upTo: nat)
    requires upTo <= |m.lookups|
  {
    && |metas| == LookupStart(m, upTo)
    && forall k :: 0 <= k < upTo ==>
         Resolvable(tables, m.lookups[k])
         && LookupAt(metas, LookupStart(m, k), m.lookups[k], tables[m.lookups[k].key])
  }

  ghost predicate LaidOut(metas: seq<Meta>, m: Message, tables: map<Key, Table>, vault: Key) {
    HeadLaidOut(metas, m, vault) && TailLaidOut(metas, m, tables, |m.lookups|)
  }

  /**
   The fault that the first unresolvable lookup raises: missing table, else first bad writable, else
   first bad readonly index.
   */
  ghost predicate FaultIn(tables: map<Key, Table>, lookup: Lookup, fault: Fault) {
    match fault
    case UnloadedTable(key) => key == lookup.key && key !in tables
    case MissingWritable(key, index) =>
      key == lookup.key && key in tables && FirstBad(lookup.writable, tables[key], index)
    case MissingReadonly(key, index) =>
      && key == lookup.key && key in tables && InRange(lookup.writable, tables[key])
      && FirstBad(lookup.readonly, tables[key], index)
  }

  ghost predicate FirstBad(indexes: seq<nat>, table: Table, index: nat) {
    exists j :: 0 <= j < |indexes| && indexes[j] == index && index >= |table.addresses| && InRange(indexes[..j], table)
  }

  // ------------------------------------------------------------------
  // The algorithm
  // ------------------------------------------------------------------

  method PushIndexes(metas: seq<Meta>, indexes: seq<nat>, table: Table, writable: bool)
      returns (out: seq<Meta>, bad: Option<nat>)
    ensures bad.None? <==> InRange(indexes, table)
    ensures bad.Some? ==> FirstBad(indexes, table, bad.value)
    ensures bad.None? ==>
              |out| == |metas| + |indexes| && metas <= out && PointedAt(out, |metas|, indexes, table, writable)
  {
    out := metas;
    for j := 0 to |indexes|
      invariant |out| == |metas| + j && metas <= out
      invariant forall i :: 0 <= i < j ==> indexes[i] < |table.addresses|
      invariant forall i :: 0 <= i < j ==> out[|metas| + i] == Meta(table.addresses[indexes[i]], writable, false)
    {
      if indexes[j] >= |table.addresses| {
        assert InRange(indexes[..j], table);
        return out, Some(indexes[j]);
      }
      out := out + [Meta(table.addresses[indexes[j]], writable, false)];
    }
    bad := None;
  }

  method PushLookup(metas: seq<Meta>, lookup: Lookup, tables: map<Key, Table>)
      returns (r: Result<seq<Meta>, Fault>)
    ensures r.Ok? <==> Resolvable(tables, lookup)
    ensures r.Err? ==> FaultIn(tables, lookup, r.error)
    ensures r.Ok? ==>
              && metas <= r.value && |r.value| == |metas| + LookupSize(lookup)
              && LookupAt(r.value, |metas|, lookup, tables[lookup.key])
  {
    if lookup.key !in tables {
      return Err(UnloadedTable(lookup.key));
    }
    var table := tables[lookup.key];
    var out, bad := PushIndexes(metas, lookup.writable, table, true);
    if bad.Some? {
      return Err(MissingWritable(lookup.key, bad.value));
    }
    ghost var half := out;
    out, bad := PushIndexes(out, lookup.readonly, table, false);
    if bad.Some? {
      return Err(MissingReadonly(lookup.key, bad.value));
    }
    PointedStays(half, out, |metas|, lookup.writable, table, true);
    return Ok(out);
  }

  lemma OffsetStep(lookups: seq<Lookup>, k: nat)
    requires k < |lookups|
    ensures Offset(lookups[..k + 1]) == Offset(lookups[..k]) + LookupSize(lookups[k])
  {
    assert lookups[..k + 1][..k] == lookups[..k];
  }

  lemma PointedStays(before: seq<Meta>, after: seq<Meta>, at: nat, indexes: seq<nat>, table: Table, writable: bool)
    requires InRange(indexes, table) && before <= after && PointedAt(before, at, indexes, table, writable)
    ensures PointedAt(after, at, indexes, table, writable)
  {
    forall j | 0 <= j < |indexes| ensures after[at + j] == Meta(table.addresses[indexes[j]], writable, false) {
      assert after[at + j] == before[at + j];
    }
  }

  /** What one more lookup appends leaves the earlier layout in place and extends it. */
  lemma TailGrows(before: seq<Meta>, after: seq<Meta>, m: Message, tables: map<Key, Table>, k: nat)
    requires k < |m.lookups| && TailLaidOut(before, m, tables, k) && Resolvable(tables, m.lookups[k])
    requires before <= after && |after| == |before| + LookupSize(m.lookups[k])
    requires LookupAt(after, |before|, m.lookups[k], tables[m.lookups[k].key])
    ensures TailLaidOut(after, m, tables, k + 1)
  {
    OffsetStep(m.lookups, k);
    forall i | 0 <= i < k
      ensures Resolvable(tables, m.lookups[i])
              && LookupAt(after, LookupStart(m, i), m.lookups[i], tables[m.lookups[i].key])
    {
      var lookup := m.lookups[i];
      var table := tables[lookup.key];
      PointedStays(before, after, LookupStart(m, i), lookup.writable, table, true);
      PointedStays(before, after, LookupStart(m, i) + |lookup.writable|, lookup.readonly, table, false);
    }
  }

  lemma HeadStays(before: seq<Meta>, after: seq<Meta>, m: Message, vault: Key)
    requires before <= after && HeadLaidOut(before, m, vault)
    ensures HeadLaidOut(after, m, vault)
  {
    forall i | 0 <= i < |m.staticKeys|
      ensures after[|m.lookups| + i]
              == Meta(m.staticKeys[i], m.writable(i), m.signer(i) && m.staticKeys[i] != vault)
    {
      assert after[|m.lookups| + i] == before[|m.lookups| + i];
    }
  }

  method PushHead(m: Message, vault: Key) returns (metas: seq<Meta>)
    ensures HeadLaidOut(metas, m, vault) && |metas| == |m.lookups| + |m.staticKeys|
  {
    metas := seq(|m.lookups|, k requires 0 <= k < |m.lookups| => Meta(m.lookups[k].key, false, false));
    for i := 0 to |m.staticKeys|
      invariant |metas| == |m.lookups| + i
      invariant forall k :: 0 <= k < |m.lookups| ==> metas[k] == Meta(m.lookups[k].key, false, false)
      invariant forall j :: 0 <= j < i ==>
                  metas[|m.lookups| + j]
                  == Meta(m.staticKeys[j], m.writable(j), m.signer(j) && m.staticKeys[j] != vault)
    {
      metas := metas + [Meta(m.staticKeys[i], m.writable(i), m.signer(i) && m.staticKeys[i] != vault)];
    }
  }

  /**
   Succeeds exactly when every table is loaded and every index is in its table,
   and then lays the accounts out; otherwise reports the first fault in order.
   */
  method BuildExecutionAccounts(m: Message, tables: seq<Table>, vault: Key) returns (r: Result<seq<Meta>, Fault>)
    ensures r.Ok? <==> AllResolvable(ByAddress(tables), m.lookups)
    ensures r.Ok? ==> LaidOut(r.value, m, ByAddress(tables), vault)
    ensures r.Err? ==>
              exists k :: 0 <= k < |m.lookups|
                          && AllResolvable(ByAddress(tables), m.lookups[..k])
                          && FaultIn(ByAddress(tables), m.lookups[k], r.error)
  {
    var byAddress := ByAddress(tables);
    var metas := PushHead(m, vault);
    for k := 0 to |m.lookups|
      invariant HeadLaidOut(metas, m, vault) && TailLaidOut(metas, m, byAddress, k)
    {
      var pushed := PushLookup(metas, m.lookups[k], byAddress);
      if pushed.Err? {
        assert AllResolvable(byAddress, m.lookups[..k]);
        return Err(pushed.error);
      }
      TailGrows(metas, pushed.value, m, byAddress, k);
      HeadStays(metas, pushed.value, m, vault);
      metas := pushed.value;
    }
    return Ok(metas);
  }

  // ------------------------------------------------------------------
  // Main results
  // ------------------------------------------------------------------

  /** The layout leaves nothing open: every position belongs to exactly one source, so the list is determined. */
  lemma {:induction false} PositionHasSource(m: Message, i: nat, upTo: nat) returns (k: nat)
    requires upTo <= |m.lookups| && |m.lookups| + |m.staticKeys| <= i < LookupStart(m, upTo)
    ensures k < upTo && LookupStart(m, k) <= i < LookupStart(m, k) + LookupSize(m.lookups[k])
    decreases upTo
  {
    OffsetStep(m.lookups, upTo - 1);
    if LookupStart(m, upTo - 1) <= i {
      k := upTo - 1;
    } else {
      k := PositionHasSource(m, i, upTo - 1);
    }
  }

  /** The account that the `j`-th index of a lookup stands for. */
  function Entry(lookup: Lookup, table: Table, j: nat): Meta
    requires InRange(lookup.writable, table) && InRange(lookup.readonly, table) && j < LookupSize(lookup)
  {
    if j < |lookup.writable| then Meta(table.addresses[lookup.writable[j]], true, false)
    else Meta(table.addresses[lookup.readonly[j - |lookup.writable|]], false, false)
  }

  lemma EntryAt(metas: seq<Meta>, at: nat, lookup: Lookup, table: Table, j: nat)
    requires InRange(lookup.writable, table) && InRange(lookup.readonly, table)
    requires LookupAt(metas, at, lookup, table) && j < LookupSize(lookup)
    ensures metas[at + j] == Entry(lookup, table, j)
  {
    if j >= |lookup.writable| {
      var i := j - |lookup.writable|;
      assert lookup.readonly[i] < |table.addresses|;
      assert metas[at + |lookup.writable| + i] == Meta(table.addresses[lookup.readonly[i]], false, false);
    }
  }

  lemma SameTailEntry(a: seq<Meta>, b: seq<Meta>, m: Message, tables: map<Key, Table>, i: nat)
    requires TailLaidOut(a, m, tables, |m.lookups|) && TailLaidOut(b, m, tables, |m.lookups|)
    requires |m.lookups| + |m.staticKeys| <= i < |a|
    ensures |a| == |b| && a[i] == b[i]
  {
    var k := PositionHasSource(m, i, |m.lookups|);
    var at := LookupStart(m, k);
    EntryAt(a, at, m.lookups[k], tables[m.lookups[k].key], i - at);
    EntryAt(b, at, m.lookups[k], tables[m.lookups[k].key], i - at);
  }

  /** Two lists laid out for the same message and tables are the same list. */
  lemma LayoutIsUnique(a: seq<Meta>, b: seq<Meta>, m: Message, tables: map<Key, Table>, vault: Key)
    requires LaidOut(a, m, tables, vault) && LaidOut(b, m, tables, vault)
    ensures a == b
  {
    forall i | 0 <= i < |a| ensures a[i] == b[i] {
      if i >= |m.lookups| + |m.staticKeys| {
        SameTailEntry(a, b, m, tables, i);
      } else if i >= |m.lookups| {
        StaticEntryAt(a, m, vault, i - |m.lookups|);
        StaticEntryAt(b, m, vault, i - |m.lookups|);
      }
    }
  }

  lemma StaticEntryAt(metas: seq<Meta>, m: Message, vault: Key, j: nat)
    requires HeadLaidOut(metas, m, vault) && j < |m.staticKeys|
    ensures metas[|m.lookups| + j] == Meta(m.staticKeys[j], m.writable(j), m.signer(j) && m.staticKeys[j] != vault)
  {
  }

  /** The fault reported is the only one the message has in that lookup order. */
  lemma FaultIsUnique(tables: map<Key, Table>, lookups: seq<Lookup>, k: nat, f: Fault, l: nat, g: Fault)
    requires k < |lookups| && AllResolvable(tables, lookups[..k]) && FaultIn(tables, lookups[k], f)
    requires l < |lookups| && AllResolvable(tables, lookups[..l]) && FaultIn(tables, lookups[l], g)
    ensures k == l && f == g
  {
    assert k < l ==> lookups[..l][k] == lookups[k];
    assert l < k ==> lookups[..k][l] == lookups[l];
    FaultIsNotResolvable(tables, lookups[k], f);
    FaultIsNotResolvable(tables, lookups[l], g);
    if k == l && lookups[k].key in tables {
      var table := tables[lookups[k].key];
      FirstBadIsUnique(lookups[k].writable, table);
      FirstBadIsUnique(lookups[k].readonly, table);
    }
  }

  lemma FaultIsNotResolvable(tables: map<Key, Table>, lookup: Lookup, fault: Fault)
    requires FaultIn(tables, lookup, fault)
    ensures !Resolvable(tables, lookup)
  {
  }

  lemma FirstBadIsUnique(indexes: seq<nat>, table: Table)
    ensures forall x, y :: FirstBad(indexes, table, x) && FirstBad(indexes, table, y) ==> x == y
  {
    forall x, y | FirstBad(indexes, table, x) && FirstBad(indexes, table, y) ensures x == y {
      var i :| 0 <= i < |indexes| && indexes[i] == x && InRange(indexes[..i], table);
      var j :| 0 <= j < |indexes| && indexes[j] == y && InRange(indexes[..j], table);
      BeforeBadIsFine(indexes, table, i, j);
      BeforeBadIsFine(indexes, table, j, i);
    }
  }

  lemma BeforeBadIsFine(indexes: seq<nat>, table: Table, i: nat, j: nat)
    requires i < |indexes| && j <= |indexes| && InRange(indexes[..j], table)
    ensures i < j ==> indexes[i] < |table.addresses|
  {
    if i < j {
      assert indexes[..j][i] == indexes[i];
    }
  }

  /** Only static accounts sign, and the vault never does. */
  lemma OnlyStaticAccountsSign(metas: seq<Meta>, m: Message, tables: map<Key, Table>, vault: Key, i: nat)
    requires LaidOut(metas, m, tables, vault) && i < |metas|
    ensures metas[i].isSigner <==>
            |m.lookups| <= i < |m.lookups| + |m.staticKeys|
            && m.signer(i - |m.lookups|) && m.staticKeys[i - |m.lookups|] != vault
    ensures metas[i].key == vault ==> !metas[i].isSigner
  {
    if i >= |m.lookups| + |m.staticKeys| {
      var k := PositionHasSource(m, i, |m.lookups|);
      var at := LookupStart(m, k);
      EntryAt(metas, at, m.lookups[k], tables[m.lookups[k].key], i - at);
    } else if i >= |m.lookups| {
      StaticEntryAt(metas, m, vault, i - |m.lookups|);
    }
  }
}
