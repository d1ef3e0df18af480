/**
 `normalizeSmartAccountIdl` (scripts/update-loyal-smart-accounts.ts): a
 recursive rewrite of a JSON document followed by a filter of its types.
 */
module IdlNormalize {
  import opened Prelude

  /** Object fields in their own order, as `Object.entries` lists them. */
  datatype Json =
    | Null
    | Bool(flag: bool)
    | Number(value: real)
    | Str(text: string)
    | Arr(items: seq<Json>)
    | Obj(fields: seq<Field>)

  datatype Field = Field(key: string, value: Json)

  /** Both are the `TypeError` of reading a property of null. */
  datatype Fault = NullDocument | NullType

  const SMALL_VEC := "SmallVec<u16,u8>"
  const BYTES := "bytes"

  const IGNORED_TYPES: set<string> := {
    "Permission", "TransactionMessage", "CompiledInstruction", "MessageAddressTableLookup",
    "CreateSmartAccountEvent", "SynchronousTransactionEvent", "SynchronousSettingsTransactionEvent",
    "AddSpendingLimitEvent", "RemoveSpendingLimitEvent", "UseSpendingLimitEvent", "TransactionEvent",
    "ProposalEvent", "SettingsChangePolicyEvent", "SmartAccountEvent", "ConsensusAccount",
    "SynchronousTransactionEventV2", "AuthoritySettingsEvent", "AuthorityChangeEvent", "TransactionContent"
  }

  // ------------------------------------------------------------------
  // The rewrite
  // ------------------------------------------------------------------

  function Get(fields: seq<Field>, key: string): Option<Json> {
    if fields == [] then None
    else if fields[0].key == key then Some(fields[0].value)
    else Get(fields[1..], key)
  }

  /** The nodes that stand for a small vector: the bare string and the `defined` wrapper. */
  predicate IsSmallVec(v: Json) {
    v == Str(SMALL_VEC) || (v.Obj? && Get(v.fields, "defined") == Some(Str(SMALL_VEC)))
  }

  function Transform(v: Json): Json {
    if IsSmallVec(v) then Str(BYTES)
    else
      match v
      case Arr(items) => Arr(seq(|items|, i requires 0 <= i < |items| => Transform(items[i])))
      case Obj(fields) =>
        Obj(seq(|fields|, i requires 0 <= i < |fields| => Field(fields[i].key, Transform(fields[i].value))))
      case _ => v
  }

  predicate Ignored(entry: Json) {
    && entry.Obj? && Get(entry.fields, "name").Some? && Get(entry.fields, "name").value.Str?
    && Get(entry.fields, "name").value.text in IGNORED_TYPES
  }

  function Keep(entries: seq<Json>): seq<Json> {
    if entries == [] then []
    else if Ignored(entries[0]) then Keep(entries[1..])
    else [entries[0]] + Keep(entries[1..])
  }

  function SetField(fields: seq<Field>, key: string, value: Json): seq<Field> {
    if fields == [] then []
    else if fields[0].key == key then [Field(key, value)] + fields[1..]
    else [fields[0]] + SetField(fields[1..], key, value)
  }

  /** The document's list of types, when it has one. */
  function Types(v: Json): Option<seq<Json>> {
    if v.Obj? && Get(v.fields, "types").Some? && Get(v.fields, "types").value.Arr?
    then Some(Get(v.fields, "types").value.items) else None
  }

  function Normalize(idl: Json): Result<Json, Fault> {
    var normalized := Transform(idl);
    if normalized == Null then Err(NullDocument)
    else
      match Types(normalized)
      case None => Ok(normalized)
      case Some(entries) =>
        if Null in entries then Err(NullType)
        else Ok(Obj(SetField(normalized.fields, "types", Arr(Keep(entries)))))
  }

  // ------------------------------------------------------------------
  // Positions in a document
  // ------------------------------------------------------------------

  /** The children of a node, whatever it is. */
  function Children(v: Json): (c: seq<Json>) {
    match v
    case Arr(items) => items
    case Obj(fields) => seq(|fields|, i requires 0 <= i < |fields| => fields[i].value)
    case _ => []
  }

  /** The node a path of child numbers leads to, if it leads anywhere. */
  function At(v: Json, path: seq<nat>): Option<Json>
    decreases |path|
  {
    if path == [] then Some(v)
    else if path[0] < |Children(v)| then At(Children(v)[path[0]], path[1..])
    else None
  }

  /** The path leads to the bare string, or to an object that is `defined` as it. */
  ghost predicate SmallVecAt(v: Json, path: seq<nat>) {
    At(v, path).Some? &&
    match At(v, path).value
    case Str(text) => text == "SmallVec<u16,u8>"
    case Obj(fields) => Get(fields, "defined") == Some(Str("SmallVec<u16,u8>"))
    case _ => false
  }

  /** No small vector at any depth. */
  ghost predicate Clean(v: Json) {
    forall path: seq<nat> :: !SmallVecAt(v, path)
  }

  lemma CleanChild(v: Json, k: nat)
    requires Clean(v) && k < |Children(v)|
    ensures Clean(Children(v)[k])
  {
    forall path: seq<nat> ensures !SmallVecAt(Children(v)[k], path) {
      assert ([k] + path)[1..] == path;
      assert !SmallVecAt(v, [k] + path);
    }
  }

  lemma CleanFromChildren(v: Json)
    requires !IsSmallVec(v) && forall k :: 0 <= k < |Children(v)| ==> Clean(Children(v)[k])
    ensures Clean(v)
  {
    forall path: seq<nat> ensures !SmallVecAt(v, path) {
      if path != [] && path[0] < |Children(v)| {
        assert !SmallVecAt(Children(v)[path[0]], path[1..]);
      }
    }
  }

  lemma TransformedChildren(v: Json)
    requires !IsSmallVec(v)
    ensures |Children(Transform(v))| == |Children(v)|
    ensures forall k :: 0 <= k < |Children(v)| ==> Children(Transform(v))[k] == Transform(Children(v)[k])
  {
  }

  lemma ChildIsSmaller(v: Json, k: nat)
    requires k < |Children(v)|
    ensures Children(v)[k] < v
  {
  }

  // ------------------------------------------------------------------
  // Main results: the rewrite
  // ------------------------------------------------------------------

  /**
   Under no small vector the rewrite keeps every path and rewrites the node in
   place; a small vector becomes the string and nothing remains below it.
   */
  lemma {:induction false} TransformAt(v: Json, path: seq<nat>)
    requires forall n :: 0 <= n < |path| ==> !SmallVecAt(v, path[..n])
    ensures At(v, path).None? ==> At(Transform(v), path).None?
    ensures At(v, path).Some? ==> At(Transform(v), path) == Some(Transform(At(v, path).value))
    decreases |path|
  {
    if path != [] {
      assert !SmallVecAt(v, path[..0]);
      TransformedChildren(v);
      if path[0] < |Children(v)| {
        var child := Children(v)[path[0]];
        forall n | 0 <= n < |path[1..]| ensures !SmallVecAt(child, path[1..][..n]) {
          assert path[..n + 1][1..] == path[1..][..n];
          assert !SmallVecAt(v, path[..n + 1]);
        }
        TransformAt(child, path[1..]);
      }
    }
  }

  lemma {:induction false} NothingBelowSmallVec(v: Json, path: seq<nat>, n: nat)
    requires n < |path| && SmallVecAt(v, path[..n])
    requires forall i :: 0 <= i < n ==> !SmallVecAt(v, path[..i])
    ensures At(Transform(v), path[..n]) == Some(Str("bytes")) && At(Transform(v), path) == None
  {
    forall i | 0 <= i < n ensures !SmallVecAt(v, path[..n][..i]) {
      assert path[..n][..i] == path[..i];
    }
    TransformAt(v, path[..n]);
    AtJoins(Transform(v), path[..n], path[n..]);
    assert path[..n] + path[n..] == path;
  }

  lemma {:induction false} AtJoins(v: Json, front: seq<nat>, rest: seq<nat>)
    requires At(v, front).Some?
    ensures At(v, front + rest) == At(At(v, front).value, rest)
    decreases |front|
  {
    if front == [] {
      assert front + rest == rest;
    } else {
      assert (front + rest)[1..] == front[1..] + rest;
      AtJoins(Children(v)[front[0]], front[1..], rest);
    }
  }

  lemma {:induction false} TransformIsClean(v: Json)
    ensures Clean(Transform(v))
    decreases v
  {
    if IsSmallVec(v) {
      assert Children(Str(BYTES)) == [];
    } else {
      TransformedChildren(v);
      forall k | 0 <= k < |Children(v)| ensures Clean(Transform(Children(v)[k])) {
        ChildIsSmaller(v, k);
        TransformIsClean(Children(v)[k]);
      }
      NotMadeSmallVec(v);
      CleanFromChildren(Transform(v));
    }
  }

  /** A wrapper is not created by rewriting what it holds. */
  lemma NotMadeSmallVec(v: Json)
    requires !IsSmallVec(v)
    ensures !IsSmallVec(Transform(v))
  {
    if v.Obj? {
      GetTransformed(v.fields, Transform(v).fields, "defined");
    }
  }

  predicate FieldsTransformed(fields: seq<Field>, after: seq<Field>) {
    |after| == |fields|
    && forall i :: 0 <= i < |fields| ==> after[i] == Field(fields[i].key, Transform(fields[i].value))
  }

  lemma {:induction false} GetTransformed(fields: seq<Field>, after: seq<Field>, key: string)
    requires FieldsTransformed(fields, after)
    ensures Get(after, key)
            == (match Get(fields, key) case None => None case Some(value) => Some(Transform(value)))
  {
    if fields != [] {
      GetTransformed(fields[1..], after[1..], key);
    }
  }

  lemma {:induction false} CleanIsFixed(v: Json)
    requires Clean(v)
    ensures Transform(v) == v
    decreases v
  {
    assert !SmallVecAt(v, []);
    forall k | 0 <= k < |Children(v)| ensures Transform(Children(v)[k]) == Children(v)[k] {
      ChildIsSmaller(v, k);
      CleanChild(v, k);
      CleanIsFixed(Children(v)[k]);
    }
    match v
    case Arr(items) =>
      forall i | 0 <= i < |items| ensures Transform(v).items[i] == items[i] {
        assert Children(v)[i] == items[i];
      }
      assert Transform(v).items == items;
    case Obj(fields) =>
      forall i | 0 <= i < |fields| ensures Transform(v).fields[i] == fields[i] {
        assert Children(v)[i] == fields[i].value;
      }
      assert Transform(v).fields == fields;
    case _ =>
  }

  /** The rewrite leaves a document alone exactly when it holds no small vector. */
  lemma TransformIsIdentityOnClean(v: Json)
    ensures Transform(v) == v <==> Clean(v)
  {
    TransformIsClean(v);
    if Clean(v) {
      CleanIsFixed(v);
    }
  }

  // ------------------------------------------------------------------
  // Main results: the filter
  // ------------------------------------------------------------------

  /** Exactly the entries that are not ignored stay, as often as they occurred. */
  lemma {:induction false} KeepIsExact(entries: seq<Json>, entry: Json)
    ensures multiset(Keep(entries))[entry] == if Ignored(entry) then 0 else multiset(entries)[entry]
  {
    if entries != [] {
      KeepIsExact(entries[1..], entry);
      assert entries == [entries[0]] + entries[1..];
    }
  }

  /** The first field of that name holds the value. */
  ghost predicate FirstField(fields: seq<Field>, key: string, value: Json) {
    exists i :: 0 <= i < |fields| && fields[i] == Field(key, value) && forall j :: 0 <= j < i ==> fields[j].key != key
  }

  lemma {:induction false} GetIsFirst(fields: seq<Field>, key: string, value: Json)
    ensures Get(fields, key) == Some(value) <==> FirstField(fields, key, value)
  {
    if fields != [] {
      var rest := fields[1..];
      GetIsFirst(rest, key, value);
      if FirstField(fields, key, value) {
        var i :| 0 <= i < |fields| && fields[i] == Field(key, value) && forall j :: 0 <= j < i ==> fields[j].key != key;
        if i > 0 {
          assert rest[i - 1] == fields[i];
        }
      }
      if fields[0].key != key && FirstField(rest, key, value) {
        var i :| 0 <= i < |rest| && rest[i] == Field(key, value) && forall j :: 0 <= j < i ==> rest[j].key != key;
        assert fields[i + 1] == rest[i];
      }
    }
  }

  /** The names of the types that the published interface leaves out. */
  predicate LeftOut(name: string) {
    || name in {"Permission", "TransactionMessage", "CompiledInstruction", "MessageAddressTableLookup",
                "ConsensusAccount", "TransactionContent", "TransactionEvent", "ProposalEvent", "SmartAccountEvent",
                "CreateSmartAccountEvent", "SettingsChangePolicyEvent", "AuthoritySettingsEvent",
                "AuthorityChangeEvent", "SynchronousTransactionEvent", "SynchronousTransactionEventV2",
                "SynchronousSettingsTransactionEvent", "AddSpendingLimitEvent", "RemoveSpendingLimitEvent",
                "UseSpendingLimitEvent"}
  }

  /** An entry is filtered out exactly when its name is one of those: objects without a name, and other values, stay. */
  lemma IgnoredExactly(entry: Json)
    ensures Ignored(entry) <==>
            entry.Obj? && exists name :: LeftOut(name) && FirstField(entry.fields, "name", Str(name))
  {
    if entry.Obj? {
      forall name
        ensures Get(entry.fields, "name") == Some(Str(name)) <==> FirstField(entry.fields, "name", Str(name))
      {
        GetIsFirst(entry.fields, "name", Str(name));
      }
      if Ignored(entry) {
        assert LeftOut(Get(entry.fields, "name").value.text);
      }
    }
  }

  /** The ones that stay keep their order: filtering goes through concatenation. */
  lemma {:induction false} KeepJoins(front: seq<Json>, rest: seq<Json>)
    ensures Keep(front + rest) == Keep(front) + Keep(rest)
  {
    if front == [] {
      assert front + rest == rest;
    } else {
      assert (front + rest)[1..] == front[1..] + rest;
      KeepJoins(front[1..], rest);
    }
  }

  lemma {:induction false} KeepIsFixed(entries: seq<Json>)
    ensures Keep(entries) == entries <==> forall e :: e in entries ==> !Ignored(e)
    ensures |Keep(entries)| <= |entries|
  {
    if entries != [] {
      KeepIsFixed(entries[1..]);
    }
  }

  lemma {:induction false} KeptAreNotIgnored(entries: seq<Json>)
    ensures forall e :: e in Keep(entries) ==> e in entries && !Ignored(e)
  {
    if entries != [] {
      KeptAreNotIgnored(entries[1..]);
    }
  }

  lemma {:induction false} GetOfSet(fields: seq<Field>, key: string, value: Json, other: string)
    ensures Get(SetField(fields, key, value), other)
            == if other == key && Get(fields, key).Some? then Some(value) else Get(fields, other)
    ensures |SetField(fields, key, value)| == |fields|
    ensures forall i :: 0 <= i < |fields| ==> SetField(fields, key, value)[i].key == fields[i].key
  {
    if fields != [] {
      GetOfSet(fields[1..], key, value, other);
    }
  }

  lemma {:induction false} SetToSame(fields: seq<Field>, key: string)
    requires Get(fields, key).Some?
    ensures SetField(fields, key, Get(fields, key).value) == fields
  {
    if fields[0].key != key {
      SetToSame(fields[1..], key);
    }
  }

  /** Each field after the update holds what it held, or the new value. */
  lemma {:induction false} SetKeepsOthers(fields: seq<Field>, key: string, value: Json, i: nat)
    requires i < |fields|
    ensures |SetField(fields, key, value)| == |fields|
    ensures SetField(fields, key, value)[i] == fields[i] || SetField(fields, key, value)[i] == Field(key, value)
  {
    GetOfSet(fields, key, value, key);
    if fields[0].key != key && i > 0 {
      SetKeepsOthers(fields[1..], key, value, i - 1);
    }
  }

  // ------------------------------------------------------------------
  // Main results: the whole normalisation
  // ------------------------------------------------------------------

  /** What the result promises: nothing small-vector-like anywhere, and no ignored type in the list. */
  ghost predicate Normal(v: Json) {
    && v != Null && Clean(v)
    && (Types(v).Some? ==> forall e :: e in Types(v).value ==> e != Null && !Ignored(e))
  }

  lemma NormalizeIsNormal(idl: Json)
    requires Normalize(idl).Ok?
    ensures Normal(Normalize(idl).value)
  {
    var v := Transform(idl);
    TransformIsClean(idl);
    if Types(v).Some? {
      var entries := Types(v).value;
      var kept := Keep(entries);
      KeptAreNotIgnored(entries);
      GetOfSet(v.fields, "types", Arr(kept), "types");
      FilteredIsClean(v);
    }
  }

  /** Dropping entries of the list brings no small vector in. */
  lemma FilteredIsClean(v: Json)
    requires Clean(v) && Types(v).Some?
    ensures Clean(Obj(SetField(v.fields, "types", Arr(Keep(Types(v).value)))))
  {
    var entries := Types(v).value;
    var list := Arr(Keep(entries));
    var after := Obj(SetField(v.fields, "types", list));
    assert !SmallVecAt(v, []);
    GetOfSet(v.fields, "types", list, "defined");
    var t := FieldIndex(v.fields, "types");
    CleanChild(v, t);
    CleanAfterKeep(Children(v)[t]);
    forall k | 0 <= k < |Children(after)| ensures Clean(Children(after)[k]) {
      SetKeepsOthers(v.fields, "types", list, k);
      CleanChild(v, k);
    }
    CleanFromChildren(after);
  }

  lemma {:induction false} FieldIndex(fields: seq<Field>, key: string) returns (i: nat)
    requires Get(fields, key).Some?
    ensures i < |fields| && fields[i] == Field(key, Get(fields, key).value)
  {
    if fields[0].key == key {
      i := 0;
    } else {
      var j := FieldIndex(fields[1..], key);
      i := j + 1;
    }
  }

  lemma CleanAfterKeep(list: Json)
    requires list.Arr? && Clean(list)
    ensures Clean(Arr(Keep(list.items)))
  {
    KeptAreNotIgnored(list.items);
    var after := Arr(Keep(list.items));
    forall k | 0 <= k < |Children(after)| ensures Clean(Children(after)[k]) {
      var entry := Children(after)[k];
      assert entry in list.items;
      var j :| 0 <= j < |list.items| && list.items[j] == entry;
      CleanChild(list, j);
    }
    CleanFromChildren(after);
  }

  /** An object keeps its keys in order; only the list of types loses entries, every other field is just rewritten. */
  lemma NormalizeKeepsTheRest(idl: Json, other: string)
    requires idl.Obj? && !IsSmallVec(idl) && Normalize(idl).Ok?
    ensures var r := Normalize(idl).value;
            && r.Obj? && |r.fields| == |idl.fields|
            && (forall i :: 0 <= i < |idl.fields| ==> r.fields[i].key == idl.fields[i].key)
            && (Types(idl).Some? ==> Types(r) == Some(Keep(Transform(Arr(Types(idl).value)).items)))
            && (other != "types" || Types(idl).None? ==>
                  Get(r.fields, other)
                  == match Get(idl.fields, other) case None => None case Some(value) => Some(Transform(value)))
  {
    var v := Transform(idl);
    GetTransformed(idl.fields, v.fields, "types");
    GetTransformed(idl.fields, v.fields, other);
    if Types(v).Some? {
      var list := Arr(Keep(Types(v).value));
      GetOfSet(v.fields, "types", list, "types");
      GetOfSet(v.fields, "types", list, other);
    }
  }

  /** Normalising leaves a document alone exactly when it already keeps both promises. */
  lemma NormalizeIsIdentityOnNormal(idl: Json)
    ensures Normalize(idl) == Ok(idl) <==> Normal(idl)
  {
    if Normal(idl) {
      TransformIsIdentityOnClean(idl);
      if Types(idl).Some? {
        KeepIsFixed(Types(idl).value);
        SetToSame(idl.fields, "types");
      }
    }
    if Normalize(idl) == Ok(idl) {
      NormalizeIsNormal(idl);
    }
  }

  lemma NormalizeIsIdempotent(idl: Json)
    requires Normalize(idl).Ok?
    ensures Normalize(Normalize(idl).value) == Normalize(idl)
  {
    NormalizeIsNormal(idl);
    NormalizeIsIdentityOnNormal(Normalize(idl).value);
  }

  /** It throws on a null document and on a null among the types, and on nothing else. */
  lemma NormalizeFailsExactly(idl: Json)
    ensures Normalize(idl) == Err(NullDocument) <==> idl == Null
    ensures Normalize(idl) == Err(NullType)
            <==> !IsSmallVec(idl) && Types(idl).Some? && Null in Types(idl).value
  {
    if idl.Obj? && !IsSmallVec(idl) {
      GetTransformed(idl.fields, Transform(idl).fields, "types");
      if Types(idl).Some? {
        var entries := Types(idl).value;
        var after := Types(Transform(idl)).value;
        assert after == Transform(Arr(entries)).items;
        assert forall i :: 0 <= i < |entries| ==> after[i] == Transform(entries[i]);
        if Null in entries {
          var i :| 0 <= i < |entries| && entries[i] == Null;
          assert after[i] == Null;
        }
      }
    }
  }
}
