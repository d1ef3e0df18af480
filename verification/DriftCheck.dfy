/**
 The check-or-write pair of scripts/update-loyal-smart-accounts.ts: one file
 through `normalizeText`, and a whole generated directory.
 */
module DriftCheck {
  import opened Prelude
  import opened FileTree

  // ------------------------------------------------------------------
  // One file
  // ------------------------------------------------------------------

  predicate EndsWithNewline(text: string) {
    text != "" && text[|text| - 1] == '\n'
  }

  function NormalizeText(text: string): string {
    if EndsWithNewline(text) then text else text + "\n"
  }

  lemma NormalizeTextIsIdempotent(text: string)
    ensures EndsWithNewline(NormalizeText(text))
    ensures NormalizeText(NormalizeText(text)) == NormalizeText(text)
    ensures NormalizeText(text) == text <==> EndsWithNewline(text)
  {
    assert NormalizeText(text)[|NormalizeText(text)| - 1] == '\n';
  }

  /** Two texts count as the same exactly when they differ by at most one final newline. */
  lemma NormalizeTextForgetsOneNewline(a: string, b: string)
    ensures NormalizeText(a) == NormalizeText(b)
            <==> a == b || (a == b + "\n" && !EndsWithNewline(b)) || (b == a + "\n" && !EndsWithNewline(a))
  {
    assert (a + "\n")[..|a|] == a && (b + "\n")[..|b|] == b;
    assert EndsWithNewline(a + "\n") && EndsWithNewline(b + "\n");
  }

  /** Writing can go through: no file stands above the path and no directory at it. */
  ghost predicate Writable(tree: Tree, path: Path) {
    NoFileAbove(tree, path) && !(path in tree && tree[path].Dir?)
  }

  /** The tree gained the file `path` and the directories above it, and nothing else changed. */
  ghost predicate Landed(before: Tree, after: Tree, path: Path, content: string) {
    && (forall p :: p in after <==> p in before || p == path || Under(p, path))
    && (forall p :: p in before && p != path ==> after[p] == before[p])
    && (forall p :: p in after && Under(p, path) ==> after[p] == Dir)
    && path in after && after[path] == File(content)
  }

  method PutFile(disk: Disk, path: Path, content: string) returns (r: Result<(), Fault>)
    requires Valid(disk.tree)
    modifies disk
    ensures Valid(disk.tree)
    ensures r.Ok? <==> Writable(old(disk.tree), path)
    ensures r.Ok? ==> Landed(old(disk.tree), disk.tree, path, content)
    ensures r.Err? ==> disk.tree == old(disk.tree)
  {
    r := disk.MakeParents(path);
    if r.Err? {
      return;
    }
    assert path in old(disk.tree) ==> disk.tree == old(disk.tree);
    r := disk.WriteFile(path, content);
  }

  /** `assertOrWriteFile` */
  method AssertOrWriteFile(disk: Disk, path: Path, content: string, check: bool) returns (r: Result<(), Fault>)
    requires Valid(disk.tree)
    modifies disk
    ensures Valid(disk.tree)
    ensures check ==> disk.tree == old(disk.tree)
    ensures check ==> (r.Ok? <==> path in disk.tree && disk.tree[path] == File(NormalizeText(content)))
    ensures !check ==> (r.Ok? <==> Writable(old(disk.tree), path))
    ensures !check && r.Ok? ==> Landed(old(disk.tree), disk.tree, path, NormalizeText(content))
    ensures r.Err? ==> disk.tree == old(disk.tree)
  {
    var existing: Option<string> := None;
    if path in disk.tree {
      var text := disk.ReadFile(path);
      if text.Err? {
        return Err(text.error);
      }
      existing := Some(text.value);
    }
    if check {
      return if existing == Some(NormalizeText(content)) then Ok(()) else Err(Drift);
    }
    r := PutFile(disk, path, NormalizeText(content));
  }

  /** A check that follows a write succeeds for that text, and for another one exactly when both normalise alike. */
  method WriteThenCheck(disk: Disk, path: Path, content: string, other: string)
      returns (written: Result<(), Fault>, checked: Result<(), Fault>)
    requires Valid(disk.tree)
    modifies disk
    ensures written.Ok? ==> (checked.Ok? <==> NormalizeText(content) == NormalizeText(other))
  {
    written := AssertOrWriteFile(disk, path, content, false);
    checked := AssertOrWriteFile(disk, path, other, true);
  }

  // ------------------------------------------------------------------
  // A directory: the check
  // ------------------------------------------------------------------

  /** The two sorted listings agree position by position, in name and in content. */
  ghost predicate SameListing(tree: Tree, target: Path, source: Path,
                              targetFiles: seq<string>, sourceFiles: seq<string>) {
    && targetFiles == sourceFiles
    && forall i :: 0 <= i < |sourceFiles| ==>
         ContentOf(tree, Join(target, sourceFiles[i])) == ContentOf(tree, Join(source, sourceFiles[i]))
  }

  ghost predicate Lists(tree: Tree, root: Path, names: seq<string>) {
    Sorted(names) && forall name :: name in names <==> name in Names(tree, root)
  }

  /** Comparing the sorted listings decides whether the two trees are equal as maps from name to content. */
  lemma ListingsDecide(tree: Tree, target: Path, source: Path, targetFiles: seq<string>, sourceFiles: seq<string>)
    requires Lists(tree, target, targetFiles) && Lists(tree, source, sourceFiles)
    ensures SameListing(tree, target, source, targetFiles, sourceFiles) <==> Files(tree, target) == Files(tree, source)
  {
    var a, b := Files(tree, target), Files(tree, source);
    assert a.Keys == Names(tree, target) && b.Keys == Names(tree, source);
    if a == b {
      SortedIsUnique(targetFiles, sourceFiles);
      forall i | 0 <= i < |sourceFiles|
        ensures ContentOf(tree, Join(target, sourceFiles[i])) == ContentOf(tree, Join(source, sourceFiles[i]))
      {
        var name := sourceFiles[i];
        assert name in sourceFiles;
        assert a[name] == b[name];
      }
    }
    if SameListing(tree, target, source, targetFiles, sourceFiles) {
      forall name | name in b ensures name in a && a[name] == b[name] {
        assert name in sourceFiles;
      }
    }
  }

  method CompareListings(disk: Disk, target: Path, source: Path, targetFiles: seq<string>, sourceFiles: seq<string>)
      returns (same: bool)
    requires forall name :: name in targetFiles ==> IsFile(disk.tree, Join(target, name))
    requires forall name :: name in sourceFiles ==> IsFile(disk.tree, Join(source, name))
    ensures same <==> SameListing(disk.tree, target, source, targetFiles, sourceFiles)
  {
    if |targetFiles| != |sourceFiles| {
      return false;
    }
    for i := 0 to |sourceFiles|
      invariant forall j :: 0 <= j < i ==> targetFiles[j] == sourceFiles[j]
      invariant forall j :: 0 <= j < i ==>
                  ContentOf(disk.tree, Join(target, sourceFiles[j]))
                      == ContentOf(disk.tree, Join(source, sourceFiles[j]))
    {
      if targetFiles[i] != sourceFiles[i] {
        return false;
      }
      var targetContent := disk.ReadFile(Join(target, targetFiles[i]));
      var sourceContent := disk.ReadFile(Join(source, sourceFiles[i]));
      if targetContent != sourceContent {
        return false;
      }
    }
    return true;
  }

  // ------------------------------------------------------------------
  // A directory: the replacement
  // ------------------------------------------------------------------

  /** Outside the target nothing changed but for directories added above it. */
  ghost predicate OutsideKept(before: Tree, after: Tree, target: Path) {
    forall p :: !Within(target, p) ==>
      && (p in before ==> p in after && after[p] == before[p])
      && (p in after && p !in before ==> Under(p, target) && after[p].Dir?)
  }

  /** The target holds exactly the files named, each with the content its source had at the start. */
  ghost predicate Copied(start: Tree, tree: Tree, target: Path, source: Path, names: seq<string>) {
    && (forall name :: IsFile(tree, Join(target, name)) <==> name in names)
    && (forall name :: name in names ==> ContentOf(tree, Join(target, name)) == ContentOf(start, Join(source, name)))
    && (forall p :: p in tree && Within(target, p) && tree[p].Dir? ==>
          exists name :: name in names && Under(p, Join(target, name)))
    && !IsFile(tree, target)
  }

  lemma OutsideKeptTwice(a: Tree, b: Tree, c: Tree, target: Path)
    requires OutsideKept(a, b, target) && OutsideKept(b, c, target)
    ensures OutsideKept(a, c, target)
  {
  }

  /** Neither a file nor a directory stands in the way of the next copy. */
  lemma NextIsWritable(start: Tree, tree: Tree, target: Path, source: Path, names: seq<string>, name: string)
    requires Valid(start) && Copied(start, tree, target, source, names) && NoFileAbove(tree, target)
    requires name in Names(start, source) && forall x :: x in names ==> x in Names(start, source)
    ensures Writable(tree, Join(target, name))
  {
    var path := Join(target, name);
    JoinIsUnder(target, name);
    NamesExactly(start, source, name);
    forall q | Under(q, path) ensures !IsFile(tree, q) {
      AboveIsLinear(q, target, path);
      if Under(target, q) {
        RelJoins(target, q);
        if Rel(target, q) in names {
          NamesExactly(start, source, Rel(target, q));
          NestingMoves(target, source, Rel(target, q), name);
        }
      }
    }
    if path in tree && tree[path].Dir? {
      var x :| x in names && Under(path, Join(target, x));
      NamesExactly(start, source, x);
      NestingMoves(target, source, name, x);
    }
  }

  lemma CopyStep(start: Tree, before: Tree, after: Tree, target: Path, source: Path, names: seq<string>, name: string)
    requires Copied(start, before, target, source, names)
    requires Landed(before, after, Join(target, name), ContentOf(start, Join(source, name)))
    requires Writable(before, Join(target, name))
    ensures Copied(start, after, target, source, names + [name])
  {
    var path := Join(target, name);
    JoinIsUnder(target, name);
    forall x ensures IsFile(after, Join(target, x)) <==> x in names + [name] {
      JoinIsUnder(target, x);
    }
    forall x | x in names + [name]
      ensures ContentOf(after, Join(target, x)) == ContentOf(start, Join(source, x))
    {
      JoinIsUnder(target, x);
    }
    forall p | p in after && Within(target, p) && after[p].Dir?
      ensures exists x :: x in names + [name] && Under(p, Join(target, x))
    {
      if p in before {
        var x :| x in names && Under(p, Join(target, x));
        assert x in names + [name];
      } else {
        assert name in names + [name];
      }
    }
  }

  /** One round of the copy loop. */
  method CopyFile(disk: Disk, target: Path, source: Path, name: string) returns (r: Result<(), Fault>)
    requires Valid(disk.tree)
    modifies disk
    ensures Valid(disk.tree) && OutsideKept(old(disk.tree), disk.tree, target)
    ensures r.Ok? <==> Writable(old(disk.tree), Join(target, name)) && IsFile(old(disk.tree), Join(source, name))
    ensures r.Ok? ==>
              Landed(old(disk.tree), disk.tree, Join(target, name), ContentOf(old(disk.tree), Join(source, name)))
  {
    var path := Join(target, name);
    r := disk.MakeParents(path);
    if r.Err? {
      return;
    }
    ParentsBelowTarget(old(disk.tree), disk.tree, target, name);
    ghost var made := disk.tree;
    var content := disk.ReadFile(Join(source, name));
    if content.Err? {
      return Err(content.error);
    }
    r := disk.WriteFile(path, content.value);
    JoinIsUnder(target, name);
    assert OutsideKept(made, disk.tree, target);
  }

  lemma ParentsBelowTarget(before: Tree, after: Tree, target: Path, name: string)
    requires ParentsAdded(before, after, Join(target, name))
    ensures OutsideKept(before, after, target)
  {
    JoinIsUnder(target, name);
    forall p | Under(p, Join(target, name)) && !Within(target, p) ensures Under(p, target) {
      AboveIsLinear(p, target, Join(target, name));
    }
  }

  lemma RemovedStays(start: Tree, cleared: Tree, target: Path)
    requires forall p :: p in cleared <==> p in start && !Within(target, p)
    requires forall p :: p in cleared ==> cleared[p] == start[p]
    ensures NoFileAbove(cleared, target) <==> NoFileAbove(start, target)
    ensures OutsideKept(start, cleared, target)
  {
    forall q | Under(q, target) ensures IsFile(cleared, q) <==> IsFile(start, q) {
      assert !Within(target, q);
    }
  }

  /** No source file lies inside the target: so with trees apart, or a target that holds no file inside its source. */
  ghost predicate Spared(start: Tree, target: Path, source: Path) {
    forall name :: name in Names(start, source) ==> !Within(target, Join(source, name))
  }

  lemma ApartIsSpared(start: Tree, target: Path, source: Path)
    requires Apart(target, source) || (Under(source, target) && Names(start, target) == {} && !IsFile(start, target))
    ensures Spared(start, target, source)
  {
    forall name | name in Names(start, source) ensures !Within(target, Join(source, name)) {
      NamesExactly(start, source, name);
      if Apart(target, source) {
        OutsideApart(target, source, name);
      } else if Under(target, Join(source, name)) {
        RelJoins(target, Join(source, name));
        NamesExactly(start, target, Rel(target, Join(source, name)));
      }
    }
  }

  /** Spared by the removal a source file survives; inside the target it goes with it. */
  lemma SourceIsThere(start: Tree, tree: Tree, target: Path, source: Path, name: string)
    requires OutsideKept(start, tree, target) && name in Names(start, source)
    ensures Spared(start, target, source) ==>
              IsFile(tree, Join(source, name)) && tree[Join(source, name)] == start[Join(source, name)]
    ensures Within(target, source) ==> Within(target, Join(source, name))
  {
    var path := Join(source, name);
    NamesExactly(start, source, name);
    JoinIsUnder(source, name);
    if Under(target, source) {
      UnderIsTransitive(target, source, path);
    }
  }

  /** The state the copy loop keeps, after the first `names`. */
  ghost predicate Copying(start: Tree, tree: Tree, target: Path, source: Path, names: seq<string>) {
    && OutsideKept(start, tree, target) && NoFileAbove(tree, target)
    && (Spared(start, target, source) ==> Copied(start, tree, target, source, names))
    && (Within(target, source) ==> names == [] && forall p :: Within(target, p) ==> p !in tree)
  }

  /**
   A round that succeeds leads to the state after one more name; when the sources were spared every
   round succeeds.
   */
  lemma CopyRound(start: Tree, before: Tree, after: Tree, target: Path, source: Path, names: seq<string>, name: string)
    requires Valid(start) && Copying(start, before, target, source, names)
    requires name in Names(start, source) && forall x :: x in names ==> x in Names(start, source)
    ensures Spared(start, target, source) ==> Writable(before, Join(target, name)) && IsFile(before, Join(source, name))
    ensures Within(target, source) ==> !IsFile(before, Join(source, name))
    ensures IsFile(before, Join(source, name)) && Writable(before, Join(target, name))
            && OutsideKept(before, after, target)
            && Landed(before, after, Join(target, name), ContentOf(before, Join(source, name)))
            ==> Copying(start, after, target, source, names + [name])
  {
    SourceIsThere(start, before, target, source, name);
    if Spared(start, target, source) {
      NextIsWritable(start, before, target, source, names, name);
    }
    if && IsFile(before, Join(source, name)) && Writable(before, Join(target, name))
       && OutsideKept(before, after, target)
       && Landed(before, after, Join(target, name), ContentOf(before, Join(source, name)))
    {
      OutsideKeptTwice(start, before, after, target);
      StillNoFileAbove(before, after, target);
      if Spared(start, target, source) {
        CopyStep(start, before, after, target, source, names, name);
      }
    }
  }

  lemma StillNoFileAbove(before: Tree, after: Tree, target: Path)
    requires OutsideKept(before, after, target) && NoFileAbove(before, target)
    ensures NoFileAbove(after, target)
  {
    forall q | Under(q, target) ensures !IsFile(after, q) {
      assert !Within(target, q);
    }
  }

  /** A round of the loop, seen from its start. */
  method CopyNext(disk: Disk, target: Path, source: Path, name: string, ghost start: Tree, ghost names: seq<string>)
      returns (r: Result<(), Fault>)
    requires Valid(disk.tree) && Valid(start) && Copying(start, disk.tree, target, source, names)
    requires name in Names(start, source) && forall x :: x in names ==> x in Names(start, source)
    modifies disk
    ensures Valid(disk.tree) && OutsideKept(start, disk.tree, target)
    ensures Spared(start, target, source) ==> r.Ok?
    ensures r.Ok? ==> Copying(start, disk.tree, target, source, names + [name])
  {
    ghost var before := disk.tree;
    r := CopyFile(disk, target, source, name);
    CopyRound(start, before, disk.tree, target, source, names, name);
    OutsideKeptTwice(start, before, disk.tree, target);
  }

  method CopyAll(disk: Disk, target: Path, source: Path, sourceFiles: seq<string>, ghost start: Tree)
      returns (r: Result<(), Fault>)
    requires Valid(disk.tree) && Valid(start) && Lists(start, source, sourceFiles)
    requires Copying(start, disk.tree, target, source, [])
    modifies disk
    ensures Valid(disk.tree) && OutsideKept(start, disk.tree, target)
    ensures Spared(start, target, source) ==> r.Ok?
    ensures r.Ok? ==> Copying(start, disk.tree, target, source, sourceFiles)
  {
    for i := 0 to |sourceFiles|
      invariant Valid(disk.tree) && Copying(start, disk.tree, target, source, sourceFiles[..i])
    {
      r := CopyNext(disk, target, source, sourceFiles[i], start, sourceFiles[..i]);
      if r.Err? {
        return;
      }
      assert sourceFiles[..i + 1] == sourceFiles[..i] + [sourceFiles[i]];
    }
    assert sourceFiles[..|sourceFiles|] == sourceFiles;
    return Ok(());
  }

  /**
   Only what is inside the target changes; spared sources are copied exactly, and only a file above
   the target stops it.
   */
  method ReplaceDirectory(disk: Disk, target: Path, source: Path, sourceFiles: seq<string>)
      returns (r: Result<(), Fault>)
    requires Valid(disk.tree) && Lists(disk.tree, source, sourceFiles) && !IsFile(disk.tree, target)
    modifies disk
    ensures Valid(disk.tree) && OutsideKept(old(disk.tree), disk.tree, target)
    ensures Spared(old(disk.tree), target, source) ==> (r.Ok? <==> NoFileAbove(old(disk.tree), target))
    ensures Spared(old(disk.tree), target, source) && r.Ok? ==>
              Copied(old(disk.tree), disk.tree, target, source, sourceFiles)
    ensures Within(target, source) && r.Ok? ==> sourceFiles == []
  {
    ghost var start := disk.tree;
    disk.RemoveAll(target);
    RemovedStays(start, disk.tree, target);
    ghost var cleared := disk.tree;
    r := disk.MakeParents(target);
    if r.Err? {
      return;
    }
    StartsCopying(start, cleared, disk.tree, target, source);
    r := CopyAll(disk, target, source, sourceFiles, start);
  }

  lemma StartsCopying(start: Tree, cleared: Tree, tree: Tree, target: Path, source: Path)
    requires OutsideKept(start, cleared, target) && forall p :: Within(target, p) ==> p !in cleared
    requires ParentsAdded(cleared, tree, target)
    ensures Copying(start, tree, target, source, [])
  {
    forall p | Within(target, p) ensures p !in tree {
      assert !Under(p, target);
    }
    forall name ensures !IsFile(tree, Join(target, name)) {
      JoinIsUnder(target, name);
    }
    assert OutsideKept(cleared, tree, target);
    OutsideKeptTwice(start, cleared, tree, target);
  }

  /** `assertOrReplaceDirectory` */
  method AssertOrReplaceDirectory(disk: Disk, target: Path, source: Path, check: bool) returns (r: Result<(), Fault>)
    requires Valid(disk.tree)
    modifies disk
    ensures Valid(disk.tree) && OutsideKept(old(disk.tree), disk.tree, target)
    ensures check ==> disk.tree == old(disk.tree)
    ensures check ==>
              (r.Ok? <==>
               !IsFile(disk.tree, target) && !IsFile(disk.tree, source)
               && Files(disk.tree, target) == Files(disk.tree, source))
    ensures !check && Spared(old(disk.tree), target, source) ==>
              (r.Ok? <==>
               !IsFile(old(disk.tree), target) && !IsFile(old(disk.tree), source)
               && NoFileAbove(old(disk.tree), target))
    ensures !check && Spared(old(disk.tree), target, source) && r.Ok? ==>
              !IsFile(disk.tree, target) && Files(disk.tree, target) == Files(old(disk.tree), source)
    ensures !check && Apart(target, source) && r.Ok? ==>
              && !IsFile(disk.tree, target) && Files(disk.tree, target) == Files(old(disk.tree), source)
              && !IsFile(disk.tree, source) && Files(disk.tree, source) == Files(old(disk.tree), source)
    ensures !check && Within(target, source) && r.Ok? ==> Names(old(disk.tree), source) == {}
  {
    var targets := disk.CollectFiles(target);
    if targets.Err? {
      return Err(targets.error);
    }
    var sources := disk.CollectFiles(source);
    if sources.Err? {
      return Err(sources.error);
    }
    if check {
      var same := CheckListings(disk, target, source, targets.value, sources.value);
      return if same then Ok(()) else Err(Drift);
    }
    ghost var start := disk.tree;
    r := ReplaceDirectory(disk, target, source, sources.value);
    if Spared(start, target, source) && r.Ok? {
      CopiedMeansSame(start, disk.tree, target, source, sources.value);
    }
    if Apart(target, source) && r.Ok? {
      ApartIsSpared(start, target, source);
      SourceStays(start, disk.tree, target, source);
    }
  }

  method CheckListings(disk: Disk, target: Path, source: Path, targetFiles: seq<string>, sourceFiles: seq<string>)
      returns (same: bool)
    requires Lists(disk.tree, target, targetFiles) && Lists(disk.tree, source, sourceFiles)
    ensures same <==> Files(disk.tree, target) == Files(disk.tree, source)
  {
    forall name ensures name in targetFiles <==> IsFile(disk.tree, Join(target, name)) {
      NamesExactly(disk.tree, target, name);
    }
    forall name ensures name in sourceFiles <==> IsFile(disk.tree, Join(source, name)) {
      NamesExactly(disk.tree, source, name);
    }
    ListingsDecide(disk.tree, target, source, targetFiles, sourceFiles);
    same := CompareListings(disk, target, source, targetFiles, sourceFiles);
  }

  lemma CopiedMeansSame(start: Tree, tree: Tree, target: Path, source: Path, names: seq<string>)
    requires Lists(start, source, names) && Copied(start, tree, target, source, names)
    ensures Files(tree, target) == Files(start, source)
  {
    forall name
      ensures IsFile(tree, Join(target, name)) <==> IsFile(start, Join(source, name))
      ensures ContentOf(tree, Join(target, name)) == ContentOf(start, Join(source, name))
    {
      NamesExactly(start, source, name);
    }
    SameFiles(tree, target, start, source);
  }

  lemma SourceStays(start: Tree, tree: Tree, target: Path, source: Path)
    requires Apart(target, source) && OutsideKept(start, tree, target)
    ensures Files(tree, source) == Files(start, source)
  {
    forall name
      ensures IsFile(tree, Join(source, name)) <==> IsFile(start, Join(source, name))
      ensures ContentOf(tree, Join(source, name)) == ContentOf(start, Join(source, name))
    {
      OutsideApart(target, source, name);
      assert !Within(target, Join(source, name));
    }
    SameFiles(tree, source, start, source);
  }

  lemma OutsideApart(target: Path, source: Path, name: string)
    requires Apart(target, source)
    ensures !Within(target, Join(source, name))
  {
    JoinIsUnder(source, name);
    if Under(target, Join(source, name)) {
      AboveIsLinear(target, source, Join(source, name));
    }
  }

  /** A check right after a replacement from a tree apart from the target always succeeds. */
  method ReplaceThenCheck(disk: Disk, target: Path, source: Path)
      returns (replaced: Result<(), Fault>, checked: Result<(), Fault>)
    requires Valid(disk.tree)
    modifies disk
    ensures Apart(target, source) && replaced.Ok? ==> checked.Ok?
  {
    replaced := AssertOrReplaceDirectory(disk, target, source, false);
    checked := AssertOrReplaceDirectory(disk, target, source, true);
  }
}
