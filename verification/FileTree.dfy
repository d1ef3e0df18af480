/**
 A disk as a map from paths to files and directories, with the operations of
 Node's `fs` that scripts/update-loyal-smart-accounts.ts uses.
 */
module FileTree {
  import opened Prelude

  type Path = p: string | p != "" witness "."

  datatype Node = File(content: string) | Dir

  type Tree = map<Path, Node>

  datatype Fault = NotADirectory | IsADirectory | Missing | Drift

  /** `p` lies properly below `root`. */
  predicate Under(root: Path, p: Path) {
    |root| < |p| && p[..|root|] == root && p[|root|] == '/'
  }

  predicate Within(root: Path, p: Path) {
    p == root || Under(root, p)
  }

  predicate Apart(a: Path, b: Path) {
    !Within(a, b) && !Within(b, a)
  }

  function Join(root: Path, rel: string): Path {
    root + "/" + rel
  }

  function Rel(root: Path, p: Path): string
    requires Under(root, p)
  {
    p[|root| + 1..]
  }

  predicate IsFile(tree: Tree, p: Path) {
    p in tree && tree[p].File?
  }

  /** Everything above something that exists is a directory. */
  ghost predicate Valid(tree: Tree) {
    forall p, q :: p in tree && Under(q, p) ==> q in tree && tree[q].Dir?
  }

  ghost predicate NoFileAbove(tree: Tree, path: Path) {
    forall q :: Under(q, path) ==> !IsFile(tree, q)
  }

  /** The names, relative to `root`, of the files below it. */
  ghost function Names(tree: Tree, root: Path): set<string> {
    set p | p in tree && tree[p].File? && Under(root, p) :: Rel(root, p)
  }

  /** The files below `root` as a map from relative name to content. */
  ghost function Files(tree: Tree, root: Path): map<string, string> {
    map name | name in Names(tree, root) :: ContentOf(tree, Join(root, name))
  }

  function ContentOf(tree: Tree, p: Path): string {
    if IsFile(tree, p) then tree[p].content else ""
  }

  // ------------------------------------------------------------------
  // Paths
  // ------------------------------------------------------------------

  lemma JoinIsUnder(root: Path, rel: string)
    ensures Under(root, Join(root, rel)) && Rel(root, Join(root, rel)) == rel
  {
    assert Join(root, rel)[..|root|] == root;
  }

  lemma RelJoins(root: Path, p: Path)
    requires Under(root, p)
    ensures Join(root, Rel(root, p)) == p
  {
    assert p == p[..|root|] + [p[|root|]] + p[|root| + 1..];
  }

  lemma UnderIsTransitive(a: Path, b: Path, c: Path)
    requires Under(a, b) && Under(b, c)
    ensures Under(a, c)
  {
    assert c[..|b|][..|a|] == c[..|a|];
    assert c[..|b|][|a|] == c[|a|];
  }

  /** Two paths above the same path are themselves in line. */
  lemma AboveIsLinear(a: Path, b: Path, p: Path)
    requires Under(a, p) && Under(b, p)
    ensures a == b || Under(a, b) || Under(b, a)
  {
    if |a| < |b| {
      assert p[..|b|][..|a|] == p[..|a|];
      assert p[..|b|][|a|] == p[|a|];
    } else if |b| < |a| {
      assert p[..|a|][..|b|] == p[..|b|];
      assert p[..|a|][|b|] == p[|b|];
    }
  }

  /** Nesting of relative names does not depend on the root they are joined to. */
  lemma NestingMoves(a: Path, b: Path, outer: string, inner: string)
    requires Under(Join(a, outer), Join(a, inner))
    ensures Under(Join(b, outer), Join(b, inner))
  {
    var n := |outer|;
    assert Join(a, inner)[..|a| + 1 + n][|a| + 1..] == Join(a, outer)[|a| + 1..];
    assert inner[..n] == Join(a, inner)[|a| + 1..|a| + 1 + n];
    assert Join(b, inner)[..|b| + 1 + n] == b + "/" + inner[..n];
  }

  lemma NamesExactly(tree: Tree, root: Path, name: string)
    ensures name in Names(tree, root) <==> IsFile(tree, Join(root, name))
  {
    JoinIsUnder(root, name);
    forall p | p in tree && tree[p].File? && Under(root, p) && Rel(root, p) == name
      ensures p == Join(root, name)
    {
      RelJoins(root, p);
    }
  }

  /** Two listings hold the same files when they agree name by name. */
  lemma SameFiles(a: Tree, rootA: Path, b: Tree, rootB: Path)
    requires forall name :: IsFile(a, Join(rootA, name)) <==> IsFile(b, Join(rootB, name))
    requires forall name :: ContentOf(a, Join(rootA, name)) == ContentOf(b, Join(rootB, name))
    ensures Files(a, rootA) == Files(b, rootB)
  {
    forall name ensures name in Names(a, rootA) <==> name in Names(b, rootB) {
      NamesExactly(a, rootA, name);
      NamesExactly(b, rootB, name);
    }
  }

  // ------------------------------------------------------------------
  // Names in order
  // ------------------------------------------------------------------

  /** The order of JavaScript's default sort: character by character. */
  predicate Less(a: string, b: string) {
    b != "" && (a == "" || a[0] < b[0] || (a[0] == b[0] && Less(a[1..], b[1..])))
  }

  ghost predicate Sorted(names: seq<string>) {
    forall i, j :: 0 <= i < j < |names| ==> Less(names[i], names[j])
  }

  lemma {:induction false} LessIsTransitive(a: string, b: string, c: string)
    requires Less(a, b) && Less(b, c)
    ensures Less(a, c)
  {
    if a != "" && a[0] == b[0] && b[0] == c[0] {
      LessIsTransitive(a[1..], b[1..], c[1..]);
    }
  }

  lemma {:induction false} LessIsTotal(a: string, b: string)
    ensures a == b || Less(a, b) || Less(b, a)
    ensures !(Less(a, b) && Less(b, a)) && !Less(a, a)
  {
    if a != "" && b != "" {
      LessIsTotal(a[1..], b[1..]);
      assert a[1..] == b[1..] && a[0] == b[0] ==> a == [a[0]] + a[1..] == b;
    }
    if a != "" {
      LessIsTotal(a[1..], a[1..]);
    }
  }

  function Insert(names: seq<string>, name: string): seq<string> {
    if names == [] then [name]
    else if Less(name, names[0]) then [name] + names
    else [names[0]] + Insert(names[1..], name)
  }

  lemma {:induction false} InsertSorts(names: seq<string>, name: string)
    requires Sorted(names) && name !in names
    ensures Sorted(Insert(names, name))
    ensures forall x :: x in Insert(names, name) <==> x == name || x in names
  {
    if names != [] {
      LessIsTotal(name, names[0]);
      assert names == [names[0]] + names[1..];
      if Less(name, names[0]) {
        forall j | 0 <= j < |names| ensures Less(name, names[j]) {
          if j > 0 {
            LessIsTransitive(name, names[0], names[j]);
          }
        }
      } else {
        InsertSorts(names[1..], name);
        forall x | x in Insert(names[1..], name) ensures Less(names[0], x) {
          if x != name {
            var i :| 0 <= i < |names[1..]| && names[1..][i] == x;
            assert Less(names[0], names[i + 1]);
          }
        }
      }
    }
  }

  /** A sorted list is determined by what it holds. */
  lemma {:induction false} SortedIsUnique(a: seq<string>, b: seq<string>)
    requires Sorted(a) && Sorted(b) && forall x :: x in a <==> x in b
    ensures a == b
  {
    FirstIsIn(a);
    FirstIsIn(b);
    if a != [] && b != [] {
      FirstIsLeast(a, b);
      FirstIsLeast(b, a);
      LessIsTotal(a[0], b[0]);
      forall x ensures x in a[1..] <==> x in b[1..] {
        TailHolds(a, x);
        TailHolds(b, x);
      }
      SortedIsUnique(a[1..], b[1..]);
      assert a == [a[0]] + a[1..] && b == [b[0]] + b[1..];
    }
  }

  lemma FirstIsIn(a: seq<string>)
    ensures a == [] || a[0] in a
  {
  }

  lemma FirstIsLeast(a: seq<string>, b: seq<string>)
    requires Sorted(a) && a != [] && b != [] && b[0] in a
    ensures a[0] == b[0] || Less(a[0], b[0])
  {
    var i :| 0 <= i < |a| && a[i] == b[0];
  }

  lemma TailHolds(a: seq<string>, x: string)
    requires Sorted(a) && a != []
    ensures x in a[1..] <==> x in a && x != a[0]
  {
    assert a == [a[0]] + a[1..];
    if a[0] in a[1..] {
      var i :| 0 <= i < |a[1..]| && a[1..][i] == a[0];
      assert Less(a[0], a[i + 1]);
      LessIsTotal(a[0], a[0]);
    }
  }

  // ------------------------------------------------------------------
  // The disk
  // ------------------------------------------------------------------

  /** Only the missing directories above `path` were added. */
  ghost predicate ParentsAdded(before: Tree, after: Tree, path: Path) {
    && (forall q :: q in after <==> q in before || Under(q, path))
    && (forall q :: q in before ==> after[q] == before[q])
    && (forall q :: q in after && Under(q, path) ==> after[q] == Dir)
  }

  /** Of the directories above `path`, those shorter than `i` are there. */
  ghost predicate MadeUpTo(before: Tree, after: Tree, path: Path, i: int) {
    && (forall q :: q in after <==> q in before || (Under(q, path) && |q| < i))
    && (forall q :: q in before ==> after[q] == before[q])
    && (forall q :: q in after && Under(q, path) && |q| < i ==> after[q] == Dir)
  }

  lemma MakeOne(before: Tree, tree: Tree, path: Path, i: int)
    requires 0 < i < |path| && path[i] == '/' && Valid(tree) && MadeUpTo(before, tree, path, i)
    requires path[..i] in tree ==> tree[path[..i]] == Dir
    ensures Valid(tree[path[..i] := Dir]) && MadeUpTo(before, tree[path[..i] := Dir], path, i + 1)
  {
    var above: Path := path[..i];
    LastAbove(above, path);
    MadeDirectory(tree, above);
  }

  /** A file above `path` means that nothing was missing above that file. */
  lemma FileBlocks(before: Tree, tree: Tree, path: Path, i: int)
    requires 0 < i < |path| && path[i] == '/' && Valid(before) && MadeUpTo(before, tree, path, i)
    requires IsFile(tree, path[..i])
    ensures !NoFileAbove(before, path) && tree == before
  {
    var above: Path := path[..i];
    LastAbove(above, path);
    assert IsFile(before, above);
    assert forall q :: q in tree ==> q in before;
  }

  class Disk {
    var tree: Tree

    /** `mkdirSync(dirname(path), { recursive: true })` */
    method MakeParents(path: Path) returns (r: Result<(), Fault>)
      requires Valid(tree)
      modifies this
      ensures Valid(tree)
      ensures r.Ok? <==> NoFileAbove(old(tree), path)
      ensures r.Err? ==> r.error == NotADirectory && tree == old(tree)
      ensures r.Ok? ==> ParentsAdded(old(tree), tree, path)
    {
      for i := 1 to |path|
        invariant Valid(tree) && MadeUpTo(old(tree), tree, path, i)
      {
        if path[i] == '/' {
          if path[..i] in tree && tree[path[..i]].File? {
            FileBlocks(old(tree), tree, path, i);
            return Err(NotADirectory);
          }
          MakeOne(old(tree), tree, path, i);
          tree := tree[path[..i] := Dir];
        }
      }
      return Ok(());
    }

    /** `writeFileSync(path, content)` */
    method WriteFile(path: Path, content: string) returns (r: Result<(), Fault>)
      requires Valid(tree)
      modifies this
      ensures Valid(tree)
      ensures r.Ok? <==>
              !(path in old(tree) && old(tree)[path].Dir?)
              && forall q :: Under(q, path) ==> q in old(tree) && old(tree)[q].Dir?
      ensures tree == if r.Ok? then old(tree)[path := File(content)] else old(tree)
    {
      if path in tree && tree[path].Dir? {
        return Err(IsADirectory);
      }
      for i := 1 to |path|
        invariant tree == old(tree)
        invariant forall q :: Under(q, path) && |q| < i ==> q in tree && tree[q].Dir?
      {
        var above: Path := path[..i];
        if path[i] == '/' && !(above in tree && tree[above].Dir?) {
          assert Under(above, path);
          return Err(if above in tree then NotADirectory else Missing);
        }
        assert forall q :: Under(q, path) && |q| == i ==> q == above;
      }
      tree := tree[path := File(content)];
      return Ok(());
    }

    method ReadFile(path: Path) returns (r: Result<string, Fault>)
      ensures r.Ok? <==> IsFile(tree, path)
      ensures r.Ok? ==> r.value == tree[path].content
    {
      if path !in tree {
        return Err(Missing);
      }
      match tree[path]
      case File(content) => return Ok(content);
      case Dir => return Err(IsADirectory);
    }

    /** `rmSync(path, { recursive: true, force: true })` */
    method RemoveAll(path: Path)
      requires Valid(tree)
      modifies this
      ensures Valid(tree)
      ensures forall p :: p in tree <==> p in old(tree) && !Within(path, p)
      ensures forall p :: p in tree ==> tree[p] == old(tree)[p]
    {
      forall p, q | p in tree && !Within(path, p) && Under(q, p) ensures !Within(path, q) {
        if Under(path, q) {
          UnderIsTransitive(path, q, p);
        }
      }
      tree := map p | p in tree && !Within(path, p) :: tree[p];
    }

    /** `collectFiles`: the files below a root, sorted; nothing when there is no such root. */
    method CollectFiles(root: Path) returns (r: Result<seq<string>, Fault>)
      requires Valid(tree)
      ensures r.Ok? <==> !IsFile(tree, root)
      ensures r.Ok? ==> Sorted(r.value) && forall name :: name in r.value <==> name in Names(tree, root)
    {
      if root !in tree {
        return Ok([]);
      }
      if tree[root].File? {
        return Err(NotADirectory);
      }
      var names: seq<string> := [];
      var left := tree.Keys;
      while left != {}
        invariant left <= tree.Keys
        invariant Sorted(names)
        invariant forall name :: name in names <==> IsFile(tree, Join(root, name)) && Join(root, name) !in left
      {
        var p: Path :| p in left;
        if Under(root, p) && tree[p].File? {
          var name := Rel(root, p);
          RelJoins(root, p);
          InsertSorts(names, name);
          names := Insert(names, name);
          forall x | Join(root, x) == p ensures x == name {
            JoinIsUnder(root, x);
          }
        } else {
          forall x | Join(root, x) == p ensures !IsFile(tree, p) {
            JoinIsUnder(root, x);
          }
        }
        left := left - {p};
      }
      forall name ensures name in names <==> name in Names(tree, root) {
        NamesExactly(tree, root, name);
      }
      return Ok(names);
    }
  }

  /** Of the paths above `path`, those shorter than `above` are above it too. */
  lemma LastAbove(above: Path, path: Path)
    requires |above| < |path| && above == path[..|above|] && path[|above|] == '/'
    ensures Under(above, path)
    ensures forall q :: Under(q, path) && |q| < |above| ==> Under(q, above)
    ensures forall q :: Under(q, path) && |q| == |above| ==> q == above
  {
    forall q | Under(q, path) && |q| < |above| ensures Under(q, above) {
      AboveIsLinear(q, above, path);
    }
  }

  lemma MadeDirectory(tree: Tree, path: Path)
    requires Valid(tree) && (path in tree ==> tree[path].Dir?)
    requires forall q :: Under(q, path) ==> q in tree && tree[q].Dir?
    ensures Valid(tree[path := Dir])
  {
  }
}
