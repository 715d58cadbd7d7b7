// Building the nested repository tree from a flat list of paths.
// `compare` stands for String.prototype.localeCompare; the theorems hold for every
// comparison that orders any two names and is transitive.
module RepositoryTree {
  import opened Collections
  import opened Text
  import opened ExcludePaths
  import opened TreeShape

  datatype Entry = Entry(path: string, isDir: bool)

  type Compare = (string, string) -> int

  // The path without its outer slashes, cut at '/', empty parts dropped.
  function Parts(path: string): (parts: seq<string>)
    ensures forall p :: p in parts ==> NameOk(p)
  {
    var trimmed := Trim(path, IsSlash);
    var cut := Split(trimmed);
    var parts := NonEmpty(cut);
    assert forall i :: 0 <= i < |parts| ==> NameOk(parts[i]);
    parts
  }

  function IndexOf(level: seq<Node>, name: string): (k: nat)
    ensures k <= |level|
    ensures k < |level| ==> level[k].name == name
    ensures forall i :: 0 <= i < k ==> level[i].name != name
  {
    if level == [] || level[0].name == name then 0 else 1 + IndexOf(level[1..], name)
  }

  // One entry: walk down the levels, adding the nodes that are missing.  A file met on
  // the way does not open a level, so the walk goes on among its siblings.
  function Insert(level: seq<Node>, parts: seq<string>, isDir: bool): seq<Node>
    decreases |parts|
  {
    if parts == [] then level
    else
      var k := IndexOf(level, parts[0]);
      var rest := parts[1..];
      if k == |level| then
        if rest == [] && !isDir then level + [File(parts[0])]
        else level + [Dir(parts[0], Insert([], rest, isDir))]
      else match level[k]
        case Dir(name, children) => level[k := Dir(name, Insert(children, rest, isDir))]
        case File(_) => Insert(level, rest, isDir)
  }

  function InsertAll(level: seq<Node>, entries: seq<Entry>): seq<Node>
    decreases |entries|
  {
    if entries == [] then level
    else InsertAll(Insert(level, Parts(entries[0].path), entries[0].isDir), entries[1..])
  }

  // Directories first, then by name.
  predicate Before(a: Node, b: Node, compare: Compare) {
    if a.Dir? != b.Dir? then a.Dir? else compare(a.name, b.name) <= 0
  }

  function Place(n: Node, sorted: seq<Node>, compare: Compare): seq<Node> {
    if sorted == [] || Before(n, sorted[0], compare) then [n] + sorted
    else [sorted[0]] + Place(n, sorted[1..], compare)
  }

  // The stable sort of one level, after the levels below it.
  function SortNodes(nodes: seq<Node>, compare: Compare): seq<Node> {
    if nodes == [] then [] else Place(SortNode(nodes[0], compare), SortNodes(nodes[1..], compare), compare)
  }

  function SortNode(n: Node, compare: Compare): Node {
    match n
    case File(_) => n
    case Dir(name, children) => Dir(name, SortNodes(children, compare))
  }

  function Built(entries: seq<Entry>, compare: Compare): seq<Node> {
    SortNodes(InsertAll([], entries), compare)
  }

  method BuildRepositoryTree(entries: seq<Entry>, compare: Compare) returns (root: seq<Node>)
    ensures root == Built(entries, compare)
  {
    root := [];
    for i := 0 to |entries|
      invariant InsertAll(root, entries[i..]) == InsertAll([], entries)
    {
      assert entries[i..][0] == entries[i] && entries[i..][1..] == entries[i + 1..];
      var parts := Parts(entries[i].path);
      if parts == [] {
        continue;
      }
      root := Insert(root, parts, entries[i].isDir);
    }
    root := SortNodes(root, compare);
  }

  // ------------------------------------------------------------ the names in a path

  lemma {:induction false} SplitTwo(a: string, b: string)
    ensures Split(a + "/" + b) == Split(a) + Split(b)
  {
    var s := a + "/" + b;
    if a == "" {
      assert s[0] == '/' && s[1..] == b;
    } else {
      assert s[0] == a[0] && s[1..] == a[1..] + "/" + b;
      SplitTwo(a[1..], b);
    }
  }

  lemma {:induction false} NonEmptyJoin(a: seq<string>, b: seq<string>)
    ensures NonEmpty(a + b) == NonEmpty(a) + NonEmpty(b)
  {
    if a == [] {
      assert a + b == b;
    } else {
      assert (a + b)[0] == a[0] && (a + b)[1..] == a[1..] + b;
      NonEmptyJoin(a[1..], b);
    }
  }

  function Names(s: string): seq<string> {
    NonEmpty(Split(s))
  }

  lemma NamesTwo(a: string, b: string)
    ensures Names(a + "/" + b) == Names(a) + Names(b)
  {
    SplitTwo(a, b);
    NonEmptyJoin(Split(a), Split(b));
  }

  lemma NoNames()
    ensures Names("") == []
  {
    assert Split("") == [""] && NonEmpty([""]) == [] + NonEmpty([""][1..]);
  }

  lemma {:induction false} NamesLeft(s: string)
    ensures Names(TrimLeft(s, IsSlash)) == Names(s)
  {
    if s != "" && s[0] == '/' {
      NamesTwo("", s[1..]);
      NoNames();
      assert "" + "/" + s[1..] == s;
      NamesLeft(s[1..]);
    }
  }

  lemma {:induction false} NamesRight(s: string)
    ensures Names(TrimRight(s, IsSlash)) == Names(s)
    decreases |s|
  {
    if s != "" && s[|s| - 1] == '/' {
      NamesTwo(s[..|s| - 1], "");
      NoNames();
      assert s[..|s| - 1] + "/" + "" == s;
      NamesRight(s[..|s| - 1]);
    }
  }

  // The parts of a path are the names between its slashes, wherever and however many they are.
  lemma PartsMean(a: string, b: string, name: string)
    requires NameOk(name)
    ensures Parts(a + "/" + b) == Parts(a) + Parts(b)
    ensures Parts(name) == [name] && Parts("") == []
  {
    PartsAreNames(a + "/" + b);
    PartsAreNames(a);
    PartsAreNames(b);
    PartsAreNames(name);
    PartsAreNames("");
    NamesTwo(a, b);
    NoNames();
    SplitName(name, "", false);
    assert NonEmpty([name]) == [name];
  }

  lemma PartsAreNames(path: string)
    ensures Parts(path) == Names(path)
  {
    NamesLeft(path);
    NamesRight(TrimLeft(path, IsSlash));
  }

  // ------------------------------------------------------------ every input: distinct siblings, sorted levels

  lemma {:induction false} ShapedAppend(level: seq<Node>, n: Node)
    requires Shaped(level) && ShapedNode(n) && forall m :: m in level ==> m.name != n.name
    ensures Shaped(level + [n])
  {
    if level != [] {
      assert (level + [n])[1..] == level[1..] + [n];
      ShapedAppend(level[1..], n);
    } else {
      assert Shaped([n][1..]);
    }
  }

  lemma {:induction false} ShapedReplace(level: seq<Node>, k: nat, n: Node)
    requires Shaped(level) && k < |level| && ShapedNode(n) && n.name == level[k].name
    ensures Shaped(level[k := n])
  {
    if k > 0 {
      ShapedReplace(level[1..], k - 1, n);
      assert level[k := n][1..] == level[1..][k - 1 := n];
      forall m | m in level[k := n][1..] ensures m.name != level[0].name {
        if m == n { assert level[1..][k - 1] in level[1..]; }
      }
    } else {
      assert level[k := n][1..] == level[1..];
    }
  }

  lemma {:induction false} ShapedInsert(level: seq<Node>, parts: seq<string>, isDir: bool)
    requires Shaped(level) && forall p :: p in parts ==> NameOk(p)
    ensures Shaped(Insert(level, parts, isDir))
    decreases |parts|
  {
    if parts != [] {
      var k, rest := IndexOf(level, parts[0]), parts[1..];
      if k == |level| {
        ShapedInsert([], rest, isDir);
        forall m | m in level ensures m.name != parts[0] {}
        ShapedAppend(level, if rest == [] && !isDir then File(parts[0]) else Dir(parts[0], Insert([], rest, isDir)));
      } else if level[k].Dir? {
        Member(level, "", level[k], "");
        ShapedInsert(level[k].children, rest, isDir);
        ShapedReplace(level, k, Dir(level[k].name, Insert(level[k].children, rest, isDir)));
      } else {
        ShapedInsert(level, rest, isDir);
      }
    }
  }

  lemma {:induction false} ShapedInsertAll(level: seq<Node>, entries: seq<Entry>)
    requires Shaped(level)
    ensures Shaped(InsertAll(level, entries))
    decreases |entries|
  {
    if entries != [] {
      ShapedInsert(level, Parts(entries[0].path), entries[0].isDir);
      ShapedInsertAll(Insert(level, Parts(entries[0].path), entries[0].isDir), entries[1..]);
    }
  }

  // A directory and then a file, or two of a kind by their names.
  ghost predicate InOrder(a: Node, b: Node, compare: Compare) {
    (a.Dir? && b.File?) || (a.Dir? && b.Dir? && compare(a.name, b.name) <= 0) ||
    (a.File? && b.File? && compare(a.name, b.name) <= 0)
  }

  // Every two siblings in order, on every level.
  ghost predicate Sorted(nodes: seq<Node>, compare: Compare) {
    nodes == [] ||
    ((forall m :: m in nodes[1..] ==> InOrder(nodes[0], m, compare)) &&
     (nodes[0].Dir? ==> Sorted(nodes[0].children, compare)) && Sorted(nodes[1..], compare))
  }

  ghost predicate Orders(compare: Compare) {
    (forall a, b :: compare(a, b) <= 0 || compare(b, a) <= 0) &&
    (forall a, b, c :: compare(a, b) <= 0 && compare(b, c) <= 0 ==> compare(a, c) <= 0)
  }

  lemma {:induction false} PlaceMembers(n: Node, sorted: seq<Node>, compare: Compare)
    ensures forall m :: m in Place(n, sorted, compare) <==> m == n || m in sorted
  {
    if sorted != [] && !Before(n, sorted[0], compare) {
      PlaceMembers(n, sorted[1..], compare);
      assert sorted == [sorted[0]] + sorted[1..];
    }
  }

  lemma {:induction false} PlaceSorted(n: Node, sorted: seq<Node>, compare: Compare)
    requires Orders(compare) && Sorted(sorted, compare) && (n.Dir? ==> Sorted(n.children, compare))
    ensures Sorted(Place(n, sorted, compare), compare)
  {
    if sorted == [] {
      assert [n] + sorted == [n] && [n][1..] == [];
    } else if Before(n, sorted[0], compare) {
      assert ([n] + sorted)[1..] == sorted;
      assert sorted == [sorted[0]] + sorted[1..];
    } else {
      PlaceSorted(n, sorted[1..], compare);
      PlaceMembers(n, sorted[1..], compare);
      assert ([sorted[0]] + Place(n, sorted[1..], compare))[1..] == Place(n, sorted[1..], compare);
    }
  }

  lemma {:induction false} PlaceShaped(n: Node, nodes: seq<Node>, compare: Compare)
    requires Shaped(nodes) && ShapedNode(n) && forall m :: m in nodes ==> m.name != n.name
    ensures Shaped(Place(n, nodes, compare))
  {
    if nodes == [] {
      assert [n] + nodes == [n] && [n][1..] == [];
    } else if Before(n, nodes[0], compare) {
      assert ([n] + nodes)[1..] == nodes;
    } else {
      PlaceShaped(n, nodes[1..], compare);
      PlaceMembers(n, nodes[1..], compare);
      assert ([nodes[0]] + Place(n, nodes[1..], compare))[1..] == Place(n, nodes[1..], compare);
    }
  }

  lemma {:induction false} SortKeeps(nodes: seq<Node>, compare: Compare)
    requires Shaped(nodes)
    ensures Shaped(SortNodes(nodes, compare))
    ensures forall m :: m in SortNodes(nodes, compare) <==> exists n :: n in nodes && m == SortNode(n, compare)
    ensures Orders(compare) ==> Sorted(SortNodes(nodes, compare), compare)
    decreases nodes
  {
    if nodes != [] {
      var first, rest := SortNode(nodes[0], compare), SortNodes(nodes[1..], compare);
      if nodes[0].Dir? {
        SortKeeps(nodes[0].children, compare);
      }
      SortKeeps(nodes[1..], compare);
      PlaceMembers(first, rest, compare);
      assert nodes == [nodes[0]] + nodes[1..];
      forall m | m in rest ensures m.name != first.name {
        var n :| n in nodes[1..] && m == SortNode(n, compare);
      }
      forall m ensures m in SortNodes(nodes, compare) <==> exists n :: n in nodes && m == SortNode(n, compare) {
        if m in rest {
          var n :| n in nodes[1..] && m == SortNode(n, compare);
          assert n in nodes;
        } else if m == first {
          assert nodes[0] in nodes;
        }
      }
      PlaceShaped(first, rest, compare);
      if Orders(compare) {
        PlaceSorted(first, rest, compare);
      }
    }
  }

  // For every list of entries and every comparison sibling names are unique, and every level is
  // sorted when the comparison is an order.
  lemma LevelsInOrder(entries: seq<Entry>, compare: Compare)
    ensures Shaped(Built(entries, compare))
    ensures Orders(compare) ==> Sorted(Built(entries, compare), compare)
  {
    ShapedInsertAll([], entries);
    SortKeeps(InsertAll([], entries), compare);
  }

  // ------------------------------------------------------------ the files of the tree

  // The file, or the directory, that a list of names leads to.
  ghost predicate HasFile(nodes: seq<Node>, q: seq<string>)
    decreases |q|, 1
  {
    q != [] && exists n :: n in nodes && n.name == q[0] && LeadsToFile(n, q)
  }

  ghost predicate LeadsToFile(n: Node, q: seq<string>)
    requires q != []
    decreases |q|, 0
  {
    if |q| == 1 then n.File? else n.Dir? && HasFile(n.children, q[1..])
  }

  ghost predicate HasDir(nodes: seq<Node>, q: seq<string>)
    decreases |q|
  {
    q == [] || exists n :: n in nodes && n.name == q[0] && n.Dir? && HasDir(n.children, q[1..])
  }

  lemma FileOfNode(nodes: seq<Node>, n: Node, q: seq<string>)
    requires Shaped(nodes) && n in nodes && q != [] && q[0] == n.name
    ensures HasFile(nodes, q) <==> LeadsToFile(n, q)
    ensures HasDir(nodes, q) <==> n.Dir? && HasDir(n.children, q[1..])
  {
    forall m | m in nodes && m.name == q[0] ensures m == n {
      SameNode(nodes, m, n);
    }
  }

  // The entry meets no file where it needs a directory, and no directory where it is a file.
  ghost predicate Fits(nodes: seq<Node>, parts: seq<string>, isDir: bool) {
    (forall i :: 0 < i < |parts| ==> !HasFile(nodes, parts[..i])) &&
    (if isDir then !HasFile(nodes, parts) else !HasDir(nodes, parts))
  }

  lemma FitsBelow(nodes: seq<Node>, n: Node, parts: seq<string>, isDir: bool)
    requires Shaped(nodes) && n in nodes && n.Dir? && parts != [] && parts[0] == n.name && Fits(nodes, parts, isDir)
    requires |parts| > 1
    ensures Fits(n.children, parts[1..], isDir)
  {
    forall i | 0 < i < |parts| - 1 ensures !HasFile(n.children, parts[1..][..i]) {
      FileOfNode(nodes, n, parts[..i + 1]);
      assert parts[..i + 1][1..] == parts[1..][..i];
    }
    FileOfNode(nodes, n, parts);
  }

  lemma SameNamed(a: seq<Node>, b: seq<Node>, q: seq<string>)
    requires q != [] && forall m: Node :: m.name == q[0] ==> (m in a <==> m in b)
    ensures HasFile(a, q) <==> HasFile(b, q)
    ensures HasDir(a, q) <==> HasDir(b, q)
  {
  }

  // What inserting parts adds, seen along the list of names q.
  ghost predicate Added(before: seq<Node>, after: seq<Node>, parts: seq<string>, isDir: bool, q: seq<string>) {
    (HasFile(after, q) <==> HasFile(before, q) || (!isDir && q == parts)) &&
    (HasDir(after, q) <==> HasDir(before, q) || (q <= parts && (isDir || q != parts)))
  }

  lemma {:induction false} InsertAdds(nodes: seq<Node>, parts: seq<string>, isDir: bool, q: seq<string>)
    requires Shaped(nodes) && (forall p :: p in parts ==> NameOk(p)) && parts != [] && Fits(nodes, parts, isDir)
    ensures Added(nodes, Insert(nodes, parts, isDir), parts, isDir, q)
    decreases |parts|
  {
    var k, rest := IndexOf(nodes, parts[0]), parts[1..];
    ShapedInsert(nodes, parts, isDir);
    if q == [] {
    } else if k == |nodes| {
      if rest != [] {
        InsertAdds([], rest, isDir, q[1..]);
      }
      AddedAtEnd(nodes, parts, isDir, q);
    } else {
      FileOfNode(nodes, nodes[k], parts[..1]);
      FileOfNode(nodes, nodes[k], parts);
      if rest != [] {
        assert nodes[k].Dir?;
        Member(nodes, "", nodes[k], "");
        FitsBelow(nodes, nodes[k], parts, isDir);
        InsertAdds(nodes[k].children, rest, isDir, q[1..]);
        AddedInside(nodes, k, parts, isDir, q);
      } else {
        AlreadyThere(nodes, k, parts, isDir, q);
      }
    }
  }

  lemma Heads(q: seq<string>, parts: seq<string>)
    requires q != [] && parts != []
    ensures q == parts <==> q[0] == parts[0] && q[1..] == parts[1..]
    ensures q <= parts <==> q[0] == parts[0] && q[1..] <= parts[1..]
  {
    assert parts == [parts[0]] + parts[1..] && q == [q[0]] + q[1..];
  }

  lemma {:induction false} AddedAtEnd(nodes: seq<Node>, parts: seq<string>, isDir: bool, q: seq<string>)
    requires parts != [] && q != [] && IndexOf(nodes, parts[0]) == |nodes|
    requires Shaped(Insert(nodes, parts, isDir))
    requires parts[1..] != [] ==> Added([], Insert([], parts[1..], isDir), parts[1..], isDir, q[1..])
    ensures Added(nodes, Insert(nodes, parts, isDir), parts, isDir, q)
  {
    var after := Insert(nodes, parts, isDir);
    var n := after[|nodes|];
    assert after == nodes + [n];
    Heads(q, parts);
    if q[0] == parts[0] {
      FileOfNode(after, n, q);
    } else {
      SameNamed(nodes, after, q);
    }
  }

  lemma AddedInside(nodes: seq<Node>, k: nat, parts: seq<string>, isDir: bool, q: seq<string>)
    requires parts != [] && q != [] && k == IndexOf(nodes, parts[0]) < |nodes| && nodes[k].Dir?
    requires Shaped(nodes) && Shaped(Insert(nodes, parts, isDir))
    requires Added(nodes[k].children, Insert(nodes[k].children, parts[1..], isDir), parts[1..], isDir, q[1..])
    ensures Added(nodes, Insert(nodes, parts, isDir), parts, isDir, q)
  {
    var after := Insert(nodes, parts, isDir);
    Heads(q, parts);
    if q[0] == parts[0] {
      assert after[k] == Dir(parts[0], Insert(nodes[k].children, parts[1..], isDir));
      FileOfNode(nodes, nodes[k], q);
      FileOfNode(after, after[k], q);
      if |q| == 1 {
        assert q[1..] == [];
      }
    } else {
      OthersKept(nodes, k, after[k], q);
    }
  }

  lemma OthersKept(nodes: seq<Node>, k: nat, n: Node, q: seq<string>)
    requires q != [] && k < |nodes| && nodes[k].name == n.name != q[0]
    ensures HasFile(nodes[k := n], q) <==> HasFile(nodes, q)
    ensures HasDir(nodes[k := n], q) <==> HasDir(nodes, q)
  {
    forall m: Node | m.name == q[0] ensures m in nodes <==> m in nodes[k := n] {
      if m in nodes {
        var i :| 0 <= i < |nodes| && nodes[i] == m;
        assert nodes[k := n][i] == m;
      }
    }
    SameNamed(nodes, nodes[k := n], q);
  }

  lemma AlreadyThere(nodes: seq<Node>, k: nat, parts: seq<string>, isDir: bool, q: seq<string>)
    requires |parts| == 1 && k == IndexOf(nodes, parts[0]) < |nodes| && nodes[k].Dir? == isDir
    requires Shaped(nodes)
    ensures Insert(nodes, parts, isDir) == nodes && Added(nodes, nodes, parts, isDir, q)
  {
    FileOfNode(nodes, nodes[k], parts);
    assert Insert(nodes, [], isDir) == nodes;
    if isDir {
      assert HasDir(nodes, parts);
      assert q <= parts ==> q == [] || q == parts;
    } else {
      assert q <= parts && q != parts ==> q == [];
    }
  }

  // ------------------------------------------------------------ the round trip

  ghost predicate FileListed(entries: seq<Entry>, q: seq<string>) {
    q != [] && exists e :: e in entries && !e.isDir && Parts(e.path) == q
  }

  ghost predicate DirListed(entries: seq<Entry>, q: seq<string>) {
    q == [] || exists e :: e in entries && q <= Parts(e.path) && (e.isDir || q != Parts(e.path))
  }

  // No path is both a file and a directory, be it listed or implied by a longer path.
  ghost predicate NoClash(entries: seq<Entry>) {
    forall q :: !(FileListed(entries, q) && DirListed(entries, q))
  }

  ghost predicate Mirrors(level: seq<Node>, entries: seq<Entry>) {
    forall q :: (HasFile(level, q) <==> FileListed(entries, q)) && (HasDir(level, q) <==> DirListed(entries, q))
  }

  lemma {:induction false} InsertAllMirrors(level: seq<Node>, done: seq<Entry>, todo: seq<Entry>)
    requires Shaped(level) && Mirrors(level, done) && NoClash(done + todo)
    ensures Shaped(InsertAll(level, todo)) && Mirrors(InsertAll(level, todo), done + todo)
    decreases |todo|
  {
    if todo == [] {
      assert done + todo == done;
    } else {
      var e := todo[0];
      assert done + todo == done + [e] + todo[1..];
      InsertMirrors(level, done, todo);
      ShapedInsert(level, Parts(e.path), e.isDir);
      InsertAllMirrors(Insert(level, Parts(e.path), e.isDir), done + [e], todo[1..]);
    }
  }

  lemma InsertMirrors(level: seq<Node>, done: seq<Entry>, todo: seq<Entry>)
    requires Shaped(level) && Mirrors(level, done) && todo != [] && NoClash(done + todo)
    ensures Mirrors(Insert(level, Parts(todo[0].path), todo[0].isDir), done + [todo[0]])
  {
    var e, parts := todo[0], Parts(todo[0].path);
    if parts != [] {
      EntryFits(level, done, todo);
    }
    forall q
      ensures HasFile(Insert(level, parts, e.isDir), q) <==> FileListed(done + [e], q)
      ensures HasDir(Insert(level, parts, e.isDir), q) <==> DirListed(done + [e], q)
    {
      if parts != [] {
        InsertAdds(level, parts, e.isDir, q);
      }
      OneMore(done, e, q);
    }
  }

  lemma {:induction false} EntryFits(level: seq<Node>, done: seq<Entry>, todo: seq<Entry>)
    requires Mirrors(level, done) && todo != [] && NoClash(done + todo) && Parts(todo[0].path) != []
    ensures Fits(level, Parts(todo[0].path), todo[0].isDir)
  {
    var e, parts := todo[0], Parts(todo[0].path);
    assert e in done + todo;
    assert forall d :: d in done ==> d in done + todo;
    forall i | 0 < i < |parts| ensures !HasFile(level, parts[..i]) {
      assert parts[..i] <= parts && parts[..i] != parts;
      assert DirListed(done + todo, parts[..i]);
    }
    if e.isDir {
      assert DirListed(done + todo, parts);
    } else {
      assert FileListed(done + todo, parts);
    }
  }

  lemma OneMore(done: seq<Entry>, e: Entry, q: seq<string>)
    ensures FileListed(done + [e], q)
       <==> FileListed(done, q) || (q != [] && !e.isDir && Parts(e.path) == q)
    ensures DirListed(done + [e], q)
       <==> DirListed(done, q) || (q <= Parts(e.path) && (e.isDir || q != Parts(e.path)))
  {
    assert e in done + [e];
    assert forall d :: d in done ==> d in done + [e];
  }

  lemma {:induction false} SortedHasFile(nodes: seq<Node>, compare: Compare, q: seq<string>)
    requires Shaped(nodes)
    ensures HasFile(SortNodes(nodes, compare), q) <==> HasFile(nodes, q)
    decreases |q|
  {
    SortKeeps(nodes, compare);
    if q != [] {
      forall n | n in nodes && n.name == q[0]
        ensures LeadsToFile(SortNode(n, compare), q) <==> LeadsToFile(n, q)
      {
        Member(nodes, "", n, "");
        if n.Dir? && |q| > 1 {
          SortedHasFile(n.children, compare, q[1..]);
        }
      }
    }
  }

  ghost function Spell(base: string, q: seq<string>): string
    decreases |q|
  {
    if q == [] then base else Spell(Full(base, q[0]), q[1..])
  }

  lemma {:induction false} SpellJoin(base: string, q: seq<string>)
    requires q != [] && forall p :: p in q ==> NameOk(p)
    ensures Spell(base, q) == if base == "" then Join(q) else base + "/" + Join(q)
    decreases |q|
  {
    assert q[0] in q && Full(base, q[0]) != "";
    assert Spell(base, q) == Spell(Full(base, q[0]), q[1..]);
    if |q| > 1 {
      assert Join(q) == q[0] + "/" + Join(q[1..]);
      hide Spell, Join;
      SpellJoin(Full(base, q[0]), q[1..]);
      assert base + "/" + q[0] + "/" + Join(q[1..]) == base + "/" + (q[0] + "/" + Join(q[1..]));
    } else {
      assert q[1..] == [];
    }
  }

  lemma {:induction false} NamesOfFile(nodes: seq<Node>, base: string, f: string) returns (q: seq<string>)
    requires Shaped(nodes) && f in FilesOf(nodes, base)
    ensures HasFile(nodes, q) && f == Spell(base, q) && forall p :: p in q ==> NameOk(p)
    decreases nodes
  {
    if f in FilesIn(nodes[0], base) {
      match nodes[0]
      case File(name) => q := [name];
      case Dir(name, children) =>
        q := NamesOfFile(children, Full(base, name), f);
        q := [name] + q;
    } else {
      q := NamesOfFile(nodes[1..], base, f);
      FileInRest(nodes, q);
    }
  }

  lemma FileInRest(nodes: seq<Node>, q: seq<string>)
    requires nodes != [] && HasFile(nodes[1..], q)
    ensures HasFile(nodes, q)
  {
    assert forall n :: n in nodes[1..] ==> n in nodes;
  }

  lemma {:induction false} FileOfNames(nodes: seq<Node>, base: string, q: seq<string>)
    requires Shaped(nodes) && HasFile(nodes, q)
    ensures Spell(base, q) in FilesOf(nodes, base)
    decreases |q|
  {
    var n :| n in nodes && n.name == q[0] && LeadsToFile(n, q);
    Member(nodes, base, n, Spell(base, q));
    if n.Dir? {
      FileOfNames(n.children, Full(base, n.name), q[1..]);
    }
  }

  lemma {:induction false} FilesDistinct(nodes: seq<Node>, base: string)
    requires Shaped(nodes)
    ensures Distinct(FilesOf(nodes, base))
    decreases nodes
  {
    if nodes != [] {
      var here, there := FilesIn(nodes[0], base), FilesOf(nodes[1..], base);
      if nodes[0].Dir? {
        FilesDistinct(nodes[0].children, Full(base, nodes[0].name));
      }
      FilesDistinct(nodes[1..], base);
      forall f | f in here ensures f !in there {
        FilesInAt(nodes[0], base, f);
        SiblingsApart(nodes, base, f);
        if f in there {
          var n := FilesOfAt(nodes[1..], base, f);
        }
      }
      DistinctAppend(here, there);
    }
  }

  lemma DistinctAppend<T>(a: seq<T>, b: seq<T>)
    requires Distinct(a) && Distinct(b) && forall x :: x in a ==> x !in b
    ensures Distinct(a + b)
  {
    forall i, j | 0 <= i < j < |a + b| ensures (a + b)[i] != (a + b)[j] {
      if i < |a| <= j {
        assert a[i] in a && b[j - |a|] in b;
      }
    }
  }

  ghost predicate WantedFile(entries: seq<Entry>, f: string) {
    exists e :: e in entries && !e.isDir && Parts(e.path) != [] && f == Join(Parts(e.path))
  }

  // Flattening the built tree gives exactly the normalised file paths.
  ghost predicate RoundTrips(entries: seq<Entry>, compare: Compare) {
    forall f :: f in FilesOf(Built(entries, compare), "") <==> WantedFile(entries, f)
  }

  // A list of names leads to a file of the tree exactly when its path is listed by flattening.
  lemma InTree(entries: seq<Entry>, compare: Compare, q: seq<string>)
    requires q != [] && forall p :: p in q ==> NameOk(p)
    ensures Join(q) in FilesOf(Built(entries, compare), "") <==> HasFile(InsertAll([], entries), q)
  {
    hide Insert, InsertAll, SortNodes, NameOk;
    var raw, tree := InsertAll([], entries), Built(entries, compare);
    ShapedInsertAll([], entries);
    SortKeeps(raw, compare);
    SortedHasFile(raw, compare, q);
    SpellJoin("", q);
    if HasFile(tree, q) {
      FileOfNames(tree, "", q);
    }
    if Join(q) in FilesOf(tree, "") {
      var r := NamesOfFile(tree, "", Join(q));
      SpellJoin("", r);
      JoinOnce(q, r);
    }
  }

  lemma JoinOnce(q: seq<string>, r: seq<string>)
    requires q != [] && r != [] && (forall p :: p in q ==> NameOk(p)) && (forall p :: p in r ==> NameOk(p))
    requires Join(q) == Join(r)
    ensures q == r
  {
    assert forall i :: 0 <= i < |q| ==> NameOk(q[i]);
    assert forall i :: 0 <= i < |r| ==> NameOk(r[i]);
    SplitJoin(q);
    SplitJoin(r);
  }

  lemma FromTree(entries: seq<Entry>, compare: Compare, f: string) returns (q: seq<string>)
    requires f in FilesOf(Built(entries, compare), "")
    ensures q != [] && HasFile(InsertAll([], entries), q) && f == Join(q)
  {
    hide Insert, InsertAll, SortNodes;
    var raw, tree := InsertAll([], entries), Built(entries, compare);
    ShapedInsertAll([], entries);
    SortKeeps(raw, compare);
    q := NamesOfFile(tree, "", f);
    SortedHasFile(raw, compare, q);
    SpellJoin("", q);
  }

  // The round trip holds exactly when the tree, before it is sorted, has the listed files.
  lemma RoundTripMeans(entries: seq<Entry>, compare: Compare)
    ensures RoundTrips(entries, compare) <==>
      forall q :: HasFile(InsertAll([], entries), q) <==> FileListed(entries, q)
  {
    hide Built, HasFile, InsertAll, Parts;
    if forall q :: HasFile(InsertAll([], entries), q) <==> FileListed(entries, q) {
      forall f ensures f in FilesOf(Built(entries, compare), "") <==> WantedFile(entries, f) {
        if f in FilesOf(Built(entries, compare), "") {
          var q := FromTree(entries, compare, f);
          assert FileListed(entries, q);
        }
        if WantedFile(entries, f) {
          var e :| e in entries && !e.isDir && Parts(e.path) != [] && f == Join(Parts(e.path));
          assert FileListed(entries, Parts(e.path));
          InTree(entries, compare, Parts(e.path));
        }
      }
    }
    if RoundTrips(entries, compare) {
      forall q: seq<string> ensures HasFile(InsertAll([], entries), q) <==> FileListed(entries, q) {
        ListedExactly(entries, compare, q);
      }
    }
  }

  lemma ListedExactly(entries: seq<Entry>, compare: Compare, q: seq<string>)
    requires RoundTrips(entries, compare)
    ensures HasFile(InsertAll([], entries), q) <==> FileListed(entries, q)
  {
    hide Built, InsertAll, Parts;
    if FileListed(entries, q) {
      InTree(entries, compare, q);
      assert WantedFile(entries, Join(q));
    }
    if HasFile(InsertAll([], entries), q) {
      ShapedInsertAll([], entries);
      FileNames(InsertAll([], entries), q);
      InTree(entries, compare, q);
      assert WantedFile(entries, Join(q));
      var e :| e in entries && !e.isDir && Parts(e.path) != [] && Join(q) == Join(Parts(e.path));
      JoinOnce(q, Parts(e.path));
    }
  }

  lemma {:induction false} FileNames(nodes: seq<Node>, q: seq<string>)
    requires Shaped(nodes) && HasFile(nodes, q)
    ensures forall p :: p in q ==> NameOk(p)
    decreases |q|
  {
    var n :| n in nodes && n.name == q[0] && LeadsToFile(n, q);
    Member(nodes, "", n, "");
    assert q == [q[0]] + q[1..];
    if |q| > 1 {
      FileNames(n.children, q[1..]);
    }
  }

  // Without a clash it holds, and no file is listed twice.
  lemma {:induction false} TreeRoundTrip(entries: seq<Entry>, compare: Compare)
    requires NoClash(entries)
    ensures Distinct(FilesOf(Built(entries, compare), ""))
    ensures RoundTrips(entries, compare)
  {
    assert [] + entries == entries;
    InsertAllMirrors([], [], entries);
    SortKeeps(InsertAll([], entries), compare);
    FilesDistinct(Built(entries, compare), "");
    RoundTripMeans(entries, compare);
  }

  // ------------------------------------------------------------ exactly when

  // Inserting never removes a file or a directory, and inserting a directory adds no file.
  lemma {:induction false} InsertKeeps(nodes: seq<Node>, parts: seq<string>, isDir: bool, q: seq<string>)
    requires Shaped(nodes) && forall p :: p in parts ==> NameOk(p)
    ensures var after := Insert(nodes, parts, isDir);
      (HasFile(nodes, q) ==> HasFile(after, q)) && (HasDir(nodes, q) ==> HasDir(after, q)) &&
      (isDir ==> (HasFile(after, q) <==> HasFile(nodes, q)))
    decreases |parts|
  {
    if parts != [] && q != [] {
      var k, rest := IndexOf(nodes, parts[0]), parts[1..];
      var after := Insert(nodes, parts, isDir);
      ShapedInsert(nodes, parts, isDir);
      if k == |nodes| {
        InsertKeeps([], rest, isDir, q[1..]);
        KeptAtEnd(nodes, parts, isDir, q);
      } else if nodes[k].Dir? {
        Member(nodes, "", nodes[k], "");
        InsertKeeps(nodes[k].children, rest, isDir, q[1..]);
        KeptInside(nodes, k, parts, isDir, q);
      } else {
        InsertKeeps(nodes, rest, isDir, q);
      }
    }
  }

  lemma KeptAtEnd(nodes: seq<Node>, parts: seq<string>, isDir: bool, q: seq<string>)
    requires parts != [] && q != [] && IndexOf(nodes, parts[0]) == |nodes|
    requires Shaped(Insert(nodes, parts, isDir))
    requires isDir ==> !HasFile(Insert([], parts[1..], isDir), q[1..])
    ensures var after := Insert(nodes, parts, isDir);
      (HasFile(nodes, q) ==> HasFile(after, q)) && (HasDir(nodes, q) ==> HasDir(after, q)) &&
      (isDir ==> (HasFile(after, q) <==> HasFile(nodes, q)))
  {
    var after := Insert(nodes, parts, isDir);
    var n := after[|nodes|];
    assert after == nodes + [n];
    if q[0] == parts[0] {
      FileOfNode(after, n, q);
    } else {
      SameNamed(nodes, after, q);
    }
  }

  lemma KeptInside(nodes: seq<Node>, k: nat, parts: seq<string>, isDir: bool, q: seq<string>)
    requires parts != [] && q != [] && k == IndexOf(nodes, parts[0]) < |nodes| && nodes[k].Dir?
    requires Shaped(nodes) && Shaped(Insert(nodes, parts, isDir))
    requires var inside := Insert(nodes[k].children, parts[1..], isDir);
      (HasFile(nodes[k].children, q[1..]) ==> HasFile(inside, q[1..])) &&
      (HasDir(nodes[k].children, q[1..]) ==> HasDir(inside, q[1..])) &&
      (isDir ==> (HasFile(inside, q[1..]) <==> HasFile(nodes[k].children, q[1..])))
    ensures var after := Insert(nodes, parts, isDir);
      (HasFile(nodes, q) ==> HasFile(after, q)) && (HasDir(nodes, q) ==> HasDir(after, q)) &&
      (isDir ==> (HasFile(after, q) <==> HasFile(nodes, q)))
  {
    var after := Insert(nodes, parts, isDir);
    if q[0] == parts[0] {
      assert after[k] == Dir(parts[0], Insert(nodes[k].children, parts[1..], isDir));
      FileOfNode(nodes, nodes[k], q);
      FileOfNode(after, after[k], q);
    } else {
      OthersKept(nodes, k, after[k], q);
    }
  }

  lemma {:induction false} InsertAllKeeps(level: seq<Node>, entries: seq<Entry>, q: seq<string>)
    requires Shaped(level)
    ensures (HasFile(level, q) ==> HasFile(InsertAll(level, entries), q))
         && (HasDir(level, q) ==> HasDir(InsertAll(level, entries), q))
    decreases |entries|
  {
    hide Insert, Parts, HasFile, HasDir;
    if entries != [] {
      var e := entries[0];
      ShapedInsert(level, Parts(e.path), e.isDir);
      InsertKeeps(level, Parts(e.path), e.isDir, q);
      InsertAllKeeps(Insert(level, Parts(e.path), e.isDir), entries[1..], q);
    }
  }

  // A file is no directory, and nothing lies below it.
  lemma {:induction false} FileIsLeaf(nodes: seq<Node>, p: seq<string>, q: seq<string>)
    requires Shaped(nodes) && HasFile(nodes, p) && p <= q
    ensures !HasDir(nodes, q) && (p != q ==> !HasFile(nodes, q))
    decreases |p|
  {
    var n :| n in nodes && n.name == p[0] && LeadsToFile(n, p);
    FileOfNode(nodes, n, q);
    Heads(p, q);
    if |p| > 1 {
      Member(nodes, "", n, "");
      FileIsLeaf(n.children, p[1..], q[1..]);
    }
  }

  // When its turn comes, each file entry meets no file on its way and no directory in its place.
  ghost predicate FilesFit(level: seq<Node>, entries: seq<Entry>)
    decreases |entries|
  {
    entries == [] ||
    var parts := Parts(entries[0].path);
    (parts == [] || entries[0].isDir || Fits(level, parts, false)) &&
    FilesFit(Insert(level, parts, entries[0].isDir), entries[1..])
  }

  ghost predicate MirrorsFiles(level: seq<Node>, entries: seq<Entry>) {
    forall q :: HasFile(level, q) <==> FileListed(entries, q)
  }

  lemma EntryMirrorsFiles(level: seq<Node>, done: seq<Entry>, e: Entry, q: seq<string>)
    requires Shaped(level) && MirrorsFiles(level, done)
    requires Parts(e.path) == [] || e.isDir || Fits(level, Parts(e.path), false)
    ensures HasFile(Insert(level, Parts(e.path), e.isDir), q) <==> FileListed(done + [e], q)
  {
    hide Parts, HasFile, Insert;
    assert HasFile(level, q) <==> FileListed(done, q);
    OneMore(done, e, q);
    if Parts(e.path) == [] {
      InsertNothing(level, e.isDir);
    } else if e.isDir {
      InsertKeeps(level, Parts(e.path), true, q);
    } else {
      InsertAdds(level, Parts(e.path), false, q);
    }
  }

  lemma InsertNothing(level: seq<Node>, isDir: bool)
    ensures Insert(level, [], isDir) == level
  {
  }

  lemma {:induction false} FittingFilesMirror(level: seq<Node>, done: seq<Entry>, todo: seq<Entry>)
    requires Shaped(level) && MirrorsFiles(level, done) && FilesFit(level, todo)
    ensures MirrorsFiles(InsertAll(level, todo), done + todo)
    decreases |todo|
  {
    hide Insert, Parts, HasFile, Fits;
    if todo == [] {
      assert done + todo == done;
    } else {
      var e := todo[0];
      var next := Insert(level, Parts(e.path), e.isDir);
      ShapedInsert(level, Parts(e.path), e.isDir);
      forall q: seq<string> ensures HasFile(next, q) <==> FileListed(done + [e], q) {
        EntryMirrorsFiles(level, done, e, q);
      }
      FittingFilesMirror(next, done + [e], todo[1..]);
      assert done + [e] + todo[1..] == done + todo;
    }
  }

  // The first file entry that does not fit is missing from the tree for good.
  lemma {:induction false} MisfitIsLost(level: seq<Node>, todo: seq<Entry>) returns (e: Entry)
    requires Shaped(level) && !FilesFit(level, todo)
    ensures e in todo && !e.isDir && Parts(e.path) != [] && !HasFile(InsertAll(level, todo), Parts(e.path))
    decreases |todo|
  {
    hide Insert, Parts, HasFile, HasDir;
    e := todo[0];
    var parts := Parts(e.path);
    ShapedInsertAll(level, todo);
    if parts == [] || e.isDir || Fits(level, parts, false) {
      ShapedInsert(level, parts, e.isDir);
      e := MisfitIsLost(Insert(level, parts, e.isDir), todo[1..]);
    } else if HasDir(level, parts) {
      InsertAllKeeps(level, todo, parts);
      if HasFile(InsertAll(level, todo), parts) {
        FileIsLeaf(InsertAll(level, todo), parts, parts);
      }
    } else {
      var i :| 0 < i < |parts| && HasFile(level, parts[..i]);
      InsertAllKeeps(level, todo, parts[..i]);
      FileIsLeaf(InsertAll(level, todo), parts[..i], parts);
    }
  }

  // The same, said about the entries alone.  A directory entry skips the names of files listed
  // before it, so it makes the directories on the path that is left.
  ghost function Reached(before: seq<Entry>, at: seq<string>, parts: seq<string>): seq<string>
    decreases |parts|
  {
    if parts == [] then at
    else Reached(before, if FileListed(before, at + [parts[0]]) then at else at + [parts[0]], parts[1..])
  }

  ghost predicate Makes(entries: seq<Entry>, i: nat, q: seq<string>)
    requires i < |entries|
  {
    var parts := Parts(entries[i].path);
    if entries[i].isDir then q <= Reached(entries[..i], [], parts) else q < parts
  }

  ghost predicate Made(entries: seq<Entry>, q: seq<string>) {
    q == [] || exists i :: 0 <= i < |entries| && Makes(entries, i, q)
  }

  // No file listed earlier is a folder of this file's path, and no earlier entry made the path
  // a directory.
  ghost predicate InPlace(entries: seq<Entry>, i: nat)
    requires i < |entries|
  {
    var parts := Parts(entries[i].path);
    parts == [] || entries[i].isDir ||
    ((forall k :: 0 < k < |parts| ==> !FileListed(entries[..i], parts[..k])) && !Made(entries[..i], parts))
  }

  // The directory a list of names leads to when it is inserted.
  ghost function PathOf(nodes: seq<Node>, parts: seq<string>): seq<string>
    decreases |parts|
  {
    if parts == [] then []
    else
      var k := IndexOf(nodes, parts[0]);
      if k == |nodes| then [parts[0]] + PathOf([], parts[1..])
      else match nodes[k]
        case Dir(_, children) => [parts[0]] + PathOf(children, parts[1..])
        case File(_) => PathOf(nodes, parts[1..])
  }

  lemma {:induction false} InsertMakes(nodes: seq<Node>, parts: seq<string>, q: seq<string>)
    requires Shaped(nodes) && forall p :: p in parts ==> NameOk(p)
    ensures HasDir(Insert(nodes, parts, true), q) <==> HasDir(nodes, q) || q <= PathOf(nodes, parts)
    decreases |parts|
  {
    if parts != [] && q != [] {
      var k, rest := IndexOf(nodes, parts[0]), parts[1..];
      var after, path := Insert(nodes, parts, true), PathOf(nodes, parts);
      ShapedInsert(nodes, parts, true);
      if k < |nodes| && nodes[k].File? {
        InsertMakes(nodes, rest, q);
      } else {
        var children := if k == |nodes| then [] else nodes[k].children;
        Heads(q, path);
        assert path == [parts[0]] + PathOf(children, rest);
        if k < |nodes| {
          Member(nodes, "", nodes[k], "");
        }
        InsertMakes(children, rest, q[1..]);
        MadeBelow(nodes, k, parts, q);
      }
    }
  }

  lemma MadeBelow(nodes: seq<Node>, k: nat, parts: seq<string>, q: seq<string>)
    requires parts != [] && q != [] && k == IndexOf(nodes, parts[0]) && (k < |nodes| ==> nodes[k].Dir?)
    requires Shaped(nodes) && Shaped(Insert(nodes, parts, true))
    ensures var children := if k == |nodes| then [] else nodes[k].children;
      HasDir(Insert(nodes, parts, true), q) <==>
        if q[0] == parts[0] then HasDir(Insert(children, parts[1..], true), q[1..]) else HasDir(nodes, q)
    ensures q[0] == parts[0] ==>
      (HasDir(nodes, q) <==> k < |nodes| && HasDir(nodes[k].children, q[1..]))
  {
    var after := Insert(nodes, parts, true);
    if k < |nodes| {
      if q[0] == parts[0] {
        FileOfNode(nodes, nodes[k], q);
        FileOfNode(after, after[k], q);
      } else {
        OthersKept(nodes, k, after[k], q);
      }
    } else if q[0] == parts[0] {
      assert after == nodes + [after[k]];
      FileOfNode(after, after[k], q);
    } else {
      assert after == nodes + [after[k]];
      SameNamed(nodes, after, q);
    }
  }

  // Below `at` the level holds the files listed before.
  ghost predicate HoldsFiles(nodes: seq<Node>, before: seq<Entry>, at: seq<string>) {
    forall q :: q != [] ==> (HasFile(nodes, q) <==> FileListed(before, at + q))
  }

  lemma {:induction false} PathReached(nodes: seq<Node>, before: seq<Entry>, at: seq<string>, parts: seq<string>)
    requires Shaped(nodes) && HoldsFiles(nodes, before, at)
    ensures at + PathOf(nodes, parts) == Reached(before, at, parts)
    decreases |parts|
  {
    hide HoldsFiles;
    if parts != [] {
      var k, x, rest := IndexOf(nodes, parts[0]), [parts[0]], parts[1..];
      FileNamed(nodes, before, at, parts[0]);
      if k < |nodes| && nodes[k].File? {
        PathReached(nodes, before, at, rest);
      } else {
        var children := if k == |nodes| then [] else nodes[k].children;
        FilesInside(nodes, before, at, parts[0]);
        PathReached(children, before, at + x, rest);
        assert at + x + PathOf(children, rest) == at + (x + PathOf(children, rest));
      }
    } else {
      assert at + [] == at;
    }
  }

  lemma FileNamed(nodes: seq<Node>, before: seq<Entry>, at: seq<string>, name: string)
    requires Shaped(nodes) && HoldsFiles(nodes, before, at)
    ensures var k := IndexOf(nodes, name); FileListed(before, at + [name]) <==> k < |nodes| && nodes[k].File?
  {
    hide FileListed;
    var k := IndexOf(nodes, name);
    assert HasFile(nodes, [name]) <==> FileListed(before, at + [name]);
    if k < |nodes| {
      FileOfNode(nodes, nodes[k], [name]);
    }
  }

  lemma FilesInside(nodes: seq<Node>, before: seq<Entry>, at: seq<string>, name: string)
    requires Shaped(nodes) && HoldsFiles(nodes, before, at)
    requires IndexOf(nodes, name) < |nodes| ==> nodes[IndexOf(nodes, name)].Dir?
    ensures var k := IndexOf(nodes, name);
      var children := if k == |nodes| then [] else nodes[k].children;
      Shaped(children) && HoldsFiles(children, before, at + [name])
  {
    hide FileListed;
    var k := IndexOf(nodes, name);
    var children := if k == |nodes| then [] else nodes[k].children;
    if k < |nodes| {
      Member(nodes, "", nodes[k], "");
    }
    forall q | q != [] ensures HasFile(children, q) <==> FileListed(before, at + [name] + q) {
      assert at + [name] + q == at + ([name] + q) && ([name] + q)[1..] == q;
      assert HasFile(nodes, [name] + q) <==> FileListed(before, at + ([name] + q));
      if k < |nodes| {
        FileOfNode(nodes, nodes[k], [name] + q);
      }
    }
  }

  lemma MadeMore(done: seq<Entry>, e: Entry, q: seq<string>)
    ensures var now := if e.isDir then q <= Reached(done, [], Parts(e.path)) else q < Parts(e.path);
      Made(done + [e], q) <==> Made(done, q) || now
  {
    var all := done + [e];
    hide Reached, Parts;
    assert all[..|done|] == done && all[|done|] == e;
    forall i | 0 <= i < |done| ensures Makes(all, i, q) <==> Makes(done, i, q) {
      assert all[..i] == done[..i];
    }
    if Made(done, q) && q != [] {
      var i :| 0 <= i < |done| && Makes(done, i, q);
      assert Makes(all, i, q);
    }
    if if e.isDir then q <= Reached(done, [], Parts(e.path)) else q < Parts(e.path) {
      assert Makes(all, |done|, q);
    }
  }

  ghost predicate MirrorsDirs(level: seq<Node>, entries: seq<Entry>) {
    forall q :: HasDir(level, q) <==> Made(entries, q)
  }

  lemma EntryMirrorsDirs(level: seq<Node>, done: seq<Entry>, e: Entry, q: seq<string>)
    requires Shaped(level) && MirrorsFiles(level, done) && MirrorsDirs(level, done)
    requires Parts(e.path) == [] || e.isDir || Fits(level, Parts(e.path), false)
    ensures HasDir(Insert(level, Parts(e.path), e.isDir), q) <==> Made(done + [e], q)
  {
    hide Parts, HasFile, HasDir, Insert, FileListed, Made, Reached, PathOf;
    var parts := Parts(e.path);
    assert HasDir(level, q) <==> Made(done, q);
    MadeMore(done, e, q);
    if e.isDir {
      InsertMakes(level, parts, q);
      assert HoldsFiles(level, done, []) by {
        forall p: seq<string> ensures [] + p == p {}
      }
      PathReached(level, done, [], parts);
      assert [] + PathOf(level, parts) == PathOf(level, parts);
    } else if parts == [] {
      InsertNothing(level, e.isDir);
    } else {
      InsertAdds(level, parts, false, q);
    }
  }

  // What fits at its turn is what is in place, from entry |done| on.
  lemma {:induction false} FitsInPlace(level: seq<Node>, done: seq<Entry>, todo: seq<Entry>)
    requires Shaped(level) && MirrorsFiles(level, done) && MirrorsDirs(level, done)
    ensures FilesFit(level, todo) <==> forall i :: |done| <= i < |done + todo| ==> InPlace(done + todo, i)
    decreases |todo|
  {
    hide Insert, Parts, HasFile, HasDir, Fits, InPlace;
    if todo != [] {
      var e, all := todo[0], done + todo;
      var next := Insert(level, Parts(e.path), e.isDir);
      FitsHere(level, done, todo);
      if InPlace(all, |done|) {
        ShapedInsert(level, Parts(e.path), e.isDir);
        forall q: seq<string> ensures HasFile(next, q) <==> FileListed(done + [e], q) {
          EntryMirrorsFiles(level, done, e, q);
        }
        forall q: seq<string> ensures HasDir(next, q) <==> Made(done + [e], q) {
          EntryMirrorsDirs(level, done, e, q);
        }
        FitsInPlace(next, done + [e], todo[1..]);
        assert done + [e] + todo[1..] == all;
      }
    }
  }

  lemma FitsHere(level: seq<Node>, done: seq<Entry>, todo: seq<Entry>)
    requires MirrorsFiles(level, done) && MirrorsDirs(level, done) && todo != []
    ensures var parts := Parts(todo[0].path);
      InPlace(done + todo, |done|) <==> parts == [] || todo[0].isDir || Fits(level, parts, false)
  {
    hide Parts, HasFile, HasDir, FileListed, Made;
    assert (done + todo)[..|done|] == done;
  }

  // For every list of entries, in any order: the round trip holds if and only if every file entry
  // is in place.
  lemma RoundTripExactly(entries: seq<Entry>, compare: Compare)
    ensures RoundTrips(entries, compare) <==> forall i :: 0 <= i < |entries| ==> InPlace(entries, i)
  {
    hide InsertAll, HasFile, HasDir, FilesFit, Parts, InPlace;
    RoundTripMeans(entries, compare);
    NothingYet();
    assert [] + entries == entries;
    FitsInPlace([], [], entries);
    if FilesFit([], entries) {
      FittingFilesMirror([], [], entries);
    } else {
      var e := MisfitIsLost([], entries);
      assert FileListed(entries, Parts(e.path));
    }
  }

  // And when every file entry is in place, the tree has exactly the directories the entries made.
  lemma DirectoriesExactly(entries: seq<Entry>, compare: Compare, q: seq<string>)
    requires forall i :: 0 <= i < |entries| ==> InPlace(entries, i)
    ensures HasDir(Built(entries, compare), q) <==> Made(entries, q)
  {
    hide Insert, InsertAll, HasFile, HasDir, FilesFit, Parts, InPlace, SortNodes, Made;
    NothingYet();
    assert [] + entries == entries;
    FitsInPlace([], [], entries);
    FittingDirsMirror([], [], entries);
    ShapedInsertAll([], entries);
    SortedHasDir(InsertAll([], entries), compare, q);
    assert MirrorsDirs(InsertAll([], entries), entries);
  }

  lemma {:induction false} FittingDirsMirror(level: seq<Node>, done: seq<Entry>, todo: seq<Entry>)
    requires Shaped(level) && MirrorsFiles(level, done) && MirrorsDirs(level, done) && FilesFit(level, todo)
    ensures MirrorsDirs(InsertAll(level, todo), done + todo)
    decreases |todo|
  {
    hide Insert, Parts, HasFile, HasDir, Fits, Made;
    if todo == [] {
      assert done + todo == done;
    } else {
      var e := todo[0];
      var next := Insert(level, Parts(e.path), e.isDir);
      ShapedInsert(level, Parts(e.path), e.isDir);
      forall q: seq<string> ensures HasFile(next, q) <==> FileListed(done + [e], q) {
        EntryMirrorsFiles(level, done, e, q);
      }
      forall q: seq<string> ensures HasDir(next, q) <==> Made(done + [e], q) {
        EntryMirrorsDirs(level, done, e, q);
      }
      FittingDirsMirror(next, done + [e], todo[1..]);
      assert done + [e] + todo[1..] == done + todo;
    }
  }

  lemma {:induction false} SortedHasDir(nodes: seq<Node>, compare: Compare, q: seq<string>)
    requires Shaped(nodes)
    ensures HasDir(SortNodes(nodes, compare), q) <==> HasDir(nodes, q)
    decreases |q|
  {
    SortKeeps(nodes, compare);
    if q != [] {
      forall n | n in nodes && n.name == q[0] && n.Dir?
        ensures HasDir(SortNode(n, compare).children, q[1..]) <==> HasDir(n.children, q[1..])
      {
        Member(nodes, "", n, "");
        SortedHasDir(n.children, compare, q[1..]);
      }
    }
  }

  lemma NothingYet()
    ensures MirrorsFiles([], []) && MirrorsDirs([], [])
  {
  }

  // For every list, in any order: two listed files, one below the other, are not both in the tree.
  lemma ClashLosesOne(entries: seq<Entry>, compare: Compare, a: Entry, b: Entry)
    requires a in entries && b in entries && !a.isDir && !b.isDir
    requires Parts(a.path) != [] && Parts(a.path) < Parts(b.path)
    ensures !(Join(Parts(a.path)) in FilesOf(Built(entries, compare), "") &&
              Join(Parts(b.path)) in FilesOf(Built(entries, compare), ""))
  {
    hide InsertAll, HasFile, HasDir, Parts, Built;
    ShapedInsertAll([], entries);
    InTree(entries, compare, Parts(a.path));
    InTree(entries, compare, Parts(b.path));
    if HasFile(InsertAll([], entries), Parts(a.path)) {
      FileIsLeaf(InsertAll([], entries), Parts(a.path), Parts(b.path));
    }
  }

  // So for lists of files the round trip holds if and only if no path is a file and a folder.
  lemma FilesRoundTripExactly(entries: seq<Entry>, compare: Compare)
    requires forall e :: e in entries ==> !e.isDir
    ensures RoundTrips(entries, compare) <==> NoClash(entries)
  {
    hide Built, Parts;
    if NoClash(entries) {
      TreeRoundTrip(entries, compare);
    } else {
      var q :| FileListed(entries, q) && DirListed(entries, q);
      var a :| a in entries && !a.isDir && Parts(a.path) == q;
      var b :| b in entries && q <= Parts(b.path) && (b.isDir || q != Parts(b.path));
      ClashLosesOne(entries, compare, a, b);
      assert WantedFile(entries, Join(Parts(a.path))) && WantedFile(entries, Join(Parts(b.path)));
    }
  }

  lemma TwoParts(a: string, b: string)
    requires NameOk(a) && NameOk(b)
    ensures Parts(a) == [a] && Parts(a + "/" + b) == [a, b]
  {
    var path := a + "/" + b;
    assert path[0] == a[0] && path[|path| - 1] == b[|b| - 1];
    assert Trim(a, IsSlash) == a && Trim(path, IsSlash) == path;
    hide Trim, Split, NonEmpty;
    SplitName(a, "", false);
    SplitName(b, "", false);
    SplitName(a, b, true);
    assert [a] + [b] == [a, b];
    assert NonEmpty([a]) == [a] && NonEmpty([a, b]) == [a, b];
  }

  // With a clash the round trip fails: when a path is a file and also the folder of another
  // file, that other file ends up beside it, under its bare name.
  lemma {:induction false} ClashMisplaces(a: string, b: string, compare: Compare)
    requires NameOk(a) && NameOk(b) && a != b
    ensures var entries := [Entry(a, false), Entry(a + "/" + b, false)];
      !NoClash(entries) &&
      b in FilesOf(Built(entries, compare), "") && a + "/" + b !in FilesOf(Built(entries, compare), "")
  {
    var entries := [Entry(a, false), Entry(a + "/" + b, false)];
    hide Parts, InsertAll, Insert, FilesOf, Place, SortNodes;
    TwoParts(a, b);
    assert FileListed(entries, [a]) by { assert entries[0] in entries; }
    assert DirListed(entries, [a]) by { assert entries[1] in entries && [a] <= [a, b]; }
    TwoLevels(a, b);
    TwoSorted(a, b, compare);
    TwoFilesFlat(a, b);
    TwoFilesFlat(b, a);
    assert '/' in a + "/" + b by { assert (a + "/" + b)[|a|] == '/'; }
  }

  lemma InsertFile(level: seq<Node>, name: string)
    requires IndexOf(level, name) == |level|
    ensures Insert(level, [name], false) == level + [File(name)]
  {
  }

  // A file on the way does not open a level.
  lemma InsertPast(level: seq<Node>, parts: seq<string>, isDir: bool)
    requires parts != [] && IndexOf(level, parts[0]) < |level| && level[IndexOf(level, parts[0])].File?
    ensures Insert(level, parts, isDir) == Insert(level, parts[1..], isDir)
  {
  }

  lemma TwoLevels(a: string, b: string)
    requires NameOk(a) && NameOk(b) && a != b
    ensures InsertAll([], [Entry(a, false), Entry(a + "/" + b, false)]) == [File(a), File(b)]
  {
    hide Parts, Insert;
    TwoParts(a, b);
    var entries := [Entry(a, false), Entry(a + "/" + b, false)];
    InsertFile([], a);
    InsertPast([File(a)], [a, b], false);
    assert [a, b][1..] == [b];
    assert IndexOf([File(a)], b) == 1 by { assert [File(a)][1..] == []; }
    InsertFile([File(a)], b);
    assert Insert([], [a], false) == [File(a)];
    assert Insert([File(a)], [a, b], false) == [File(a), File(b)];
    assert entries[1..] == [entries[1]] && entries[1..][1..] == [];
    assert InsertAll([File(a)], entries[1..]) == [File(a), File(b)];
  }

  lemma TwoSorted(a: string, b: string, compare: Compare)
    ensures var sorted := SortNodes([File(a), File(b)], compare);
      sorted == [File(a), File(b)] || sorted == [File(b), File(a)]
  {
    assert [File(a), File(b)][1..] == [File(b)] && [File(b)][1..] == [];
    assert SortNodes([File(b)], compare) == [File(b)];
    assert Place(File(a), [], compare) == [File(a)];
  }

  lemma TwoFilesFlat(a: string, b: string)
    ensures FilesOf([File(a), File(b)], "") == [a, b]
  {
    assert [File(a), File(b)][1..] == [File(b)] && [File(b)][1..] == [];
    assert FilesOf([File(b)], "") == [b];
  }

  // With directory entries the order decides: the same clash is harmless when the file comes
  // first, and loses the file when the directory does.
  lemma OrderDecides(a: string, compare: Compare)
    requires NameOk(a)
    ensures var (file, dir) := (Entry(a, false), Entry(a, true));
      !NoClash([file, dir]) && RoundTrips([file, dir], compare) && !RoundTrips([dir, file], compare)
  {
    var (file, dir) := (Entry(a, false), Entry(a, true));
    hide Parts, RoundTrips;
    TwoParts(a, a);
    assert FileListed([file, dir], [a]) by { assert file in [file, dir]; }
    assert DirListed([file, dir], [a]) by { assert dir in [file, dir]; }
    RoundTripExactly([file, dir], compare);
    RoundTripExactly([dir, file], compare);
    assert InPlace([file, dir], 0) by {
      assert [file, dir][..0] == [];
    }
    assert InPlace([file, dir], 1);
    assert !InPlace([dir, file], 1) by {
      assert [dir, file][..1] == [dir] && [dir][..0] == [];
      DirectoryMakes(a);
      assert Makes([dir], 0, [a]);
    }
  }

  lemma DirectoryMakes(a: string)
    ensures Reached([], [], [a]) == [a]
  {
    assert [] + [a] == [a] && [a][1..] == [];
    assert Reached([], [a], []) == [a];
  }
}
