// What the exclude patterns mean: the round trip between a set of excluded files and
// its pattern list, the minimality of that list, and the effect of the two toggles.
module ExcludeTheorems {
  import opened Collections
  import opened Text
  import opened ExcludePaths
  import opened TreeShape

  // Names that are not mistaken for something else inside a pattern.
  ghost predicate PlainName(n: string) {
    n != "" && '*' !in n && !IsJsSpace(n[0]) && !IsJsSpace(n[|n| - 1]) && n[|n| - 1] != '/'
  }

  ghost predicate PlainNames(nodes: seq<Node>) {
    nodes == [] || (PlainNamesIn(nodes[0]) && PlainNames(nodes[1..]))
  }

  ghost predicate PlainNamesIn(node: Node) {
    PlainName(node.name) && (node.Dir? ==> PlainNames(node.children))
  }

  // A path that is a pattern for itself and whose folder pattern means its subtree.
  ghost predicate Plain(p: string) {
    p != "" && '*' !in p && !IsJsSpace(p[0]) && !IsJsSpace(p[|p| - 1]) && p[|p| - 1] != '/'
  }

  ghost predicate BaseOk(base: string) {
    base == "" || Plain(base)
  }

  lemma PlainFull(base: string, name: string)
    requires BaseOk(base) && PlainName(name)
    ensures Plain(Full(base, name))
  {
  }

  // The three ways to write a folder mean the same: the path and what lies below it.
  lemma FolderPatternMeans(path: string, file: string, glob: Glob)
    requires Plain(path) && file != ""
    ensures MatchPattern(file, path + "/**", glob) <==> At(file, path)
    ensures MatchPattern(file, path + "/*", glob) <==> At(file, path)
    ensures MatchPattern(file, path + "/", glob) <==> At(file, path)
  {
    FolderForm(path, "/**", file, glob);
    FolderForm(path, "/*", file, glob);
    FolderForm(path, "/", file, glob);
  }

  lemma FolderForm(path: string, form: string, file: string, glob: Glob)
    requires Plain(path) && file != "" && form in {"/**", "/*", "/"}
    ensures MatchPattern(file, path + form, glob) <==> At(file, path)
  {
    var p := path + form;
    assert p[|p| - 1] == form[|form| - 1] && !IsJsSpace('*') && !IsJsSpace('/');
    Trimmed(file, p, glob);
    FolderTrimmed(path, form, file, glob);
  }

  lemma Trimmed(file: string, p: string, glob: Glob)
    requires file != "" && p != "" && !IsJsSpace(p[0]) && !IsJsSpace(p[|p| - 1])
    ensures MatchPattern(file, p, glob) <==> MatchTrimmed(file, p, glob)
  {
    hide MatchTrimmed;
    assert JsTrim(p) == p;
  }

  lemma FolderTrimmed(path: string, form: string, file: string, glob: Glob)
    requires path != "" && path[|path| - 1] != '/' && '*' !in path && form in {"/**", "/*", "/"}
    ensures MatchTrimmed(file, path + form, glob) <==> At(file, path)
  {
    var p := path + form;
    assert p[|p| - |form|..] == form && p[..|p| - |form|] == path;
    assert p[|p| - 1] == form[|form| - 1];
    if form == "/**" {
      assert p == file ==> p[..|path| + 1] == path + "/";
    } else if form == "/*" {
      assert p[|p| - 2] == '/';
      assert p == file ==> p[..|path| + 1] == path + "/";
    }
  }

  lemma ExactPatternMeans(path: string, file: string, glob: Glob)
    requires Plain(path) && file != ""
    ensures MatchPattern(file, path, glob) <==> file == path
  {
    assert JsTrim(path) == path;
  }

  // Any other pattern with a '*' matches the file it spells, and the files whose last name or
  // whole path the expression accepts, a leading "**/" left aside.
  lemma StarPatternMeans(lead: string, target: string, folder: string, name: string, glob: Glob)
    requires lead == "" || lead == "**/"
    requires var p := lead + target;
      '*' in p && p[|p| - 1] != '/' && !HasSuffix(p, "/*") && !HasSuffix(p, "/**") &&
      !IsJsSpace(p[0]) && !IsJsSpace(p[|p| - 1]) && (lead == "" ==> !("**/" <= target))
    requires '/' !in name && (folder == "" || folder[|folder| - 1] == '/') && folder + name != ""
    ensures var file := folder + name;
      MatchPattern(file, lead + target, glob) <==> file == lead + target || glob(target, name) || glob(target, file)
  {
    hide MatchPattern, HasSuffix;
    var p := lead + target;
    assert lead == "" ==> p == target;
    assert lead != "" ==> "**/" <= p && p[3..] == target;
    LastName(folder, name);
    StarMatches(p, folder + name, glob);
  }

  lemma StarMatches(p: string, file: string, glob: Glob)
    requires file != "" && '*' in p && p[|p| - 1] != '/' && !HasSuffix(p, "/*") && !HasSuffix(p, "/**")
    requires !IsJsSpace(p[0]) && !IsJsSpace(p[|p| - 1])
    ensures var target := if "**/" <= p then p[3..] else p;
      MatchPattern(file, p, glob) <==> file == p || glob(target, BaseName(file)) || glob(target, file)
  {
    Trimmed(file, p, glob);
    assert !HasSuffix(p, "/");
    hide MatchPattern, BaseName, At, HasSuffix;
  }

  lemma {:induction false} LastName(folder: string, name: string)
    requires '/' !in name && (folder == "" || folder[|folder| - 1] == '/')
    ensures BaseName(folder + name) == name
  {
    if folder == "" {
      assert folder + name == name;
    } else {
      assert (folder + name)[|folder| - 1] == '/';
      assert (folder + name)[1..] == folder[1..] + name;
      LastName(folder[1..], name);
    }
  }

  // ... without a '*' it matches the file it spells alone.
  lemma SpelledPatternMeans(pattern: string, file: string, glob: Glob)
    requires file != "" && pattern != "" && '*' !in pattern && pattern[|pattern| - 1] != '/'
    requires !IsJsSpace(pattern[0]) && !IsJsSpace(pattern[|pattern| - 1])
    ensures MatchPattern(file, pattern, glob) <==> file == pattern
  {
    assert JsTrim(pattern) == pattern;
    assert pattern[|pattern| - 1] != '*';
  }

  // White space around a pattern changes nothing, and a blank pattern matches nothing.
  lemma OuterSpaceIgnored(left: string, pattern: string, right: string, file: string, glob: Glob)
    requires AllCut(left, IsJsSpace) && AllCut(right, IsJsSpace)
    ensures MatchPattern(file, left + pattern + right, glob) <==> MatchPattern(file, pattern, glob)
    ensures !MatchPattern(file, left + right, glob)
  {
    hide MatchTrimmed, Trim;
    TrimSkips(left, pattern, right, IsJsSpace);
    TrimSkips(left, "", right, IsJsSpace);
    assert left + "" + right == left + right;
  }

  // A folder among the patterns, in whatever form and with whatever white space around it, excludes
  // every file of the tree at or below it.
  lemma FolderExcludes(tree: seq<Node>, patterns: seq<string>, path: string, glob: Glob,
                       left: string, form: string, right: string)
    requires Shaped(tree) && Plain(path) && form in {"/**", "/*", "/"}
    requires AllCut(left, IsJsSpace) && AllCut(right, IsJsSpace) && left + (path + form) + right in patterns
    ensures forall f :: f in FilesOf(tree, "") && At(f, path) ==> f in Expanded(tree, patterns, glob)
  {
    forall f | f in FilesOf(tree, "") && At(f, path) ensures f in Expanded(tree, patterns, glob) {
      FolderForm(path, form, f, glob);
      OuterSpaceIgnored(left, path + form, right, f, glob);
    }
  }

  // ------------------------------------------------------------ the walk without bookkeeping

  ghost function Emit(nodes: seq<Node>, base: string, all: seq<string>, excluded: set<string>): seq<string> {
    if nodes == [] then []
    else EmitNode(nodes[0], base, all, excluded) + Emit(nodes[1..], base, all, excluded)
  }

  ghost function EmitNode(n: Node, base: string, all: seq<string>, excluded: set<string>): seq<string> {
    var full := Full(base, n.name);
    match n
    case Dir(_, children) =>
      if FolderFullyExcluded(full, all, excluded) then [full + "/**"] else Emit(children, full, all, excluded)
    case File(_) => if full in excluded && !IsProtected(full) then [full] else []
  }

  // The `covered` set never hides a file: the walk emits exactly Emit.
  lemma {:induction false} WalkEmits(nodes: seq<Node>, base: string, all: seq<string>, excluded: set<string>, w: Walked)
    requires Shaped(nodes)
    requires forall f :: f in w.covered ==> !Region(nodes, base, f)
    ensures WalkNodes(nodes, base, all, excluded, w).patterns == w.patterns + Emit(nodes, base, all, excluded)
    ensures forall f :: f in WalkNodes(nodes, base, all, excluded, w).covered ==> f in w.covered || Region(nodes, base, f)
    decreases nodes
  {
    if nodes != [] {
      var n, full := nodes[0], Full(base, nodes[0].name);
      FullPrefix(base, n.name);
      forall f | f in w.covered ensures !At(f, full) && !Region(nodes[1..], base, f) {
        assert n in nodes;
      }
      if n.Dir? && !FolderFullyExcluded(full, all, excluded) {
        forall f | Region(n.children, full, f) ensures At(f, full) {
          RegionBelow(n, base, f);
        }
        WalkEmits(n.children, full, all, excluded, w);
      }
      var w1 := WalkNode(n, base, all, excluded, w);
      forall f | f in w1.covered ensures f in w.covered || At(f, full) {}
      forall f | f in w1.covered ensures !Region(nodes[1..], base, f) {
        if At(f, full) { SiblingsApart(nodes, base, f); }
      }
      WalkEmits(nodes[1..], base, all, excluded, w1);
      assert w1.patterns == w.patterns + EmitNode(n, base, all, excluded);
      assert forall f :: Region(nodes[1..], base, f) ==> Region(nodes, base, f);
    }
  }

  // ------------------------------------------------------------ what the emitted patterns match

  lemma {:induction false} EmitMeans(nodes: seq<Node>, base: string, all: seq<string>, excluded: set<string>,
                                     f: string, glob: Glob)
    requires Shaped(nodes) && PlainNames(nodes) && BaseOk(base) && AllOwn(nodes, base, all)
    requires f in all && f != ""
    ensures IsExcluded(f, Emit(nodes, base, all, excluded), glob)
       <==> f in excluded && !IsProtected(f) && Region(nodes, base, f)
    decreases nodes, 1
  {
    if nodes != [] {
      var here, there := EmitNode(nodes[0], base, all, excluded), Emit(nodes[1..], base, all, excluded);
      assert nodes == [nodes[0]] + nodes[1..];
      EmitNodeMeans(nodes[0], base, all, excluded, f, glob);
      EmitMeans(nodes[1..], base, all, excluded, f, glob);
      assert IsExcluded(f, here + there, glob) <==> IsExcluded(f, here, glob) || IsExcluded(f, there, glob);
      assert Region(nodes, base, f) <==> At(f, Full(base, nodes[0].name)) || Region(nodes[1..], base, f);
    }
  }

  lemma {:induction false} EmitNodeMeans(n: Node, base: string, all: seq<string>, excluded: set<string>,
                                         f: string, glob: Glob)
    requires ShapedNode(n) && PlainNamesIn(n) && BaseOk(base) && Owns(n, base, all)
    requires f in all && f != ""
    ensures IsExcluded(f, EmitNode(n, base, all, excluded), glob)
       <==> f in excluded && !IsProtected(f) && At(f, Full(base, n.name))
    decreases n, 0
  {
    var full := Full(base, n.name);
    PlainFull(base, n.name);
    if n.File? {
      LoneFileMeans(n, base, all, excluded, f, glob);
    } else if FolderFullyExcluded(full, all, excluded) {
      WholeFolderMeans(n, base, all, excluded, f, glob);
    } else {
      OwnChildren(n, base, all);
      FolderRegion(n, base, all, f);
      EmitMeans(n.children, full, all, excluded, f, glob);
    }
  }

  lemma FolderRegion(n: Node, base: string, all: seq<string>, f: string)
    requires ShapedNode(n) && PlainNamesIn(n) && n.Dir? && BaseOk(base) && Owns(n, base, all) && f in all
    ensures Region(n.children, Full(base, n.name), f) <==> At(f, Full(base, n.name))
  {
    if Region(n.children, Full(base, n.name), f) {
      RegionBelow(n, base, f);
    } else if At(f, Full(base, n.name)) {
      BelowFolder(n, base, all, f);
    }
  }

  lemma LoneFileMeans(n: Node, base: string, all: seq<string>, excluded: set<string>, f: string, glob: Glob)
    requires ShapedNode(n) && PlainNamesIn(n) && n.File? && BaseOk(base) && Owns(n, base, all)
    requires f in all && f != ""
    ensures IsExcluded(f, EmitNode(n, base, all, excluded), glob)
       <==> f in excluded && !IsProtected(f) && At(f, Full(base, n.name))
  {
    PlainFull(base, n.name);
    ExactPatternMeans(Full(base, n.name), f, glob);
    assert f in FilesIn(n, base) <==> f == Full(base, n.name);
  }

  lemma WholeFolderMeans(n: Node, base: string, all: seq<string>, excluded: set<string>, f: string, glob: Glob)
    requires ShapedNode(n) && PlainNamesIn(n) && n.Dir? && BaseOk(base) && Owns(n, base, all)
    requires f in all && f != "" && FolderFullyExcluded(Full(base, n.name), all, excluded)
    ensures IsExcluded(f, [Full(base, n.name) + "/**"], glob)
       <==> f in excluded && !IsProtected(f) && At(f, Full(base, n.name))
  {
    var full := Full(base, n.name);
    PlainFull(base, n.name);
    FolderPatternMeans(full, f, glob);
    assert IsExcluded(f, [full + "/**"], glob) <==> MatchPattern(f, full + "/**", glob);
    if At(f, full) {
      BelowFolder(n, base, all, f);
      assert Editable(f, full, all);
    }
  }

  // The custom patterns after those of the tree: every original pattern that matches no file of
  // the tree is kept, nothing else is added, and no file of the tree is excluded by them.
  lemma {:induction false} CustomMatchesNothing(patterns: seq<string>, original: seq<string>, all: seq<string>, glob: Glob)
    ensures var kept := KeepCustom(patterns, original, all, glob);
      patterns <= kept &&
      (forall p :: p in original && !MatchesTree(p, all, glob) ==> p in kept) &&
      (forall p :: p in kept[|patterns|..] ==> p in original && !MatchesTree(p, all, glob)) &&
      forall f :: f in all ==> (IsExcluded(f, kept, glob) <==> IsExcluded(f, patterns, glob))
    decreases original
  {
    hide MatchPattern;
    if original != [] {
      var p := original[0];
      var next := if !MatchesTree(p, all, glob) && p !in patterns then patterns + [p] else patterns;
      var kept := KeepCustom(next, original[1..], all, glob);
      CustomMatchesNothing(next, original[1..], all, glob);
      assert kept[|patterns|..] == next[|patterns|..] + kept[|next|..];
      assert original == [p] + original[1..];
    }
  }

  // The files of the tree that a pattern list excludes.
  ghost function Expanded(tree: seq<Node>, patterns: seq<string>, glob: Glob): set<string> {
    ExcludedSet(FilesOf(tree, ""), patterns, glob)
  }

  // Expanding the serialised patterns gives the excluded files back, protected ones aside.
  lemma RoundTrip(tree: seq<Node>, excluded: set<string>, original: seq<string>, glob: Glob)
    requires Shaped(tree) && PlainNames(tree)
    ensures Expanded(tree, Serialised(tree, FilesOf(tree, ""), excluded, original, glob), glob)
         == set f | f in FilesOf(tree, "") && f in excluded && !IsProtected(f)
  {
    var all := FilesOf(tree, "");
    OwnTree(tree);
    WalkEmits(tree, "", all, excluded, Walked({}, []));
    var emitted := Emit(tree, "", all, excluded);
    assert [] + emitted == emitted;
    CustomMatchesNothing(emitted, original, all, glob);
    forall f | f in all
      ensures IsExcluded(f, Serialised(tree, all, excluded, original, glob), glob)
         <==> f in excluded && !IsProtected(f)
    {
      var n := FilesOfAt(tree, "", f);
      EmitMeans(tree, "", all, excluded, f, glob);
    }
  }

  // ------------------------------------------------------------ minimality

  // The two pattern forms the tree view writes, over any plain path.
  datatype TreePattern = Folder(path: string) | Exact(path: string) {
    function Text(): string {
      match this
      case Folder(p) => p + "/**"
      case Exact(p) => p
    }

    ghost predicate Hits(f: string) {
      match this
      case Folder(p) => At(f, p)
      case Exact(p) => f == p
    }
  }

  function Texts(list: seq<TreePattern>): seq<string> {
    seq(|list|, i requires 0 <= i < |list| => list[i].Text())
  }

  ghost predicate AllPlain(list: seq<TreePattern>) {
    forall q :: q in list ==> Plain(q.path)
  }

  ghost predicate Covers(list: seq<TreePattern>, all: seq<string>, excluded: set<string>) {
    forall f :: f in all ==> (f in excluded <==> exists q :: q in list && q.Hits(f))
  }

  // The patterns of the list whose path lies in the forest.
  ghost function Placed(nodes: seq<Node>, base: string, list: seq<TreePattern>): set<nat> {
    set i: nat | i < |list| && Region(nodes, base, list[i].path)
  }

  ghost predicate NoneAbove(base: string, list: seq<TreePattern>) {
    forall q :: q in list && q.Folder? ==> q.path != base && !(q.path + "/" <= base)
  }

  lemma Above(base: string, name: string, p: string)
    requires NameOk(name) && p + "/" <= Full(base, name)
    ensures p == base || p + "/" <= base
  {
    FullPrefix(base, name);
    var full := Full(base, name);
    forall j | |Prefix(base)| <= j < |full| ensures full[j] != '/' {
      assert full[j] == name[j - |Prefix(base)|];
    }
    assert full[|p|] == '/';
    assert p + "/" == full[..|p| + 1] == Prefix(base)[..|p| + 1];
    if |p| < |base| {
      assert p + "/" == base[..|p| + 1];
    } else {
      assert p == full[..|p|] && base == full[..|base|];
    }
  }

  // A pattern that hits a file of node n is placed in n, when no folder above n is listed.
  lemma HitIsPlaced(n: Node, base: string, list: seq<TreePattern>, q: TreePattern, f: string)
    requires NameOk(n.name) && NoneAbove(base, list)
    requires q in list && q.Hits(f) && At(f, Full(base, n.name))
    ensures At(q.path, Full(base, n.name))
  {
    var full := Full(base, n.name);
    assert f[..|full|] == full && f[..|q.path|] == q.path;
    if |full| < |q.path| {
      assert q.path[..|full| + 1] == f[..|full| + 1] == full + "/";
    } else if |q.path| < |full| {
      assert q.path + "/" == f[..|q.path| + 1] == full[..|q.path| + 1];
      Above(base, n.name, q.path);
    }
  }

  lemma SplitPlaced(nodes: seq<Node>, base: string, list: seq<TreePattern>)
    requires Shaped(nodes) && nodes != []
    ensures |Placed(nodes, base, list)| == |Placed(nodes[..1], base, list)| + |Placed(nodes[1..], base, list)|
  {
    var here, there := Placed(nodes[..1], base, list), Placed(nodes[1..], base, list);
    assert nodes == nodes[..1] + nodes[1..];
    assert Placed(nodes, base, list) == here + there;
    forall i | i in here ensures i !in there {
      SiblingsApart(nodes, base, list[i].path);
    }
    assert here !! there;
  }

  lemma {:induction false} EmittedHasFile(nodes: seq<Node>, base: string, all: seq<string>, excluded: set<string>)
    returns (f: string)
    requires Shaped(nodes) && AllOwn(nodes, base, all)
    requires Emit(nodes, base, all, excluded) != []
    ensures f in all && Region(nodes, base, f)
    decreases nodes
  {
    var n, full := nodes[0], Full(base, nodes[0].name);
    assert n in nodes;
    FullPrefix(base, n.name);
    if EmitNode(n, base, all, excluded) == [] {
      f := EmittedHasFile(nodes[1..], base, all, excluded);
      assert forall m :: m in nodes[1..] ==> m in nodes;
    } else if n.File? {
      f := full;
      assert f in FilesIn(n, base);
    } else if FolderFullyExcluded(full, all, excluded) {
      f :| f in all && Editable(f, full, all);
    } else {
      OwnChildren(n, base, all);
      f := EmittedHasFile(n.children, full, all, excluded);
      RegionBelow(n, base, f);
    }
  }

  lemma {:induction false} EmitLeast(nodes: seq<Node>, base: string, all: seq<string>, excluded: set<string>,
                                     list: seq<TreePattern>)
    requires Shaped(nodes) && AllOwn(nodes, base, all)
    requires Covers(list, all, excluded) && NoneAbove(base, list)
    ensures |Emit(nodes, base, all, excluded)| <= |Placed(nodes, base, list)|
    decreases nodes, 1
  {
    if nodes != [] {
      EmitNodeLeast(nodes[0], base, all, excluded, list);
      EmitLeast(nodes[1..], base, all, excluded, list);
      SplitPlaced(nodes, base, list);
      assert nodes[..1] == [nodes[0]];
    }
  }

  lemma {:induction false} EmitNodeLeast(n: Node, base: string, all: seq<string>, excluded: set<string>,
                                         list: seq<TreePattern>)
    requires ShapedNode(n) && Owns(n, base, all)
    requires Covers(list, all, excluded) && NoneAbove(base, list)
    ensures |EmitNode(n, base, all, excluded)| <= |Placed([n], base, list)|
    decreases n, 0
  {
    var full := Full(base, n.name);
    FullPrefix(base, n.name);
    if EmitNode(n, base, all, excluded) == [] {
    } else if n.File? {
      assert full in FilesIn(n, base);
      OnePlaced(n, base, all, excluded, list, full);
    } else if FolderFullyExcluded(full, all, excluded) {
      var f :| f in all && Editable(f, full, all);
      OnePlaced(n, base, all, excluded, list, f);
    } else {
      OwnChildren(n, base, all);
      var f := EmittedHasFile(n.children, full, all, excluded);
      RegionBelow(n, base, f);
      BelowFolder(n, base, all, f);
      assert Editable(f, full, all);
      NoneAtFolder(n, base, all, excluded, list);
      EmitLeast(n.children, full, all, excluded, list);
      PlacedBelow(n, base, list);
    }
  }

  lemma OnePlaced(n: Node, base: string, all: seq<string>, excluded: set<string>, list: seq<TreePattern>, f: string)
    requires NameOk(n.name) && Covers(list, all, excluded) && NoneAbove(base, list)
    requires f in all && f in excluded && At(f, Full(base, n.name))
    ensures 1 <= |Placed([n], base, list)|
  {
    var q :| q in list && q.Hits(f);
    HitIsPlaced(n, base, list, q, f);
    var i: nat :| i < |list| && list[i] == q;
    assert n in [n];
    assert i in Placed([n], base, list);
  }

  // A folder with an included file is not listed, so the walk's descent keeps NoneAbove.
  lemma NoneAtFolder(n: Node, base: string, all: seq<string>, excluded: set<string>, list: seq<TreePattern>)
    requires ShapedNode(n)
    requires Covers(list, all, excluded) && NoneAbove(base, list)
    requires exists g :: g in all && At(g, Full(base, n.name)) && g !in excluded
    ensures NoneAbove(Full(base, n.name), list)
  {
    var full := Full(base, n.name);
    var g :| g in all && At(g, full) && g !in excluded;
    assert Folder(full).Hits(g);
    forall q | q in list && q.Folder?
      ensures q.path != full && !(q.path + "/" <= full)
    {
      assert q != Folder(full);
      if q.path + "/" <= full {
        Above(base, n.name, q.path);
      }
    }
  }

  lemma PlacedBelow(n: Node, base: string, list: seq<TreePattern>)
    requires ShapedNode(n) && n.Dir?
    ensures |Placed(n.children, Full(base, n.name), list)| <= |Placed([n], base, list)|
  {
    var inner, outer := Placed(n.children, Full(base, n.name), list), Placed([n], base, list);
    forall i | i in inner ensures i in outer {
      RegionBelow(n, base, list[i].path);
      assert n in [n];
    }
    SubsetSize(inner, outer);
  }

  lemma {:induction false} IndicesSize(s: set<nat>, n: nat)
    requires forall i :: i in s ==> i < n
    ensures |s| <= n
  {
    if n > 0 {
      IndicesSize(s - {n - 1}, n - 1);
      SubsetSize(s, s - {n - 1} + {n - 1});
    } else {
      assert s == {};
    }
  }

  lemma TextsMatch(list: seq<TreePattern>, f: string, glob: Glob)
    requires AllPlain(list) && f != ""
    ensures IsExcluded(f, Texts(list), glob) <==> exists q :: q in list && q.Hits(f)
  {
    forall q | q in list
      ensures q.Text() in Texts(list)
      ensures MatchPattern(f, q.Text(), glob) <==> q.Hits(f)
    {
      var i :| 0 <= i < |list| && list[i] == q;
      assert Texts(list)[i] == q.Text();
      if q.Folder? { FolderPatternMeans(q.path, f, glob); } else { ExactPatternMeans(q.path, f, glob); }
    }
    forall p | p in Texts(list)
      ensures exists q :: q in list && q.Text() == p
    {
      var i :| 0 <= i < |Texts(list)| && Texts(list)[i] == p;
      assert list[i] in list;
    }
  }

  // The patterns the walk writes are the head of the serialised list, every other entry matches
  // no tree file, and no list of tree patterns with the same expansion is shorter.
  lemma Minimal(tree: seq<Node>, excluded: set<string>, original: seq<string>, list: seq<TreePattern>, glob: Glob)
    returns (emitted: seq<string>)
    requires Shaped(tree) && PlainNames(tree) && AllPlain(list)
    requires Expanded(tree, Texts(list), glob) == excluded
    requires forall f :: f in excluded ==> !IsProtected(f)
    ensures emitted == WalkNodes(tree, "", FilesOf(tree, ""), excluded, Walked({}, [])).patterns
    ensures var all, written := FilesOf(tree, ""), Serialised(tree, FilesOf(tree, ""), excluded, original, glob);
      emitted <= written && forall p :: p in written[|emitted|..] ==> !MatchesTree(p, all, glob)
    ensures Expanded(tree, emitted, glob) == excluded
    ensures |emitted| <= |list|
  {
    var all := FilesOf(tree, "");
    OwnTree(tree);
    emitted := Emit(tree, "", all, excluded);
    WalkEmits(tree, "", all, excluded, Walked({}, []));
    assert [] + emitted == emitted;
    forall f | f in all
      ensures f in excluded <==> exists q :: q in list && q.Hits(f)
    {
      var n := FilesOfAt(tree, "", f);
      TextsMatch(list, f, glob);
      assert f in Expanded(tree, Texts(list), glob) <==> IsExcluded(f, Texts(list), glob);
    }
    EmitLeast(tree, "", all, excluded, list);
    IndicesSize(Placed(tree, "", list), |list|);
    CustomMatchesNothing(emitted, original, all, glob);
    RoundTrip(tree, excluded, [], glob);
    assert KeepCustom(emitted, [], all, glob) == emitted;
    assert (set f | f in all && f in excluded && !IsProtected(f)) == excluded;
  }

  // ------------------------------------------------------------ the toggles

  ghost function Unprotected(files: set<string>): set<string> {
    set f | f in files && !IsProtected(f)
  }

  // One click on an unprotected file of the tree flips that file and no other one.
  lemma FileToggleFlips(tree: seq<Node>, patterns: seq<string>, file: string, glob: Glob)
    requires Shaped(tree) && PlainNames(tree) && file in FilesOf(tree, "") && !IsProtected(file)
    ensures var before := Unprotected(Expanded(tree, patterns, glob));
      Expanded(tree, FileToggled(tree, patterns, file, glob), glob)
        == if file in before then before - {file} else before + {file}
  {
    var s := Expanded(tree, patterns, glob);
    RoundTrip(tree, if file in s then s - {file} else s + {file}, patterns, glob);
  }

  // A protected path and a path outside the tree leave the unprotected exclusions alone.
  lemma FileToggleElsewhere(tree: seq<Node>, patterns: seq<string>, file: string, glob: Glob)
    requires Shaped(tree) && PlainNames(tree) && (file !in FilesOf(tree, "") || IsProtected(file))
    ensures Unprotected(Expanded(tree, FileToggled(tree, patterns, file, glob), glob))
         == Unprotected(Expanded(tree, patterns, glob))
  {
    var s := Expanded(tree, patterns, glob);
    if !IsProtected(file) {
      RoundTrip(tree, if file in s then s - {file} else s + {file}, patterns, glob);
    }
  }

  lemma FileToggleTwice(tree: seq<Node>, patterns: seq<string>, file: string, glob: Glob)
    requires Shaped(tree) && PlainNames(tree)
    ensures Unprotected(Expanded(tree, FileToggled(tree, FileToggled(tree, patterns, file, glob), file, glob), glob))
         == Unprotected(Expanded(tree, patterns, glob))
  {
    var once := FileToggled(tree, patterns, file, glob);
    if file in FilesOf(tree, "") && !IsProtected(file) {
      FileToggleFlips(tree, patterns, file, glob);
      FileToggleFlips(tree, once, file, glob);
    } else {
      FileToggleElsewhere(tree, patterns, file, glob);
      FileToggleElsewhere(tree, once, file, glob);
    }
  }

  // One click on a folder excludes all its editable files, or includes all of them when
  // they were all excluded already, and touches nothing else.
  lemma {:induction false} FolderToggleSets(tree: seq<Node>, patterns: seq<string>, folder: string, glob: Glob)
    requires Shaped(tree) && PlainNames(tree)
    ensures var all := FilesOf(tree, "");
      var children := set f | f in all && (f == folder || folder + "/" <= f) && f != ".ai.yml";
      var before := Unprotected(Expanded(tree, patterns, glob));
      Unprotected(Expanded(tree, FolderToggled(tree, patterns, folder, glob), glob))
        == if children <= before then before - children else before + children
  {
    var all := FilesOf(tree, "");
    var s := Expanded(tree, patterns, glob);
    var children := set f | f in all && Editable(f, folder, all);
    assert children == set f | f in all && (f == folder || folder + "/" <= f) && f != ".ai.yml";
    assert children <= s <==> children <= Unprotected(s);
    if children != {} {
      RoundTrip(tree, if children <= s then s - children else s + children, patterns, glob);
    }
  }
}
