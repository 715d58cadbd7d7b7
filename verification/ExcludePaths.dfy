// Exclude patterns of the repository tree: expanding a pattern list over the files
// of a tree, writing a set of excluded files back as patterns, and the two toggles.
// The regular expression engine behind `*.ext` patterns is the parameter `glob`:
// glob(target, text) says whether the anchored expression built from target matches text.
module ExcludePaths {
  import opened Text

  datatype Node = File(name: string) | Dir(name: string, children: seq<Node>)

  type Glob = (string, string) -> bool

  const PROTECTED_PATHS: seq<string> := [".ai.yml"]

  predicate IsProtected(path: string): (r: bool)
    ensures r <==> path == ".ai.yml"
  {
    path in PROTECTED_PATHS
  }

  function Full(base: string, name: string): string {
    if base == "" then name else base + "/" + name
  }

  // ------------------------------------------------------------ the source's functions

  predicate MatchPattern(file: string, pattern: string, glob: Glob) {
    if file == "" || pattern == "" then false else
    var p := JsTrim(pattern);
    p != "" && MatchTrimmed(file, p, glob)
  }

  predicate MatchTrimmed(file: string, p: string, glob: Glob) {
    if p == file then true
    else if HasSuffix(p, "/**") then At(file, p[..|p| - 3])
    else if HasSuffix(p, "/*") then At(file, p[..|p| - 2])
    else if HasSuffix(p, "/") then At(file, p[..|p| - 1])
    else if '*' in p then
      var target := if "**/" <= p then p[3..] else p;
      glob(target, BaseName(file)) || glob(target, file)
    else false
  }

  // file.split('/').pop()
  function BaseName(file: string): (r: string)
    ensures '/' !in r && HasSuffix(file, r)
    ensures r == file || file[|file| - |r| - 1] == '/'
  {
    if '/' in file then BaseName(file[1..]) else file
  }

  predicate IsExcluded(file: string, patterns: seq<string>, glob: Glob) {
    exists p :: p in patterns && MatchPattern(file, p, glob)
  }

  function FilesOf(nodes: seq<Node>, base: string): seq<string> {
    if nodes == [] then []
    else FilesIn(nodes[0], base) + FilesOf(nodes[1..], base)
  }

  function FilesIn(node: Node, base: string): seq<string> {
    match node
    case File(name) => [Full(base, name)]
    case Dir(name, children) => FilesOf(children, Full(base, name))
  }

  function ExcludedSet(all: seq<string>, patterns: seq<string>, glob: Glob): set<string> {
    set f | f in all && IsExcluded(f, patterns, glob)
  }

  predicate Editable(file: string, folder: string, all: seq<string>) {
    file in all && At(file, folder) && !IsProtected(file)
  }

  predicate FolderFullyExcluded(folder: string, all: seq<string>, excluded: set<string>) {
    (exists f :: f in all && Editable(f, folder, all)) &&
    forall f :: f in all && Editable(f, folder, all) ==> f in excluded
  }

  // The variables the nested function `walk` updates.
  datatype Walked = Walked(covered: set<string>, patterns: seq<string>)

  function WalkNodes(nodes: seq<Node>, base: string, all: seq<string>, excluded: set<string>, w: Walked): Walked {
    if nodes == [] then w
    else WalkNodes(nodes[1..], base, all, excluded, WalkNode(nodes[0], base, all, excluded, w))
  }

  function WalkNode(node: Node, base: string, all: seq<string>, excluded: set<string>, w: Walked): Walked {
    var full := Full(base, node.name);
    match node
    case Dir(_, children) =>
      if FolderFullyExcluded(full, all, excluded)
      then Walked(w.covered + (set f | f in all && At(f, full)), w.patterns + [full + "/**"])
      else WalkNodes(children, full, all, excluded, w)
    case File(_) =>
      if full in excluded && full !in w.covered && !IsProtected(full)
      then Walked(w.covered + {full}, w.patterns + [full])
      else w
  }

  predicate MatchesTree(pattern: string, all: seq<string>, glob: Glob) {
    exists f :: f in all && MatchPattern(f, pattern, glob)
  }

  // The custom patterns kept because they match no file of the tree.
  function KeepCustom(patterns: seq<string>, original: seq<string>, all: seq<string>, glob: Glob): seq<string>
    decreases original
  {
    if original == [] then patterns
    else
      var p := original[0];
      KeepCustom(if !MatchesTree(p, all, glob) && p !in patterns then patterns + [p] else patterns, original[1..], all, glob)
  }

  function Serialised(tree: seq<Node>, all: seq<string>, excluded: set<string>, original: seq<string>, glob: Glob)
    : seq<string>
  {
    KeepCustom(WalkNodes(tree, "", all, excluded, Walked({}, [])).patterns, original, all, glob)
  }

  function FileToggled(tree: seq<Node>, patterns: seq<string>, file: string, glob: Glob): seq<string> {
    if IsProtected(file) then patterns else
    var all := FilesOf(tree, "");
    var s := ExcludedSet(all, patterns, glob);
    Serialised(tree, all, if file in s then s - {file} else s + {file}, patterns, glob)
  }

  function FolderToggled(tree: seq<Node>, patterns: seq<string>, folder: string, glob: Glob): seq<string> {
    var all := FilesOf(tree, "");
    var s := ExcludedSet(all, patterns, glob);
    var children := set f | f in all && Editable(f, folder, all);
    if children == {} then patterns
    else Serialised(tree, all, if children <= s then s - children else s + children, patterns, glob)
  }

  // ------------------------------------------------------------ the source's loops

  lemma FilesFrom(out: seq<string>, nodes: seq<Node>, i: nat, base: string)
    requires i < |nodes|
    ensures out + FilesOf(nodes[i..], base) == out + FilesIn(nodes[i], base) + FilesOf(nodes[i + 1..], base)
  {
    assert nodes[i..][0] == nodes[i] && nodes[i..][1..] == nodes[i + 1..];
  }

  method FlattenFiles(nodes: seq<Node>, base: string) returns (out: seq<string>)
    ensures out == FilesOf(nodes, base)
    decreases nodes
  {
    out := [];
    for i := 0 to |nodes|
      invariant out + FilesOf(nodes[i..], base) == FilesOf(nodes, base)
    {
      FilesFrom(out, nodes, i, base);
      var full := Full(base, nodes[i].name);
      if nodes[i].Dir? {
        var inner := FlattenFiles(nodes[i].children, full);
        out := out + inner;
      } else {
        out := out + [full];
      }
    }
  }

  method ComputeExcludedSet(all: seq<string>, patterns: seq<string>, glob: Glob) returns (excluded: set<string>)
    ensures excluded == ExcludedSet(all, patterns, glob)
  {
    excluded := {};
    for i := 0 to |all|
      invariant excluded == ExcludedSet(all[..i], patterns, glob)
    {
      assert all[..i + 1] == all[..i] + [all[i]];
      if IsExcluded(all[i], patterns, glob) {
        excluded := excluded + {all[i]};
      }
    }
    assert all[..|all|] == all;
  }

  method Walk(nodes: seq<Node>, base: string, all: seq<string>, excluded: set<string>,
              covered0: set<string>, patterns0: seq<string>)
    returns (covered: set<string>, patterns: seq<string>)
    ensures Walked(covered, patterns) == WalkNodes(nodes, base, all, excluded, Walked(covered0, patterns0))
    decreases nodes
  {
    covered, patterns := covered0, patterns0;
    for i := 0 to |nodes|
      invariant WalkNodes(nodes[i..], base, all, excluded, Walked(covered, patterns))
             == WalkNodes(nodes, base, all, excluded, Walked(covered0, patterns0))
    {
      assert nodes[i..][0] == nodes[i] && nodes[i..][1..] == nodes[i + 1..];
      var full := Full(base, nodes[i].name);
      if nodes[i].Dir? {
        if FolderFullyExcluded(full, all, excluded) {
          patterns := patterns + [full + "/**"];
          covered := covered + (set f | f in all && At(f, full));
        } else {
          covered, patterns := Walk(nodes[i].children, full, all, excluded, covered, patterns);
        }
      } else if full in excluded && full !in covered && !IsProtected(full) {
        patterns := patterns + [full];
        covered := covered + {full};
      }
    }
  }

  method SerialiseExcludes(tree: seq<Node>, all: seq<string>, excluded: set<string>, original: seq<string>, glob: Glob)
    returns (patterns: seq<string>)
    ensures patterns == Serialised(tree, all, excluded, original, glob)
  {
    var covered;
    covered, patterns := Walk(tree, "", all, excluded, {}, []);
    for i := 0 to |original|
      invariant KeepCustom(patterns, original[i..], all, glob)
             == Serialised(tree, all, excluded, original, glob)
    {
      var p := original[i];
      assert original[i..][0] == p && original[i..][1..] == original[i + 1..];
      if !MatchesTree(p, all, glob) && p !in patterns {
        patterns := patterns + [p];
      }
    }
  }

  method ToggleFileExclude(tree: seq<Node>, patterns: seq<string>, file: string, glob: Glob)
    returns (result: seq<string>)
    ensures result == FileToggled(tree, patterns, file, glob)
  {
    if IsProtected(file) {
      return patterns;
    }
    var all := FlattenFiles(tree, "");
    var excluded := ComputeExcludedSet(all, patterns, glob);
    if file in excluded {
      excluded := excluded - {file};
    } else {
      excluded := excluded + {file};
    }
    result := SerialiseExcludes(tree, all, excluded, patterns, glob);
  }

  method ToggleFolderExclude(tree: seq<Node>, patterns: seq<string>, folder: string, glob: Glob)
    returns (result: seq<string>)
    ensures result == FolderToggled(tree, patterns, folder, glob)
  {
    var all := FlattenFiles(tree, "");
    var excluded := ComputeExcludedSet(all, patterns, glob);
    var children := set f | f in all && Editable(f, folder, all);
    if children == {} {
      return patterns;
    }
    if forall f :: f in children ==> f in excluded {
      excluded := excluded - children;
    } else {
      excluded := excluded + children;
    }
    result := SerialiseExcludes(tree, all, excluded, patterns, glob);
  }
}
