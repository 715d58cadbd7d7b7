// The shape of a repository tree: which node holds which file, seen through path strings.
module TreeShape {
  import opened Text
  import opened ExcludePaths

  // Sibling names are distinct, not empty, and hold no '/'.
  ghost predicate Shaped(nodes: seq<Node>) {
    nodes == [] ||
    (ShapedNode(nodes[0]) && (forall n :: n in nodes[1..] ==> n.name != nodes[0].name) && Shaped(nodes[1..]))
  }

  ghost predicate ShapedNode(node: Node) {
    NameOk(node.name) && (node.Dir? ==> Shaped(node.children))
  }

  ghost predicate NameOk(n: string) {
    n != "" && '/' !in n
  }

  ghost function Prefix(base: string): string {
    if base == "" then "" else base + "/"
  }

  lemma FullPrefix(base: string, name: string)
    ensures Full(base, name) == Prefix(base) + name
  {
  }

  // ------------------------------------------------------------ files and their folders

  lemma {:induction false} FilesOfAt(nodes: seq<Node>, base: string, f: string) returns (n: Node)
    requires Shaped(nodes) && f in FilesOf(nodes, base)
    ensures n in nodes && ShapedNode(n) && f in FilesIn(n, base) && At(f, Full(base, n.name)) && Prefix(base) <= f
    decreases nodes
  {
    if f in FilesIn(nodes[0], base) {
      n := nodes[0];
      FullPrefix(base, n.name);
      if n.Dir? {
        var _ := FilesOfAt(n.children, Full(base, n.name), f);
      }
    } else {
      n := FilesOfAt(nodes[1..], base, f);
    }
  }

  lemma {:induction false} Member(nodes: seq<Node>, base: string, n: Node, f: string)
    requires Shaped(nodes) && n in nodes
    ensures ShapedNode(n)
    ensures f in FilesIn(n, base) ==> f in FilesOf(nodes, base)
  {
    if n != nodes[0] {
      Member(nodes[1..], base, n, f);
    }
  }

  lemma {:induction false} SameNode(nodes: seq<Node>, m: Node, n: Node)
    requires Shaped(nodes) && m in nodes && n in nodes && m.name == n.name
    ensures m == n
  {
    if m != nodes[0] && n != nodes[0] {
      SameNode(nodes[1..], m, n);
    }
  }

  // Node n holds exactly the files the string test At finds below its path.
  ghost predicate Owns(n: Node, base: string, all: seq<string>) {
    forall f :: f in FilesIn(n, base) <==> f in all && At(f, Full(base, n.name))
  }

  ghost predicate AllOwn(nodes: seq<Node>, base: string, all: seq<string>) {
    forall n :: n in nodes ==> Owns(n, base, all)
  }

  lemma OwnForest(nodes: seq<Node>, base: string, all: seq<string>)
    requires Shaped(nodes)
    requires forall f :: f in FilesOf(nodes, base) <==> f in all && Prefix(base) <= f
    ensures AllOwn(nodes, base, all)
  {
    forall n, f | n in nodes
      ensures f in FilesIn(n, base) <==> f in all && At(f, Full(base, n.name))
    {
      Member(nodes, base, n, f);
      FullPrefix(base, n.name);
      if f in FilesIn(n, base) {
        FilesInAt(n, base, f);
      } else if f in all && At(f, Full(base, n.name)) {
        NameOf(Prefix(base), n.name, f);
        var m := FilesOfAt(nodes, base, f);
        SameOwner(nodes, base, m, n, f);
      }
    }
  }

  lemma FilesInAt(n: Node, base: string, f: string)
    requires ShapedNode(n) && f in FilesIn(n, base)
    ensures At(f, Full(base, n.name))
  {
    if n.Dir? {
      FullPrefix(base, n.name);
      var c := FilesOfAt(n.children, Full(base, n.name), f);
      FullPrefix(Full(base, n.name), c.name);
      Inside(Full(base, n.name), c.name, f);
    }
  }

  lemma SameOwner(nodes: seq<Node>, base: string, m: Node, n: Node, f: string)
    requires Shaped(nodes) && m in nodes && n in nodes
    requires ShapedNode(m) && ShapedNode(n)
    requires At(f, Full(base, m.name)) && At(f, Full(base, n.name))
    ensures m == n
  {
    FullPrefix(base, m.name);
    FullPrefix(base, n.name);
    NameOf(Prefix(base), m.name, f);
    NameOf(Prefix(base), n.name, f);
    SameNode(nodes, m, n);
  }

  lemma OwnTree(tree: seq<Node>)
    requires Shaped(tree)
    ensures AllOwn(tree, "", FilesOf(tree, ""))
  {
    OwnForest(tree, "", FilesOf(tree, ""));
  }

  // A file found below a folder is strictly inside it, in one of its children.
  lemma BelowFolder(n: Node, base: string, all: seq<string>, f: string)
    requires ShapedNode(n) && n.Dir? && Owns(n, base, all)
    requires f in all && At(f, Full(base, n.name))
    ensures Full(base, n.name) + "/" <= f && !IsProtected(f)
    ensures Region(n.children, Full(base, n.name), f)
  {
    var full := Full(base, n.name);
    FullPrefix(base, n.name);
    assert f in FilesIn(n, base);
    var c := FilesOfAt(n.children, full, f);
    InsideNotProtected(full, f);
  }

  lemma InsideNotProtected(folder: string, f: string)
    requires folder + "/" <= f
    ensures !IsProtected(f)
  {
    assert f[|folder|] == '/';
    assert '/' !in ".ai.yml";
  }

  lemma OwnChildren(n: Node, base: string, all: seq<string>)
    requires ShapedNode(n) && n.Dir? && Owns(n, base, all)
    ensures AllOwn(n.children, Full(base, n.name), all)
  {
    var full := Full(base, n.name);
    FullPrefix(base, n.name);
    forall f
      ensures f in FilesOf(n.children, full) <==> f in all && Prefix(full) <= f
    {
      assert f in FilesIn(n, base) <==> f in all && At(f, full);
      if f in FilesOf(n.children, full) {
        var c := FilesOfAt(n.children, full, f);
      }
    }
    OwnForest(n.children, full, all);
  }

  ghost predicate Region(nodes: seq<Node>, base: string, f: string) {
    exists n :: n in nodes && At(f, Full(base, n.name))
  }

  lemma RegionBelow(n: Node, base: string, f: string)
    requires ShapedNode(n) && n.Dir? && Region(n.children, Full(base, n.name), f)
    ensures At(f, Full(base, n.name))
  {
    var full := Full(base, n.name);
    FullPrefix(base, n.name);
    var c :| c in n.children && At(f, Full(full, c.name));
    Inside(full, c.name, f);
  }

  lemma Inside(folder: string, name: string, f: string)
    requires folder != "" && At(f, Full(folder, name))
    ensures folder + "/" <= f && At(f, folder)
  {
    assert folder + "/" <= Full(folder, name) <= f;
  }

  lemma SiblingsApart(nodes: seq<Node>, base: string, f: string)
    requires Shaped(nodes) && nodes != []
    requires At(f, Full(base, nodes[0].name))
    ensures !Region(nodes[1..], base, f)
  {
    forall n | n in nodes[1..]
      ensures !At(f, Full(base, n.name))
    {
      assert n in nodes && n.name != nodes[0].name;
      Member(nodes, base, n, f);
      if At(f, Full(base, n.name)) {
        SameOwner(nodes, base, nodes[0], n, f);
      }
    }
  }
}
