// Listing a repository through a server that lists one directory at a time.  The server is an
// arbitrary function of the request number and the directory, so it may even change its mind.
module TreeWalk {
  import opened Collections
  import opened Text
  import opened PlanPaths

  datatype Item = Item(path: string, name: string, title: string, kind: string)

  datatype Reply = Items(items: seq<Item>) | Failed(error: string)

  datatype Entry = Entry(path: string, dir: bool)

  datatype Result = Tree(entries: seq<Entry>) | TooLarge | ServerFailed(error: string)

  type Server = (nat, string) -> Reply

  const MAX_ENTRIES := 10_000

  // ------------------------------------------------------------ one item

  function FirstNonBlank(a: string, b: string, c: string): string {
    if !IsBlank(a) then a else if !IsBlank(b) then b else if !IsBlank(c) then c else ""
  }

  function ItemPath(item: Item): string {
    Trim(GoTrim(FirstNonBlank(item.path, item.name, item.title)), IsSlash)
  }

  // path.Join for two names that are not empty.
  function JoinPath(directory: string, name: string): string {
    Clean(directory + "/" + name)
  }

  // Some servers give whole paths and some bare names.
  function Located(directory: string, item: Item): string {
    var p := ItemPath(item);
    if directory != "" && '/' !in p then JoinPath(directory, p) else p
  }

  function LowerChar(c: char): char {
    if 'A' <= c <= 'Z' then ((c as int) + 32) as char else if c == '\U{130}' then 'i' else c
  }

  function Lower(s: string): string {
    seq(|s|, i requires 0 <= i < |s| => LowerChar(s[i]))
  }

  predicate IsDir(item: Item) {
    var kind := Lower(GoTrim(item.kind));
    kind == "dir" || kind == "tree" || kind == "directory" || kind == "folder"
  }

  // ------------------------------------------------------------ the walk

  // asked: the directories requested so far; directories: the queue.
  datatype Walk = Walk(asked: seq<string>, directories: seq<string>, tree: seq<Entry>)

  function Listed(tree: seq<Entry>): set<string> {
    set e | e in tree :: e.path
  }

  predicate Visited(w: Walk, directory: string) {
    directory in w.asked || directory in w.directories
  }

  function AddItem(w: Walk, directory: string, item: Item): Walk {
    var path := Located(directory, item);
    if ItemPath(item) == "" || path in Listed(w.tree) then w
    else
      w.(directories := if IsDir(item) && !Visited(w, path) then w.directories + [path] else w.directories,
         tree := w.tree + [Entry(path, IsDir(item))])
  }

  // The items of one directory, in order, until the tree gets too large.
  function AddItems(w: Walk, directory: string, items: seq<Item>): Walk {
    if items == [] then w
    else
      var before := AddItems(w, directory, items[..|items| - 1]);
      if |before.tree| > MAX_ENTRIES then before else AddItem(before, directory, items[|items| - 1])
  }

  ghost predicate DistinctPaths(tree: seq<Entry>) {
    forall i, j :: 0 <= i < j < |tree| ==> tree[i].path != tree[j].path
  }

  // No directory is queued or requested twice, no path is listed twice, and only listed
  // directories and the root are queued.
  ghost predicate Sound(w: Walk) {
    Distinct(w.asked + w.directories) && DistinctPaths(w.tree) &&
    |w.asked| + |w.directories| <= |w.tree| + 1
  }

  lemma {:induction false} ItemSound(w: Walk, directory: string, item: Item)
    requires Sound(w)
    ensures Sound(AddItem(w, directory, item))
    ensures AddItem(w, directory, item).asked == w.asked
  {
    hide ItemPath, Located, IsDir;
    var r := AddItem(w, directory, item);
    if r.directories != w.directories {
      var path := Located(directory, item);
      assert r.asked + r.directories == w.asked + w.directories + [path];
      assert path !in w.asked + w.directories;
    }
    if r.tree != w.tree {
      forall i | 0 <= i < |w.tree| ensures w.tree[i].path != Located(directory, item) {
        assert w.tree[i] in w.tree;
      }
    }
  }

  lemma {:induction false} ItemsSound(w: Walk, directory: string, items: seq<Item>)
    requires Sound(w)
    ensures Sound(AddItems(w, directory, items))
    ensures AddItems(w, directory, items).asked == w.asked
    ensures |w.tree| <= MAX_ENTRIES ==> |AddItems(w, directory, items).tree| <= MAX_ENTRIES + 1
  {
    hide Sound, AddItem;
    if items != [] {
      var before := AddItems(w, directory, items[..|items| - 1]);
      ItemsSound(w, directory, items[..|items| - 1]);
      ItemSound(before, directory, items[|items| - 1]);
      OneMore(before, directory, items[|items| - 1]);
    }
  }

  lemma OneMore(w: Walk, directory: string, item: Item)
    ensures |AddItem(w, directory, item).tree| <= |w.tree| + 1
  {
  }

  function Next(w: Walk): Walk
    requires w.directories != []
  {
    w.(asked := w.asked + [w.directories[0]], directories := w.directories[1..])
  }

  lemma NextSound(w: Walk)
    requires Sound(w) && w.directories != []
    ensures Sound(Next(w)) && Next(w).asked + Next(w).directories == w.asked + w.directories
  {
    assert Next(w).asked + Next(w).directories == w.asked + w.directories;
  }

  // The rest of the walk: what it answers, and how it ended.
  function WalkOn(server: Server, w: Walk): (r: (Result, Walk))
    requires Sound(w) && |w.tree| <= MAX_ENTRIES
    ensures Sound(r.1) && |r.1.tree| <= MAX_ENTRIES + 1
    decreases MAX_ENTRIES + 2 - |w.asked|
  {
    if w.directories == [] then (Tree(w.tree), w)
    else
      NextSound(w);
      var directory, next := w.directories[0], Next(w);
      match server(|w.asked|, directory)
      case Failed(error) => (ServerFailed(error), next)
      case Items(items) =>
        ItemsSound(next, directory, items);
        var after := AddItems(next, directory, items);
        if |after.tree| > MAX_ENTRIES then (TooLarge, after) else WalkOn(server, after)
  }

  function Start(): Walk {
    Walk([], [""], [])
  }

  method RepositoryTree(server: Server) returns (result: Result, ghost walk: Walk)
    ensures result == WalkOn(server, Start()).0
    ensures walk == WalkOn(server, Start()).1
  {
    hide ItemPath, Located, IsDir, WalkOn, Sound, AddItems;
    var directories, asked: nat := [""], 0;
    var visitedDirectories, seenEntries := {""}, {};
    var tree: seq<Entry> := [];
    walk := Start();
    StartSound();
    while directories != []
      invariant walk.directories == directories && walk.tree == tree && |walk.asked| == asked
      invariant seenEntries == Listed(tree) && forall d :: d in visitedDirectories <==> Visited(walk, d)
      invariant Sound(walk) && |tree| <= MAX_ENTRIES
      invariant WalkOn(server, walk) == WalkOn(server, Start())
      decreases MAX_ENTRIES + 2 - asked
    {
      WalkStep(server, walk);
      var directory := directories[0];
      directories := directories[1..];
      var reply := server(asked, directory);
      asked := asked + 1;
      ghost var next := Next(walk);
      NextSound(walk);
      if reply.Failed? {
        walk := next;
        return ServerFailed(reply.error), walk;
      }
      walk := next;
      var contents := reply.items;
      ItemsSound(next, directory, contents);
      ItemsStep(next, directory, contents, 0);
      for i := 0 to |contents|
        invariant walk == AddItems(next, directory, contents[..i]) && |tree| <= MAX_ENTRIES
        invariant walk.directories == directories && walk.tree == tree && walk.asked == next.asked
        invariant seenEntries == Listed(tree) && forall d :: d in visitedDirectories <==> Visited(walk, d)
      {
        ItemsStep(next, directory, contents, i);
        ListedMore(tree, Entry(Located(directory, contents[i]), IsDir(contents[i])));
        var item := contents[i];
        var entryPath := ItemPath(item);
        if entryPath == "" {
          continue;
        }
        entryPath := Located(directory, item);
        if entryPath in seenEntries {
          continue;
        }
        walk := AddItem(walk, directory, item);
        if IsDir(item) && entryPath !in visitedDirectories {
          visitedDirectories := visitedDirectories + {entryPath};
          directories := directories + [entryPath];
        }
        seenEntries := seenEntries + {entryPath};
        tree := tree + [Entry(entryPath, IsDir(item))];
        if |tree| > MAX_ENTRIES {
          LargeStays(next, directory, contents, i + 1);
          return TooLarge, walk;
        }
      }
      assert contents[..|contents|] == contents;
    }
    WalkStep(server, walk);
    return Tree(tree), walk;
  }

  lemma {:induction false} ItemsStep(w: Walk, directory: string, items: seq<Item>, i: nat)
    ensures AddItems(w, directory, items[..0]) == w
    ensures i < |items| && |AddItems(w, directory, items[..i]).tree| <= MAX_ENTRIES ==>
      AddItems(w, directory, items[..i + 1]) == AddItem(AddItems(w, directory, items[..i]), directory, items[i])
  {
    if i < |items| {
      assert items[..i + 1][..i] == items[..i];
    }
  }

  lemma StartSound()
    ensures Sound(Start())
  {
  }

  lemma ListedMore(tree: seq<Entry>, e: Entry)
    ensures Listed(tree + [e]) == Listed(tree) + {e.path}
  {
    forall p | p in Listed(tree) + {e.path} ensures p in Listed(tree + [e]) {
      if p in Listed(tree) {
        var x :| x in tree && x.path == p;
        assert x in tree + [e];
      } else {
        assert e in tree + [e];
      }
    }
  }

  lemma {:induction false} LargeStays(w: Walk, directory: string, items: seq<Item>, i: nat)
    requires i <= |items| && |AddItems(w, directory, items[..i]).tree| > MAX_ENTRIES
    ensures AddItems(w, directory, items) == AddItems(w, directory, items[..i])
  {
    hide AddItem;
    if i == |items| {
      assert items[..i] == items;
    } else {
      assert items[..|items| - 1][..i] == items[..i];
      LargeStays(w, directory, items[..|items| - 1], i);
    }
  }

  lemma WalkStep(server: Server, w: Walk)
    requires Sound(w) && |w.tree| <= MAX_ENTRIES
    ensures w.directories == [] ==> WalkOn(server, w) == (Tree(w.tree), w)
    ensures w.directories != [] && server(|w.asked|, w.directories[0]).Failed? ==>
      WalkOn(server, w) == (ServerFailed(server(|w.asked|, w.directories[0]).error), Next(w))
    ensures w.directories != [] && server(|w.asked|, w.directories[0]).Items? ==>
      var after := AddItems(Next(w), w.directories[0], server(|w.asked|, w.directories[0]).items);
      Sound(after) &&
      (|after.tree| > MAX_ENTRIES ==> WalkOn(server, w) == (TooLarge, after)) &&
      (|after.tree| <= MAX_ENTRIES ==> WalkOn(server, w) == WalkOn(server, after))
    ensures w.directories != [] ==> |w.asked| < MAX_ENTRIES + 1
  {
    hide AddItems, Next;
    if w.directories != [] && server(|w.asked|, w.directories[0]).Items? {
      NextSound(w);
      ItemsSound(Next(w), w.directories[0], server(|w.asked|, w.directories[0]).items);
    }
  }
}
