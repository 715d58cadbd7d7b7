// The walk requests each directory once, lists no path twice, and lists exactly what the
// server's listings reach from the root.
module TreeWalkTheorems {
  import opened Collections
  import opened TreeWalk

  // ------------------------------------------------------------ any server

  lemma {:induction false} RequestsBounded(server: Server, w: Walk)
    requires Sound(w) && |w.tree| <= MAX_ENTRIES && |w.asked| <= MAX_ENTRIES + 1
    ensures |WalkOn(server, w).1.asked| <= MAX_ENTRIES + 1
    decreases MAX_ENTRIES + 2 - |w.asked|
  {
    hide Sound, AddItems, WalkOn;
    WalkStep(server, w);
    if w.directories != [] && server(|w.asked|, w.directories[0]).Items? {
      var items := server(|w.asked|, w.directories[0]).items;
      NextSound(w);
      ItemsSound(Next(w), w.directories[0], items);
      var after := AddItems(Next(w), w.directories[0], items);
      if |after.tree| <= MAX_ENTRIES {
        RequestsBounded(server, after);
      }
    }
  }

  // Whatever the server answers: the walk ends after at most 10001 requests, no directory is
  // requested twice, and no path is listed twice.
  lemma EachDirectoryOnce(server: Server)
    ensures var (result, walk) := WalkOn(server, Start());
      Distinct(walk.asked) && |walk.asked| <= 10_001 &&
      (result.Tree? ==> DistinctPaths(result.entries) && |result.entries| <= 10_000)
  {
    hide WalkOn;
    StartSound();
    RequestsBounded(server, Start());
    var walk := WalkOn(server, Start()).1;
    forall i, j | 0 <= i < j < |walk.asked| ensures walk.asked[i] != walk.asked[j] {
      assert (walk.asked + walk.directories)[i] == walk.asked[i];
      assert (walk.asked + walk.directories)[j] == walk.asked[j];
    }
    Ends(server, Start());
  }

  // A listing is answered with the tree of a walk that has nothing left to request.
  lemma {:induction false} Ends(server: Server, w: Walk)
    requires Sound(w) && |w.tree| <= MAX_ENTRIES
    ensures var (result, walk) := WalkOn(server, w);
      result.Tree? ==> result.entries == walk.tree && walk.directories == [] && |walk.tree| <= MAX_ENTRIES
    decreases MAX_ENTRIES + 2 - |w.asked|
  {
    hide Sound, AddItems, WalkOn;
    WalkStep(server, w);
    if w.directories != [] && server(|w.asked|, w.directories[0]).Items? {
      var items := server(|w.asked|, w.directories[0]).items;
      NextSound(w);
      ItemsSound(Next(w), w.directories[0], items);
      var after := AddItems(Next(w), w.directories[0], items);
      if |after.tree| <= MAX_ENTRIES {
        Ends(server, after);
      }
    }
  }

  // ------------------------------------------------------------ nothing is listed in excess

  // S holds the items of the root and of every directory it holds, each with its kind.
  ghost predicate Covers(server: Server, S: map<string, bool>) {
    forall n, d :: (d == "" || (d in S && S[d])) ==> Fits(server(n, d), d, S)
  }

  ghost predicate Fits(reply: Reply, directory: string, S: map<string, bool>) {
    reply.Items? && forall item :: item in reply.items ==> ItemFits(item, directory, S)
  }

  ghost predicate ItemFits(item: Item, directory: string, S: map<string, bool>) {
    ItemPath(item) != "" ==>
      var path := Located(directory, item);
      path in S && S[path] == IsDir(item)
  }

  ghost predicate DirectoryOf(S: map<string, bool>, d: string) {
    d == "" || (d in S && S[d])
  }

  ghost predicate Inside(w: Walk, S: map<string, bool>) {
    (forall i :: 0 <= i < |w.tree| ==> w.tree[i].path in S && S[w.tree[i].path] == w.tree[i].dir) &&
    (forall i :: 0 <= i < |w.directories| ==> DirectoryOf(S, w.directories[i])) &&
    (forall i :: 0 <= i < |w.asked| ==> DirectoryOf(S, w.asked[i]))
  }

  lemma {:induction false} ItemsInside(w: Walk, directory: string, items: seq<Item>, S: map<string, bool>)
    requires Inside(w, S) && forall item :: item in items ==> ItemFits(item, directory, S)
    ensures Inside(AddItems(w, directory, items), S)
  {
    hide Located, ItemPath, IsDir, Listed;
    if items != [] {
      var init, last := items[..|items| - 1], items[|items| - 1];
      assert items == init + [last];
      ItemsInside(w, directory, init, S);
      assert ItemFits(last, directory, S);
    }
  }

  lemma {:induction false} WalkInside(server: Server, w: Walk, S: map<string, bool>)
    requires Sound(w) && |w.tree| <= MAX_ENTRIES && Inside(w, S) && Covers(server, S) && |S| <= MAX_ENTRIES
    ensures var (result, walk) := WalkOn(server, w);
      result.Tree? && Inside(walk, S)
    decreases MAX_ENTRIES + 2 - |w.asked|
  {
    hide Sound, AddItems, WalkOn, Fits, Inside;
    WalkStep(server, w);
    if w.directories != [] {
      var d, next := w.directories[0], Next(w);
      FirstInside(w, S);
      FitsReply(server, S, |w.asked|, d);
      var items := server(|w.asked|, d).items;
      ItemsInside(next, d, items, S);
      var after := AddItems(next, d, items);
      NextSound(w);
      ItemsSound(next, d, items);
      Fewer(after, S);
      WalkInside(server, after, S);
    }
  }

  lemma FirstInside(w: Walk, S: map<string, bool>)
    requires Inside(w, S) && w.directories != []
    ensures DirectoryOf(S, w.directories[0]) && Inside(Next(w), S)
  {
  }

  lemma FitsReply(server: Server, S: map<string, bool>, n: nat, d: string)
    requires Covers(server, S) && DirectoryOf(S, d)
    ensures server(n, d).Items? && forall item :: item in server(n, d).items ==> ItemFits(item, d, S)
  {
    assert Fits(server(n, d), d, S);
  }

  // Distinct paths of S are no more than S.
  lemma Fewer(w: Walk, S: map<string, bool>)
    requires Sound(w) && Inside(w, S)
    ensures |w.tree| <= |S|
  {
    DistinctCount(w.tree, |w.tree|, S.Keys);
  }

  lemma {:induction false} DistinctCount(tree: seq<Entry>, n: nat, paths: set<string>)
    requires n <= |tree| && DistinctPaths(tree) && forall i :: 0 <= i < n ==> tree[i].path in paths
    ensures n <= |paths|
  {
    if n > 0 {
      DistinctCount(tree, n - 1, paths - {tree[n - 1].path});
    }
  }

  // ------------------------------------------------------------ and nothing is missed

  // Every request so far was answered with items that are all listed; every directory listed
  // was requested or is queued.
  ghost predicate AllListed(server: Server, w: Walk, k: nat) {
    k < |w.asked| ==>
      server(k, w.asked[k]).Items? &&
      forall item :: item in server(k, w.asked[k]).items && ItemPath(item) != "" ==>
        Located(w.asked[k], item) in Listed(w.tree)
  }

  ghost predicate Complete(server: Server, w: Walk) {
    Visited(w, "") && (forall k :: AllListed(server, w, k)) &&
    forall e :: e in w.tree && e.dir ==> Visited(w, e.path)
  }

  lemma ItemAdds(w: Walk, directory: string, item: Item)
    ensures var r := AddItem(w, directory, item);
      r.asked == w.asked && w.directories <= r.directories && w.tree <= r.tree &&
      (ItemPath(item) != "" ==> Located(directory, item) in Listed(r.tree))
    ensures var r := AddItem(w, directory, item);
      (forall e :: e in w.tree && e.dir ==> Visited(w, e.path)) ==> forall e :: e in r.tree && e.dir ==> Visited(r, e.path)
  {
    hide ItemPath, Located, IsDir;
    ListedMore(w.tree, Entry(Located(directory, item), IsDir(item)));
  }

  lemma {:induction false} ItemsAdd(w: Walk, directory: string, items: seq<Item>)
    requires |AddItems(w, directory, items).tree| <= MAX_ENTRIES
    requires forall e :: e in w.tree && e.dir ==> Visited(w, e.path)
    ensures var r := AddItems(w, directory, items);
      r.asked == w.asked && w.directories <= r.directories && w.tree <= r.tree &&
      (forall e :: e in r.tree && e.dir ==> Visited(r, e.path)) &&
      forall item :: item in items && ItemPath(item) != "" ==> Located(directory, item) in Listed(r.tree)
  {
    hide ItemPath, Located, AddItem, Listed, Visited;
    if items != [] {
      var init, last := items[..|items| - 1], items[|items| - 1];
      assert items == init + [last];
      var before := AddItems(w, directory, init);
      ItemAdds(before, directory, last);
      ItemsAdd(w, directory, init);
      ListedGrows(before.tree, AddItem(before, directory, last).tree);
    }
  }

  lemma ListedGrows(tree: seq<Entry>, more: seq<Entry>)
    requires tree <= more
    ensures Listed(tree) <= Listed(more)
  {
    forall e | e in tree ensures e in more {
      var i :| 0 <= i < |tree| && tree[i] == e;
      assert more[i] == e;
    }
  }

  lemma NextVisited(w: Walk, d: string)
    requires w.directories != []
    ensures Visited(Next(w), d) == Visited(w, d)
  {
    assert w.directories == [w.directories[0]] + w.directories[1..];
  }

  // Going on from Next(w) with the items of its directory keeps the walk complete.
  lemma {:induction false} AfterComplete(server: Server, w: Walk, items: seq<Item>)
    requires w.directories != [] && Complete(server, w)
    requires server(|w.asked|, w.directories[0]) == Items(items)
    requires |AddItems(Next(w), w.directories[0], items).tree| <= MAX_ENTRIES
    ensures Complete(server, AddItems(Next(w), w.directories[0], items))
  {
    hide AddItems, ItemPath, Located, Listed;
    var next, r := Next(w), AddItems(Next(w), w.directories[0], items);
    forall e | e in next.tree && e.dir ensures Visited(next, e.path) {
      NextVisited(w, e.path);
    }
    NextVisited(w, "");
    ItemsAdd(next, w.directories[0], items);
    ListedGrows(w.tree, r.tree);
    forall k: nat ensures AllListed(server, r, k) {
      assert AllListed(server, w, k);
    }
  }

  lemma {:induction false} WalkComplete(server: Server, w: Walk)
    requires Sound(w) && |w.tree| <= MAX_ENTRIES && Complete(server, w)
    ensures var (result, walk) := WalkOn(server, w);
      result.Tree? ==> Complete(server, walk)
    decreases MAX_ENTRIES + 2 - |w.asked|
  {
    hide Sound, AddItems, WalkOn, Complete;
    WalkStep(server, w);
    if w.directories != [] && server(|w.asked|, w.directories[0]).Items? {
      var items := server(|w.asked|, w.directories[0]).items;
      NextSound(w);
      ItemsSound(Next(w), w.directories[0], items);
      var after := AddItems(Next(w), w.directories[0], items);
      if |after.tree| <= MAX_ENTRIES {
        AfterComplete(server, w, items);
        WalkComplete(server, after);
      }
    }
  }

  // ------------------------------------------------------------ exactly the reachable entries

  // The same directory is always listed the same way.
  ghost predicate Steady(server: Server) {
    forall m, n, d :: server(m, d) == server(n, d)
  }

  // In the listings of these directories a path has the same kind wherever it appears.
  ghost predicate KindsAgree(server: Server, dirs: seq<string>) {
    forall c, d, i, j ::
      c in dirs && d in dirs && Lists(server, c, i) && Lists(server, d, j) && Located(c, i) == Located(d, j) ==>
      IsDir(i) == IsDir(j)
  }

  ghost predicate Lists(server: Server, d: string, item: Item) {
    server(0, d).Items? && item in server(0, d).items && ItemPath(item) != ""
  }

  ghost function Kinds(tree: seq<Entry>): map<string, bool>
    requires DistinctPaths(tree)
  {
    map p | p in Listed(tree) :: Entry(p, true) in tree
  }

  lemma KindsAre(tree: seq<Entry>, e: Entry)
    requires DistinctPaths(tree) && e in tree
    ensures e.path in Kinds(tree) && Kinds(tree)[e.path] == e.dir
  {
    var i :| 0 <= i < |tree| && tree[i] == e;
    if Entry(e.path, true) in tree {
      var j :| 0 <= j < |tree| && tree[j] == Entry(e.path, true);
    }
  }

  // Each entry listed came from the listing of a directory that was requested.
  ghost predicate FromListing(server: Server, w: Walk) {
    forall e :: e in w.tree ==> CameFrom(server, w.asked, e)
  }

  ghost predicate CameFrom(server: Server, asked: seq<string>, e: Entry) {
    exists d, item :: d in asked && Lists(server, d, item) && Located(d, item) == e.path && IsDir(item) == e.dir
  }

  lemma {:induction false} ItemsFrom(server: Server, w: Walk, directory: string, items: seq<Item>)
    requires FromListing(server, w) && directory in w.asked
    requires forall item :: item in items && ItemPath(item) != "" ==> Lists(server, directory, item)
    ensures FromListing(server, AddItems(w, directory, items)) && AddItems(w, directory, items).asked == w.asked
  {
    hide ItemPath, Located, IsDir, Listed, Lists;
    if items != [] {
      var init, last := items[..|items| - 1], items[|items| - 1];
      assert items == init + [last];
      ItemsFrom(server, w, directory, init);
    }
  }

  lemma NextFrom(server: Server, w: Walk)
    requires w.directories != [] && FromListing(server, w)
    ensures FromListing(server, Next(w)) && w.directories[0] in Next(w).asked
  {
    hide Lists, Located, IsDir;
    forall e | e in w.tree ensures CameFrom(server, Next(w).asked, e) {
      assert CameFrom(server, w.asked, e);
    }
  }

  lemma {:induction false} WalkFrom(server: Server, w: Walk)
    requires Sound(w) && |w.tree| <= MAX_ENTRIES && Steady(server) && FromListing(server, w)
    ensures FromListing(server, WalkOn(server, w).1)
    decreases MAX_ENTRIES + 2 - |w.asked|
  {
    hide Sound, AddItems, WalkOn, FromListing;
    WalkStep(server, w);
    if w.directories != [] {
      var d := w.directories[0];
      NextSound(w);
      NextFrom(server, w);
      if server(|w.asked|, d).Items? {
        var items := server(|w.asked|, d).items;
        ItemsSound(Next(w), d, items);
        var after := AddItems(Next(w), d, items);
        assert server(|w.asked|, d) == server(0, d);
        ItemsFrom(server, Next(w), d, items);
        if |after.tree| <= MAX_ENTRIES {
          WalkFrom(server, after);
        }
      }
    }
  }

  lemma StartGood(server: Server, S: map<string, bool>)
    ensures Sound(Start()) && Complete(server, Start()) && FromListing(server, Start()) && Inside(Start(), S)
  {
  }

  // What a finished walk lists is closed under listing, when the kinds agree in the listings
  // it has seen.
  lemma {:induction false} ListingCovers(server: Server)
    requires Steady(server)
    ensures var (result, walk) := WalkOn(server, Start());
      result.Tree? && KindsAgree(server, walk.asked) ==>
        DistinctPaths(result.entries) && Covers(server, Kinds(result.entries)) && |Kinds(result.entries)| <= MAX_ENTRIES
  {
    hide WalkOn;
    StartGood(server, map[]);
    EachDirectoryOnce(server);
    Ends(server, Start());
    WalkComplete(server, Start());
    WalkFrom(server, Start());
    var (result, walk) := WalkOn(server, Start());
    if result.Tree? && KindsAgree(server, walk.asked) {
      var S := Kinds(walk.tree);
      forall n: nat, d: string | d == "" || (d in S && S[d]) ensures Fits(server(n, d), d, S) {
        DirectoryFits(server, walk, n, d);
      }
      KindsSize(walk.tree, |walk.tree|);
      assert walk.tree[..|walk.tree|] == walk.tree;
      assert S.Keys == Listed(walk.tree);
    }
  }

  lemma {:induction false} KindsSize(tree: seq<Entry>, n: nat)
    requires n <= |tree|
    ensures |Listed(tree[..n])| <= n
  {
    if n > 0 {
      KindsSize(tree, n - 1);
      assert tree[..n] == tree[..n - 1] + [tree[n - 1]];
      ListedMore(tree[..n - 1], tree[n - 1]);
    }
  }

  lemma {:induction false} DirectoryFits(server: Server, walk: Walk, n: nat, d: string)
    requires Steady(server) && KindsAgree(server, walk.asked) && DistinctPaths(walk.tree) && walk.directories == []
    requires Complete(server, walk) && FromListing(server, walk) && DirectoryOf(Kinds(walk.tree), d)
    ensures Fits(server(n, d), d, Kinds(walk.tree))
  {
    hide ItemPath, Located, IsDir;
    assert Visited(walk, d) by {
      if d != "" {
        assert Entry(d, true) in walk.tree;
      }
    }
    var k :| 0 <= k < |walk.asked| && walk.asked[k] == d;
    assert AllListed(server, walk, k);
    assert server(n, d) == server(k, d) == server(0, d);
    forall item | item in server(n, d).items ensures ItemFits(item, d, Kinds(walk.tree)) {
      if ItemPath(item) != "" {
        assert Lists(server, d, item);
        ItemListed(server, walk, d, item);
      }
    }
  }

  lemma {:induction false} ItemListed(server: Server, walk: Walk, d: string, item: Item)
    requires KindsAgree(server, walk.asked) && DistinctPaths(walk.tree) && FromListing(server, walk)
    requires d in walk.asked && Lists(server, d, item) && Located(d, item) in Listed(walk.tree)
    ensures ItemFits(item, d, Kinds(walk.tree))
  {
    hide ItemPath, Located, IsDir, Lists;
    var e :| e in walk.tree && e.path == Located(d, item);
    assert CameFrom(server, walk.asked, e);
    var c, other :| c in walk.asked && Lists(server, c, other) && Located(c, other) == e.path && IsDir(other) == e.dir;
    KindsAre(walk.tree, e);
  }

  // For every server that lists a directory the same way each time: when some set of at most
  // 10000 entries is closed under listing, the walk answers the least such set, each path with
  // its kind.
  lemma {:induction false} ListsExactlyTheReachable(server: Server, S: map<string, bool>)
    requires Steady(server) && Covers(server, S) && |S| <= 10_000
    ensures var (result, walk) := WalkOn(server, Start());
      result.Tree? && KindsAgree(server, walk.asked) &&
      DistinctPaths(result.entries) && Covers(server, Kinds(result.entries)) &&
      forall p :: p in Kinds(result.entries) ==> p in S && S[p] == Kinds(result.entries)[p]
  {
    hide WalkOn, Covers;
    StartGood(server, S);
    WalkInside(server, Start(), S);
    Ends(server, Start());
    var (result, walk) := WalkOn(server, Start());
    CoverAgrees(server, walk, S);
    ListingCovers(server);
    forall p | p in Kinds(result.entries) ensures p in S && S[p] == Kinds(result.entries)[p] {
      var e :| e in walk.tree && e.path == p;
      KindsAre(walk.tree, e);
      var i :| 0 <= i < |walk.tree| && walk.tree[i] == e;
    }
  }

  // A closed set fixes the kinds of all it holds.
  lemma CoverAgrees(server: Server, walk: Walk, S: map<string, bool>)
    requires Covers(server, S) && Inside(walk, S)
    ensures KindsAgree(server, walk.asked)
  {
    hide ItemPath, Located, IsDir, Covers;
    forall c, d, i, j |
      c in walk.asked && d in walk.asked && Lists(server, c, i) && Lists(server, d, j) && Located(c, i) == Located(d, j)
      ensures IsDir(i) == IsDir(j)
    {
      FitsReply(server, S, 0, c);
      FitsReply(server, S, 0, d);
      assert ItemFits(i, c, S) && ItemFits(j, d, S);
    }
  }

  // So the walk succeeds, with kinds that agree in what it saw, if and only if some set of at
  // most 10000 entries is closed under listing.
  lemma {:induction false} SucceedsExactlyWhen(server: Server)
    requires Steady(server)
    ensures var (result, walk) := WalkOn(server, Start());
      result.Tree? && KindsAgree(server, walk.asked) <==> exists S :: Covers(server, S) && |S| <= 10_000
  {
    hide WalkOn, Covers, KindsAgree;
    ListingCovers(server);
    forall S | Covers(server, S) && |S| <= MAX_ENTRIES
      ensures WalkOn(server, Start()).0.Tree? && KindsAgree(server, WalkOn(server, Start()).1.asked)
    {
      ListsExactlyTheReachable(server, S);
    }
  }
}
