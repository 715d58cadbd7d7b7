// What a listing says: how items become paths and kinds, in which order directories are
// requested and entries listed, and how the walk fails.
module TreeListing {
  import opened Collections
  import opened Text
  import opened PlanPaths
  import opened TreeWalk
  import opened TreeWalkTheorems

  // ------------------------------------------------------------ one item

  // The same word, in capital letters or not; the dotted capital I is an i.
  ghost predicate SameWord(s: string, word: string) {
    |s| == |word| &&
    forall i :: 0 <= i < |s| ==>
      s[i] == word[i] || ('a' <= word[i] <= 'z' && s[i] as int == word[i] as int - 32) ||
      (word[i] == 'i' && s[i] == '\U{130}')
  }

  // An item is a directory when its kind is one of four words, outer white space aside.
  lemma DirectoryExactly(item: Item)
    ensures IsDir(item) <==>
      var kind := GoTrim(item.kind);
      SameWord(kind, "dir") || SameWord(kind, "tree") || SameWord(kind, "directory") || SameWord(kind, "folder")
  {
    var kind := GoTrim(item.kind);
    LowerExactly(kind, "dir");
    LowerExactly(kind, "tree");
    LowerExactly(kind, "directory");
    LowerExactly(kind, "folder");
    hide GoTrim, Lower, SameWord;
  }

  lemma LowerExactly(s: string, word: string)
    requires forall i :: 0 <= i < |word| ==> 'a' <= word[i] <= 'z'
    ensures Lower(s) == word <==> SameWord(s, word)
  {
    if |s| == |word| {
      forall i | 0 <= i < |s|
        ensures LowerChar(s[i]) == word[i] <==>
          s[i] == word[i] || ('a' <= word[i] <= 'z' && s[i] as int == word[i] as int - 32) ||
          (word[i] == 'i' && s[i] == '\U{130}')
      {
        CharExactly(s[i], word[i]);
      }
      if Lower(s) == word {
        forall i | 0 <= i < |s| ensures LowerChar(s[i]) == word[i] {
          assert Lower(s)[i] == word[i];
        }
      }
      hide LowerChar;
    }
  }

  lemma CharExactly(c: char, d: char)
    requires 'a' <= d <= 'z'
    ensures LowerChar(c) == d <==> c == d || c as int == d as int - 32 || (d == 'i' && c == '\U{130}')
  {
  }

  // The text an item is named by: its path, else its name, else its title.
  ghost predicate NamedBy(item: Item, text: string) {
    GoTrim(text) != "" &&
    (item.path == text || (GoTrim(item.path) == "" && item.name == text) ||
     (GoTrim(item.path) == "" && GoTrim(item.name) == "" && item.title == text))
  }

  // The path of an item is that text without outer white space and then without outer slashes.
  lemma PathOfItem(item: Item, left: string, before: string, core: string, after: string, right: string)
    requires NamedBy(item, left + (before + core + after) + right)
    requires AllCut(left, IsGoSpace) && AllCut(right, IsGoSpace) && AllCut(before, IsSlash) && AllCut(after, IsSlash)
    requires core != "" && core[0] != '/' && core[|core| - 1] != '/' && !IsGoSpace(core[0]) && !IsGoSpace(core[|core| - 1])
    ensures ItemPath(item) == core
  {
    var text := before + core + after;
    assert text[0] == (if before == "" then core[0] else before[0]) && (before != "" ==> before[0] in before);
    assert text[|text| - 1] == (if after == "" then core[|core| - 1] else after[|after| - 1]) &&
           (after != "" ==> after[|after| - 1] in after);
    hide Trim;
    TrimSkips(left, text, right, IsGoSpace);
    TrimStays(text, IsGoSpace);
    TrimSkips(before, core, after, IsSlash);
    TrimStays(core, IsSlash);
  }

  lemma TrimStays(s: string, cut: char -> bool)
    requires s != "" && !cut(s[0]) && !cut(s[|s| - 1])
    ensures Trim(s, cut) == s
  {
  }

  lemma NamelessItem(item: Item)
    requires GoTrim(item.path) == "" && GoTrim(item.name) == "" && GoTrim(item.title) == ""
    ensures ItemPath(item) == ""
  {
    assert GoTrim("") == "" && Trim("", IsSlash) == "";
  }

  // A path with a slash, and any path in the root, is taken as it is.
  lemma LocatedWhole(directory: string, item: Item)
    requires directory == "" || '/' in ItemPath(item)
    ensures Located(directory, item) == ItemPath(item)
  {
  }

  // A bare name is placed in the directory that listed it.
  lemma LocatedBelow(parts: seq<string>, item: Item)
    requires parts != [] && Normal(parts, false) && ItemPath(item) !in {"", ".", ".."} && '/' !in ItemPath(item)
    ensures Located(Join(parts), item) == Join(parts) + "/" + ItemPath(item)
  {
    hide ItemPath, Reduce, Split, Clean;
    var name := ItemPath(item);
    JoinHead(parts);
    JoinMore(parts, name);
    CleanStays(parts + [name]);
  }

  lemma {:induction false} JoinMore(parts: seq<string>, name: string)
    requires parts != []
    ensures Join(parts + [name]) == Join(parts) + "/" + name
  {
    if |parts| > 1 {
      assert (parts + [name])[1..] == parts[1..] + [name];
      JoinMore(parts[1..], name);
      assert parts[0] + "/" + (Join(parts[1..]) + "/" + name) == parts[0] + "/" + Join(parts[1..]) + "/" + name;
    } else {
      assert (parts + [name])[1..] == [name] && parts == [parts[0]];
    }
  }

  lemma CleanStays(parts: seq<string>)
    requires parts != [] && Normal(parts, false)
    ensures Clean(Join(parts)) == Join(parts)
  {
    RenderReduces(parts, false);
  }

  lemma LocatedNotEmpty(directory: string, item: Item)
    requires ItemPath(item) != ""
    ensures Located(directory, item) != ""
  {
    hide ItemPath, Reduce, Split, Join;
    var s := directory + "/" + ItemPath(item);
    var parts := CleanNormal(s);
    if parts != [] {
      JoinHead(parts);
    }
  }

  // ------------------------------------------------------------ the order of the walk

  ghost function DirPaths(tree: seq<Entry>): seq<string> {
    if tree == [] then []
    else
      var last := tree[|tree| - 1];
      DirPaths(tree[..|tree| - 1]) + if last.dir then [last.path] else []
  }

  // What the listing of a directory offers, in order.
  ghost function EntriesOf(directory: string, items: seq<Item>): seq<Entry> {
    if items == [] then []
    else
      var last := items[|items| - 1];
      EntriesOf(directory, items[..|items| - 1]) +
        if ItemPath(last) == "" then [] else [Entry(Located(directory, last), IsDir(last))]
  }

  // ... and what the first n requests offered.
  ghost function Offered(server: Server, asked: seq<string>, n: nat): seq<Entry>
    requires n <= |asked|
  {
    if n == 0 then []
    else
      var reply := server(n - 1, asked[n - 1]);
      Offered(server, asked, n - 1) + if reply.Items? then EntriesOf(asked[n - 1], reply.items) else []
  }

  // The entries whose path did not come before.
  ghost function Firsts(entries: seq<Entry>): seq<Entry> {
    if entries == [] then []
    else
      var init, last := entries[..|entries| - 1], entries[|entries| - 1];
      Firsts(init) + if exists e :: e in init && e.path == last.path then [] else [last]
  }

  lemma {:induction false} FirstsListed(entries: seq<Entry>, path: string)
    ensures path in Listed(Firsts(entries)) <==> exists e :: e in entries && e.path == path
  {
    if entries != [] {
      var init, last := entries[..|entries| - 1], entries[|entries| - 1];
      assert entries == init + [last];
      FirstsListed(init, path);
      FirstsListed(init, last.path);
      ListedMore(Firsts(init), last);
    }
  }

  // The state of the walk, given what was offered so far.
  ghost predicate InOrder(w: Walk, offered: seq<Entry>) {
    w.tree == Firsts(offered) && w.asked + w.directories == [""] + DirPaths(w.tree)
  }

  lemma ItemInOrder(w: Walk, directory: string, item: Item, offered: seq<Entry>)
    requires InOrder(w, offered)
    ensures InOrder(AddItem(w, directory, item),
                    offered + if ItemPath(item) == "" then [] else [Entry(Located(directory, item), IsDir(item))])
  {
    hide ItemPath, Located, IsDir, Listed, Firsts, DirPaths;
    if ItemPath(item) == "" {
      assert offered + [] == offered;
    } else {
      var e := Entry(Located(directory, item), IsDir(item));
      LocatedNotEmpty(directory, item);
      FirstsMore(offered, e);
      VisitedListed(w, e.path);
      DirPathsMore(w.tree, e);
      assert w.asked + (w.directories + [e.path]) == (w.asked + w.directories) + [e.path];
      assert [""] + DirPaths(w.tree) + [e.path] == [""] + (DirPaths(w.tree) + [e.path]);
    }
  }

  lemma FirstsMore(entries: seq<Entry>, e: Entry)
    ensures Firsts(entries + [e]) ==
      if e.path in Listed(Firsts(entries)) then Firsts(entries) else Firsts(entries) + [e]
  {
    assert (entries + [e])[..|entries|] == entries;
    FirstsListed(entries, e.path);
  }

  lemma DirPathsMore(tree: seq<Entry>, e: Entry)
    ensures DirPaths(tree + [e]) == if e.dir then DirPaths(tree) + [e.path] else DirPaths(tree)
  {
    assert (tree + [e])[..|tree|] == tree;
  }

  lemma VisitedListed(w: Walk, path: string)
    requires w.asked + w.directories == [""] + DirPaths(w.tree)
    ensures Visited(w, path) && path != "" ==> path in Listed(w.tree)
  {
    if Visited(w, path) && path != "" {
      assert path in w.asked + w.directories;
      assert path in DirPaths(w.tree);
      DirListed(w.tree, path);
    }
  }

  lemma {:induction false} DirListed(tree: seq<Entry>, path: string)
    requires path in DirPaths(tree)
    ensures path in Listed(tree)
  {
    var init, last := tree[..|tree| - 1], tree[|tree| - 1];
    assert tree == init + [last];
    ListedMore(init, last);
    if path in DirPaths(init) {
      DirListed(init, path);
    }
  }

  lemma {:induction false} ItemsInOrder(w: Walk, directory: string, items: seq<Item>, offered: seq<Entry>)
    requires InOrder(w, offered)
    ensures var r := AddItems(w, directory, items);
      if |r.tree| <= 10_000 then InOrder(r, offered + EntriesOf(directory, items))
      else |Firsts(offered + EntriesOf(directory, items))| > 10_000
  {
    hide InOrder, AddItem, Firsts;
    if items == [] {
      assert offered + [] == offered;
      OrderSize(w, offered);
    } else {
      var init, last := items[..|items| - 1], items[|items| - 1];
      var before, so := AddItems(w, directory, init), offered + EntriesOf(directory, init);
      var more := if ItemPath(last) == "" then [] else [Entry(Located(directory, last), IsDir(last))];
      hide ItemPath, Located, IsDir;
      ItemsInOrder(w, directory, init, offered);
      assert offered + EntriesOf(directory, items) == so + more;
      if |before.tree| <= 10_000 {
        ItemInOrder(before, directory, last, so);
        OrderSize(AddItem(before, directory, last), so + more);
      } else {
        FirstsGrow(so, more);
      }
    }
  }

  lemma OrderSize(w: Walk, offered: seq<Entry>)
    requires InOrder(w, offered)
    ensures |w.tree| == |Firsts(offered)|
  {
  }

  lemma FirstsGrow(entries: seq<Entry>, more: seq<Entry>)
    requires |more| <= 1
    ensures |Firsts(entries + more)| >= |Firsts(entries)|
  {
    if more == [] {
      assert entries + more == entries;
    } else {
      assert (entries + more)[..|entries|] == entries;
    }
  }

  lemma {:induction false} OfferedPrefix(server: Server, asked: seq<string>, more: seq<string>, n: nat)
    requires n <= |asked|
    ensures Offered(server, asked + more, n) == Offered(server, asked, n)
  {
    if n > 0 {
      OfferedPrefix(server, asked, more, n - 1);
      assert (asked + more)[n - 1] == asked[n - 1];
    }
  }

  lemma NextInOrder(server: Server, w: Walk, offered: seq<Entry>)
    requires w.directories != [] && InOrder(w, offered)
    ensures InOrder(Next(w), offered)
    ensures Next(w).asked == w.asked + [w.directories[0]]
  {
    assert Next(w).asked + Next(w).directories == w.asked + w.directories;
  }

  // The end of a walk: a tree, everything that was offered, in order; or too much was offered;
  // or the last request failed.
  ghost predicate Concluded(server: Server, result: Result, w: Walk) {
    match result
    case Tree(entries) =>
      w.directories == [] && entries == Firsts(Offered(server, w.asked, |w.asked|)) &&
      w.asked == [""] + DirPaths(entries)
    case TooLarge => |Firsts(Offered(server, w.asked, |w.asked|))| > 10_000
    case ServerFailed(error) => w.asked != [] && server(|w.asked| - 1, w.asked[|w.asked| - 1]) == Failed(error)
  }

  lemma {:induction false} WalkInOrder(server: Server, w: Walk)
    requires Sound(w) && |w.tree| <= MAX_ENTRIES && InOrder(w, Offered(server, w.asked, |w.asked|))
    ensures var (result, walk) := WalkOn(server, w); Concluded(server, result, walk)
    decreases MAX_ENTRIES + 2 - |w.asked|
  {
    hide Sound, AddItems, WalkOn, InOrder, Firsts, DirPaths, EntriesOf;
    WalkStep(server, w);
    if w.directories == [] {
      AllInOrder(server, w);
    } else {
      var d, n, next := w.directories[0], |w.asked|, Next(w);
      NextInOrder(server, w, Offered(server, w.asked, n));
      OfferedPrefix(server, w.asked, [d], n);
      NextSound(w);
      if server(n, d).Items? {
        var items := server(n, d).items;
        ItemsSound(next, d, items);
        ItemsInOrder(next, d, items, Offered(server, w.asked, n));
        var after := AddItems(next, d, items);
        assert Offered(server, after.asked, n + 1) == Offered(server, w.asked, n) + EntriesOf(d, items);
        if |after.tree| <= MAX_ENTRIES {
          WalkInOrder(server, after);
        }
      }
    }
  }

  lemma AllInOrder(server: Server, w: Walk)
    requires w.directories == [] && InOrder(w, Offered(server, w.asked, |w.asked|))
    ensures Concluded(server, Tree(w.tree), w)
  {
    assert w.asked + [] == w.asked;
  }

  // For every server: the directories are requested breadth first, in the order in which they are
  // listed, and a tree is the entries the listings offered, in the order of the requests, without
  // those whose path came before; a walk that fails does so at its last request.
  lemma ListingInOrder(server: Server)
    ensures var (result, walk) := WalkOn(server, Start()); Concluded(server, result, walk)
  {
    hide WalkOn;
    StartSound();
    WalkInOrder(server, Start());
  }
}
