// Repository paths in plans and generated files: path.Clean by its four documented
// rules, the normal form built on it, and the test for a safe path.
module PlanPaths {
  import opened Text

  // Rules 1 to 4 for one element p; `kept` are the elements so far.
  function Keep(kept: seq<string>, p: string, rooted: bool): seq<string> {
    if p == "" || p == "." then kept
    else if p != ".." then kept + [p]
    else if kept != [] && kept[|kept| - 1] != ".." then kept[..|kept| - 1]
    else if rooted then kept
    else kept + [p]
  }

  // ... and for the elements between slashes.
  function Reduce(parts: seq<string>, kept: seq<string>, rooted: bool): seq<string>
    decreases |parts|
  {
    if parts == [] then kept else Reduce(parts[1..], Keep(kept, parts[0], rooted), rooted)
  }

  function Render(parts: seq<string>, rooted: bool): string {
    if rooted then "/" + Join(parts) else if parts == [] then "." else Join(parts)
  }

  predicate Rooted(s: string) {
    s != "" && s[0] == '/'
  }

  function Clean(s: string): string {
    Render(Reduce(Split(s), [], Rooted(s)), Rooted(s))
  }

  // strings.ReplaceAll(value, "\\", "/")
  function Slashes(s: string): (r: string)
    ensures |r| == |s| && forall i :: 0 <= i < |s| ==> r[i] == if s[i] == '\\' then '/' else s[i]
  {
    seq(|s|, i requires 0 <= i < |s| => if s[i] == '\\' then '/' else s[i])
  }

  function TrimPrefix(s: string, p: string): string {
    if p <= s then s[|p|..] else s
  }

  function NormalizePlanPath(value: string): string {
    TrimPrefix(Clean(Slashes(value)), "./")
  }

  predicate SafePlanPath(value: string) {
    value != "" && value != "." && !("/" <= value) && value != ".." && !("../" <= value) &&
    value != ".git" && !(".git/" <= value)
  }

  // ------------------------------------------------------------ the normal form

  // No empty or "." element, ".." only in front, and nowhere in a rooted path.
  ghost predicate Normal(parts: seq<string>, rooted: bool) {
    (forall i :: 0 <= i < |parts| ==> parts[i] != "" && parts[i] != "." && '/' !in parts[i]) &&
    (forall i :: 0 <= i < |parts| && parts[i] == ".." ==> !rooted && (i == 0 || parts[i - 1] == ".."))
  }

  lemma {:induction false} ReduceNormal(parts: seq<string>, kept: seq<string>, rooted: bool)
    requires Normal(kept, rooted) && forall i :: 0 <= i < |parts| ==> '/' !in parts[i]
    ensures Normal(Reduce(parts, kept, rooted), rooted)
    decreases |parts|
  {
    if parts != [] {
      var p, rest := parts[0], parts[1..];
      if p == "" || p == "." {
        ReduceNormal(rest, kept, rooted);
      } else if p != ".." {
        ReduceNormal(rest, kept + [p], rooted);
      } else if kept != [] && kept[|kept| - 1] != ".." {
        ReduceNormal(rest, kept[..|kept| - 1], rooted);
      } else if rooted {
        ReduceNormal(rest, kept, rooted);
      } else {
        ReduceNormal(rest, kept + [p], rooted);
      }
    }
  }

  lemma {:induction false} NormalReduces(kept: seq<string>, parts: seq<string>, rooted: bool)
    requires Normal(kept + parts, rooted)
    ensures Reduce(parts, kept, rooted) == kept + parts
    decreases |parts|
  {
    if parts != [] {
      var p := parts[0];
      assert (kept + parts)[|kept|] == p;
      assert kept + [p] + parts[1..] == kept + parts;
      if p == ".." && kept != [] {
        assert (kept + parts)[|kept| - 1] == kept[|kept| - 1];
      }
      NormalReduces(kept + [p], parts[1..], rooted);
    } else {
      assert kept + parts == kept;
    }
  }

  lemma RenderReduces(parts: seq<string>, rooted: bool)
    requires Normal(parts, rooted)
    ensures Rooted(Render(parts, rooted)) == rooted
    ensures Reduce(Split(Render(parts, rooted)), [], rooted) == parts
  {
    if parts == [] {
      RenderRoot(rooted);
    } else {
      assert parts[0] != "" && '/' !in parts[0] && forall i :: 0 <= i < |parts| ==> '/' !in parts[i];
      hide Reduce, Split, Join, Normal;
      SplitJoin(parts);
      NormalReduces([], parts, rooted);
      assert [] + parts == parts;
      JoinHead(parts);
      if rooted {
        SplitName("", Join(parts), true);
        assert "" + "/" + Join(parts) == Render(parts, rooted);
        LeadingEmpty(parts, rooted);
      }
    }
  }

  lemma JoinHead(parts: seq<string>)
    requires parts != [] && parts[0] != ""
    ensures Join(parts) != "" && Join(parts)[0] == parts[0][0]
  {
  }

  lemma RenderRoot(rooted: bool)
    ensures Rooted(Render([], rooted)) == rooted
    ensures Reduce(Split(Render([], rooted)), [], rooted) == []
  {
    SplitName(".", "", false);
    SplitName("", "", true);
    SplitName("", "", false);
    assert "" + "/" + "" == "/" == Render([], true);
    LeadingEmpty([""], rooted);
    assert [""][1..] == [] && ["."][1..] == [];
  }

  lemma LeadingEmpty(parts: seq<string>, rooted: bool)
    ensures Reduce([""] + parts, [], rooted) == Reduce(parts, [], rooted)
  {
    assert ([""] + parts)[1..] == parts;
  }

  lemma CleanNormal(s: string) returns (parts: seq<string>)
    ensures Normal(parts, Rooted(s)) && Clean(s) == Render(parts, Rooted(s))
    ensures parts == Reduce(Split(s), [], Rooted(s))
  {
    parts := Reduce(Split(s), [], Rooted(s));
    ReduceNormal(Split(s), [], Rooted(s));
  }

  // path.Clean is idempotent.
  lemma CleanTwice(s: string)
    ensures Clean(Clean(s)) == Clean(s)
  {
    var parts := CleanNormal(s);
    RenderReduces(parts, Rooted(s));
  }

  lemma {:induction false} JoinChars(parts: seq<string>, c: char)
    requires c in Join(parts)
    ensures c == '/' || exists i :: 0 <= i < |parts| && c in parts[i]
  {
    if |parts| > 1 && c !in parts[0] && c != '/' {
      assert c in Join(parts[1..]);
      JoinChars(parts[1..], c);
      var i :| 0 <= i < |parts[1..]| && c in parts[1..][i];
      assert c in parts[i + 1];
    }
  }

  lemma {:induction false} ReduceMembers(parts: seq<string>, kept: seq<string>, rooted: bool, p: string)
    requires p in Reduce(parts, kept, rooted)
    ensures p in parts || p in kept
    decreases |parts|
  {
    if parts != [] {
      var q, rest := parts[0], parts[1..];
      if q == "" || q == "." {
        ReduceMembers(rest, kept, rooted, p);
      } else if q != ".." {
        ReduceMembers(rest, kept + [q], rooted, p);
      } else if kept != [] && kept[|kept| - 1] != ".." {
        ReduceMembers(rest, kept[..|kept| - 1], rooted, p);
      } else if rooted {
        ReduceMembers(rest, kept, rooted, p);
      } else {
        ReduceMembers(rest, kept + [q], rooted, p);
      }
    }
  }

  lemma {:induction false} SplitChars(s: string, p: string, c: char)
    requires p in Split(s) && c in p
    ensures c in s
  {
    if s != "" {
      var rest := Split(s[1..]);
      if p in rest {
        SplitChars(s[1..], p, c);
      } else if s[0] != '/' && c != s[0] {
        assert p == [s[0]] + rest[0];
        SplitChars(s[1..], rest[0], c);
      }
    }
  }

  lemma CleanNoBackslash(s: string)
    requires '\\' !in s
    ensures '\\' !in Clean(s)
  {
    var parts := CleanNormal(s);
    if '\\' in Join(parts) {
      JoinChars(parts, '\\');
      var i :| 0 <= i < |parts| && '\\' in parts[i];
      ReduceMembers(Split(s), [], Rooted(s), parts[i]);
      SplitChars(s, parts[i], '\\');
    }
  }

  lemma NoDotPrefix(parts: seq<string>, rooted: bool)
    requires Normal(parts, rooted)
    ensures !("./" <= Render(parts, rooted))
  {
    var r := Render(parts, rooted);
    assert rooted ==> r[0] == '/';
    if !rooted && parts != [] {
      var rest := if |parts| == 1 then "" else Join(parts[1..]);
      FirstSegmentOf(parts[0], rest);
      assert FirstSegment(r) == parts[0];
      DotFirst(r);
    }
  }

  lemma DotFirst(s: string)
    ensures "./" <= s ==> FirstSegment(s) == "."
  {
    if "./" <= s {
      FirstSegmentOf(".", s[2..]);
      assert s == "." + "/" + s[2..];
    }
  }

  lemma NormalizeIsClean(value: string)
    ensures NormalizePlanPath(value) == Clean(Slashes(value))
  {
    var parts := CleanNormal(Slashes(value));
    NoDotPrefix(parts, Rooted(Slashes(value)));
  }

  lemma NormalizeTwice(value: string)
    ensures NormalizePlanPath(NormalizePlanPath(value)) == NormalizePlanPath(value)
  {
    NormalizeIsClean(value);
    var n := NormalizePlanPath(value);
    NormalizeIsClean(n);
    CleanNoBackslash(Slashes(value));
    assert Slashes(n) == n;
    CleanTwice(Slashes(value));
  }

  // A normalised path that passes the safety test stays below the repository root: it is
  // relative, no element is empty, "." or "..", and its first element is not ".git".
  lemma SafeStaysInside(value: string)
    requires SafePlanPath(NormalizePlanPath(value))
    ensures !Rooted(NormalizePlanPath(value))
    ensures forall p :: p in Split(NormalizePlanPath(value)) ==> p != "" && p != "." && p != ".."
    ensures Split(NormalizePlanPath(value))[0] != ".git"
  {
    NormalizeIsClean(value);
    var parts := CleanNormal(Slashes(value));
    var path := NormalizePlanPath(value);
    assert !Rooted(Slashes(value));
    SplitJoin(parts);
    FirstDecides(parts, "..");
    FirstDecides(parts, ".git");
    NoneParent(parts);
  }

  // And nothing else is refused: a normalised path is unsafe only when it is the root itself or
  // rooted, leads above the root, or starts in ".git".
  lemma SafeExactly(value: string)
    ensures var n := NormalizePlanPath(value);
      SafePlanPath(n) <==> n != "." && !Rooted(n) && Split(n)[0] != ".." && Split(n)[0] != ".git"
  {
    var n := NormalizePlanPath(value);
    NormalizeNotEmpty(value);
    HeadDecides(n, "..");
    HeadDecides(n, ".git");
  }

  lemma HeadDecides(path: string, name: string)
    requires '/' !in name
    ensures Split(path)[0] == name <==> path == name || name + "/" <= path
  {
    if path == name {
      SplitName(name, "", false);
    } else if name + "/" <= path {
      var rest := path[|name| + 1..];
      assert path == name + "/" + rest;
      SplitName(name, rest, true);
    } else {
      HeadStands(path);
    }
  }

  lemma {:induction false} HeadStands(path: string)
    ensures path == Split(path)[0] || Split(path)[0] + "/" <= path
  {
    if path != "" && path[0] != '/' {
      HeadStands(path[1..]);
      var head := Split(path[1..])[0];
      assert path == [path[0]] + path[1..] && Split(path)[0] == [path[0]] + head;
      assert [path[0]] + (head + "/") == [path[0]] + head + "/";
    }
  }

  lemma FirstDecides(parts: seq<string>, name: string)
    requires parts != [] && Join(parts) != name && !(name + "/" <= Join(parts))
    ensures parts[0] != name
  {
  }

  lemma NoneParent(parts: seq<string>)
    requires Normal(parts, false) && parts != [] && parts[0] != ".."
    ensures forall p :: p in parts ==> p != ".."
  {
    for i := 0 to |parts|
      invariant forall j :: 0 <= j < i ==> parts[j] != ".."
    {
      assert i > 0 ==> parts[i - 1] != "..";
    }
  }

  lemma NormalizeNotEmpty(value: string)
    ensures NormalizePlanPath(value) != ""
  {
    NormalizeIsClean(value);
    var parts := CleanNormal(Slashes(value));
    assert parts != [] ==> parts[0] != "";
  }

  // ------------------------------------------------------------ what a path denotes

  // The place reached from `place` by one path element; the root is its own parent.
  ghost function Step(place: seq<string>, p: string): seq<string> {
    if p == "" || p == "." then place
    else if p == ".." then if place == [] then [] else place[..|place| - 1]
    else place + [p]
  }

  ghost function Follow(place: seq<string>, parts: seq<string>): seq<string> {
    if parts == [] then place else Step(Follow(place, parts[..|parts| - 1]), parts[|parts| - 1])
  }

  ghost function Resolve(place: seq<string>, path: string): seq<string> {
    Follow(if Rooted(path) then [] else place, Split(path))
  }

  lemma KeepNormal(kept: seq<string>, p: string, rooted: bool)
    requires Normal(kept, rooted) && '/' !in p
    ensures Normal(Keep(kept, p, rooted), rooted)
  {
  }

  lemma KeepFollows(kept: seq<string>, p: string, rooted: bool, place: seq<string>)
    requires Normal(kept, rooted) && (rooted ==> place == [])
    ensures Follow(place, Keep(kept, p, rooted)) == Follow(place, kept + [p])
  {
    assert (kept + [p])[..|kept|] == kept;
    if p == ".." && rooted {
      assert kept == [] || kept[|kept| - 1] != "..";
    }
  }

  lemma {:induction false} ReduceFollows(parts: seq<string>, kept: seq<string>, rooted: bool, place: seq<string>)
    requires Normal(kept, rooted) && (rooted ==> place == [])
    requires forall i :: 0 <= i < |parts| ==> '/' !in parts[i]
    ensures Follow(place, Reduce(parts, kept, rooted)) == Follow(place, kept + parts)
    decreases |parts|
  {
    hide Reduce, Keep, Normal, Follow;
    if parts == [] {
      assert kept + parts == kept;
      ReduceNothing(kept, rooted);
    } else {
      var p, rest := parts[0], parts[1..];
      var next := Keep(kept, p, rooted);
      assert kept + parts == (kept + [p]) + rest;
      FollowFrom(place, kept + [p], rest);
      FollowFrom(place, next, rest);
      ReduceOne(parts, kept, rooted);
      KeepNormal(kept, p, rooted);
      KeepFollows(kept, p, rooted, place);
      ReduceFollows(rest, next, rooted, place);
    }
  }

  lemma ReduceOne(parts: seq<string>, kept: seq<string>, rooted: bool)
    requires parts != []
    ensures Reduce(parts, kept, rooted) == Reduce(parts[1..], Keep(kept, parts[0], rooted), rooted)
  {
  }

  lemma ReduceNothing(kept: seq<string>, rooted: bool)
    ensures Reduce([], kept, rooted) == kept
  {
  }

  lemma {:induction false} FollowFrom(place: seq<string>, a: seq<string>, b: seq<string>)
    ensures Follow(place, a + b) == Follow(Follow(place, a), b)
    decreases |b|
  {
    if b == [] {
      assert a + b == a;
    } else {
      assert (a + b)[..|a + b| - 1] == a + b[..|b| - 1];
      FollowFrom(place, a, b[..|b| - 1]);
    }
  }

  // Clean never changes the place a path leads to, whatever the starting place.
  lemma CleanLeadsToSamePlace(place: seq<string>, s: string)
    ensures Resolve(place, Clean(s)) == Resolve(place, s)
  {
    var start := if Rooted(s) then [] else place;
    var parts := CleanNormal(s);
    ReduceFollows(Split(s), [], Rooted(s), start);
    assert [] + Split(s) == Split(s);
    RenderReduces(parts, Rooted(s));
    ReduceFollows(Split(Clean(s)), [], Rooted(s), start);
    assert [] + Split(Clean(s)) == Split(Clean(s));
  }
}
