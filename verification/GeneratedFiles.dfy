// The file operations a model returns: merging duplicates, dropping operations that
// change nothing, validating, and what the operations mean on a repository.
module GeneratedFiles {
  import opened Collections
  import opened Text
  import opened PlanPaths

  datatype FileOp = FileOp(action: string, path: string, content: string, diff: string,
                           explanation: string, status: string, validationError: string)

  datatype RepoFile = RepoFile(path: string, content: string)

  const MAX_OPERATIONS := 500

  // strings.ReplaceAll(value, "\r\n", "\n")
  function NormalizeContent(s: string): string {
    if s == "" then ""
    else if "\r\n" <= s then "\n" + NormalizeContent(s[2..])
    else [s[0]] + NormalizeContent(s[1..])
  }

  // Each CRLF becomes an LF ...
  lemma {:induction false} CrlfBecomesLf(a: string, b: string)
    ensures NormalizeContent(a + "\r\n" + b) == NormalizeContent(a) + "\n" + NormalizeContent(b)
  {
    hide NormalizeContent;
    var whole := a + "\r\n" + b;
    if a == "" {
      assert whole[2..] == b;
      StepCrlf(whole);
      StepNothing();
    } else if "\r\n" <= a {
      CrlfBecomesLf(a[2..], b);
      assert whole[2..] == a[2..] + "\r\n" + b;
      StepCrlf(a);
      StepCrlf(whole);
      assert NormalizeContent(whole) == "\n" + (NormalizeContent(a[2..]) + "\n" + NormalizeContent(b));
    } else {
      CrlfBecomesLf(a[1..], b);
      assert whole[1] == if |a| > 1 then a[1] else '\r';
      assert whole[1..] == a[1..] + "\r\n" + b;
      StepPlain(a);
      StepPlain(whole);
      assert NormalizeContent(whole) == [a[0]] + (NormalizeContent(a[1..]) + "\n" + NormalizeContent(b));
    }
  }

  lemma StepNothing()
    ensures NormalizeContent("") == ""
  {
  }

  lemma StepCrlf(s: string)
    requires "\r\n" <= s
    ensures NormalizeContent(s) == "\n" + NormalizeContent(s[2..])
  {
  }

  lemma StepPlain(s: string)
    requires s != "" && !(|s| > 1 && s[0] == '\r' && s[1] == '\n')
    ensures NormalizeContent(s) == [s[0]] + NormalizeContent(s[1..])
  {
  }

  // ... and a text without one stays as it is.
  lemma {:induction false} NoCrlfStays(s: string)
    requires forall i :: 0 <= i < |s| - 1 ==> !(s[i] == '\r' && s[i + 1] == '\n')
    ensures NormalizeContent(s) == s
  {
    if s != "" {
      NoCrlfStays(s[1..]);
      StepPlain(s);
    }
  }

  // ------------------------------------------------------------ merging duplicate paths

  function MergeExplanation(previous: string, next: string): string {
    var p, n := GoTrim(previous), GoTrim(next);
    if p == "" then n else if n == "" then p else if p == n then n else p + "\n" + n
  }

  function MergeOp(previous: FileOp, file: FileOp): FileOp {
    file.(action := if IsBlank(file.action) then previous.action else file.action,
          content := if IsBlank(file.content) then previous.content else file.content,
          diff := if IsBlank(file.diff) then previous.diff else file.diff,
          explanation := MergeExplanation(previous.explanation, file.explanation),
          path := NormalizePlanPath(file.path))
  }

  // The normalised paths in the order of their first occurrence.
  function PathsOf(files: seq<FileOp>): (paths: seq<string>)
    ensures forall i, j :: 0 <= i < j < |paths| ==> paths[i] != paths[j]
  {
    if files == [] then []
    else
      var init, last := files[..|files| - 1], files[|files| - 1];
      var paths, p := PathsOf(init), NormalizePlanPath(last.path);
      if p in paths then paths else paths + [p]
  }

  // The operations on one path, in order.
  function Group(files: seq<FileOp>, path: string): (g: seq<FileOp>)
    ensures g != [] <==> path in PathsOf(files)
  {
    if files == [] then []
    else
      var init, last := files[..|files| - 1], files[|files| - 1];
      Group(init, path) + if NormalizePlanPath(last.path) == path then [last] else []
  }

  function Merged(g: seq<FileOp>): FileOp
    requires g != []
  {
    var last := g[|g| - 1];
    if |g| == 1 then last.(path := NormalizePlanPath(last.path)) else MergeOp(Merged(g[..|g| - 1]), last)
  }

  // One operation per path, merged from all operations on that path.
  function Normalized(files: seq<FileOp>): (r: seq<FileOp>)
    ensures |r| == |PathsOf(files)|
    ensures forall k :: 0 <= k < |r| ==> r[k] == Merged(Group(files, PathsOf(files)[k]))
  {
    var paths := PathsOf(files);
    seq(|paths|, i requires 0 <= i < |paths| => assert paths[i] in paths; Merged(Group(files, paths[i])))
  }

  lemma {:induction false} GroupMore(files: seq<FileOp>, file: FileOp, p: string)
    requires p in PathsOf(files)
    ensures p in PathsOf(files + [file])
    ensures Merged(Group(files + [file], p))
         == if NormalizePlanPath(file.path) == p then MergeOp(Merged(Group(files, p)), file) else Merged(Group(files, p))
  {
    assert (files + [file])[..|files|] == files;
    var g := Group(files, p);
    if NormalizePlanPath(file.path) == p {
      assert (g + [file])[..|g|] == g;
      assert Group(files + [file], p) == g + [file];
    } else {
      assert Group(files + [file], p) == g;
    }
  }

  lemma PathsMore(files: seq<FileOp>, file: FileOp)
    ensures var paths, p := PathsOf(files), NormalizePlanPath(file.path);
      PathsOf(files + [file]) == (if p in paths then paths else paths + [p]) &&
      (p !in paths ==> Group(files + [file], p) == [file])
  {
    assert (files + [file])[..|files|] == files;
  }

  lemma {:induction false} NormalizedNew(files: seq<FileOp>, file: FileOp)
    requires NormalizePlanPath(file.path) !in PathsOf(files)
    ensures Normalized(files + [file]) == Normalized(files) + [file.(path := NormalizePlanPath(file.path))]
    ensures PathsOf(files + [file]) == PathsOf(files) + [NormalizePlanPath(file.path)]
  {
    hide Normalized, Merged, MergeOp, Group, PathsOf, NormalizePlanPath;
    var before, after := Normalized(files), Normalized(files + [file]);
    PathsMore(files, file);
    forall j | 0 <= j < |before| ensures after[j] == before[j] {
      MergedMore(files, file, j);
    }
    MergedOne(file);
    assert after[|before|] == Merged([file]);
  }

  lemma {:induction false} MergedOne(file: FileOp)
    ensures Merged([file]) == file.(path := NormalizePlanPath(file.path))
  {
  }

  lemma {:induction false} NormalizedOld(files: seq<FileOp>, file: FileOp, k: nat)
    requires k < |PathsOf(files)| && PathsOf(files)[k] == NormalizePlanPath(file.path)
    ensures Normalized(files + [file]) == Normalized(files)[k := MergeOp(Normalized(files)[k], file)]
    ensures PathsOf(files + [file]) == PathsOf(files)
  {
    hide Normalized, Merged, MergeOp, Group;
    var before, after := Normalized(files), Normalized(files + [file]);
    var m := MergeOp(before[k], file);
    PathsMore(files, file);
    assert |after| == |before|;
    forall j | 0 <= j < |before| ensures after[j] == if j == k then m else before[j] {
      assert j != k ==> PathsOf(files)[j] != PathsOf(files)[k];
      MergedMore(files, file, j);
    }
    assert after == before[k := m];
  }

  lemma {:induction false} MergedMore(files: seq<FileOp>, file: FileOp, j: nat)
    requires j < |PathsOf(files)|
    ensures j < |PathsOf(files + [file])| && PathsOf(files + [file])[j] == PathsOf(files)[j]
    ensures Normalized(files + [file])[j]
         == if PathsOf(files)[j] == NormalizePlanPath(file.path) then MergeOp(Normalized(files)[j], file)
            else Normalized(files)[j]
  {
    PathsMore(files, file);
    assert PathsOf(files)[j] in PathsOf(files);
    GroupMore(files, file, PathsOf(files)[j]);
  }

  lemma MergeNormalized(previous: FileOp, file: FileOp)
    ensures MergeOp(previous, file.(path := NormalizePlanPath(file.path))) == MergeOp(previous, file)
  {
    NormalizeTwice(file.path);
  }

  // The map from a path to its place in the merged list.
  ghost predicate Indexes(indexByPath: map<string, nat>, paths: seq<string>) {
    (forall p :: p in indexByPath <==> p in paths) &&
    (forall p :: p in indexByPath ==> indexByPath[p] < |paths| && paths[indexByPath[p]] == p)
  }

  method NormalizeGeneratedFiles(files: seq<FileOp>) returns (merged: seq<FileOp>)
    ensures merged == Normalized(files)
  {
    merged := [];
    var indexByPath: map<string, nat> := map[];
    for i := 0 to |files|
      invariant merged == Normalized(files[..i])
      invariant Indexes(indexByPath, PathsOf(files[..i]))
    {
      var file := files[i].(path := NormalizePlanPath(files[i].path));
      // path.Clean never returns an empty path, so no operation is kept unmerged here.
      NormalizeNotEmpty(files[i].path);
      assert files[..i + 1] == files[..i] + [files[i]];
      if file.path !in indexByPath {
        NormalizedNew(files[..i], files[i]);
        indexByPath := indexByPath[file.path := |merged|];
        merged := merged + [file];
      } else {
        var index := indexByPath[file.path];
        NormalizedOld(files[..i], files[i], index);
        MergeNormalized(merged[index], files[i]);
        merged := merged[index := MergeOp(merged[index], file)];
      }
    }
    assert files[..|files|] == files;
  }

  // ------------------------------------------------------------ what merging keeps

  datatype Field = Action | Content | Diff

  function Get(f: FileOp, field: Field): string {
    match field
    case Action => f.action
    case Content => f.content
    case Diff => f.diff
  }

  // The last operation whose field is not blank, else the first one.
  ghost function LastWith(g: seq<FileOp>, field: Field): (k: nat)
    requires g != []
    ensures k < |g| && (IsBlank(Get(g[k], field)) ==> k == 0)
  {
    var last := |g| - 1;
    if last == 0 || !IsBlank(Get(g[last], field)) then last else LastWith(g[..last], field)
  }

  lemma {:induction false} LastWithIsLast(g: seq<FileOp>, field: Field, j: nat)
    requires g != [] && LastWith(g, field) < j < |g|
    ensures IsBlank(Get(g[j], field))
  {
    if j < |g| - 1 {
      LastWithIsLast(g[..|g| - 1], field, j);
    }
  }

  // The explanations of two operations: without the blank ones, once when they are equal.
  ghost predicate Joined(merged: string, previous: string, next: string) {
    var p, n := GoTrim(previous), GoTrim(next);
    (p == "" ==> merged == n) && (n == "" ==> merged == p) && (p == n ==> merged == p) &&
    (p != "" && n != "" && p != n ==> merged == p + "\n" + n)
  }

  ghost function OnPath(path: string): FileOp -> bool {
    (f: FileOp) => NormalizePlanPath(f.path) == path
  }

  // The operations on one path are those whose normalised path it is, in order.
  lemma {:induction false} GroupMeans(files: seq<FileOp>, path: string)
    ensures Group(files, path) == Filter(files, OnPath(path))
  {
    if files != [] {
      GroupMeans(files[..|files| - 1], path);
    }
  }

  // The operation kept for a path carries the last non-blank action, content and diff of
  // the operations on that path, their explanations, and the rest of the last one.
  lemma {:induction false} MergedKeepsLast(g: seq<FileOp>)
    requires g != []
    ensures Merged(g).action == g[LastWith(g, Action)].action
    ensures Merged(g).content == g[LastWith(g, Content)].content
    ensures Merged(g).diff == g[LastWith(g, Diff)].diff
    ensures Merged(g).status == g[|g| - 1].status && Merged(g).path == NormalizePlanPath(g[|g| - 1].path)
    ensures Merged(g).validationError == g[|g| - 1].validationError
    ensures if |g| == 1 then Merged(g).explanation == g[0].explanation
            else Joined(Merged(g).explanation, Merged(g[..|g| - 1]).explanation, g[|g| - 1].explanation)
  {
    if |g| > 1 {
      MergedKeepsLast(g[..|g| - 1]);
    }
  }

  lemma {:induction false} PathListed(files: seq<FileOp>, k: nat)
    requires k < |files|
    ensures NormalizePlanPath(files[k].path) in PathsOf(files)
  {
    if k < |files| - 1 {
      PathListed(files[..|files| - 1], k);
    }
  }

  // The first operation on a path.
  ghost function FirstUse(files: seq<FileOp>, path: string): (k: nat)
    requires path in PathsOf(files)
    ensures k < |files| && NormalizePlanPath(files[k].path) == path
  {
    var init := files[..|files| - 1];
    if path in PathsOf(init) then FirstUse(init, path) else |files| - 1
  }

  lemma {:induction false} FirstUseIsFirst(files: seq<FileOp>, path: string, j: nat)
    requires path in PathsOf(files) && j < FirstUse(files, path)
    ensures NormalizePlanPath(files[j].path) != path
  {
    var init := files[..|files| - 1];
    if path in PathsOf(init) {
      FirstUseIsFirst(init, path, j);
    } else {
      PathListed(init, j);
    }
  }

  // Paths come out in the order of their first use.
  lemma {:induction false} FirstUseOrder(files: seq<FileOp>, i: nat, j: nat)
    requires i < j < |PathsOf(files)|
    ensures PathsOf(files)[i] in PathsOf(files) && PathsOf(files)[j] in PathsOf(files)
    ensures FirstUse(files, PathsOf(files)[i]) < FirstUse(files, PathsOf(files)[j])
  {
    var init := files[..|files| - 1];
    var paths := PathsOf(init);
    assert paths <= PathsOf(files);
    if j < |paths| {
      FirstUseOrder(init, i, j);
    } else {
      assert paths[i] in paths;
    }
  }

  lemma GroupPaths(files: seq<FileOp>, path: string)
    ensures forall f :: f in Group(files, path) ==> NormalizePlanPath(f.path) == path
  {
    if files != [] {
      GroupPaths(files[..|files| - 1], path);
    }
  }

  // Every result carries its path in normal form, in the order of first use.
  lemma {:induction false} NormalizedPath(files: seq<FileOp>, k: nat)
    requires k < |Normalized(files)|
    ensures Normalized(files)[k].path == PathsOf(files)[k] == NormalizePlanPath(PathsOf(files)[k])
  {
    var p := PathsOf(files)[k];
    assert p in PathsOf(files);
    var g := Group(files, p);
    GroupPaths(files, p);
    MergedKeepsLast(g);
    assert g[|g| - 1] in g;
    NormalizeTwice(g[|g| - 1].path);
  }

  // Distinct normalised paths: nothing is merged and nothing changes.
  lemma {:induction false} NothingToMerge(files: seq<FileOp>)
    requires forall i :: 0 <= i < |files| ==> NormalizePlanPath(files[i].path) == files[i].path
    requires forall i, j :: 0 <= i < j < |files| ==> files[i].path != files[j].path
    ensures Normalized(files) == files && |PathsOf(files)| == |files|
    ensures forall i :: 0 <= i < |files| ==> PathsOf(files)[i] == files[i].path
  {
    if files != [] {
      var n := |files| - 1;
      var init, last := files[..n], files[n];
      assert files == init + [last] && last.(path := last.path) == last;
      NothingToMerge(init);
      assert last.path !in PathsOf(init) by {
        forall k | 0 <= k < n ensures PathsOf(init)[k] != last.path {
          assert files[k].path != files[n].path;
        }
      }
      NormalizedNew(init, last);
    }
  }

  lemma NormalizeFilesTwice(files: seq<FileOp>)
    ensures Normalized(Normalized(files)) == Normalized(files)
  {
    var r := Normalized(files);
    forall k | 0 <= k < |r| ensures NormalizePlanPath(r[k].path) == r[k].path == PathsOf(files)[k] {
      NormalizedPath(files, k);
    }
    NothingToMerge(r);
  }
}
