// From the model's file operations to the stored contract: the filters, the validator,
// and the effect of the operations on the files of the repository.
// `partial` stands for the size thresholds that recognise an incomplete rewrite.
module FileContract {
  import opened Collections
  import opened Text
  import opened PlanPaths
  import opened GeneratedFiles

  type Partial = (string, string) -> bool

  // Contents by normalised path; a later file with the same path wins.
  function ContentByPath(repo: seq<RepoFile>): map<string, string> {
    if repo == [] then map[]
    else
      var last := repo[|repo| - 1];
      ContentByPath(repo[..|repo| - 1])[NormalizePlanPath(last.path) := last.content]
  }

  // Reading a Go map: the zero value for an absent key.
  function Lookup(m: map<string, string>, key: string): string {
    if key in m then m[key] else ""
  }

  // ------------------------------------------------------------ the filters

  predicate Noop(op: FileOp, contents: map<string, string>) {
    op.action == "modify" &&
    NormalizeContent(op.content) == NormalizeContent(Lookup(contents, NormalizePlanPath(op.path)))
  }

  function DropNoop(files: seq<FileOp>, contents: map<string, string>): seq<FileOp> {
    if files == [] then []
    else
      var last := files[|files| - 1];
      DropNoop(files[..|files| - 1], contents) + if Noop(last, contents) then [] else [last]
  }

  predicate Incomplete(op: FileOp, contents: map<string, string>, partial: Partial) {
    var p := NormalizePlanPath(op.path);
    op.action == "modify" && p in contents && partial(op.content, contents[p])
  }

  function DropPartial(files: seq<FileOp>, contents: map<string, string>, partial: Partial): seq<FileOp> {
    if files == [] then []
    else
      var last := files[|files| - 1];
      DropPartial(files[..|files| - 1], contents, partial) + if Incomplete(last, contents, partial) then [] else [last]
  }

  // DropNoopGeneratedFiles, and DropNoopGeneratedFilesForApply, which has the same body.
  method DropNoopGeneratedFiles(files: seq<FileOp>, repo: seq<RepoFile>) returns (filtered: seq<FileOp>)
    ensures filtered == DropNoop(files, ContentByPath(repo))
  {
    var contentByPath: map<string, string> := map[];
    ghost var raw := ContentByPath(repo);
    for i := 0 to |repo|
      invariant contentByPath.Keys == ContentByPath(repo[..i]).Keys
      invariant forall p :: p in contentByPath ==> contentByPath[p] == NormalizeContent(ContentByPath(repo[..i])[p])
    {
      assert repo[..i + 1][..i] == repo[..i];
      contentByPath := contentByPath[NormalizePlanPath(repo[i].path) := NormalizeContent(repo[i].content)];
    }
    assert repo[..|repo|] == repo;
    filtered := [];
    for i := 0 to |files|
      invariant filtered == DropNoop(files[..i], raw)
    {
      assert files[..i + 1][..i] == files[..i];
      var file := files[i];
      if !(file.action == "modify" &&
           NormalizeContent(file.content) == Lookup(contentByPath, NormalizePlanPath(file.path))) {
        filtered := filtered + [file];
      }
    }
    assert files[..|files|] == files;
  }

  method DropUnsafePartialModifyFiles(files: seq<FileOp>, repo: seq<RepoFile>, partial: Partial)
    returns (filtered: seq<FileOp>)
    ensures filtered == DropPartial(files, ContentByPath(repo), partial)
  {
    var contentByPath: map<string, string> := map[];
    for i := 0 to |repo|
      invariant contentByPath == ContentByPath(repo[..i])
    {
      assert repo[..i + 1][..i] == repo[..i];
      contentByPath := contentByPath[NormalizePlanPath(repo[i].path) := repo[i].content];
    }
    assert repo[..|repo|] == repo;
    filtered := [];
    for i := 0 to |files|
      invariant filtered == DropPartial(files[..i], contentByPath, partial)
    {
      assert files[..i + 1][..i] == files[..i];
      if files[i].action == "modify" {
        var path := NormalizePlanPath(files[i].path);
        if path in contentByPath && partial(files[i].content, contentByPath[path]) {
          continue;
        }
      }
      filtered := filtered + [files[i]];
    }
    assert files[..|files|] == files;
  }

  // ------------------------------------------------------------ what the filters keep

  ghost predicate LastOn(repo: seq<RepoFile>, p: string, i: nat)
    requires i < |repo|
  {
    NormalizePlanPath(repo[i].path) == p && forall j :: i < j < |repo| ==> NormalizePlanPath(repo[j].path) != p
  }

  ghost predicate Stored(repo: seq<RepoFile>, p: string) {
    exists i :: 0 <= i < |repo| && NormalizePlanPath(repo[i].path) == p
  }

  lemma {:induction false} StoredPaths(repo: seq<RepoFile>, p: string)
    ensures p in ContentByPath(repo) <==> Stored(repo, p)
  {
    hide NormalizePlanPath;
    if repo != [] {
      var n := |repo| - 1;
      StoredPaths(repo[..n], p);
      if Stored(repo[..n], p) {
        var i :| 0 <= i < n && NormalizePlanPath(repo[..n][i].path) == p;
        assert repo[i] == repo[..n][i];
      }
    }
  }

  // The content stored for a path is that of the last file with that normalised path.
  lemma {:induction false} ContentIsLast(repo: seq<RepoFile>, p: string, i: nat)
    requires i < |repo| && LastOn(repo, p, i)
    ensures p in ContentByPath(repo) && ContentByPath(repo)[p] == repo[i].content
  {
    hide NormalizePlanPath;
    var n := |repo| - 1;
    if i < n {
      assert repo[..n][i] == repo[i];
      ContentIsLast(repo[..n], p, i);
      assert NormalizePlanPath(repo[n].path) != p;
    }
  }

  // The modifications whose content is not the stored one up to CRLF, where a file that is not
  // stored counts as empty, and everything else.
  ghost function Changes(contents: map<string, string>): FileOp -> bool {
    (op: FileOp) =>
      op.action != "modify" ||
      NormalizeContent(op.content) !=
        if NormalizePlanPath(op.path) in contents then NormalizeContent(contents[NormalizePlanPath(op.path)]) else ""
  }

  // The modifications of stored files that do not look incomplete, and everything else.
  ghost function Whole(contents: map<string, string>, partial: Partial): FileOp -> bool {
    (op: FileOp) =>
      op.action != "modify" || NormalizePlanPath(op.path) !in contents ||
      !partial(op.content, contents[NormalizePlanPath(op.path)])
  }

  // Each filter keeps exactly those operations, in order.
  lemma {:induction false} FiltersMean(files: seq<FileOp>, contents: map<string, string>, partial: Partial)
    ensures DropNoop(files, contents) == Filter(files, Changes(contents))
    ensures DropPartial(files, contents, partial) == Filter(files, Whole(contents, partial))
  {
    if files != [] {
      var init, last := files[..|files| - 1], files[|files| - 1];
      FiltersMean(init, contents, partial);
      assert Changes(contents)(last) == !Noop(last, contents);
      assert Whole(contents, partial)(last) == !Incomplete(last, contents, partial);
      hide NormalizePlanPath, NormalizeContent, Changes, Whole, Noop, Incomplete;
    }
  }

  // ------------------------------------------------------------ the validator

  datatype Reason = NoFiles | TooManyFiles | UnsafePath | DuplicatePath | NoExplanation | TargetExists
                  | TargetMissing | EmptyContent | ContentOnDelete | UnsupportedAction

  datatype Verdict = Accepted | Rejected(reason: Reason)

  // What an action demands of its target and its content.
  predicate ActionOk(op: FileOp, present: bool) {
    (op.action == "create" && !present && !IsBlank(op.content)) ||
    (op.action == "modify" && present && !IsBlank(op.content)) ||
    (op.action == "delete" && present && op.content == "" && op.diff == "")
  }

  predicate OperationOk(op: FileOp, existing: set<string>) {
    var p := NormalizePlanPath(op.path);
    SafePlanPath(p) && !IsBlank(op.explanation) && ActionOk(op, p in existing)
  }

  // All the validator looks at in one operation.
  datatype Mark = Mark(ok: bool, path: string)

  ghost function Marks(files: seq<FileOp>, existing: set<string>): (m: seq<Mark>)
    ensures |m| == |files|
    ensures forall i :: 0 <= i < |m| ==> m[i] == Mark(OperationOk(files[i], existing), NormalizePlanPath(files[i].path))
  {
    seq(|files|, i requires 0 <= i < |files| =>
      Mark(OperationOk(files[i], existing), NormalizePlanPath(files[i].path)))
  }

  ghost function MarkPaths(m: seq<Mark>): set<string> {
    if m == [] then {} else MarkPaths(m[..|m| - 1]) + {m[|m| - 1].path}
  }

  // Every operation acceptable, no path twice.
  ghost predicate AllOk(m: seq<Mark>) {
    m == [] ||
    (AllOk(m[..|m| - 1]) && m[|m| - 1].ok && m[|m| - 1].path !in MarkPaths(m[..|m| - 1]))
  }

  ghost predicate ValidFiles(files: seq<FileOp>, existing: set<string>) {
    0 < |files| <= MAX_OPERATIONS && AllOk(Marks(files, existing))
  }

  // The switch on the action.
  function CheckAction(op: FileOp, present: bool): (v: Verdict)
    ensures v.Accepted? <==> ActionOk(op, present)
  {
    if op.action == "create" then
      if present then Rejected(TargetExists) else if IsBlank(op.content) then Rejected(EmptyContent) else Accepted
    else if op.action == "modify" then
      if !present then Rejected(TargetMissing) else if IsBlank(op.content) then Rejected(EmptyContent) else Accepted
    else if op.action == "delete" then
      if !present then Rejected(TargetMissing)
      else if op.content != "" || op.diff != "" then Rejected(ContentOnDelete) else Accepted
    else Rejected(UnsupportedAction)
  }

  // The checks of one loop round, in order.
  function CheckOperation(op: FileOp, existing: set<string>, seen: set<string>): (v: Verdict)
    ensures v.Accepted? <==> OperationOk(op, existing) && NormalizePlanPath(op.path) !in seen
  {
    var path := NormalizePlanPath(op.path);
    if !SafePlanPath(path) then Rejected(UnsafePath)
    else if path in seen then Rejected(DuplicatePath)
    else if IsBlank(op.explanation) then Rejected(NoExplanation)
    else CheckAction(op, path in existing)
  }

  lemma {:induction false} AllOkPrefix(m: seq<Mark>, n: nat)
    requires n <= |m| && AllOk(m)
    ensures AllOk(m[..n])
  {
    if n == |m| {
      assert m[..n] == m;
    } else {
      AllOkPrefix(m[..|m| - 1], n);
      assert m[..|m| - 1][..n] == m[..n];
    }
  }

  lemma AllOkNone(m: seq<Mark>)
    ensures AllOk(m[..0]) && MarkPaths(m[..0]) == {}
  {
  }

  lemma {:induction false} AllOkNext(m: seq<Mark>, i: nat)
    requires i < |m| && AllOk(m[..i])
    ensures AllOk(m[..i + 1]) <==> m[i].ok && m[i].path !in MarkPaths(m[..i])
    ensures AllOk(m) ==> AllOk(m[..i + 1])
    ensures MarkPaths(m[..i + 1]) == MarkPaths(m[..i]) + {m[i].path}
  {
    assert m[..i + 1][..i] == m[..i];
    if AllOk(m) {
      AllOkPrefix(m, i + 1);
    }
  }

  method ValidateGeneratedFiles(files: seq<FileOp>, repo: seq<RepoFile>) returns (verdict: Verdict)
    ensures verdict.Accepted? <==> ValidFiles(files, ContentByPath(repo).Keys)
    ensures verdict.Rejected? ==> Explains(verdict.reason, files, ContentByPath(repo).Keys)
  {
    hide AllOk, MarkPaths, OperationOk, CheckOperation, NormalizePlanPath, Breaks;
    if |files| == 0 {
      return Rejected(NoFiles);
    }
    if |files| > MAX_OPERATIONS {
      return Rejected(TooManyFiles);
    }
    var existing: set<string> := {};
    for i := 0 to |repo|
      invariant existing == ContentByPath(repo[..i]).Keys
    {
      assert repo[..i + 1][..i] == repo[..i];
      existing := existing + {NormalizePlanPath(repo[i].path)};
    }
    assert repo[..|repo|] == repo;
    ghost var m := Marks(files, existing);
    var seen: set<string> := {};
    AllOkNone(m);
    for i := 0 to |files|
      invariant AllOk(m[..i]) && seen == MarkPaths(m[..i])
    {
      AllOkNext(m, i);
      verdict := CheckOperation(files[i], existing, seen);
      CheckExplains(files[i], existing, seen);
      if verdict.Rejected? {
        return;
      }
      seen := seen + {NormalizePlanPath(files[i].path)};
    }
    assert m[..|files|] == m;
    return Accepted;
  }

  // The meaning of AllOk: positions and pairs of positions.
  lemma {:induction false} AllOkMeans(m: seq<Mark>)
    ensures AllOk(m) <==>
      (forall i :: 0 <= i < |m| ==> m[i].ok) && (forall i, j :: 0 <= i < j < |m| ==> m[i].path != m[j].path)
  {
    if m != [] {
      var n := |m| - 1;
      AllOkMeans(m[..n]);
      InMarkPaths(m[..n], m[n].path);
    }
  }

  lemma {:induction false} InMarkPaths(m: seq<Mark>, p: string)
    ensures p in MarkPaths(m) <==> exists k :: 0 <= k < |m| && m[k].path == p
  {
    if m != [] {
      var n := |m| - 1;
      InMarkPaths(m[..n], p);
      assert p in MarkPaths(m) <==> p in MarkPaths(m[..n]) || m[n].path == p;
      if p in MarkPaths(m[..n]) {
        var k :| 0 <= k < n && m[..n][k].path == p;
        assert m[k].path == p;
      }
    }
  }

  // What a single operation must meet, said of the repository's files.
  ghost predicate Acceptable(op: FileOp, repo: seq<RepoFile>) {
    var p := NormalizePlanPath(op.path);
    var stored := Stored(repo, p);
    p != "." && !Rooted(p) && Split(p)[0] != ".." && Split(p)[0] != ".git" && GoTrim(op.explanation) != "" &&
    (op.action == "create" || op.action == "modify" || op.action == "delete") &&
    (stored <==> op.action != "create") &&
    (op.action == "delete" ==> op.content == "" && op.diff == "") &&
    (op.action != "delete" ==> GoTrim(op.content) != "")
  }

  // The validator accepts exactly the lists of 1 to 500 acceptable operations on distinct paths.
  lemma {:induction false} ValidExactly(files: seq<FileOp>, repo: seq<RepoFile>)
    ensures ValidFiles(files, ContentByPath(repo).Keys) <==>
      1 <= |files| <= 500 && (forall i :: 0 <= i < |files| ==> Acceptable(files[i], repo)) &&
      forall i, j :: 0 <= i < j < |files| ==> NormalizePlanPath(files[i].path) != NormalizePlanPath(files[j].path)
  {
    hide NormalizePlanPath, AllOk, ContentByPath, SafePlanPath, Split, GoTrim;
    var m := Marks(files, ContentByPath(repo).Keys);
    AllOkMeans(m);
    forall i | 0 <= i < |files| ensures m[i].ok <==> Acceptable(files[i], repo) {
      OperationExactly(files[i], repo);
    }
    forall i | 0 <= i < |files| ensures m[i].path == NormalizePlanPath(files[i].path) {
    }
    if ValidFiles(files, ContentByPath(repo).Keys) {
      forall i, j | 0 <= i < j < |files| ensures NormalizePlanPath(files[i].path) != NormalizePlanPath(files[j].path) {
        assert m[i].path != m[j].path;
      }
    }
  }

  lemma OperationExactly(op: FileOp, repo: seq<RepoFile>)
    ensures OperationOk(op, ContentByPath(repo).Keys) <==> Acceptable(op, repo)
  {
    hide NormalizePlanPath, ContentByPath, SafePlanPath, Split, GoTrim;
    StoredPaths(repo, NormalizePlanPath(op.path));
    SafeExactly(op.path);
  }

  // Why the list was refused: nothing or too much in it, or the first operation that cannot be
  // accepted after those before it, by the first rule it breaks.
  ghost predicate Explains(reason: Reason, files: seq<FileOp>, existing: set<string>) {
    match reason
    case NoFiles => files == []
    case TooManyFiles => |files| > 500
    case _ =>
      exists i :: 0 <= i < |files| && AllOk(Marks(files, existing)[..i]) &&
                  Breaks(reason, files[i], existing, MarkPaths(Marks(files, existing)[..i]))
  }

  ghost predicate Breaks(reason: Reason, op: FileOp, existing: set<string>, seen: set<string>) {
    var p := NormalizePlanPath(op.path);
    var known, named := p in existing, SafePlanPath(p) && p !in seen;
    var explained := named && GoTrim(op.explanation) != "";
    match reason
    case UnsafePath => !SafePlanPath(p)
    case DuplicatePath => SafePlanPath(p) && p in seen
    case NoExplanation => named && GoTrim(op.explanation) == ""
    case TargetExists => explained && op.action == "create" && known
    case TargetMissing => explained && op.action in {"modify", "delete"} && !known
    case EmptyContent =>
      explained && GoTrim(op.content) == "" && ((op.action == "create" && !known) || (op.action == "modify" && known))
    case ContentOnDelete => explained && op.action == "delete" && known && (op.content != "" || op.diff != "")
    case UnsupportedAction => explained && op.action !in {"create", "modify", "delete"}
    case _ => false
  }

  lemma CheckExplains(op: FileOp, existing: set<string>, seen: set<string>)
    ensures var v := CheckOperation(op, existing, seen);
      v.Rejected? ==> Breaks(v.reason, op, existing, seen) && v.reason != NoFiles && v.reason != TooManyFiles
  {
    hide NormalizePlanPath, SafePlanPath, GoTrim;
  }

  // ------------------------------------------------------------ what the operations do

  // The repository files after one operation.
  function ApplyOp(files: map<string, string>, op: FileOp): map<string, string> {
    var p := NormalizePlanPath(op.path);
    if op.action == "delete" then files - {p} else files[p := op.content]
  }

  function ApplyAll(files: map<string, string>, ops: seq<FileOp>): map<string, string> {
    if ops == [] then files
    else ApplyOp(ApplyAll(files, ops[..|ops| - 1]), ops[|ops| - 1])
  }

  // Equal up to CRLF against LF.
  ghost predicate SameFiles(a: map<string, string>, b: map<string, string>) {
    a.Keys == b.Keys && forall p :: p in a ==> NormalizeContent(a[p]) == NormalizeContent(b[p])
  }

  // Distinct paths, and every modification has a file to modify.
  ghost predicate Targeted(ops: seq<FileOp>, files: map<string, string>) {
    ops == [] ||
    var init, last := ops[..|ops| - 1], ops[|ops| - 1];
    Targeted(init, files) && NormalizePlanPath(last.path) !in PathsUsed(init) &&
    (last.action == "modify" ==> NormalizePlanPath(last.path) in files)
  }

  ghost function PathsUsed(ops: seq<FileOp>): set<string> {
    if ops == [] then {} else PathsUsed(ops[..|ops| - 1]) + {NormalizePlanPath(ops[|ops| - 1].path)}
  }

  lemma {:induction false} Untouched(files: map<string, string>, ops: seq<FileOp>, p: string)
    requires p !in PathsUsed(ops)
    ensures p in ApplyAll(files, ops) <==> p in files
    ensures p in files ==> ApplyAll(files, ops)[p] == files[p]
  {
    if ops != [] {
      Untouched(files, ops[..|ops| - 1], p);
    }
  }

  // Dropping the operations that change nothing leaves the same repository behind.
  lemma {:induction false} NoopsMeanNothing(files: map<string, string>, ops: seq<FileOp>)
    requires Targeted(ops, files)
    ensures SameFiles(ApplyAll(files, DropNoop(ops, files)), ApplyAll(files, ops))
  {
    if ops != [] {
      var init, last := ops[..|ops| - 1], ops[|ops| - 1];
      NoopsMeanNothing(files, init);
      var kept := DropNoop(init, files);
      if Noop(last, files) {
        Untouched(files, init, NormalizePlanPath(last.path));
        assert DropNoop(ops, files) == kept;
        RewriteSame(files, ApplyAll(files, init), last);
      } else {
        assert (kept + [last])[..|kept|] == kept;
        SameAfterOp(ApplyAll(files, kept), ApplyAll(files, init), last);
      }
    }
  }

  lemma SameAfterOp(a: map<string, string>, b: map<string, string>, op: FileOp)
    requires SameFiles(a, b)
    ensures SameFiles(ApplyOp(a, op), ApplyOp(b, op))
  {
  }

  lemma RewriteSame(files: map<string, string>, now: map<string, string>, op: FileOp)
    requires Noop(op, files) && NormalizePlanPath(op.path) in files && NormalizePlanPath(op.path) in now
    requires now[NormalizePlanPath(op.path)] == files[NormalizePlanPath(op.path)]
    ensures SameFiles(now, ApplyOp(now, op))
  {
  }

  lemma {:induction false} ValidTargeted(ops: seq<FileOp>, files: map<string, string>)
    requires AllOk(Marks(ops, files.Keys))
    ensures Targeted(ops, files) && PathsUsed(ops) == MarkPaths(Marks(ops, files.Keys))
  {
    hide OperationOk, NormalizePlanPath;
    if ops != [] {
      var init, last := ops[..|ops| - 1], ops[|ops| - 1];
      assert Marks(ops, files.Keys)[..|ops| - 1] == Marks(init, files.Keys);
      ModifiesKnown(last, files.Keys);
      ValidTargeted(init, files);
    }
  }

  lemma ModifiesKnown(op: FileOp, existing: set<string>)
    ensures OperationOk(op, existing) && op.action == "modify" ==> NormalizePlanPath(op.path) in existing
  {
    hide NormalizePlanPath, SafePlanPath, IsBlank;
  }

  // The same for every list of operations the validator accepts.
  lemma {:induction false} ValidatedNoopsMeanNothing(ops: seq<FileOp>, repo: seq<RepoFile>)
    requires ValidFiles(ops, ContentByPath(repo).Keys)
    ensures SameFiles(ApplyAll(ContentByPath(repo), DropNoop(ops, ContentByPath(repo))),
                      ApplyAll(ContentByPath(repo), ops))
  {
    ValidTargeted(ops, ContentByPath(repo));
    NoopsMeanNothing(ContentByPath(repo), ops);
  }

  // ------------------------------------------------------------ the contract code generation stores

  datatype Outcome = Contract(files: seq<FileOp>) | OnlyUnchanged | OnlyIncomplete | Invalid

  function Stamp(op: FileOp): FileOp {
    op.(path := NormalizePlanPath(op.path), status := "valid")
  }

  function Stamped(ops: seq<FileOp>): (r: seq<FileOp>)
    ensures |r| == |ops|
    ensures forall i :: 0 <= i < |r| ==> r[i] == Stamp(ops[i])
  {
    seq(|ops|, i requires 0 <= i < |ops| => Stamp(ops[i]))
  }

  // What the filters and the validator make of the model's operations.
  ghost function Generated(ops: seq<FileOp>, repo: seq<RepoFile>, partial: Partial): Outcome {
    var contents := ContentByPath(repo);
    var merged := Normalized(ops);
    var effective := DropNoop(merged, contents);
    if merged != [] && effective == [] then OnlyUnchanged
    else
      var complete := DropPartial(effective, contents, partial);
      if effective != [] && complete == [] then OnlyIncomplete
      else if !ValidFiles(complete, contents.Keys) then Invalid
      else Contract(Stamped(complete))
  }

  method GenerateContract(ops: seq<FileOp>, repo: seq<RepoFile>, partial: Partial) returns (outcome: Outcome)
    ensures outcome == Generated(ops, repo, partial)
  {
    hide NormalizePlanPath, Normalized, ContentByPath, DropNoop, DropPartial, ValidFiles;
    var files := NormalizeGeneratedFiles(ops);
    var withoutNoops := DropNoopGeneratedFiles(files, repo);
    if |files| > 0 && |withoutNoops| == 0 {
      return OnlyUnchanged;
    }
    files := DropUnsafePartialModifyFiles(withoutNoops, repo, partial);
    if |withoutNoops| > 0 && |files| == 0 {
      return OnlyIncomplete;
    }
    var verdict := ValidateGeneratedFiles(files, repo);
    if verdict.Rejected? {
      return Invalid;
    }
    ghost var complete := files;
    for i := 0 to |files|
      invariant |files| == |complete|
      invariant forall k :: 0 <= k < |files| ==> files[k] == if k < i then Stamp(complete[k]) else complete[k]
    {
      files := files[i := files[i].(path := NormalizePlanPath(files[i].path), status := "valid")];
    }
    assert files == Stamped(complete);
    return Contract(files);
  }

  // The contract holds the merged operations that pass both filters, in order, each with its path
  // in normal form and marked valid; and when there is none, the outcome says what is wrong.
  lemma ContractMeans(ops: seq<FileOp>, repo: seq<RepoFile>, partial: Partial)
    ensures var contents := ContentByPath(repo);
      var effective := DropNoop(Normalized(ops), contents);
      var complete := DropPartial(effective, contents, partial);
      match Generated(ops, repo, partial)
      case Contract(files) =>
        ValidFiles(complete, contents.Keys) && |files| == |complete| &&
        forall i :: 0 <= i < |files| ==>
          files[i] == complete[i].(path := NormalizePlanPath(complete[i].path), status := "valid")
      case OnlyUnchanged => Normalized(ops) != [] && effective == []
      case OnlyIncomplete => effective != [] && complete == []
      case Invalid => !ValidFiles(complete, contents.Keys) && (Normalized(ops) == [] || complete != [])
  {
    hide NormalizePlanPath, Normalized, ContentByPath, DropNoop, DropPartial, ValidFiles;
  }

  // The files a session offers: the uploaded ones, or empty files for the legacy paths.
  function FilesForSession(uploaded: seq<RepoFile>, legacy: seq<string>): seq<RepoFile> {
    if uploaded != [] then uploaded
    else seq(|legacy|, i requires 0 <= i < |legacy| => RepoFile(legacy[i], ""))
  }

  lemma StampKeepsMark(op: FileOp, existing: set<string>)
    ensures NormalizePlanPath(Stamp(op).path) == NormalizePlanPath(op.path) == Stamp(op).path
    ensures OperationOk(Stamp(op), existing) <==> OperationOk(op, existing)
  {
    NormalizeTwice(op.path);
  }

  lemma {:induction false} StampedValid(ops: seq<FileOp>, existing: set<string>)
    ensures ValidFiles(Stamped(ops), existing) <==> ValidFiles(ops, existing)
  {
    forall i | 0 <= i < |ops| ensures Marks(Stamped(ops), existing)[i] == Marks(ops, existing)[i] {
      StampKeepsMark(ops[i], existing);
    }
    assert Marks(Stamped(ops), existing) == Marks(ops, existing);
  }

  ghost predicate Effective(ops: seq<FileOp>, contents: map<string, string>) {
    forall i :: 0 <= i < |ops| ==> !Noop(ops[i], contents)
  }

  lemma {:induction false} DropNoopEffective(ops: seq<FileOp>, contents: map<string, string>)
    ensures Effective(DropNoop(ops, contents), contents)
  {
    if ops != [] {
      DropNoopEffective(ops[..|ops| - 1], contents);
    }
  }

  lemma {:induction false} DropPartialEffective(ops: seq<FileOp>, contents: map<string, string>, partial: Partial)
    requires Effective(ops, contents)
    ensures Effective(DropPartial(ops, contents, partial), contents)
  {
    if ops != [] {
      DropPartialEffective(ops[..|ops| - 1], contents, partial);
    }
  }

  lemma {:induction false} EffectiveKept(ops: seq<FileOp>, contents: map<string, string>)
    requires Effective(ops, contents)
    ensures DropNoop(ops, contents) == ops
  {
    if ops != [] {
      EffectiveKept(ops[..|ops| - 1], contents);
      assert ops == ops[..|ops| - 1] + [ops[|ops| - 1]];
    }
  }

  lemma {:induction false} LegacyContentsEmpty(repo: seq<RepoFile>, key: string)
    requires forall i :: 0 <= i < |repo| ==> repo[i].content == ""
    ensures Lookup(ContentByPath(repo), key) == ""
  {
    if repo != [] {
      LegacyContentsEmpty(repo[..|repo| - 1], key);
    }
  }

  // A contract that code generation stores is valid for the session's files, and the filter
  // that runs before applying it, which sees only the uploaded files, drops none of it: the
  // "no effective changes" answer cannot be given for such a contract.
  lemma {:induction false} ContractAppliesUnchanged(ops: seq<FileOp>, uploaded: seq<RepoFile>,
                              legacy: seq<string>, partial: Partial)
    ensures var outcome := Generated(ops, FilesForSession(uploaded, legacy), partial);
      outcome.Contract? ==>
        outcome.files != [] && ValidFiles(outcome.files, ContentByPath(FilesForSession(uploaded, legacy)).Keys) &&
        DropNoop(outcome.files, ContentByPath(uploaded)) == outcome.files
  {
    hide NormalizePlanPath, ValidFiles, Normalized, ContentByPath, Noop;
    if Generated(ops, FilesForSession(uploaded, legacy), partial).Contract? {
      var repo := FilesForSession(uploaded, legacy);
      var contents := ContentByPath(repo);
      var effective := DropNoop(Normalized(ops), contents);
      var complete := DropPartial(effective, contents, partial);
      DropNoopEffective(Normalized(ops), contents);
      DropPartialEffective(effective, contents, partial);
      StampedValid(complete, contents.Keys);
      ValidNotEmpty(complete, contents.Keys);
      StampedEffective(complete, contents, uploaded, repo);
      EffectiveKept(Stamped(complete), ContentByPath(uploaded));
    }
  }

  lemma ValidNotEmpty(files: seq<FileOp>, existing: set<string>)
    ensures ValidFiles(files, existing) ==> files != []
  {
  }

  // What changes a file of the session changes an uploaded file: the two differ only when
  // nothing was uploaded, and then the session's files are empty.
  lemma {:induction false} StampedEffective(complete: seq<FileOp>, contents: map<string, string>,
                                            uploaded: seq<RepoFile>, repo: seq<RepoFile>)
    requires contents == ContentByPath(repo) && Effective(complete, contents)
    requires uploaded != [] ==> repo == uploaded
    requires uploaded == [] ==> forall i :: 0 <= i < |repo| ==> repo[i].content == ""
    ensures Effective(Stamped(complete), ContentByPath(uploaded))
  {
    var files := Stamped(complete);
    forall i | 0 <= i < |files| ensures !Noop(files[i], ContentByPath(uploaded)) {
      assert !Noop(complete[i], contents);
      StampKeepsMark(complete[i], contents.Keys);
      if uploaded == [] {
        LegacyContentsEmpty(repo, files[i].path);
      }
    }
  }

  // Neither the validator nor the filter looks at the status of an operation.
  lemma {:induction false} StatusKeepsContract(files: seq<FileOp>, marked: seq<FileOp>, existing: set<string>,
                                               contents: map<string, string>)
    requires |marked| == |files| && forall i :: 0 <= i < |files| ==> marked[i] == files[i].(status := marked[i].status)
    ensures ValidFiles(marked, existing) <==> ValidFiles(files, existing)
    ensures DropNoop(files, contents) == files ==> DropNoop(marked, contents) == marked
  {
    hide NormalizePlanPath;
    forall i | 0 <= i < |files| ensures Marks(marked, existing)[i] == Marks(files, existing)[i] {
      assert marked[i] == files[i].(status := marked[i].status);
    }
    assert Marks(marked, existing) == Marks(files, existing);
    if DropNoop(files, contents) == files {
      DropNoopEffective(files, contents);
      forall i | 0 <= i < |marked| ensures !Noop(marked[i], contents) {
        assert !Noop(files[i], contents);
      }
      EffectiveKept(marked, contents);
    }
  }
}
