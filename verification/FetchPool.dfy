// The pool that fetches the missing file contents: a closed queue of indexes, a few workers,
// a cancellation shared by all and the first error.  Workers take their steps in any order.
module FetchPool {
  import opened Collections
  import opened Text

  datatype RepositoryFile = RepositoryFile(path: string, kind: string, content: string)

  datatype Error = Fetch(message: string) | Cancelled

  const CONCURRENCY := 8

  // ------------------------------------------------------------ the queue of indexes

  // The indexes of the files without content, in order.
  function BlankFrom(files: seq<RepositoryFile>, n: nat): (r: seq<nat>)
    requires n <= |files|
    ensures forall k :: 0 <= k < |r| ==> r[k] < n
    ensures forall j, k :: 0 <= j < k < |r| ==> r[j] < r[k]
  {
    if n == 0 then []
    else BlankFrom(files, n - 1) + if IsBlank(files[n - 1].content) then [n - 1] else []
  }

  function Blank(files: seq<RepositoryFile>): seq<nat> {
    BlankFrom(files, |files|)
  }

  lemma {:induction false} BlankOnly(files: seq<RepositoryFile>, n: nat, k: nat)
    requires n <= |files| && k < |BlankFrom(files, n)|
    ensures IsBlank(files[BlankFrom(files, n)[k]].content)
  {
    hide IsBlank;
    if k < |BlankFrom(files, n - 1)| {
      BlankOnly(files, n - 1, k);
    }
  }

  lemma {:induction false} BlankComplete(files: seq<RepositoryFile>, n: nat, i: nat)
    requires i < n <= |files| && IsBlank(files[i].content)
    ensures i in BlankFrom(files, n)
  {
    hide IsBlank;
    if i < n - 1 {
      BlankComplete(files, n - 1, i);
    }
  }

  method EnqueueBlank(files: seq<RepositoryFile>) returns (jobs: seq<nat>)
    ensures jobs == Blank(files)
  {
    hide Trim, TrimLeft, TrimRight;
    jobs := [];
    for index := 0 to |files|
      invariant jobs == BlankFrom(files, index)
    {
      if GoTrim(files[index].content) == "" {
        jobs := jobs + [index];
      }
    }
  }

  // ------------------------------------------------------------ the workers

  // Positions are places in the queue of indexes.
  datatype Pc =
    | Taking
    | Checking(k: nat)
    | Fetching(k: nat)
    | Storing(k: nat, content: string)
    | Failing(k: nat, error: Error)
    | Cancelling
    | Gone

  // next: the first place not taken.  takers, stored, answers and errors are history: who took
  // each place, the places whose file was written, and what the server answered to which path.
  datatype State = State(
    files: seq<RepositoryFile>, jobs: seq<nat>, next: nat, pcs: seq<Pc>,
    cancelled: bool, parentCancelled: bool, firstError: Option<Error>,
    takers: seq<nat>, stored: set<nat>, answers: set<(string, string)>, errors: set<Error>)

  datatype Answer = Content(content: string) | Refused(error: Error)

  datatype Action =
    | Take(w: nat)
    | Check(w: nat, seen: bool)
    | Receive(w: nat, answer: Answer)
    | Store(w: nat)
    | Report(w: nat)
    | Cancel(w: nat)
    | ParentCancel

  function AllTaking(n: nat): (pcs: seq<Pc>)
    ensures |pcs| == n && forall w :: 0 <= w < n ==> pcs[w] == Taking
  {
    if n == 0 then [] else AllTaking(n - 1) + [Taking]
  }

  function Workers(files: seq<RepositoryFile>): nat {
    if |files| < CONCURRENCY then |files| else CONCURRENCY
  }

  function Start(files: seq<RepositoryFile>): State {
    State(files, Blank(files), 0, AllTaking(Workers(files)), false, false, None, [], {}, {}, {})
  }

  function PcOf(s: State, w: nat): Pc {
    if w < |s.pcs| then s.pcs[w] else Gone
  }

  function Go(s: State, w: nat, pc: Pc): State {
    if w < |s.pcs| then s.(pcs := s.pcs[w := pc]) else s
  }

  // A step; one that is not the worker's turn changes nothing.  A worker may be told of a
  // cancellation only after there was one.
  function Act(s: State, a: Action): State {
    match a
    case Take(w) =>
      if !PcOf(s, w).Taking? then s
      else if s.next >= |s.jobs| then Go(s, w, Gone)
      else Go(s.(next := s.next + 1, takers := s.takers + [w]), w, Checking(s.next))
    case Check(w, seen) =>
      if !PcOf(s, w).Checking? || (seen && !s.cancelled && !s.parentCancelled) then s
      else Go(s, w, if seen then Gone else Fetching(PcOf(s, w).k))
    case Receive(w, answer) =>
      (match PcOf(s, w)
       case Fetching(k) =>
         if k >= |s.jobs| || s.jobs[k] >= |s.files| then s
         else
           (match answer
            case Content(content) =>
              Go(s.(answers := s.answers + {(s.files[s.jobs[k]].path, content)}), w, Storing(k, content))
            case Refused(error) => Go(s.(errors := s.errors + {error}), w, Failing(k, error)))
       case _ => s)
    case Store(w) =>
      (match PcOf(s, w)
       case Storing(k, content) =>
         if k >= |s.jobs| || s.jobs[k] >= |s.files| then s
         else
           var i := s.jobs[k];
           Go(s.(files := s.files[i := s.files[i].(content := content)], stored := s.stored + {k}), w, Taking)
       case _ => s)
    case Report(w) =>
      (match PcOf(s, w)
       case Failing(_, error) =>
         if s.firstError.None? then Go(s.(firstError := Some(error)), w, Cancelling) else Go(s, w, Gone)
       case _ => s)
    case Cancel(w) => if PcOf(s, w).Cancelling? then Go(s.(cancelled := true), w, Gone) else s
    case ParentCancel => s.(parentCancelled := true)
  }

  function Run(s: State, actions: seq<Action>): State {
    if actions == [] then s else Act(Run(s, actions[..|actions| - 1]), actions[|actions| - 1])
  }

  ghost predicate Finished(s: State) {
    forall w :: 0 <= w < |s.pcs| ==> s.pcs[w] == Gone
  }

  // What the function returns once every worker is gone; None is nil.
  function Result(s: State): Option<Error> {
    if s.files == [] then None
    else if s.firstError.Some? then s.firstError
    else if s.parentCancelled then Some(Cancelled)
    else None
  }

  // ------------------------------------------------------------ the invariant

  ghost predicate Stopped(s: State) {
    s.firstError.Some? || s.parentCancelled
  }

  ghost predicate Holds(pc: Pc, k: nat) {
    (pc.Checking? || pc.Fetching? || pc.Storing? || pc.Failing?) && pc.k == k
  }

  // The content is what the server answered to the file's own path.
  ghost predicate Answered(s: State, file: RepositoryFile) {
    (file.path, file.content) in s.answers
  }

  // A place that was taken is with its taker, or its file was written, or the pool stopped.
  ghost predicate PlaceOk(s: State, k: nat) {
    (k < s.next ==> k < |s.takers| && (Holds(PcOf(s, s.takers[k]), k) || k in s.stored || Stopped(s))) &&
    (k in s.stored ==> k < s.next && k < |s.jobs| && s.jobs[k] < |s.files| && Answered(s, s.files[s.jobs[k]]))
  }

  ghost predicate WorkerOk(s: State, w: nat) {
    match PcOf(s, w)
    case Checking(k) => k < s.next && k < |s.takers| && s.takers[k] == w && k !in s.stored
    case Fetching(k) => k < s.next && k < |s.takers| && s.takers[k] == w && k !in s.stored
    case Storing(k, content) =>
      k < s.next && k < |s.takers| && s.takers[k] == w && k !in s.stored &&
      k < |s.jobs| && s.jobs[k] < |s.files| && (s.files[s.jobs[k]].path, content) in s.answers
    case Failing(_, error) => error in s.errors
    case Cancelling => s.firstError.Some?
    case Gone => w < |s.pcs| ==> s.next == |s.jobs| || Stopped(s)
    case Taking => true
  }

  // A file keeps its path and kind, and its content unless its place was written.
  ghost predicate FileOk(s: State, files: seq<RepositoryFile>, i: nat, k: nat) {
    i < |files| ==>
      i < |s.files| && s.files[i].path == files[i].path && s.files[i].kind == files[i].kind &&
      (s.files[i].content != files[i].content ==> IsBlank(files[i].content)) &&
      (k < |s.jobs| && s.jobs[k] == i && k !in s.stored ==> s.files[i] == files[i])
  }

  ghost predicate Shape(s: State, files: seq<RepositoryFile>) {
    |s.files| == |files| && s.jobs == Blank(files) && s.next == |s.takers| <= |s.jobs| && |s.pcs| == Workers(files) &&
    (s.cancelled ==> s.firstError.Some?) && (s.firstError.Some? ==> s.firstError.value in s.errors)
  }

  ghost predicate Inv(s: State, files: seq<RepositoryFile>) {
    Shape(s, files) && (forall k :: PlaceOk(s, k)) && (forall w :: WorkerOk(s, w)) && forall i, k :: FileOk(s, files, i, k)
  }

  // ------------------------------------------------------------ one step

  // Two places of the queue never name the same file.
  lemma PlacesApart(s: State, files: seq<RepositoryFile>, j: nat, k: nat)
    requires Shape(s, files) && j < |s.jobs| && k < |s.jobs| && j != k
    ensures s.jobs[j] != s.jobs[k]
  {
  }

  lemma JobsInRange(s: State, files: seq<RepositoryFile>, k: nat)
    requires Shape(s, files) && k < |s.jobs|
    ensures s.jobs[k] < |s.files| && IsBlank(files[s.jobs[k]].content)
  {
    hide IsBlank;
    BlankOnly(files, |files|, k);
  }

  lemma TakeKeeps(s: State, files: seq<RepositoryFile>, w: nat, k: nat, v: nat, i: nat)
    requires Shape(s, files) && PlaceOk(s, k) && WorkerOk(s, v) && FileOk(s, files, i, k) && PlaceOk(s, s.next)
    ensures var t := Act(s, Take(w));
      Shape(t, files) && PlaceOk(t, k) && WorkerOk(t, v) && FileOk(t, files, i, k)
  {
    hide IsBlank, Blank;
  }

  lemma StoreKeeps(s: State, files: seq<RepositoryFile>, w: nat, k: nat, v: nat, i: nat)
    requires Shape(s, files) && PlaceOk(s, k) && WorkerOk(s, v) && FileOk(s, files, i, k) && WorkerOk(s, w)
    requires PcOf(s, w).Storing? ==>
      var p := PcOf(s, w).k;
      p < |s.jobs| && IsBlank(files[s.jobs[p]].content) && FileOk(s, files, s.jobs[p], p) &&
      forall m :: 0 <= m < |s.jobs| && m != p ==> s.jobs[m] != s.jobs[p]
    ensures var t := Act(s, Store(w));
      Shape(t, files) && PlaceOk(t, k) && WorkerOk(t, v) && FileOk(t, files, i, k)
  {
    hide IsBlank, Blank;
  }

  lemma ReceiveKeeps(s: State, files: seq<RepositoryFile>, w: nat, answer: Answer, k: nat, v: nat, i: nat)
    requires Shape(s, files) && PlaceOk(s, k) && WorkerOk(s, v) && FileOk(s, files, i, k) && WorkerOk(s, w)
    ensures var t := Act(s, Receive(w, answer));
      Shape(t, files) && PlaceOk(t, k) && WorkerOk(t, v) && FileOk(t, files, i, k)
  {
    hide IsBlank, Blank;
  }

  lemma CheckKeeps(s: State, files: seq<RepositoryFile>, w: nat, seen: bool, k: nat, v: nat, i: nat)
    requires Shape(s, files) && PlaceOk(s, k) && WorkerOk(s, v) && FileOk(s, files, i, k) && WorkerOk(s, w)
    ensures var t := Act(s, Check(w, seen));
      Shape(t, files) && PlaceOk(t, k) && WorkerOk(t, v) && FileOk(t, files, i, k)
  {
    hide IsBlank, Blank;
  }

  lemma {:induction false} StopKeeps(s: State, files: seq<RepositoryFile>, a: Action, k: nat, v: nat, i: nat)
    requires Shape(s, files) && PlaceOk(s, k) && WorkerOk(s, v) && FileOk(s, files, i, k)
    requires a.ParentCancel? || ((a.Report? || a.Cancel?) && WorkerOk(s, a.w))
    ensures var t := Act(s, a);
      Shape(t, files) && PlaceOk(t, k) && WorkerOk(t, v) && FileOk(t, files, i, k)
  {
    hide IsBlank, Blank;
  }

  lemma ActKeepsAt(s: State, files: seq<RepositoryFile>, a: Action, k: nat, v: nat, i: nat)
    requires Inv(s, files)
    ensures var t := Act(s, a);
      Shape(t, files) && PlaceOk(t, k) && WorkerOk(t, v) && FileOk(t, files, i, k)
  {
    hide IsBlank, Blank, Shape, FileOk, Act;
    assert PlaceOk(s, k) && WorkerOk(s, v) && FileOk(s, files, i, k);
    match a
    case Take(w) =>
      assert PlaceOk(s, s.next);
      TakeKeeps(s, files, w, k, v, i);
    case Store(w) =>
      assert WorkerOk(s, w);
      if PcOf(s, w).Storing? {
        var p := PcOf(s, w).k;
        JobsInRange(s, files, p);
        assert FileOk(s, files, s.jobs[p], p);
        forall m | 0 <= m < |s.jobs| && m != p ensures s.jobs[m] != s.jobs[p] {
          PlacesApart(s, files, m, p);
        }
      }
      StoreKeeps(s, files, w, k, v, i);
    case Receive(w, answer) =>
      assert WorkerOk(s, w);
      ReceiveKeeps(s, files, w, answer, k, v, i);
    case Check(w, seen) =>
      assert WorkerOk(s, w);
      CheckKeeps(s, files, w, seen, k, v, i);
    case Report(w) =>
      assert WorkerOk(s, w);
      StopKeeps(s, files, a, k, v, i);
    case Cancel(w) =>
      assert WorkerOk(s, w);
      StopKeeps(s, files, a, k, v, i);
    case ParentCancel => StopKeeps(s, files, a, k, v, i);
  }

  lemma ActKeeps(s: State, files: seq<RepositoryFile>, a: Action)
    requires Inv(s, files)
    ensures Inv(Act(s, a), files)
  {
    hide Shape, PlaceOk, WorkerOk, FileOk, Act;
    var t := Act(s, a);
    ActKeepsAt(s, files, a, 0, 0, 0);
    forall k: nat ensures PlaceOk(t, k) { ActKeepsAt(s, files, a, k, 0, 0); }
    forall w: nat ensures WorkerOk(t, w) { ActKeepsAt(s, files, a, 0, w, 0); }
    forall i: nat, k: nat ensures FileOk(t, files, i, k) { ActKeepsAt(s, files, a, k, 0, i); }
  }

  lemma StartOk(files: seq<RepositoryFile>, k: nat, w: nat, i: nat)
    ensures var s := Start(files);
      Shape(s, files) && PlaceOk(s, k) && WorkerOk(s, w) && FileOk(s, files, i, k)
  {
    hide IsBlank, Blank;
  }

  lemma {:induction false} RunKeeps(files: seq<RepositoryFile>, actions: seq<Action>)
    ensures Inv(Run(Start(files), actions), files)
  {
    hide Act, Start, IsBlank, Blank, Shape, PlaceOk, WorkerOk, FileOk;
    if actions != [] {
      RunKeeps(files, actions[..|actions| - 1]);
      ActKeeps(Run(Start(files), actions[..|actions| - 1]), files, actions[|actions| - 1]);
    } else {
      var s := Start(files);
      StartOk(files, 0, 0, 0);
      forall k: nat ensures PlaceOk(s, k) { StartOk(files, k, 0, 0); }
      forall w: nat ensures WorkerOk(s, w) { StartOk(files, 0, w, 0); }
      forall i: nat, k: nat ensures FileOk(s, files, i, k) { StartOk(files, k, 0, i); }
    }
  }

  // ------------------------------------------------------------ main results

  // For every schedule: the list keeps its length, order, paths and kinds, and files that had
  // content keep it.
  lemma {:induction false} FilesKept(files: seq<RepositoryFile>, actions: seq<Action>, i: nat)
    requires i < |files|
    ensures var t := Run(Start(files), actions);
      |t.files| == |files| && t.files[i].path == files[i].path && t.files[i].kind == files[i].kind &&
      (!IsBlank(files[i].content) ==> t.files[i] == files[i])
  {
    hide IsBlank, Start, Act;
    RunKeeps(files, actions);
    assert FileOk(Run(Start(files), actions), files, i, 0);
  }

  // Each file without content is taken by at most one worker, each taken place being another file,
  // and at most eight workers take part.
  lemma {:induction false} TakenOnce(files: seq<RepositoryFile>, actions: seq<Action>, j: nat, k: nat)
    requires j < k < |Run(Start(files), actions).takers|
    ensures var t := Run(Start(files), actions);
      |t.takers| <= |t.jobs| && t.jobs[j] != t.jobs[k] && t.jobs[j] < |files| && IsBlank(files[t.jobs[j]].content) &&
      |t.pcs| <= 8
  {
    hide IsBlank, Start, Act;
    RunKeeps(files, actions);
    var t := Run(Start(files), actions);
    PlacesApart(t, files, j, k);
    JobsInRange(t, files, j);
  }

  // A nil result means every file that had no content holds what the server answered to a
  // request for its own path.
  lemma NilMeansFetched(files: seq<RepositoryFile>, actions: seq<Action>, i: nat)
    requires Finished(Run(Start(files), actions)) && Result(Run(Start(files), actions)) == None
    requires i < |files| && IsBlank(files[i].content)
    ensures var t := Run(Start(files), actions);
      |t.files| == |files| && Answered(t, t.files[i])
  {
    hide IsBlank, Start, Act;
    RunKeeps(files, actions);
    var t := Run(Start(files), actions);
    BlankComplete(files, |files|, i);
    var k :| 0 <= k < |t.jobs| && t.jobs[k] == i;
    assert WorkerOk(t, 0) && PlaceOk(t, k);
  }

  // An error that is not the caller's cancellation was reported by some request.
  lemma {:induction false} ErrorWasReported(files: seq<RepositoryFile>, actions: seq<Action>)
    ensures var t := Run(Start(files), actions);
      match Result(t)
      case Some(error) => error in t.errors || (t.parentCancelled && error == Cancelled)
      case None => t.files == [] || !t.parentCancelled
  {
    hide Start, Act, Blank;
    RunKeeps(files, actions);
  }

  // ------------------------------------------------------------ the first error

  // The error that was recorded first stays, and whoever recorded it cancels the others.
  ghost predicate Stops(s: State) {
    s.firstError.Some? ==> s.cancelled || exists w :: PcOf(s, w).Cancelling?
  }

  lemma StopsStep(s: State, a: Action)
    requires Stops(s)
    ensures Stops(Act(s, a))
    ensures s.firstError.Some? ==> Act(s, a).firstError == s.firstError
  {
    var t := Act(s, a);
    if t.firstError.Some? && !t.cancelled {
      if s.firstError.Some? {
        var w :| PcOf(s, w).Cancelling?;
        assert PcOf(t, w).Cancelling?;
      } else {
        assert PcOf(t, a.w).Cancelling?;
      }
    }
  }

  // In every schedule the first error is the one that is returned, and when the workers are gone
  // after an error the others had been cancelled.
  lemma {:induction false} FirstErrorWins(files: seq<RepositoryFile>, actions: seq<Action>, more: seq<Action>)
    ensures var (t, later) := (Run(Start(files), actions), Run(Start(files), actions + more));
      (t.firstError.Some? ==> later.firstError == t.firstError) && Stops(later) &&
      (Finished(later) && later.firstError.Some? ==> later.cancelled)
  {
    hide Act, Start;
    if more != [] {
      var all := actions + more;
      assert all[..|all| - 1] == actions + more[..|more| - 1];
      FirstErrorWins(files, actions, more[..|more| - 1]);
      StopsStep(Run(Start(files), all[..|all| - 1]), all[|all| - 1]);
    } else {
      assert actions + more == actions;
      StopsAlways(files, actions);
    }
  }

  lemma {:induction false} StopsAlways(files: seq<RepositoryFile>, actions: seq<Action>)
    ensures Stops(Run(Start(files), actions))
  {
    hide Act;
    if actions != [] {
      StopsAlways(files, actions[..|actions| - 1]);
      StopsStep(Run(Start(files), actions[..|actions| - 1]), actions[|actions| - 1]);
    }
  }

  ghost function WithoutContent(files: seq<RepositoryFile>): nat -> bool {
    (i: nat) => i < |files| && GoTrim(files[i].content) == ""
  }

  // The queue holds the indexes of the files without content, in order.
  lemma {:induction false} QueueExactly(files: seq<RepositoryFile>, n: nat)
    requires n <= |files|
    ensures BlankFrom(files, n) == Filter(Indexes(n), WithoutContent(files))
  {
    hide GoTrim;
    if n > 0 {
      QueueExactly(files, n - 1);
      assert Indexes(n)[..n - 1] == Indexes(n - 1) && Indexes(n)[n - 1] == n - 1;
    }
  }

  function Indexes(n: nat): (r: seq<nat>)
    ensures |r| == n && forall i :: 0 <= i < n ==> r[i] == i
  {
    seq(n, i => i)
  }
}
