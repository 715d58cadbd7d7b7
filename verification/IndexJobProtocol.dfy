// The registry under concurrency: goroutines that begin, run and finish jobs and that wait for
// them, interleaved in every order.  Each critical section is one step; releasing the waiters
// happens after the lock is given up, so it is a step of its own.
module IndexJobProtocol {
  import opened Collections
  import opened IndexJobs

  // Jobs are numbered in the order they are created.
  datatype Pc =
    | Idle
    | Owning(job: nat, repositoryId: string)
    | Closing(job: nat)
    | Waiting(job: nat, repositoryId: string)

  // A wait that joined a job and ended: with the state read after waking and the job it was read
  // from, or with an error.
  datatype Joined = Woken(job: nat, answered: Option<nat>, answer: Option<JobStatus>) | GaveUp(job: nat)

  // current: the job a repository's entry points to.  closes: how often a job's channel was
  // closed.  holder and ended are history: who began a job, and how the waits ended.
  datatype State = State(
    current: map<string, nat>, status: seq<JobStatus>, closes: seq<nat>,
    pcs: seq<Pc>, holder: seq<nat>, ended: seq<Joined>)

  datatype Action =
    | Begin(p: nat, repositoryId: string, connectionId: string, ref: string, force: bool, now: int)
    | Finish(p: nat, result: IndexResult, cause: Option<Cause>, now: int)
    | Close(p: nat)
    | Wait(p: nat, repositoryId: string)
    | Wake(p: nat)
    | GiveUp(p: nat)

  predicate Known(s: State, repositoryId: string) {
    repositoryId in s.current && s.current[repositoryId] < |s.status|
  }

  function At(s: State, p: nat): Pc {
    if p < |s.pcs| then s.pcs[p] else Idle
  }

  function BeginStep(s: State, a: Action): State
    requires a.Begin? && a.p < |s.pcs|
  {
    var r := a.repositoryId;
    if Known(s, r) && Reused(s.status[s.current[r]], a.force, a.now) then s
    else
      var job := |s.status|;
      s.(current := s.current[r := job], status := s.status + [Started(r, a.connectionId, a.ref, a.now)],
         closes := s.closes + [0], holder := s.holder + [a.p], pcs := s.pcs[a.p := Owning(job, r)])
  }

  // finish looks the job up by repository: it does not know which job it began.
  function FinishStep(s: State, a: Action): State
    requires a.Finish? && a.p < |s.pcs| && s.pcs[a.p].Owning?
  {
    var r := s.pcs[a.p].repositoryId;
    if !Known(s, r) || s.status[s.current[r]].phase != Running then s.(pcs := s.pcs[a.p := Idle])
    else
      var job := s.current[r];
      s.(status := s.status[job := Finished(s.status[job], a.result, a.cause, a.now)], pcs := s.pcs[a.p := Closing(job)])
  }

  function Act(s: State, a: Action): State {
    match a
    case Begin(p, _, _, _, _, _) => if p < |s.pcs| && s.pcs[p].Idle? then BeginStep(s, a) else s
    case Finish(p, _, _, _) => if p < |s.pcs| && s.pcs[p].Owning? then FinishStep(s, a) else s
    case Close(p) =>
      if p < |s.pcs| && s.pcs[p].Closing? && s.pcs[p].job < |s.closes| then
        var job := s.pcs[p].job;
        s.(closes := s.closes[job := s.closes[job] + 1], pcs := s.pcs[p := Idle])
      else s
    case Wait(p, r) =>
      if p < |s.pcs| && s.pcs[p].Idle? && Known(s, r) && s.status[s.current[r]].phase == Running then
        s.(pcs := s.pcs[p := Waiting(s.current[r], r)])
      else s
    case Wake(p) =>
      if p < |s.pcs| && s.pcs[p].Waiting? && s.pcs[p].job < |s.closes| && s.closes[s.pcs[p].job] > 0 then
        var Waiting(job, r) := s.pcs[p];
        var answered := if Known(s, r) then Some(s.current[r]) else None;
        var answer := if Known(s, r) then Some(s.status[s.current[r]]) else None;
        s.(pcs := s.pcs[p := Idle], ended := s.ended + [Woken(job, answered, answer)])
      else s
    case GiveUp(p) =>
      if p < |s.pcs| && s.pcs[p].Waiting? then
        s.(pcs := s.pcs[p := Idle], ended := s.ended + [GaveUp(s.pcs[p].job)])
      else s
  }

  function Run(s: State, actions: seq<Action>): State {
    if actions == [] then s else Act(Run(s, actions[..|actions| - 1]), actions[|actions| - 1])
  }

  ghost predicate Initial(s: State) {
    s.current == map[] && s.status == [] && s.closes == [] && s.holder == [] && s.ended == [] &&
    forall p :: 0 <= p < |s.pcs| ==> s.pcs[p] == Idle
  }

  // ------------------------------------------------------------ the invariant

  // A running job is the current one of its repository, unreleased, and its beginner owns it;
  // a job that ended was released once, or its beginner is about to release it.
  ghost predicate JobOk(s: State, job: nat) {
    job < |s.status| ==>
      job < |s.closes| && job < |s.holder| && s.closes[job] <= 1 &&
      var r := s.status[job].repositoryId;
      if s.status[job].phase == Running then
        r in s.current && s.current[r] == job && s.closes[job] == 0 && At(s, s.holder[job]) == Owning(job, r)
      else s.closes[job] == 1 || At(s, s.holder[job]) == Closing(job)
  }

  // An owner holds a running job that it began, somebody closing a job holds one that ended and
  // was not released.
  ghost predicate PcOk(s: State, p: nat) {
    match At(s, p)
    case Idle => true
    case Owning(job, r) =>
      job < |s.status| && job < |s.holder| && s.holder[job] == p && s.status[job].phase == Running &&
      s.status[job].repositoryId == r
    case Closing(job) =>
      job < |s.status| && job < |s.closes| && job < |s.holder| && s.holder[job] == p &&
      s.status[job].phase != Running && s.closes[job] == 0
    case Waiting(job, r) =>
      job < |s.status| && s.status[job].repositoryId == r && Known(s, r) && job <= s.current[r]
  }

  ghost predicate RepoOk(s: State, r: string) {
    r in s.current ==> s.current[r] < |s.status| && s.status[s.current[r]].repositoryId == r
  }

  // A wait that ended without an error had joined a job that is over.  What it answers was read
  // from that job, in its final state, or from a newer job of the same repository.
  ghost predicate EndOk(s: State, i: nat) {
    i < |s.ended| && s.ended[i].Woken? ==> AnswerOk(s, s.ended[i])
  }

  ghost predicate AnswerOk(s: State, end: Joined)
    requires end.Woken?
  {
    end.job < |s.status| && s.status[end.job].phase != Running &&
    end.answered.Some? && end.answer.Some? && end.job <= end.answered.value < |s.status| &&
    s.status[end.answered.value].repositoryId == s.status[end.job].repositoryId == end.answer.value.repositoryId &&
    (end.answer.value.phase == Running ==> end.answered.value > end.job) &&
    (end.answered.value == end.job ==> end.answer.value == s.status[end.job])
  }

  ghost predicate Inv(s: State) {
    |s.closes| == |s.holder| == |s.status| &&
    (forall job :: JobOk(s, job)) && (forall p :: PcOk(s, p)) && (forall r :: RepoOk(s, r)) &&
    (forall i :: EndOk(s, i))
  }

  lemma BeginKeeps(s: State, a: Action, job: nat, p: nat, r: string, i: nat)
    requires a.Begin? && a.p < |s.pcs| && s.pcs[a.p].Idle? && |s.closes| == |s.holder| == |s.status|
    requires JobOk(s, job) && PcOk(s, p) && RepoOk(s, r) && EndOk(s, i) && RepoOk(s, a.repositoryId)
    requires a.repositoryId in s.current ==> JobOk(s, s.current[a.repositoryId])
    ensures var t := Act(s, a); JobOk(t, job) && PcOk(t, p) && RepoOk(t, r) && EndOk(t, i)
  {
  }

  lemma FinishKeeps(s: State, a: Action, job: nat, p: nat, r: string, i: nat)
    requires a.Finish? && a.p < |s.pcs| && s.pcs[a.p].Owning? && |s.closes| == |s.holder| == |s.status|
    requires JobOk(s, job) && PcOk(s, p) && RepoOk(s, r) && EndOk(s, i)
    requires PcOk(s, a.p) && JobOk(s, s.pcs[a.p].job)
    ensures var t := Act(s, a); JobOk(t, job) && PcOk(t, p) && RepoOk(t, r) && EndOk(t, i)
  {
    hide Finished;
  }

  lemma CloseKeeps(s: State, a: Action, job: nat, p: nat, r: string, i: nat)
    requires a.Close? && |s.closes| == |s.holder| == |s.status|
    requires JobOk(s, job) && PcOk(s, p) && RepoOk(s, r) && EndOk(s, i) && PcOk(s, a.p)
    requires At(s, a.p).Closing? ==> JobOk(s, At(s, a.p).job)
    ensures var t := Act(s, a); JobOk(t, job) && PcOk(t, p) && RepoOk(t, r) && EndOk(t, i)
  {
  }

  lemma WaitKeeps(s: State, a: Action, job: nat, p: nat, r: string, i: nat)
    requires (a.Wait? || a.Wake? || a.GiveUp?) && |s.closes| == |s.holder| == |s.status|
    requires JobOk(s, job) && PcOk(s, p) && RepoOk(s, r) && EndOk(s, i) && PcOk(s, a.p)
    requires At(s, a.p).Waiting? ==> JobOk(s, At(s, a.p).job) && RepoOk(s, At(s, a.p).repositoryId)
    requires a.Wait? ==> RepoOk(s, a.repositoryId)
    ensures var t := Act(s, a); JobOk(t, job) && PcOk(t, p) && RepoOk(t, r) && EndOk(t, i)
  {
  }

  lemma ActKeepsAt(s: State, a: Action, job: nat, p: nat, r: string, i: nat)
    requires Inv(s)
    ensures var t := Act(s, a); JobOk(t, job) && PcOk(t, p) && RepoOk(t, r) && EndOk(t, i)
  {
    hide JobOk, PcOk, RepoOk, EndOk;
    assert JobOk(s, job) && PcOk(s, p) && RepoOk(s, r) && EndOk(s, i) && PcOk(s, a.p);
    assert !At(s, a.p).Idle? ==> JobOk(s, At(s, a.p).job);
    assert At(s, a.p).Waiting? ==> RepoOk(s, At(s, a.p).repositoryId);
    match a
    case Begin(q, repo, _, _, _, _) =>
      assert RepoOk(s, repo) && (repo in s.current ==> JobOk(s, s.current[repo]));
      if q < |s.pcs| && s.pcs[q].Idle? {
        BeginKeeps(s, a, job, p, r, i);
      }
    case Finish(q, _, _, _) =>
      if q < |s.pcs| && s.pcs[q].Owning? {
        FinishKeeps(s, a, job, p, r, i);
      }
    case Close(_) => CloseKeeps(s, a, job, p, r, i);
    case Wait(_, repo) =>
      assert RepoOk(s, repo);
      WaitKeeps(s, a, job, p, r, i);
    case Wake(_) => WaitKeeps(s, a, job, p, r, i);
    case GiveUp(_) => WaitKeeps(s, a, job, p, r, i);
  }

  lemma ActKeeps(s: State, a: Action)
    requires Inv(s)
    ensures Inv(Act(s, a))
  {
    var t := Act(s, a);
    assert |t.closes| == |t.holder| == |t.status|;
    hide JobOk, PcOk, RepoOk, EndOk, Act;
    forall job: nat ensures JobOk(t, job) { ActKeepsAt(s, a, job, 0, "", 0); }
    forall p: nat ensures PcOk(t, p) { ActKeepsAt(s, a, 0, p, "", 0); }
    forall r: string ensures RepoOk(t, r) { ActKeepsAt(s, a, 0, 0, r, 0); }
    forall i: nat ensures EndOk(t, i) { ActKeepsAt(s, a, 0, 0, "", i); }
  }

  lemma {:induction false} RunKeeps(s: State, actions: seq<Action>)
    requires Initial(s)
    ensures Inv(Run(s, actions))
  {
    if actions != [] {
      hide Inv, Act, Initial;
      RunKeeps(s, actions[..|actions| - 1]);
      ActKeeps(Run(s, actions[..|actions| - 1]), actions[|actions| - 1]);
    }
  }

  // ------------------------------------------------------------ the steps are the methods

  ghost function ViewOf(s: State): map<string, JobStatus>
    requires forall r :: RepoOk(s, r)
  {
    map r | r in s.current :: (assert RepoOk(s, r); s.status[s.current[r]])
  }

  // What begin and finish do to the registry in a step is what the methods promise.
  lemma BeginMatches(s: State, a: Action)
    requires Inv(s) && a.Begin? && a.p < |s.pcs| && s.pcs[a.p].Idle?
    ensures Inv(Act(s, a))
    ensures var (r, v) := (a.repositoryId, ViewOf(s));
      ViewOf(Act(s, a)) ==
        if Joins(if r in v then Some(v[r]) else None, a.force, a.now) then v
        else v[r := JobStatus(r, a.connectionId, a.ref, "", Running, "", "", 0, 0, 0, a.now, None, 0)]
  {
    hide JobOk, PcOk, EndOk;
    ActKeeps(s, a);
    assert RepoOk(s, a.repositoryId);
    forall r | r in s.current ensures RepoOk(s, r) && RepoOk(Act(s, a), r) {
    }
  }

  lemma FinishMatches(s: State, a: Action)
    requires Inv(s) && a.Finish? && a.p < |s.pcs| && s.pcs[a.p].Owning?
    ensures Inv(Act(s, a))
    ensures var (r, v) := (s.pcs[a.p].repositoryId, ViewOf(s));
      var v' := ViewOf(Act(s, a));
      r in v && v[r].phase == Running && r in v' && v' == v[r := v'[r]] && EndsAs(v[r], v'[r], a.result, a.cause, a.now)
  {
    hide EndOk, Finished, EndsAs;
    ActKeeps(s, a);
    assert PcOk(s, a.p) && JobOk(s, s.pcs[a.p].job);
    hide JobOk, PcOk;
    forall r | r in s.current ensures RepoOk(s, r) && RepoOk(Act(s, a), r) {
    }
    var job := s.current[s.pcs[a.p].repositoryId];
    FinishedEnds(s.status[job], a.result, a.cause, a.now);
  }

  // ------------------------------------------------------------ single flight

  // In every interleaving: the running jobs of a repository are one job at most, and each
  // running job has exactly one owner, the goroutine that began it.
  lemma SingleFlight(s: State, actions: seq<Action>, i: nat, j: nat)
    requires Initial(s)
    requires var t := Run(s, actions);
      i < |t.status| && t.status[i].phase == Running && j < |t.status| && t.status[j].phase == Running
    ensures var t := Run(s, actions);
      t.status[i].repositoryId == t.status[j].repositoryId ==> i == j
    ensures var t := Run(s, actions);
      |t.holder| == |t.status| &&
      forall p :: (At(t, p).Owning? && At(t, p).job == i) <==> p == t.holder[i]
  {
    var t := Run(s, actions);
    RunKeeps(s, actions);
    assert JobOk(t, i) && JobOk(t, j);
    forall p: nat ensures (At(t, p).Owning? && At(t, p).job == i) <==> p == t.holder[i] {
      assert PcOk(t, p);
    }
  }

  // An owner's finish always lands on its own job, never on a newer one and never on none.
  lemma {:induction false} FinishLandsOnOwnJob(s: State, actions: seq<Action>, a: Action)
    requires Initial(s) && a.Finish?
    requires At(Run(s, actions), a.p).Owning?
    ensures var t := Run(s, actions);
      var job := At(t, a.p).job;
      var t' := Act(t, a);
      job < |t.status| == |t'.status| && t'.status == t.status[job := t'.status[job]] &&
      EndsAs(t.status[job], t'.status[job], a.result, a.cause, a.now) && At(t', a.p) == Closing(job)
  {
    hide Finished, EndsAs;
    var t := Run(s, actions);
    RunKeeps(s, actions);
    assert PcOk(t, a.p) && JobOk(t, At(t, a.p).job);
    FinishedEnds(t.status[At(t, a.p).job], a.result, a.cause, a.now);
  }

  // The waiters of a job are released at most once and only after it is over; and a job that is
  // over either released them or will, by the one goroutine that is about to.
  lemma {:induction false} ReleasedOnce(s: State, actions: seq<Action>, job: nat)
    requires Initial(s) && job < |Run(s, actions).status|
    ensures var t := Run(s, actions);
      |t.closes| == |t.status| && t.closes[job] <= 1 &&
      (t.closes[job] == 1 ==> t.status[job].phase != Running) &&
      (t.status[job].phase != Running && t.closes[job] == 0 ==>
        exists p :: At(t, p) == Closing(job) && forall q :: At(t, q) == Closing(job) ==> q == p)
  {
    var t := Run(s, actions);
    RunKeeps(s, actions);
    assert JobOk(t, job);
    if t.status[job].phase != Running && t.closes[job] == 0 {
      assert At(t, t.holder[job]) == Closing(job);
      forall q: nat | At(t, q) == Closing(job) ensures q == t.holder[job] {
        assert PcOk(t, q);
      }
    }
  }

  // In every run, a wait that joined a job returns without an error only after that job is over.
  // It answers the job's own final state or the state of a newer job of the repository, and a
  // state that still runs only of a newer one.
  lemma {:induction false} WaitMeansOver(s: State, actions: seq<Action>, i: nat)
    requires Initial(s)
    requires i < |Run(s, actions).ended| && Run(s, actions).ended[i].Woken?
    ensures var t := Run(s, actions); AnswerOk(t, t.ended[i])
  {
    RunKeeps(s, actions);
    assert EndOk(Run(s, actions), i);
  }

  // Waking up: the answer is the state of the entry the repository has at that moment, which is
  // the joined job's own final state exactly when no newer job was begun.
  lemma {:induction false} WakeAnswers(s: State, actions: seq<Action>, p: nat)
    requires Initial(s) && At(Run(s, actions), p).Waiting?
    requires var t := Run(s, actions); At(t, p).job < |t.closes| && t.closes[At(t, p).job] > 0
    ensures var t := Run(s, actions);
      var (job, r) := (At(t, p).job, At(t, p).repositoryId);
      job < |t.status| && Known(t, r) && job <= t.current[r] &&
      Act(t, Wake(p)).ended == t.ended + [Woken(job, Some(t.current[r]), Some(t.status[t.current[r]]))] &&
      (t.current[r] == job ==> t.status[t.current[r]] == t.status[job] && t.status[job].phase != Running) &&
      (t.status[t.current[r]].phase == Running ==> job < t.current[r])
  {
    var t := Run(s, actions);
    RunKeeps(s, actions);
    assert PcOk(t, p) && JobOk(t, At(t, p).job);
  }

  // ------------------------------------------------------------ whose outcome is answered

  // In step n the owner of the job finishes it.
  ghost predicate FinishedIn(s: State, actions: seq<Action>, n: nat, job: nat) {
    n < |actions| && actions[n].Finish? &&
    var pc := At(Run(s, actions[..n]), actions[n].p); pc.Owning? && pc.job == job
  }

  // The state of a job that is over, and its beginner, never change.
  lemma OverStays(s: State, a: Action, job: nat)
    requires Inv(s) && job < |s.status| && s.status[job].phase != Running
    ensures var t := Act(s, a); job < |t.status| && t.status[job] == s.status[job]
  {
    hide Finished;
    assert JobOk(s, job);
  }

  lemma OnlyOwnerEnds(s: State, a: Action, job: nat)
    requires Inv(s) && job < |Act(s, a).status| && Act(s, a).status[job].phase != Running
    requires job < |s.status| ==> s.status[job].phase == Running
    ensures job < |s.status| && a.Finish? && At(s, a.p).Owning? && At(s, a.p).job == job && s.holder[job] == a.p
    ensures EndsAs(s.status[job], Act(s, a).status[job], a.result, a.cause, a.now)
  {
    hide Finished, EndsAs;
    if a.Finish? && At(s, a.p).Owning? {
      assert PcOk(s, a.p) && JobOk(s, At(s, a.p).job);
      FinishedEnds(s.status[At(s, a.p).job], a.result, a.cause, a.now);
    }
  }

  lemma SameBeginner(s: State, a: Action, job: nat)
    requires job < |s.holder|
    ensures job < |Act(s, a).holder| && Act(s, a).holder[job] == s.holder[job]
  {
    hide Finished;
  }

  // In every run the state of a job that is over is the outcome of exactly one finish, the one by
  // the goroutine that began it.
  lemma {:induction false} OverByOwner(s: State, actions: seq<Action>, job: nat) returns (n: nat)
    requires Initial(s) && job < |Run(s, actions).status| && Run(s, actions).status[job].phase != Running
    ensures FinishedIn(s, actions, n, job)
    ensures var (before, t, a) := (Run(s, actions[..n]), Run(s, actions), actions[n]);
      job < |before.status| && job < |t.holder| && a.p == t.holder[job] &&
      EndsAs(before.status[job], t.status[job], a.result, a.cause, a.now)
    ensures forall m :: FinishedIn(s, actions, m, job) ==> m == n
  {
    hide Act, Inv, Initial, EndsAs;
    if actions == [] {
      NoJobs(s);
    } else {
      var init, a := actions[..|actions| - 1], actions[|actions| - 1];
      var t := Run(s, init);
      RunKeeps(s, init);
      if job < |t.status| && t.status[job].phase != Running {
        n := OverByOwner(s, init, job);
        assert init[..n] == actions[..n];
        OverStays(t, a, job);
        SameBeginner(t, a, job);
        OwnerRuns(t, a, job);
      } else {
        n := |actions| - 1;
        OnlyOwnerEnds(t, a, job);
        HolderKnown(t, job);
        SameBeginner(t, a, job);
      }
      forall m: nat | FinishedIn(s, actions, m, job) ensures m == n {
        if m < |init| {
          assert init[..m] == actions[..m];
          assert FinishedIn(s, init, m, job);
          NotYetOver(s, init, m, job);
        }
      }
    }
  }

  lemma NoJobs(s: State)
    requires Initial(s)
    ensures s.status == []
  {
  }

  lemma HolderKnown(s: State, job: nat)
    requires Inv(s) && job < |s.status|
    ensures job < |s.holder|
  {
  }

  lemma OwnerRuns(s: State, a: Action, job: nat)
    requires Inv(s) && job < |s.status| && s.status[job].phase != Running
    ensures !(At(s, a.p).Owning? && At(s, a.p).job == job)
  {
    assert PcOk(s, a.p);
  }

  // After its finish a job is over.
  lemma {:induction false} NotYetOver(s: State, actions: seq<Action>, m: nat, job: nat)
    requires Initial(s) && FinishedIn(s, actions, m, job)
    ensures job < |Run(s, actions).status| && Run(s, actions).status[job].phase != Running
  {
    hide Act, Inv, Initial;
    var init, a := actions[..|actions| - 1], actions[|actions| - 1];
    RunKeeps(s, init);
    if m == |init| {
      assert actions[..m] == init;
      OwnerEnds(Run(s, init), a, job);
    } else {
      assert init[..m] == actions[..m];
      NotYetOver(s, init, m, job);
      OverStays(Run(s, init), a, job);
    }
  }

  lemma OwnerEnds(s: State, a: Action, job: nat)
    requires Inv(s) && a.Finish? && At(s, a.p).Owning? && At(s, a.p).job == job
    ensures job < |Act(s, a).status| && Act(s, a).status[job].phase != Running
  {
    hide Finished;
    assert PcOk(s, a.p) && JobOk(s, job);
  }

  // So an answer that was read from the joined job is the outcome its owner finished it with: it
  // says completed if and only if there was no cause.
  lemma {:induction false} WaitAnswersOutcome(s: State, actions: seq<Action>, i: nat) returns (n: nat)
    requires Initial(s) && i < |Run(s, actions).ended|
    requires var end := Run(s, actions).ended[i]; end.Woken? && end.answered == Some(end.job)
    ensures var end := Run(s, actions).ended[i];
      FinishedIn(s, actions, n, end.job) && end.answer.Some? &&
      var (before, a) := (Run(s, actions[..n]), actions[n]);
      end.job < |before.status| && EndsAs(before.status[end.job], end.answer.value, a.result, a.cause, a.now) &&
      (end.answer.value.phase == Completed <==> a.cause.None?)
    ensures forall m :: FinishedIn(s, actions, m, Run(s, actions).ended[i].job) ==> m == n
  {
    hide Act, Initial;
    WaitMeansOver(s, actions, i);
    n := OverByOwner(s, actions, Run(s, actions).ended[i].job);
  }

  // What it answers may still be the state of a newer job that runs: the state is read again.
  lemma {:induction false} WaitMayAnswerNewer(s: State)
    requires Initial(s) && |s.pcs| == 2
    ensures var t := Run(s, NewerJob());
      |t.ended| == 1 && t.ended[0].Woken? && t.ended[0].answer.Some? && t.ended[0].answer.value.phase == Running
  {
    var a := NewerJob();
    NewerSteps(s);
    hide Act;
    assert a[..6] == a && a[..0] == [];
    forall n: nat | n < 6 ensures Run(s, a[..n + 1]) == Act(Run(s, a[..n]), a[n]) {
      assert a[..n + 1][..n] == a[..n];
    }
    assert Run(s, a[..1]) == Act(s, a[0]);
  }

  lemma {:induction false} NewerSteps(s: State)
    requires Initial(s) && |s.pcs| == 2
    ensures var a := NewerJob();
      var t := Act(Act(Act(Act(Act(Act(s, a[0]), a[1]), a[2]), a[3]), a[4]), a[5]);
      |t.ended| == 1 && t.ended[0].Woken? && t.ended[0].answer.Some? && t.ended[0].answer.value.phase == Running
  {
    var a := NewerJob();
    var t1 := Act(s, a[0]);
    var t2 := Act(t1, a[1]);
    var t3 := Act(t2, a[2]);
    assert t2.pcs == [Owning(0, "r"), Waiting(0, "r")];
    assert t3.pcs == [Closing(0), Waiting(0, "r")];
    var t4 := Act(t3, a[3]);
    var t5 := Act(t4, a[4]);
    assert t5.current == map["r" := 1] && t5.closes == [1, 0] && t5.pcs == [Owning(1, "r"), Waiting(0, "r")];
  }

  function NewerJob(): seq<Action> {
    [Begin(0, "r", "", "", true, 0), Wait(1, "r"), Finish(0, IndexResult("", 0, 0, 0), None, 0), Close(0),
     Begin(0, "r", "", "", true, 0), Wake(1)]
  }
}
