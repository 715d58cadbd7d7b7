// Safety of the issue workflow over every run: what a code generation task implies, what a
// stored contract implies, and what never goes back.
module WorkflowTheorems {
  import opened Collections
  import opened Text
  import opened GeneratedFiles
  import opened FileContract
  import opened IssueWorkflow

  // ------------------------------------------------------------ the invariant

  // The plan passed the rules, and the revision counts it.
  ghost predicate Ready(w: World, s: Session) {
    s.revision >= 1 && PlanPassed(w, s.plan, SessionFiles(s))
  }

  ghost predicate ContractOk(s: Session) {
    HasFiles(s) ==>
      ValidFiles(s.contract.value, ContentByPath(SessionFiles(s)).Keys) &&
      DropNoop(s.contract.value, ContentByPath(s.uploaded)) == s.contract.value
  }

  // What a session is in itself.
  ghost predicate SessionOk(w: World, s: Session) {
    s.revision >= 0 && (s.status == PlanGenerated || HasFiles(s) ==> Ready(w, s)) && ContractOk(s)
  }

  // A session is stored under its id, is found by its issue, and its id is no issue's.
  ghost predicate IdOk(w: World, st: Store, id: string) {
    id in st.sessions ==>
      st.sessions[id].id == id && SessionOk(w, st.sessions[id]) && id !in st.index &&
      st.sessions[id].issueId in st.index &&
      SessionKey(st.sessions[id].repositoryId, st.sessions[id].issueId) in st.index
  }

  ghost predicate IndexOk(st: Store, key: string) {
    key in st.index ==> st.index[key] in st.sessions
  }

  ghost predicate TaskOk(w: World, st: Store, id: string) {
    id in st.tasks ==>
      st.tasks[id].id == id && st.tasks[id].sessionId in st.sessions &&
      (st.tasks[id].kind == CodeGeneration ==> Ready(w, st.sessions[st.tasks[id].sessionId]))
  }

  ghost predicate StoreOk(w: World, st: Store) {
    (forall id :: IdOk(w, st, id)) && (forall key :: IndexOk(st, key)) && (forall id :: TaskOk(w, st, id))
  }

  // A job carries the files of its session, and for code generation a plan that passed.
  ghost predicate JobOk(w: World, st: Store, job: Job) {
    job.taskId in st.tasks && job.kind == st.tasks[job.taskId].kind &&
    job.sessionId == st.tasks[job.taskId].sessionId && job.sessionId in st.sessions &&
    job.files == SessionFiles(st.sessions[job.sessionId]) &&
    (job.kind == CodeGeneration ==> PlanPassed(w, job.plan, job.files))
  }

  ghost predicate FlightOk(w: World, st: Store, f: Flight) {
    JobOk(w, st, f.job) && f.task.id == f.job.taskId && SameTask(st.tasks[f.job.taskId], f.task)
  }

  // A request that reached GitFlame read a sound session with files and sent all of them.
  ghost predicate ApplyOk(w: World, st: Store, a: Applying) {
    a.session.id in st.sessions && SameRequest(a.session, st.sessions[a.session.id]) &&
    SessionOk(w, a.session) && HasFiles(a.session) && a.sent == a.session.contract.value
  }

  ghost predicate StateOk(w: World, s: State) {
    StoreOk(w, s.store) && (forall job :: job in s.jobs ==> JobOk(w, s.store, job)) &&
    (forall f :: f in s.flights ==> FlightOk(w, s.store, f)) &&
    forall a :: a in s.applies ==> ApplyOk(w, s.store, a)
  }

  // ------------------------------------------------------------ what never goes back

  ghost predicate SameTask(a: Task, b: Task) {
    a.id == b.id && a.sessionId == b.sessionId && a.kind == b.kind
  }

  ghost predicate SameRequest(a: Session, b: Session) {
    a.id == b.id && a.repositoryId == b.repositoryId && a.issueId == b.issueId &&
    a.uploaded == b.uploaded && a.legacy == b.legacy
  }

  // The same session, later: its request is unchanged, its revision did not decrease and its
  // feedback history only grew at the end.
  ghost predicate Later(a: Session, b: Session) {
    SameRequest(a, b) && a.revision <= b.revision && a.feedback <= b.feedback
  }

  // Sessions keep their request and tasks their place, whatever else was written.
  ghost predicate KeptAt(a: Store, b: Store, id: string) {
    (id in a.sessions ==> id in b.sessions && SameRequest(a.sessions[id], b.sessions[id])) &&
    (id in a.tasks ==> id in b.tasks && SameTask(a.tasks[id], b.tasks[id]))
  }

  ghost predicate Kept(a: Store, b: Store) {
    forall id :: KeptAt(a, b, id)
  }

  ghost predicate GrewAt(a: Store, b: Store, id: string) {
    (id in a.sessions ==> id in b.sessions && Later(a.sessions[id], b.sessions[id])) &&
    (id in a.tasks ==> id in b.tasks && SameTask(a.tasks[id], b.tasks[id]))
  }

  ghost predicate Grew(a: Store, b: Store) {
    forall id :: GrewAt(a, b, id)
  }

  lemma GrewIsKept(a: Store, b: Store)
    requires Grew(a, b)
    ensures Kept(a, b)
  {
    forall id: string ensures KeptAt(a, b, id) {
      assert GrewAt(a, b, id);
    }
  }

  lemma GrewTwice(a: Store, b: Store, c: Store)
    requires Grew(a, b) && Grew(b, c)
    ensures Grew(a, c)
  {
    forall id: string ensures GrewAt(a, c, id) {
      assert GrewAt(a, b, id) && GrewAt(b, c, id);
    }
  }

  lemma KeptKeeps(w: World, a: Store, b: Store, job: Job, f: Flight, x: Applying)
    requires Kept(a, b)
    ensures JobOk(w, a, job) ==> JobOk(w, b, job)
    ensures FlightOk(w, a, f) ==> FlightOk(w, b, f)
    ensures ApplyOk(w, a, x) ==> ApplyOk(w, b, x)
  {
    hide PlanPassed, SessionOk;
    assert KeptAt(a, b, job.taskId) && KeptAt(a, b, job.sessionId);
    assert KeptAt(a, b, f.job.taskId) && KeptAt(a, b, f.job.sessionId);
    assert KeptAt(a, b, x.session.id);
  }

  // ------------------------------------------------------------ writing to the store

  // Writing another version of a stored session.
  lemma PutVersionKeeps(w: World, st: Store, s: Session)
    requires StoreOk(w, st) && s.id in st.sessions && SameRequest(st.sessions[s.id], s) && SessionOk(w, s)
    requires Ready(w, st.sessions[s.id]) ==> Ready(w, s)
    ensures StoreOk(w, PutSession(st, s)) && Kept(st, PutSession(st, s))
    ensures GrewAt(st, PutSession(st, s), s.id) <==> Later(st.sessions[s.id], s)
    ensures Grew(st, PutSession(st, s)) <==> Later(st.sessions[s.id], s)
  {
    hide SessionOk, Ready, SessionKey;
    var r := PutSession(st, s);
    assert IdOk(w, st, s.id);
    forall id: string
      ensures IdOk(w, r, id) && TaskOk(w, r, id) && IndexOk(r, id) && KeptAt(st, r, id)
      ensures GrewAt(st, r, id) <==> id != s.id || Later(st.sessions[s.id], s)
    {
      assert IdOk(w, st, id) && TaskOk(w, st, id) && IndexOk(st, id);
      SelfLater(st, id);
    }
  }

  // ... and a later one.
  lemma PutSessionKeeps(w: World, st: Store, s: Session)
    requires StoreOk(w, st) && s.id in st.sessions && Later(st.sessions[s.id], s) && SessionOk(w, s)
    requires Ready(w, st.sessions[s.id]) ==> Ready(w, s)
    ensures StoreOk(w, PutSession(st, s)) && Grew(st, PutSession(st, s))
  {
    hide StoreOk, SessionOk, Ready, Grew, PutSession;
    PutVersionKeeps(w, st, s);
  }

  lemma SelfLater(st: Store, id: string)
    ensures GrewAt(st, st, id)
  {
  }

  // The first write of a session whose ids clash with nothing.
  lemma NewSessionKeeps(w: World, st: Store, s: Session)
    requires StoreOk(w, st) && s.id !in st.sessions && SessionOk(w, s)
    requires s.id !in st.index && s.issueId !in st.sessions && SessionKey(s.repositoryId, s.issueId) !in st.sessions
    requires s.id != s.issueId && s.id != SessionKey(s.repositoryId, s.issueId)
    ensures StoreOk(w, PutSession(st, s)) && Grew(st, PutSession(st, s))
  {
    hide SessionOk, Ready, SessionKey;
    var r := PutSession(st, s);
    forall id: string ensures IdOk(w, r, id) && TaskOk(w, r, id) && IndexOk(r, id) && GrewAt(st, r, id) {
      assert IdOk(w, st, id) && TaskOk(w, st, id) && IndexOk(st, id);
      SelfLater(st, id);
    }
  }

  lemma PutTaskKeeps(w: World, st: Store, t: Task)
    requires StoreOk(w, st) && t.sessionId in st.sessions
    requires t.id in st.tasks ==> SameTask(st.tasks[t.id], t)
    requires t.kind == CodeGeneration ==> Ready(w, st.sessions[t.sessionId])
    ensures StoreOk(w, PutTask(st, t)) && Grew(st, PutTask(st, t))
  {
    hide SessionOk, Ready, SessionKey;
    var r := PutTask(st, t);
    forall id: string ensures IdOk(w, r, id) && TaskOk(w, r, id) && IndexOk(r, id) && GrewAt(st, r, id) {
      assert IdOk(w, st, id) && TaskOk(w, st, id) && IndexOk(st, id);
      SelfLater(st, id);
    }
  }

  // What a lookup finds is stored under its own id; by a session's id it is that session.
  lemma Finds(w: World, st: Store, id: string)
    requires StoreOk(w, st)
    ensures var found := FindSession(st, id);
      (found.Some? ==>
        found.value.id in st.sessions && st.sessions[found.value.id] == found.value && SessionOk(w, found.value)) &&
      (id in st.sessions ==> found == Some(st.sessions[id]))
  {
    hide SessionOk, SessionKey;
    assert IdOk(w, st, id) && IndexOk(st, id);
    var key := if id in st.index then st.index[id] else id;
    assert IdOk(w, st, key);
  }

  // Changing the status to anything but "plan generated".
  lemma StatusKeeps(w: World, s: Session, status: SessionStatus)
    requires SessionOk(w, s) && status != PlanGenerated
    ensures var r := s.(status := status);
      Later(s, r) && SessionOk(w, r) && (Ready(w, s) ==> Ready(w, r))
  {
    hide PlanPassed, ValidFiles;
  }

  lemma FailKeeps(w: World, st: Store, taskId: string, error: TaskError)
    requires StoreOk(w, st)
    ensures StoreOk(w, FailTask(st, taskId, error)) && Grew(st, FailTask(st, taskId, error))
  {
    hide StoreOk, Grew, SessionOk, Ready, FindSession, PutSession, PutTask, Later;
    if taskId in st.tasks {
      TaskIs(w, st, taskId);
      var task := st.tasks[taskId].(status := TaskFailed, error := Some(error));
      var st1 := PutTask(st, task);
      PutTaskKeeps(w, st, task);
      Finds(w, st1, task.sessionId);
      var found := FindSession(st1, task.sessionId);
      if found.Some? {
        StatusKeeps(w, found.value, SessionFailed);
        PutSessionKeeps(w, st1, found.value.(status := SessionFailed));
        GrewTwice(st, st1, FailTask(st, taskId, error));
      }
    } else {
      GrewSelf(st);
    }
  }

  lemma GrewSelf(st: Store)
    ensures Grew(st, st)
  {
  }

  lemma TaskIs(w: World, st: Store, id: string)
    requires StoreOk(w, st)
    ensures TaskOk(w, st, id)
  {
  }

  // The state after its store moved on, with a job, a flight or a request more.
  lemma KeptMoves(w: World, s: State, st: Store, jobs: set<Job>, flights: set<Flight>, applies: set<Applying>)
    requires StateOk(w, s) && StoreOk(w, st) && Kept(s.store, st)
    requires forall job :: job in jobs - s.jobs ==> JobOk(w, st, job)
    requires forall f :: f in flights - s.flights ==> FlightOk(w, st, f)
    requires forall a :: a in applies - s.applies ==> ApplyOk(w, st, a)
    ensures StateOk(w, State(st, jobs, flights, applies))
  {
    hide StoreOk, Kept, JobOk, FlightOk, ApplyOk;
    var noFlight := Flight(Job("", "", InitialPlan, 0, [], None, None, ""), NewTask("", "", InitialPlan));
    var noApply := Applying(NewSession("", Request("", "", [], [])), []);
    forall job | job in jobs ensures JobOk(w, st, job) {
      KeptKeeps(w, s.store, st, job, noFlight, noApply);
    }
    forall f | f in flights ensures FlightOk(w, st, f) {
      KeptKeeps(w, s.store, st, f.job, f, noApply);
    }
    forall a | a in applies ensures ApplyOk(w, st, a) {
      KeptKeeps(w, s.store, st, noFlight.job, noFlight, a);
    }
  }

  lemma StateMoves(w: World, s: State, st: Store, jobs: set<Job>, flights: set<Flight>)
    requires StateOk(w, s) && StoreOk(w, st) && Grew(s.store, st)
    requires forall job :: job in jobs - s.jobs ==> JobOk(w, st, job)
    requires forall f :: f in flights - s.flights ==> FlightOk(w, st, f)
    ensures StateOk(w, State(st, jobs, flights, s.applies))
  {
    hide StateOk, StoreOk, Grew, Kept, JobOk, FlightOk;
    GrewIsKept(s.store, st);
    KeptMoves(w, s, st, jobs, flights, s.applies);
  }

  lemma JobMoves(w: World, a: Store, b: Store, job: Job, f: Flight)
    requires Grew(a, b)
    ensures JobOk(w, a, job) ==> JobOk(w, b, job)
    ensures FlightOk(w, a, f) ==> FlightOk(w, b, f)
  {
    hide Grew, Kept, JobOk, FlightOk, ApplyOk;
    GrewIsKept(a, b);
    KeptKeeps(w, a, b, job, f, Applying(NewSession("", Request("", "", [], [])), []));
  }

  lemma DispatchKeeps(w: World, s: State, st: Store, job: Job, pub: Publication)
    requires StateOk(w, s) && StoreOk(w, st) && Grew(s.store, st) && JobOk(w, st, job)
    ensures var r := Dispatch(s.(store := st), job, pub).0; StateOk(w, r) && Grew(s.store, r.store)
  {
    hide StoreOk, Grew, JobOk, FlightOk, FailTask, StateOk;
    StateMoves(w, s, st, s.jobs + {job}, s.flights);
    StateMoves(w, s, st, s.jobs, s.flights);
    FailKeeps(w, st, job.taskId, DISPATCH_ERROR);
    var failed := FailTask(st, job.taskId, DISPATCH_ERROR);
    StateMoves(w, State(st, s.jobs + {job}, s.flights, s.applies), failed, s.jobs + {job}, s.flights);
    StateMoves(w, State(st, s.jobs, s.flights, s.applies), failed, s.jobs, s.flights);
    GrewTwice(s.store, st, failed);
  }

  // ------------------------------------------------------------ the operations

  // New ids were never used.
  predicate FreshIds(s: State, a: Action) {
    match a
    case DoAnalyze(_, sessionId, taskId, _) => sessionId !in s.store.sessions && taskId !in s.store.tasks
    case DoCorrect(_, _, taskId, _) => taskId !in s.store.tasks
    case DoRetry(_, taskId, _) => taskId !in s.store.tasks
    case DoApprove(_, _, taskId, _) => taskId !in s.store.tasks
    case _ => true
  }

  // An issue, alone or with its repository, is not named like a session.
  predicate Unaliased(s: State, a: Action) {
    match a
    case DoAnalyze(req, sessionId, _, _) =>
      var key := SessionKey(req.repositoryId, req.issueId);
      sessionId !in s.store.index && req.issueId !in s.store.sessions && key !in s.store.sessions &&
      sessionId != req.issueId && sessionId != key
    case _ => true
  }

  lemma NewSessionOk(w: World, id: string, req: Request)
    ensures SessionOk(w, NewSession(id, req))
  {
  }

  lemma SessionIs(w: World, st: Store, id: string)
    requires StoreOk(w, st) && id in st.sessions
    ensures st.sessions[id].id == id && SessionOk(w, st.sessions[id])
  {
    assert IdOk(w, st, id);
  }

  // A task created for a stored session, and the job that goes with it.
  lemma TaskAdds(w: World, st: Store, session: Session, task: Task, job: Job)
    requires StoreOk(w, st) && session.id in st.sessions && SessionFiles(st.sessions[session.id]) == SessionFiles(session)
    requires task.id !in st.tasks && task.sessionId == session.id
    requires task.kind == CodeGeneration ==> Ready(w, st.sessions[session.id])
    requires job.taskId == task.id && job.sessionId == session.id && job.kind == task.kind && job.files == SessionFiles(session)
    requires job.kind == CodeGeneration ==> PlanPassed(w, job.plan, job.files)
    ensures StoreOk(w, PutTask(st, task)) && Grew(st, PutTask(st, task)) && JobOk(w, PutTask(st, task), job)
  {
    hide StoreOk, Ready, PlanPassed, SessionFiles, Grew;
    PutTaskKeeps(w, st, task);
  }

  lemma {:induction false} AnalyzeKeeps(w: World, s: State, a: Action)
    requires StateOk(w, s) && a.DoAnalyze? && FreshIds(s, a) && Unaliased(s, a)
    ensures StateOk(w, Act(w, s, a)) && Grew(s.store, Act(w, s, a).store)
  {
    hide StoreOk, Grew, JobOk, FlightOk, SessionOk, Ready, PutSession, PutTask, Dispatch, SessionFiles, HasTask;
    var DoAnalyze(req, sessionId, taskId, pub) := a;
    var key := SessionKey(req.repositoryId, req.issueId);
    var known := key in s.store.index && s.store.index[key] in s.store.sessions;
    var session := if known then s.store.sessions[s.store.index[key]] else NewSession(sessionId, req);
    GrewSelf(s.store);
    if known {
      SessionIs(w, s.store, s.store.index[key]);
    } else {
      NewSessionOk(w, sessionId, req);
      NewSessionKeeps(w, s.store, session);
      PutIs(s.store, session);
    }
    var st := if known then s.store else PutSession(s.store, session);
    var task := NewTask(taskId, session.id, InitialPlan);
    var job := PlanJob(task, session, None, None);
    TaskAdds(w, st, session, task, job);
    GrewTwice(s.store, st, PutTask(st, task));
    DispatchKeeps(w, s, PutTask(st, task), job, pub);
  }

  lemma PutIs(st: Store, session: Session)
    ensures PutSession(st, session).sessions == st.sessions[session.id := session]
    ensures PutSession(st, session).tasks == st.tasks
  {
  }

  lemma PutTaskIs(st: Store, task: Task)
    ensures PutTask(st, task).sessions == st.sessions && PutTask(st, task).tasks == st.tasks[task.id := task]
    ensures PutTask(st, task).index == st.index
  {
  }

  lemma {:induction false} CorrectKeeps(w: World, s: State, a: Action)
    requires StateOk(w, s) && a.DoCorrect? && FreshIds(s, a)
    ensures StateOk(w, Act(w, s, a)) && Grew(s.store, Act(w, s, a).store)
  {
    hide StoreOk, Grew, JobOk, FlightOk, Ready, PutSession, PutTask, Dispatch, SessionFiles, FindSession;
    hide PlanPassed, ContractOk, IsBlank;
    var DoCorrect(issueId, text, taskId, pub) := a;
    GrewSelf(s.store);
    Finds(w, s.store, issueId);
    var found := FindSession(s.store, issueId);
    if !IsBlank(text) && found.Some? && found.value.status == PlanGenerated {
      var was := found.value;
      var session := was.(status := CorrectionRequested, feedback := was.feedback + [text]);
      SameMeaning(w, was, session);
      PutSessionKeeps(w, s.store, session);
      PutIs(s.store, session);
      var st := PutSession(s.store, session);
      var task := NewTask(taskId, session.id, PlanRevision);
      var job := PlanJob(task, session, Some(session.plan), Some(text));
      TaskAdds(w, st, session, task, job);
      GrewTwice(s.store, st, PutTask(st, task));
      DispatchKeeps(w, s, PutTask(st, task), job, pub);
    }
  }

  // Readiness and the contract depend on the plan, the revision, the files and the contract.
  lemma SameMeaning(w: World, a: Session, b: Session)
    requires a.uploaded == b.uploaded && a.legacy == b.legacy && a.plan == b.plan && a.revision == b.revision
    ensures SessionFiles(a) == SessionFiles(b) && Ready(w, a) == Ready(w, b)
    ensures a.contract == b.contract ==> ContractOk(a) == ContractOk(b)
  {
  }

  lemma RetryKeeps(w: World, s: State, a: Action)
    requires StateOk(w, s) && a.DoRetry? && FreshIds(s, a)
    ensures StateOk(w, Act(w, s, a)) && Grew(s.store, Act(w, s, a).store)
  {
    hide StoreOk, Grew, JobOk, FlightOk, Ready, PutSession, PutTask, Dispatch, SessionFiles, FindSession;
    hide PlanPassed, SessionOk, Recoverable;
    var DoRetry(failedId, taskId, pub) := a;
    GrewSelf(s.store);
    if failedId in s.store.tasks {
      var failed := s.store.tasks[failedId];
      TaskIs(w, s.store, failedId);
      Finds(w, s.store, failed.sessionId);
      var found := FindSession(s.store, failed.sessionId);
      if failed.status == TaskFailed && failed.error.Some? && Recoverable(failed.error.value) && found.Some? {
        SessionIs(w, s.store, failed.sessionId);
        RetryStores(w, s, failed, found.value, taskId, pub);
      }
    }
  }

  lemma {:induction false} RetryStores(w: World, s: State, failed: Task, was: Session, taskId: string, pub: Publication)
    requires StateOk(w, s) && taskId !in s.store.tasks && failed.sessionId == was.id
    requires was.id in s.store.sessions && s.store.sessions[was.id] == was
    requires failed.kind == CodeGeneration ==> Ready(w, was)
    ensures var session := was.(status := QueuedStatus(failed.kind));
      var task := NewTask(taskId, session.id, failed.kind).(attempt := failed.attempt + 1);
      var revising := failed.kind == PlanRevision;
      var last := |session.feedback| - 1;
      var job :=
        if failed.kind == CodeGeneration then CodeJob(task, session)
        else PlanJob(task, session, if revising then Some(session.plan) else None,
                     if revising && last >= 0 then Some(session.feedback[last]) else None);
      var r := Dispatch(s.(store := PutSession(PutTask(s.store, task), session)), job, pub).0;
      StateOk(w, r) && Grew(s.store, r.store)
  {
    hide StoreOk, Grew, FlightOk, PutSession, PutTask, Dispatch, SessionFiles, SessionOk, PlanPassed;
    var session := was.(status := QueuedStatus(failed.kind));
    var task := NewTask(taskId, session.id, failed.kind).(attempt := failed.attempt + 1);
    var revising := failed.kind == PlanRevision;
    var last := |session.feedback| - 1;
    var job :=
      if failed.kind == CodeGeneration then CodeJob(task, session)
      else PlanJob(task, session, if revising then Some(session.plan) else None,
                   if revising && last >= 0 then Some(session.feedback[last]) else None);
    SessionIs(w, s.store, was.id);
    SameMeaning(w, was, session);
    TaskAdds(w, s.store, session, task, job);
    PutTaskIs(s.store, task);
    var st := PutTask(s.store, task);
    StatusKeeps(w, was, QueuedStatus(failed.kind));
    PutSessionKeeps(w, st, session);
    PutIs(st, session);
    GrewTwice(s.store, st, PutSession(st, session));
    JobMoves(w, st, PutSession(st, session), job, Flight(job, task));
    DispatchKeeps(w, s, PutSession(st, session), job, pub);
  }

  lemma {:induction false} ApproveKeeps(w: World, s: State, a: Action)
    requires StateOk(w, s) && a.DoApprove? && FreshIds(s, a)
    ensures StateOk(w, Act(w, s, a)) && Grew(s.store, Act(w, s, a).store)
  {
    hide StoreOk, Grew, JobOk, FlightOk, Ready, PutSession, PutTask, Dispatch, SessionFiles, FindSession;
    hide PlanPassed, ContractOk, ValidatePlan, AllowedPaths, GoTrim;
    var DoApprove(issueId, edited, taskId, pub) := a;
    GrewSelf(s.store);
    Finds(w, s.store, issueId);
    var found := FindSession(s.store, issueId);
    if found.Some? && found.value.status == PlanGenerated {
      var was := found.value;
      var plan := if edited.Some? then GoTrim(edited.value) else was.plan;
      if !(edited.Some? && plan == "") && (plan == was.plan || ValidatePlan(w, plan, AllowedPaths(SessionFiles(was), []))) {
        var revision := if plan != was.plan then was.revision + 1 else was.revision;
        var session := was.(plan := plan, revision := revision, contract := Some([]), apply := Unapplied,
                            status := CodeGenerationQueued);
        ApprovedReady(w, was, session);
        PutSessionKeeps(w, s.store, session);
        PutIs(s.store, session);
        var st := PutSession(s.store, session);
        var task := NewTask(taskId, session.id, CodeGeneration);
        var job := CodeJob(task, session);
        TaskAdds(w, st, session, task, job);
        GrewTwice(s.store, st, PutTask(st, task));
        DispatchKeeps(w, s, PutTask(st, task), job, pub);
      }
    }
  }

  lemma ApprovedReady(w: World, was: Session, session: Session)
    requires Ready(w, was) && session.uploaded == was.uploaded && session.legacy == was.legacy
    requires session.contract == Some([]) && session.revision >= was.revision
    requires session.plan == was.plan || ValidatePlan(w, session.plan, AllowedPaths(SessionFiles(was), []))
    ensures Ready(w, session) && ContractOk(session) && PlanPassed(w, session.plan, SessionFiles(session))
  {
    hide ValidatePlan, AllowedPaths;
    assert SessionFiles(session) == SessionFiles(was);
  }

  lemma RejectKeeps(w: World, s: State, a: Action)
    requires StateOk(w, s) && a.DoReject?
    ensures StateOk(w, Act(w, s, a)) && Grew(s.store, Act(w, s, a).store)
  {
    hide StoreOk, Grew, JobOk, FlightOk, Ready, PutSession, FindSession, SessionOk, Later;
    GrewSelf(s.store);
    Finds(w, s.store, a.issueId);
    var found := FindSession(s.store, a.issueId);
    if found.Some? {
      StatusKeeps(w, found.value, SessionRejected);
      PutSessionKeeps(w, s.store, found.value.(status := SessionRejected));
      StateMoves(w, s, PutSession(s.store, found.value.(status := SessionRejected)), s.jobs, s.flights);
    }
  }

  lemma JobIs(w: World, s: State, job: Job)
    requires StateOk(w, s) && job in s.jobs
    ensures JobOk(w, s.store, job)
  {
  }

  lemma FlightIs(w: World, s: State, f: Flight)
    requires StateOk(w, s) && f in s.flights
    ensures FlightOk(w, s.store, f)
  {
  }

  lemma StartKeeps(w: World, s: State, a: Action)
    requires StateOk(w, s) && a.DoStart?
    ensures StateOk(w, Act(w, s, a)) && Grew(s.store, Act(w, s, a).store)
  {
    hide StoreOk, Grew, Ready, PutSession, PutTask, FindSession, SessionOk, Later, StateOk, PlanPassed, SessionFiles;
    GrewSelf(s.store);
    var job := a.job;
    if job in s.jobs {
      JobIs(w, s, job);
      StoreIs(w, s);
      TaskIs(w, s.store, job.taskId);
      var task := s.store.tasks[job.taskId].(status := TaskProcessing, attempt := job.attempt, error := None);
      PutTaskKeeps(w, s.store, task);
      PutTaskIs(s.store, task);
      var st := PutTask(s.store, task);
      Finds(w, st, task.sessionId);
      var found := FindSession(st, task.sessionId).value;
      var status := ProcessingStatus(task.kind);
      StatusKeeps(w, found, status);
      PutSessionKeeps(w, st, found.(status := status));
      var st2 := PutSession(st, found.(status := status));
      GrewTwice(s.store, st, st2);
      JobMoves(w, s.store, st2, job, Flight(job, task));
      PutIs(st, found.(status := status));
      StateMoves(w, s, st2, s.jobs, s.flights + {Flight(job, task)});
    }
  }

  lemma StoreIs(w: World, s: State)
    requires StateOk(w, s)
    ensures StoreOk(w, s.store)
  {
  }

  lemma RequeueKeeps(w: World, s: State, a: Action)
    requires StateOk(w, s) && a.DoRequeue?
    ensures StateOk(w, Act(w, s, a)) && Grew(s.store, Act(w, s, a).store)
  {
    hide StoreOk, Grew, Ready, PutSession, PutTask, FindSession, SessionOk, Later, StateOk, PlanPassed, SessionFiles;
    GrewSelf(s.store);
    if a.job in s.jobs {
      var job := a.job.(attempt := a.attempt);
      JobIs(w, s, a.job);
      StoreIs(w, s);
      TaskIs(w, s.store, job.taskId);
      var task := s.store.tasks[job.taskId].(status := Queued, attempt := job.attempt);
      PutTaskKeeps(w, s.store, task);
      PutTaskIs(s.store, task);
      var st := PutTask(s.store, task);
      Finds(w, st, task.sessionId);
      var found := FindSession(st, task.sessionId).value;
      var status := QueuedStatus(task.kind);
      StatusKeeps(w, found, status);
      PutSessionKeeps(w, st, found.(status := status));
      var st2 := PutSession(st, found.(status := status));
      GrewTwice(s.store, st, st2);
      JobMoves(w, s.store, st2, job, Flight(job, task));
      StateMoves(w, s, st2, s.jobs + {job}, s.flights);
    }
  }

  // The segment after the generator answered: the task and the session it stores.
  lemma EndStores(w: World, s: State, f: Flight, task: Task, session: Session)
    requires StateOk(w, s) && FlightOk(w, s.store, f) && SameTask(f.task, task)
    requires session.id == f.task.sessionId && session.id in s.store.sessions
    requires Later(s.store.sessions[session.id], session) && SessionOk(w, session)
    requires Ready(w, s.store.sessions[session.id]) ==> Ready(w, session)
    ensures var st := PutTask(s.store, task);
      FindSession(st, f.task.sessionId) == Some(s.store.sessions[session.id]) &&
      StateOk(w, s.(store := PutSession(st, session))) && Grew(s.store, PutSession(st, session))
  {
    hide StoreOk, Grew, Ready, PutSession, PutTask, FindSession, SessionOk, Later, StateOk, PlanPassed, SessionFiles;
    StoreIs(w, s);
    TaskIs(w, s.store, task.id);
    PutTaskKeeps(w, s.store, task);
    PutTaskIs(s.store, task);
    var st := PutTask(s.store, task);
    Finds(w, st, f.task.sessionId);
    PutSessionKeeps(w, st, session);
    GrewTwice(s.store, st, PutSession(st, session));
    StateMoves(w, s, PutSession(st, session), s.jobs, s.flights);
  }

  lemma FailMoves(w: World, s: State, taskId: string, error: TaskError)
    requires StateOk(w, s)
    ensures var st := FailTask(s.store, taskId, error); StateOk(w, s.(store := st)) && Grew(s.store, st)
  {
    hide StoreOk, Grew, StateOk, FailTask;
    StoreIs(w, s);
    FailKeeps(w, s.store, taskId, error);
    StateMoves(w, s, FailTask(s.store, taskId, error), s.jobs, s.flights);
  }

  lemma EndPlanKeeps(w: World, s: State, a: Action)
    requires StateOk(w, s) && a.DoEndPlan?
    ensures StateOk(w, Act(w, s, a)) && Grew(s.store, Act(w, s, a).store)
  {
    hide StoreOk, Grew, Ready, PutSession, PutTask, FindSession, SessionOk, Later, StateOk, FailTask;
    hide SessionFiles, ValidatePlan;
    GrewSelf(s.store);
    var DoEndPlan(f, reply) := a;
    if f in s.flights && f.task.kind != CodeGeneration {
      FlightIs(w, s, f);
      if reply.NoPlan? {
        FailMoves(w, s, f.job.taskId, reply.error);
      } else if !ValidatePlan(w, reply.plan, AllowedPaths(f.job.files, reply.relevant)) {
        FailMoves(w, s, f.job.taskId, INVALID_OUTPUT);
      } else {
        StoreIs(w, s);
        var was := s.store.sessions[f.task.sessionId];
        SessionIs(w, s.store, f.task.sessionId);
        var session := was.(plan := reply.plan, status := PlanGenerated, revision := was.revision + 1);
        PlannedReady(w, was, session, reply.relevant);
        EndStores(w, s, f, f.task.(status := Completed, plan := reply.plan), session);
      }
    }
  }

  lemma PlannedReady(w: World, was: Session, session: Session, relevant: seq<string>)
    requires SessionOk(w, was)
    requires session == was.(plan := session.plan, status := PlanGenerated, revision := was.revision + 1)
    requires ValidatePlan(w, session.plan, AllowedPaths(SessionFiles(was), relevant))
    ensures Ready(w, session) && SessionOk(w, session) && Later(was, session)
  {
    hide ValidatePlan, AllowedPaths, ValidFiles;
    assert SessionFiles(session) == SessionFiles(was);
  }

  lemma {:induction false} EndFilesKeeps(w: World, s: State, a: Action)
    requires StateOk(w, s) && a.DoEndFiles?
    ensures StateOk(w, Act(w, s, a)) && Grew(s.store, Act(w, s, a).store)
  {
    hide StoreOk, Grew, Ready, PutSession, PutTask, FindSession, SessionOk, Later, StateOk, FailTask;
    hide SessionFiles, Generated, PlanPassed;
    GrewSelf(s.store);
    var DoEndFiles(f, reply) := a;
    if f in s.flights && f.task.kind == CodeGeneration {
      FlightIs(w, s, f);
      if reply.NoFiles? {
        FailMoves(w, s, f.job.taskId, reply.error);
      } else {
        var outcome := Generated(reply.ops, f.job.files, w.partial);
        if !outcome.Contract? {
          FailMoves(w, s, f.job.taskId, INVALID_FILES);
        } else {
          StoreIs(w, s);
          var was := s.store.sessions[f.task.sessionId];
          SessionIs(w, s.store, f.task.sessionId);
          var session := was.(contract := Some(outcome.files), apply := Unapplied, status := CodeGenerated);
          GeneratedOk(w, was, reply.ops);
          TaskIs(w, s.store, f.job.taskId);
          ContractStored(w, was, session);
          EndStores(w, s, f, f.task.(status := Completed), session);
        }
      }
    }
  }

  lemma GeneratedOk(w: World, s: Session, ops: seq<FileOp>)
    ensures var outcome := Generated(ops, SessionFiles(s), w.partial);
      outcome.Contract? ==> ContractOk(s.(contract := Some(outcome.files), apply := Unapplied, status := CodeGenerated))
  {
    hide ValidFiles, Generated, DropNoop, ContentByPath, FilesForSession;
    ContractAppliesUnchanged(ops, s.uploaded, s.legacy, w.partial);
  }

  lemma ContractStored(w: World, was: Session, session: Session)
    requires SessionOk(w, was) && ContractOk(session) && Ready(w, was)
    requires session == was.(contract := session.contract, apply := Unapplied, status := CodeGenerated)
    ensures SessionOk(w, session) && Later(was, session) && Ready(w, session)
  {
    hide ContractOk, PlanPassed;
    SameMeaning(w, was, session);
  }

  // ------------------------------------------------------------ applying

  lemma MarkedOk(w: World, s: Session, apply: ApplyStatus, status: string)
    requires SessionOk(w, s) && HasFiles(s)
    ensures SessionOk(w, Marked(s, apply, status)) && Ready(w, Marked(s, apply, status))
    ensures SessionOk(w, s.(apply := apply)) && Ready(w, s.(apply := apply))
  {
    hide PlanPassed, ValidFiles, DropNoop, ContentByPath;
    StatusKeepsContract(s.contract.value, WithStatus(s.contract.value, status),
                        ContentByPath(SessionFiles(s)).Keys, ContentByPath(s.uploaded));
    SameMeaning(w, s, Marked(s, apply, status));
    SameMeaning(w, s, s.(apply := apply));
  }

  // A contract with files has something to send: all of it.
  lemma SendsAll(w: World, s: State, id: string)
    requires StateOk(w, s) && FindSession(s.store, id).Some? && HasFiles(FindSession(s.store, id).value)
    ensures var session := FindSession(s.store, id).value;
      session.id in s.store.sessions && s.store.sessions[session.id] == session && SessionOk(w, session) &&
      DropNoop(session.contract.value, ContentByPath(session.uploaded)) == session.contract.value
  {
    hide StoreOk, FindSession, ValidFiles, DropNoop, ContentByPath, Ready;
    Finds(w, s.store, id);
  }

  lemma ApplyStartKeeps(w: World, s: State, a: Action)
    requires StateOk(w, s) && a.DoApplyStart?
    ensures StateOk(w, Act(w, s, a)) && Grew(s.store, Act(w, s, a).store)
  {
    hide StateOk, StoreOk, Grew, Kept, JobOk, FlightOk, FindSession, SessionOk, DropNoop, ContentByPath;
    GrewSelf(s.store);
    var found := FindSession(s.store, a.issueId);
    if found.Some? && HasFiles(found.value) && found.value.apply != Applied {
      SendsAll(w, s, a.issueId);
      if a.client {
        StoreIs(w, s);
        GrewIsKept(s.store, s.store);
        KeptMoves(w, s, s.store, s.jobs, s.flights, s.applies + {Applying(found.value, found.value.contract.value)});
      }
    }
  }

  // Nothing was written to the session, since it was read, that the answer would take back.
  predicate Fresh(s: State, a: Action) {
    a.DoApplyEnd? && a.applying in s.applies && a.applying.session.id in s.store.sessions ==>
      var (read, stored) := (a.applying.session, s.store.sessions[a.applying.session.id]);
      read.revision == stored.revision && read.feedback == stored.feedback
  }

  // The answer of GitFlame keeps the invariant however old the session is that it is stored with.
  lemma ApplyEndKeeps(w: World, s: State, a: Action)
    requires StateOk(w, s) && a.DoApplyEnd?
    ensures StateOk(w, Act(w, s, a))
    ensures a.applying in s.applies ==>
      a.applying.session.id in s.store.sessions &&
      (Grew(s.store, Act(w, s, a).store) <==> Later(s.store.sessions[a.applying.session.id], a.applying.session))
    ensures a.applying !in s.applies ==> Act(w, s, a) == s
  {
    hide StateOk, StoreOk, Grew, Kept, JobOk, FlightOk, SessionOk, Ready, PutSession;
    if a.applying in s.applies {
      var read := a.applying.session;
      ApplyIs(w, s, a.applying);
      StoreIs(w, s);
      MarkedOk(w, read, Applied, "applied");
      MarkedOk(w, read, ApplyFailed, "");
      var written := if a.applied then Marked(read, Applied, "applied") else read.(apply := ApplyFailed);
      PutVersionKeeps(w, s.store, written);
      KeptMoves(w, s, PutSession(s.store, written), s.jobs, s.flights, s.applies);
    }
  }

  lemma ApplyIs(w: World, s: State, a: Applying)
    requires StateOk(w, s) && a in s.applies
    ensures ApplyOk(w, s.store, a)
  {
  }

  // Every step keeps the invariant, and nothing goes back unless GitFlame's answer is stored
  // with an outdated session.
  lemma ActKeeps(w: World, s: State, a: Action)
    requires StateOk(w, s) && FreshIds(s, a) && Unaliased(s, a)
    ensures StateOk(w, Act(w, s, a))
    ensures Fresh(s, a) ==> Grew(s.store, Act(w, s, a).store)
  {
    hide StateOk, FreshIds, Unaliased, Act, Grew;
    match a
    case DoAnalyze(_, _, _, _) => AnalyzeKeeps(w, s, a);
    case DoCorrect(_, _, _, _) => CorrectKeeps(w, s, a);
    case DoRetry(_, _, _) => RetryKeeps(w, s, a);
    case DoApprove(_, _, _, _) => ApproveKeeps(w, s, a);
    case DoReject(_) => RejectKeeps(w, s, a);
    case DoStart(_) => StartKeeps(w, s, a);
    case DoEndPlan(_, _) => EndPlanKeeps(w, s, a);
    case DoEndFiles(_, _) => EndFilesKeeps(w, s, a);
    case DoRequeue(_, _) => RequeueKeeps(w, s, a);
    case DoApplyStart(_, _) => ApplyStartKeeps(w, s, a);
    case DoApplyEnd(_, _) => FreshGrows(w, s, a);
  }

  lemma FreshGrows(w: World, s: State, a: Action)
    requires StateOk(w, s) && a.DoApplyEnd?
    ensures StateOk(w, Act(w, s, a))
    ensures Fresh(s, a) ==> Grew(s.store, Act(w, s, a).store)
  {
    hide StateOk, Act, Grew, SessionOk;
    ApplyEndKeeps(w, s, a);
    GrewSelf(s.store);
    if a.applying in s.applies {
      ApplyIs(w, s, a.applying);
    }
  }

  // ------------------------------------------------------------ over all runs

  ghost predicate LegalRun(w: World, actions: seq<Action>) {
    actions == [] ||
    (LegalRun(w, actions[..|actions| - 1]) &&
     FreshIds(Run(w, actions[..|actions| - 1]), actions[|actions| - 1]) &&
     Unaliased(Run(w, actions[..|actions| - 1]), actions[|actions| - 1]))
  }

  lemma {:induction false} RunKeeps(w: World, actions: seq<Action>)
    requires LegalRun(w, actions)
    ensures StateOk(w, Run(w, actions))
  {
    hide StateOk, FreshIds, Unaliased, Act;
    if actions == [] {
      EmptyOk(w);
    } else {
      RunKeeps(w, actions[..|actions| - 1]);
      ActKeeps(w, Run(w, actions[..|actions| - 1]), actions[|actions| - 1]);
    }
  }

  lemma EmptyOk(w: World)
    ensures StateOk(w, State(Store(map[], map[], map[]), {}, {}, {}))
  {
  }

  // A code generation task exists only for a session whose plan is not blank, passed the rules
  // for plans, and has a revision; and the job of such a task carries a plan that passed.
  lemma {:induction false} CodeNeedsApprovedPlan(w: World, actions: seq<Action>, taskId: string)
    requires LegalRun(w, actions)
    requires taskId in Run(w, actions).store.tasks && Run(w, actions).store.tasks[taskId].kind == CodeGeneration
    ensures var s := Run(w, actions);
      var id := s.store.tasks[taskId].sessionId;
      id in s.store.sessions && s.store.sessions[id].revision >= 1 && !IsBlank(s.store.sessions[id].plan) &&
      PlanPassed(w, s.store.sessions[id].plan, SessionFiles(s.store.sessions[id]))
    ensures forall job :: job in Run(w, actions).jobs && job.taskId == taskId ==>
      !IsBlank(job.plan) && PlanPassed(w, job.plan, job.files)
  {
    hide Act, IsBlank;
    RunKeeps(w, actions);
    TaskIs(w, Run(w, actions).store, taskId);
    forall job | job in Run(w, actions).jobs && job.taskId == taskId
      ensures !IsBlank(job.plan) && PlanPassed(w, job.plan, job.files)
    {
      JobIs(w, Run(w, actions), job);
    }
  }

  // A stored contract that is not empty passes the validator against the files of its session,
  // and the filter that runs before it is applied drops none of it.
  lemma StoredContractsValid(w: World, actions: seq<Action>, id: string)
    requires LegalRun(w, actions) && id in Run(w, actions).store.sessions
    ensures var session := Run(w, actions).store.sessions[id];
      session.contract.Some? && session.contract.value != [] ==>
        ValidFiles(session.contract.value, ContentByPath(SessionFiles(session)).Keys) &&
        DropNoop(session.contract.value, ContentByPath(session.uploaded)) == session.contract.value
  {
    hide Act;
    RunKeeps(w, actions);
    SessionIs(w, Run(w, actions).store, id);
  }

  // Every request that reaches GitFlame carries a contract that passes the validator, complete,
  // and its session has a plan that passed; a contract with files is never answered with "no
  // effective changes".
  lemma {:induction false} AppliedContractsValid(w: World, actions: seq<Action>, id: string, client: bool)
    requires LegalRun(w, actions)
    ensures forall a :: a in Run(w, actions).applies ==>
      HasFiles(a.session) && a.sent == a.session.contract.value && Ready(w, a.session) &&
      ValidFiles(a.sent, ContentByPath(SessionFiles(a.session)).Keys)
    ensures ApplyStart(Run(w, actions), id, client).1 != NoEffect
  {
    hide Act, FindSession, ValidFiles, ContentByPath, SessionFiles, Ready;
    var s := Run(w, actions);
    RunKeeps(w, actions);
    forall a | a in s.applies ensures ApplyOk(w, s.store, a) {
      ApplyIs(w, s, a);
    }
    var found := FindSession(s.store, id);
    if found.Some? && HasFiles(found.value) {
      SendsAll(w, s, id);
    }
  }

  // ------------------------------------------------------------ what never goes back, exactly

  // In the steps after the first ones no answer of GitFlame is stored with an outdated session.
  ghost predicate FreshAfter(w: World, actions: seq<Action>, more: seq<Action>) {
    more == [] ||
    (FreshAfter(w, actions, more[..|more| - 1]) && Fresh(Run(w, actions + more[..|more| - 1]), more[|more| - 1]))
  }

  // Then, whatever happens next, sessions and tasks stay, revisions do not decrease, and a
  // feedback history only grows at its end.
  lemma {:induction false} NothingGoesBack(w: World, actions: seq<Action>, more: seq<Action>)
    requires LegalRun(w, actions + more) && FreshAfter(w, actions, more)
    ensures Grew(Run(w, actions).store, Run(w, actions + more).store)
  {
    hide StateOk, FreshIds, Unaliased, Act, Grew, Fresh;
    if more == [] {
      assert actions + more == actions;
      GrewSelf(Run(w, actions).store);
    } else {
      var all, last := actions + more, more[|more| - 1];
      assert all[..|all| - 1] == actions + more[..|more| - 1];
      NothingGoesBack(w, actions, more[..|more| - 1]);
      RunKeeps(w, all[..|all| - 1]);
      ActKeeps(w, Run(w, all[..|all| - 1]), last);
      GrewTwice(Run(w, actions).store, Run(w, all[..|all| - 1]).store, Run(w, all).store);
    }
  }

  ghost predicate EveryStepGrows(w: World, actions: seq<Action>) {
    actions == [] ||
    (EveryStepGrows(w, actions[..|actions| - 1]) && Grew(Run(w, actions[..|actions| - 1]).store, Run(w, actions).store))
  }

  // What is read is never ahead of what is stored, as long as nothing went back.
  ghost predicate ReadsBehind(s: State) {
    forall a :: a in s.applies ==> a.session.id in s.store.sessions && Later(a.session, s.store.sessions[a.session.id])
  }

  lemma ReadsStayBehind(w: World, s: State, a: Action)
    requires StateOk(w, s) && ReadsBehind(s) && Grew(s.store, Act(w, s, a).store)
    ensures ReadsBehind(Act(w, s, a))
  {
    hide StateOk, StoreOk, SessionOk, Grew;
    var r := Act(w, s, a);
    OneRequest(w, s, a);
    forall x | x in r.applies
      ensures x.session.id in r.store.sessions && Later(x.session, r.store.sessions[x.session.id])
    {
      hide Act;
      GrewFor(s.store, r.store, x.session.id);
    }
  }

  lemma GrewFor(a: Store, b: Store, id: string)
    requires Grew(a, b)
    ensures GrewAt(a, b, id)
  {
  }

  // A step adds at most a request that reads a session as it is stored.
  lemma OneRequest(w: World, s: State, a: Action)
    requires StateOk(w, s)
    ensures forall x :: x in Act(w, s, a).applies - s.applies ==>
      x.session.id in s.store.sessions && s.store.sessions[x.session.id] == x.session
  {
    hide StateOk, StoreOk, FindSession, SessionOk, Generated, ValidatePlan, FailTask, DropNoop, ContentByPath, HasTask;
    if a.DoApplyStart? {
      var found := FindSession(s.store, a.issueId);
      if found.Some? && HasFiles(found.value) {
        SendsAll(w, s, a.issueId);
      }
    }
  }

  // For every run: no step takes anything back if and only if no answer of GitFlame is stored
  // with a session whose revision or feedback has changed since it was read.
  lemma {:induction false} NothingGoesBackExactly(w: World, actions: seq<Action>)
    requires LegalRun(w, actions)
    ensures EveryStepGrows(w, actions) <==> FreshAfter(w, [], actions)
    ensures EveryStepGrows(w, actions) ==> ReadsBehind(Run(w, actions))
  {
    hide StateOk, FreshIds, Unaliased, Act, Grew, Fresh, ReadsBehind;
    if actions == [] {
      NoReads(w);
    } else {
      var init, last := actions[..|actions| - 1], actions[|actions| - 1];
      NothingGoesBackExactly(w, init);
      RunKeeps(w, init);
      ActKeeps(w, Run(w, init), last);
      assert [] + init == init;
      if EveryStepGrows(w, init) {
        GrowsExactly(w, Run(w, init), last);
        if Grew(Run(w, init).store, Run(w, actions).store) {
          ReadsStayBehind(w, Run(w, init), last);
        }
      }
    }
  }

  lemma NoReads(w: World)
    ensures ReadsBehind(Run(w, []))
  {
  }

  lemma GrowsExactly(w: World, s: State, a: Action)
    requires StateOk(w, s) && ReadsBehind(s) && FreshIds(s, a) && Unaliased(s, a)
    ensures Grew(s.store, Act(w, s, a).store) <==> Fresh(s, a)
  {
    hide StateOk, FreshIds, Unaliased, Act, Grew;
    ActKeeps(w, s, a);
    if a.DoApplyEnd? && a.applying in s.applies {
      ApplyEndKeeps(w, s, a);
    }
  }
}
