// What each operation of the workflow does to a store that a run can reach: which session and
// task it changes, how, what it dispatches, and that everything else stays as it was.
module WorkflowOperations {
  import opened Collections
  import opened Text
  import opened PlanPaths
  import opened GeneratedFiles
  import opened FileContract
  import opened IssueWorkflow
  import opened WorkflowTheorems

  // The session a name stands for: the one indexed under it, else the one with that id.
  ghost predicate Named(st: Store, name: string, id: string) {
    id in st.sessions && id == if name in st.index then st.index[name] else name
  }

  // One session was written, and indexed by its issue, alone and with its repository.
  ghost predicate Wrote(st: Store, r: Store, session: Session) {
    r.sessions == st.sessions[session.id := session] &&
    r.index == st.index[session.issueId := session.id][session.repositoryId + "\0" + session.issueId := session.id]
  }

  // One task was written.
  ghost predicate WroteTask(st: Store, r: Store, task: Task) {
    r.tasks == st.tasks[task.id := task]
  }

  // A new task and its job.
  ghost predicate Queues(s: State, r: State, task: Task, job: Job) {
    WroteTask(s.store, r.store, task) && r.jobs == s.jobs + {job} && r.flights == s.flights && r.applies == s.applies &&
    task.status == Queued && task.error == None && task.plan == "" &&
    job.taskId == task.id && job.sessionId == task.sessionId && job.kind == task.kind && job.attempt == task.attempt
  }

  lemma NamedIs(w: World, s: State, name: string, id: string)
    requires StateOk(w, s) && Named(s.store, name, id)
    ensures FindSession(s.store, name) == Some(s.store.sessions[id]) && s.store.sessions[id].id == id
  {
    hide StoreOk, SessionOk;
    StoreIs(w, s);
    SessionIs(w, s.store, id);
  }

  // ------------------------------------------------------------ approving and rejecting

  // With a publish that works: an approval succeeds exactly when the session has a generated plan
  // and the edit, if there is one, is not blank and unchanged or valid.  Then the plan that was
  // approved is stored, counted as a revision when it changed, and sent to code generation.
  lemma {:induction false} ApproveDoes(w: World, actions: seq<Action>, name: string, edited: Option<string>, taskId: string,
                                       id: string)
    requires LegalRun(w, actions) && Named(Run(w, actions).store, name, id)
    ensures var s := Run(w, actions);
      var (r, answer) := Approve(w, s, name, edited, taskId, Published);
      var was := s.store.sessions[id];
      (answer == Done <==>
        was.status == PlanGenerated &&
        (edited.Some? ==>
          GoTrim(edited.value) != "" &&
          (GoTrim(edited.value) == was.plan ||
           ValidatePlan(w, GoTrim(edited.value), AllowedPaths(SessionFiles(was), []))))) &&
      (answer != Done ==> r == s) &&
      (answer == Done ==>
        id in r.store.sessions &&
        var now := r.store.sessions[id];
        now.plan == (if edited.Some? then GoTrim(edited.value) else was.plan) &&
        now.revision == was.revision + (if now.plan != was.plan then 1 else 0) &&
        now == was.(plan := now.plan, revision := now.revision, status := CodeGenerationQueued, contract := Some([]),
                    apply := Unapplied) &&
        Wrote(s.store, r.store, now) &&
        Queues(s, r, Task(taskId, id, CodeGeneration, Queued, 1, None, ""),
               Job(taskId, id, CodeGeneration, 1, SessionFiles(was), None, None, now.plan)))
  {
    hide Act, GoTrim, ValidatePlan, AllowedPaths, SessionFiles, FindSession, StateOk;
    var s := Run(w, actions);
    RunKeeps(w, actions);
    NamedIs(w, s, name, id);
    var (r, answer) := Approve(w, s, name, edited, taskId, Published);
    if answer == Done {
      SameFiles(s.store.sessions[id], r.store.sessions[id]);
    }
  }

  lemma SameFiles(a: Session, b: Session)
    requires a.uploaded == b.uploaded && a.legacy == b.legacy
    ensures SessionFiles(a) == SessionFiles(b)
  {
  }

  lemma {:induction false} RejectDoes(w: World, actions: seq<Action>, name: string, id: string)
    requires LegalRun(w, actions) && Named(Run(w, actions).store, name, id)
    ensures var s := Run(w, actions);
      var (r, answer) := Reject(s, name);
      var was := s.store.sessions[id];
      (answer == Done <==> was.status !in {Approved, CodeGenerationQueued, CodeGenerationProcessing, CodeGenerated}) &&
      (answer != Done ==> r == s) &&
      (answer == Done ==>
        Wrote(s.store, r.store, was.(status := SessionRejected)) && r == s.(store := r.store) &&
        r.store.tasks == s.store.tasks)
  {
    hide Act, FindSession, StateOk;
    RunKeeps(w, actions);
    NamedIs(w, Run(w, actions), name, id);
  }

  // ------------------------------------------------------------ planning

  // The session of an issue in its repository, if there is one.
  ghost predicate KnownAs(st: Store, req: Request, id: string) {
    var key := req.repositoryId + "\0" + req.issueId;
    key in st.index && st.index[key] == id && id in st.sessions
  }

  // A request for a known issue changes nothing when the session has a task.
  lemma {:induction false} AnalyzeKnown(w: World, actions: seq<Action>, req: Request, sessionId: string, taskId: string,
                                        id: string)
    requires LegalRun(w, actions) && KnownAs(Run(w, actions).store, req, id)
    ensures var s := Run(w, actions);
      var (r, answer) := Analyze(s, req, sessionId, taskId, Published);
      var was := s.store.sessions[id];
      var started := exists t :: t in s.store.tasks && s.store.tasks[t].sessionId == id;
      (answer == Done <==> started || was.status == Generating) && (started || answer != Done ==> r == s) &&
      (!started && answer == Done ==>
        r.store.sessions == s.store.sessions && r.store.index == s.store.index &&
        Queues(s, r, Task(taskId, id, InitialPlan, Queued, 1, None, ""),
               Job(taskId, id, InitialPlan, 1, SessionFiles(was), None, None, "")))
  {
    hide Act, SessionFiles, StateOk, StoreOk, SessionOk;
    var s := Run(w, actions);
    RunKeeps(w, actions);
    StoreIs(w, s);
    SessionIs(w, s.store, id);
  }

  // A request for a new issue creates its session, a first task and its job.
  lemma {:induction false} AnalyzeNew(w: World, actions: seq<Action>, req: Request, sessionId: string, taskId: string)
    requires LegalRun(w, actions)
    requires var (st, key) := (Run(w, actions).store, req.repositoryId + "\0" + req.issueId);
      key in st.index ==> !KnownAs(st, req, st.index[key])
    ensures var s := Run(w, actions);
      var (r, answer) := Analyze(s, req, sessionId, taskId, Published);
      answer == Done && sessionId in r.store.sessions &&
      var now := r.store.sessions[sessionId];
      now.id == sessionId && now.repositoryId == req.repositoryId && now.issueId == req.issueId &&
      now.uploaded == req.uploaded && now.legacy == req.legacy && now.status == Generating && now.plan == "" &&
      now.revision == 0 && now.feedback == [] && now.contract == None && now.apply == Unapplied &&
      Wrote(s.store, r.store, now) &&
      Queues(s, r, Task(taskId, sessionId, InitialPlan, Queued, 1, None, ""),
             Job(taskId, sessionId, InitialPlan, 1, if req.uploaded != [] then req.uploaded else LegacyFiles(req.legacy),
                 None, None, ""))
  {
    hide Act;
  }

  function LegacyFiles(paths: seq<string>): (files: seq<RepoFile>)
    ensures |files| == |paths| && forall i :: 0 <= i < |paths| ==> files[i].path == paths[i] && files[i].content == ""
  {
    seq(|paths|, i requires 0 <= i < |paths| => RepoFile(paths[i], ""))
  }

  // A correction needs a generated plan and feedback that is not blank; the revision is asked for
  // with that plan and that feedback.
  lemma {:induction false} CorrectDoes(w: World, actions: seq<Action>, name: string, text: string, taskId: string, id: string)
    requires LegalRun(w, actions) && Named(Run(w, actions).store, name, id)
    ensures var s := Run(w, actions);
      var (r, answer) := Correct(s, name, text, taskId, Published);
      var was := s.store.sessions[id];
      (answer == Done <==> GoTrim(text) != "" && was.status == PlanGenerated) && (answer != Done ==> r == s) &&
      (answer == Done ==>
        Wrote(s.store, r.store, was.(status := CorrectionRequested, feedback := was.feedback + [text])) &&
        Queues(s, r, Task(taskId, id, PlanRevision, Queued, 1, None, ""),
               Job(taskId, id, PlanRevision, 1, SessionFiles(was), Some(was.plan), Some(text), "")))
  {
    hide Act, GoTrim, SessionFiles, FindSession, StateOk;
    var s := Run(w, actions);
    RunKeeps(w, actions);
    NamedIs(w, s, name, id);
    var was := s.store.sessions[id];
    SameFiles(was, was.(status := CorrectionRequested, feedback := was.feedback + [text]));
  }

  // ------------------------------------------------------------ retrying

  ghost predicate MayBeRetried(task: Task) {
    task.status == TaskFailed && task.error.Some? &&
    var error := task.error.value;
    error.httpStatus in {503, 504} || (error.httpStatus == 502 && error.code in {"agent_engine_unreachable", "agent_engine_error"})
  }

  // A retry is a new task of the same kind with one attempt more, for the session of the failed
  // one; a revision gets the plan and the latest feedback again, code generation the plan.
  lemma {:induction false} RetryDoes(w: World, actions: seq<Action>, failedId: string, taskId: string)
    requires LegalRun(w, actions) && failedId in Run(w, actions).store.tasks
    ensures var s := Run(w, actions);
      var (r, answer) := Retry(s, failedId, taskId, Published);
      var failed := s.store.tasks[failedId];
      failed.sessionId in s.store.sessions &&
      var was := s.store.sessions[failed.sessionId];
      (answer == Done <==> MayBeRetried(failed)) && (answer != Done ==> r == s) &&
      (answer == Done ==>
        Wrote(s.store, r.store,
              was.(status := if failed.kind == CodeGeneration then CodeGenerationQueued else Generating)) &&
        Queues(s, r, Task(taskId, was.id, failed.kind, Queued, failed.attempt + 1, None, ""),
               Job(taskId, was.id, failed.kind, failed.attempt + 1, SessionFiles(was),
                   if failed.kind == PlanRevision then Some(was.plan) else None,
                   if failed.kind == PlanRevision && was.feedback != [] then Some(was.feedback[|was.feedback| - 1]) else None,
                   if failed.kind == CodeGeneration then was.plan else "")))
  {
    hide Act, SessionFiles, FindSession, StateOk, StoreOk, SessionOk;
    var s := Run(w, actions);
    RunKeeps(w, actions);
    StoreIs(w, s);
    TaskIs(w, s.store, failedId);
    var failed := s.store.tasks[failedId];
    Finds(w, s.store, failed.sessionId);
    SessionIs(w, s.store, failed.sessionId);
    var was := s.store.sessions[failed.sessionId];
    SameFiles(was, was.(status := QueuedStatus(failed.kind)));
  }

  // ------------------------------------------------------------ executing

  // An execution starts by marking its task and its session; it reads the task as it marked it.
  lemma {:induction false} StartDoes(w: World, actions: seq<Action>, job: Job)
    requires LegalRun(w, actions) && job in Run(w, actions).jobs
    ensures var s := Run(w, actions);
      var (r, answer) := Start(s, job);
      job.taskId in s.store.tasks &&
      var was := s.store.tasks[job.taskId];
      var task := was.(status := TaskProcessing, attempt := job.attempt, error := None);
      was.sessionId in s.store.sessions && answer == Done &&
      WroteTask(s.store, r.store, task) &&
      Wrote(s.store, r.store, s.store.sessions[was.sessionId].(
        status := if was.kind == CodeGeneration then CodeGenerationProcessing else Processing)) &&
      r.jobs == s.jobs && r.flights == s.flights + {Flight(job, task)} && r.applies == s.applies
  {
    hide Act, FindSession, StateOk, StoreOk, SessionOk, JobOk;
    var s := Run(w, actions);
    JobTask(w, actions, job);
    var task := s.store.tasks[job.taskId].(status := TaskProcessing, attempt := job.attempt, error := None);
    FindsAfter(w, s.store, task);
  }

  // A task that is put back is queued with the attempt of its job, and so is its session.
  lemma {:induction false} RequeueDoes(w: World, actions: seq<Action>, job: Job, attempt: int)
    requires LegalRun(w, actions) && job in Run(w, actions).jobs
    ensures var s := Run(w, actions);
      var (r, answer) := Requeue(s, job.(attempt := attempt));
      job.taskId in s.store.tasks &&
      var was := s.store.tasks[job.taskId];
      was.sessionId in s.store.sessions && answer == Done &&
      WroteTask(s.store, r.store, was.(status := Queued, attempt := attempt)) &&
      Wrote(s.store, r.store, s.store.sessions[was.sessionId].(
        status := if was.kind == CodeGeneration then CodeGenerationQueued else Generating)) &&
      r.jobs == s.jobs + {job.(attempt := attempt)} && r.flights == s.flights && r.applies == s.applies
  {
    hide Act, FindSession, StateOk, StoreOk, SessionOk, JobOk;
    var s := Run(w, actions);
    JobTask(w, actions, job);
    FindsAfter(w, s.store, s.store.tasks[job.taskId].(status := Queued, attempt := attempt));
  }

  // A failure is recorded in the task and fails its session.
  lemma {:induction false} FailDoes(w: World, actions: seq<Action>, taskId: string, error: TaskError)
    requires LegalRun(w, actions)
    ensures var st := Run(w, actions).store;
      var r := FailTask(st, taskId, error);
      (taskId !in st.tasks ==> r == st) &&
      (taskId in st.tasks ==>
        var was := st.tasks[taskId];
        was.sessionId in st.sessions && WroteTask(st, r, was.(status := TaskFailed, error := Some(error))) &&
        Wrote(st, r, st.sessions[was.sessionId].(status := SessionFailed)))
  {
    hide Act, FindSession, StateOk, StoreOk, SessionOk;
    var s := Run(w, actions);
    RunKeeps(w, actions);
    StoreIs(w, s);
    if taskId in s.store.tasks {
      TaskIs(w, s.store, taskId);
      FindsAfter(w, s.store, s.store.tasks[taskId].(status := TaskFailed, error := Some(error)));
    }
  }

  lemma JobTask(w: World, actions: seq<Action>, job: Job)
    requires LegalRun(w, actions) && job in Run(w, actions).jobs
    ensures var st := Run(w, actions).store;
      StoreOk(w, st) && job.taskId in st.tasks && st.tasks[job.taskId].id == job.taskId &&
      st.tasks[job.taskId].sessionId in st.sessions
  {
    hide Act, StateOk, StoreOk;
    RunKeeps(w, actions);
    var s := Run(w, actions);
    StoreIs(w, s);
    JobIs(w, s, job);
    TaskIs(w, s.store, job.taskId);
  }

  lemma FindsAfter(w: World, st: Store, task: Task)
    requires StoreOk(w, st) && task.sessionId in st.sessions
    ensures FindSession(PutTask(st, task), task.sessionId) == Some(st.sessions[task.sessionId])
    ensures st.sessions[task.sessionId].id == task.sessionId
  {
    hide StoreOk, SessionOk;
    Finds(w, st, task.sessionId);
    SessionIs(w, st, task.sessionId);
    SameLookup(st, task);
  }

  lemma SameLookup(st: Store, task: Task)
    ensures FindSession(PutTask(st, task), task.sessionId) == FindSession(st, task.sessionId)
  {
  }

  // The end of an execution that planned: the task is completed with the plan and the session gets
  // it as a new revision, or the task fails with the engine's error or as invalid output.
  lemma {:induction false} EndPlanDoes(w: World, actions: seq<Action>, f: Flight, reply: PlanReply)
    requires LegalRun(w, actions) && f in Run(w, actions).flights
    ensures var s := Run(w, actions);
      var (r, answer) := EndPlan(w, s, f, reply);
      f.task.sessionId in s.store.sessions && r.jobs == s.jobs && r.flights == s.flights && r.applies == s.applies &&
      var was := s.store.sessions[f.task.sessionId];
      if reply.NoPlan? then r.store == FailTask(s.store, f.task.id, reply.error)
      else if GoTrim(reply.plan) == "" || !w.rules(GoTrim(reply.plan), AllowedPaths(f.job.files, reply.relevant)) then
        r.store == FailTask(s.store, f.task.id, TaskError(422, "invalid_output"))
      else
        WroteTask(s.store, r.store, f.task.(status := Completed, plan := reply.plan)) &&
        Wrote(s.store, r.store, was.(plan := reply.plan, status := PlanGenerated, revision := was.revision + 1))
  {
    hide Act, GoTrim, AllowedPaths, FindSession, StateOk, StoreOk, SessionOk, FailTask, JobOk;
    var s := Run(w, actions);
    RunKeeps(w, actions);
    StoreIs(w, s);
    FlightTask(w, s, f);
    if reply.Plan? {
      FindsAfter(w, s.store, f.task.(status := Completed, plan := reply.plan));
    }
  }

  lemma FlightTask(w: World, s: State, f: Flight)
    requires StateOk(w, s) && f in s.flights
    ensures f.task.id == f.job.taskId && f.task.sessionId in s.store.sessions
  {
    hide StoreOk;
    FlightIs(w, s, f);
  }

  // The end of one that generated files.
  lemma {:induction false} EndFilesDoes(w: World, actions: seq<Action>, f: Flight, reply: FilesReply)
    requires LegalRun(w, actions) && f in Run(w, actions).flights
    ensures var s := Run(w, actions);
      var (r, answer) := EndFiles(w, s, f, reply);
      f.task.sessionId in s.store.sessions && r.jobs == s.jobs && r.flights == s.flights && r.applies == s.applies &&
      var was := s.store.sessions[f.task.sessionId];
      if reply.NoFiles? then r.store == FailTask(s.store, f.task.id, reply.error)
      else
        match Generated(reply.ops, f.job.files, w.partial)
        case Contract(files) =>
          WroteTask(s.store, r.store, f.task.(status := Completed)) &&
          Wrote(s.store, r.store, was.(contract := Some(files), apply := Unapplied, status := CodeGenerated))
        case _ => r.store == FailTask(s.store, f.task.id, TaskError(422, "invalid_generated_files"))
  {
    hide Act, Generated, FindSession, StateOk, StoreOk, SessionOk, FailTask, JobOk;
    var s := Run(w, actions);
    RunKeeps(w, actions);
    StoreIs(w, s);
    FlightTask(w, s, f);
    FindsAfter(w, s.store, f.task.(status := Completed));
  }

  // ------------------------------------------------------------ a publish that fails

  // The state an operation leaves when its job cannot be published, given what it leaves when it
  // can: the task it created and its session fail, and the job may be queued all the same.
  ghost predicate FailsInstead(s: State, published: State, r: State, taskId: string, pub: Publication) {
    r == published.(store := FailTask(published.store, taskId, TaskError(502, "agent_engine_error")),
                    jobs := if pub == Failed then s.jobs else published.jobs)
  }

  lemma ApprovalUnpublished(w: World, s: State, pub: Publication, taskId: string, name: string, edited: Option<string>)
    requires pub != Published && Approve(w, s, name, edited, taskId, Published).1 == Done
    ensures var ((published, _), (r, answer)) :=
        (Approve(w, s, name, edited, taskId, Published), Approve(w, s, name, edited, taskId, pub));
      answer == NotDispatched && FailsInstead(s, published, r, taskId, pub)
  {
    hide FailTask, FindSession, PutSession, SessionFiles, GoTrim, ValidatePlan, AllowedPaths;
  }

  lemma CorrectionUnpublished(s: State, pub: Publication, taskId: string, name: string, text: string)
    requires pub != Published && Correct(s, name, text, taskId, Published).1 == Done
    ensures var ((published, _), (r, answer)) :=
        (Correct(s, name, text, taskId, Published), Correct(s, name, text, taskId, pub));
      answer == NotDispatched && FailsInstead(s, published, r, taskId, pub)
  {
    hide FailTask, FindSession, PutSession, SessionFiles, GoTrim;
  }

  lemma RetryUnpublished(s: State, pub: Publication, taskId: string, failedId: string)
    requires pub != Published && Retry(s, failedId, taskId, Published).1 == Done
    ensures var ((published, _), (r, answer)) :=
        (Retry(s, failedId, taskId, Published), Retry(s, failedId, taskId, pub));
      answer == NotDispatched && FailsInstead(s, published, r, taskId, pub)
  {
    hide FailTask, FindSession, PutSession, SessionFiles, Recoverable;
  }

  lemma AnalysisUnpublished(s: State, pub: Publication, taskId: string, req: Request, sessionId: string)
    requires pub != Published && taskId !in s.store.tasks
    requires taskId in Analyze(s, req, sessionId, taskId, Published).0.store.tasks
    ensures var ((published, _), (r, answer)) :=
        (Analyze(s, req, sessionId, taskId, Published), Analyze(s, req, sessionId, taskId, pub));
      answer == NotDispatched && FailsInstead(s, published, r, taskId, pub)
  {
    hide FailTask, PutSession, SessionFiles, HasTask;
  }

  // ------------------------------------------------------------ applying

  // The answer before GitFlame is called, in the order of the checks; a request that is made holds
  // the session as it is stored and all of its files.
  lemma {:induction false} ApplyStartDoes(w: World, actions: seq<Action>, name: string, client: bool, id: string)
    requires LegalRun(w, actions) && Named(Run(w, actions).store, name, id)
    ensures var s := Run(w, actions);
      var (r, answer) := ApplyStart(s, name, client);
      var was := s.store.sessions[id];
      r.store == s.store && r.jobs == s.jobs && r.flights == s.flights &&
      if was.contract == None || was.contract == Some([]) then answer == FilesNotReady && r == s
      else if was.apply == Applied then answer == AlreadyApplied && r == s
      else if !client then answer == NoClient && r == s
      else answer == Done && r.applies == s.applies + {Applying(was, was.contract.value)}
  {
    hide Act, FindSession, StateOk, SessionOk, DropNoop, ContentByPath;
    var s := Run(w, actions);
    RunKeeps(w, actions);
    NamedIs(w, s, name, id);
    if HasFiles(s.store.sessions[id]) {
      SendsAll(w, s, name);
    }
  }

  // What an answer of GitFlame writes: the session as it was read, with the outcome, and the
  // operations marked when they were applied.
  lemma {:induction false} ApplyEndDoes(w: World, actions: seq<Action>, a: Applying, ok: bool)
    requires LegalRun(w, actions) && a in Run(w, actions).applies
    ensures var s := Run(w, actions);
      HasFiles(a.session) &&
      var r := ApplyEnd(s, a, ok).0;
      a.session.id in r.store.sessions &&
      var now, was := r.store.sessions[a.session.id], a.session;
      Wrote(s.store, r.store, now) && r == s.(store := r.store) && r.store.tasks == s.store.tasks &&
      now == was.(contract := now.contract, apply := if ok then Applied else ApplyFailed) &&
      now.contract.Some? && |now.contract.value| == |was.contract.value| &&
      forall i :: 0 <= i < |now.contract.value| ==>
        now.contract.value[i] == was.contract.value[i].(status := if ok then "applied" else was.contract.value[i].status)
  {
    hide Act, StateOk;
    RunKeeps(w, actions);
    ApplyIs(w, Run(w, actions), a);
  }

  // ------------------------------------------------------------ names and paths

  // A name that stands for no session changes nothing.
  lemma NobodyNamed(w: World, s: State, name: string, text: string, edited: Option<string>, taskId: string, client: bool,
                    pub: Publication)
    requires var key := if name in s.store.index then s.store.index[name] else name; key !in s.store.sessions
    ensures Approve(w, s, name, edited, taskId, pub) == (s, NotFound) && Reject(s, name) == (s, NotFound)
    ensures Correct(s, name, text, taskId, pub) == (s, if GoTrim(text) == "" then EmptyFeedback else NotFound)
    ensures ApplyStart(s, name, client) == (s, NotFound)
  {
    hide GoTrim, ValidatePlan, AllowedPaths;
  }

  // A plan may cite the normalised paths of the files and those the generator reported.
  lemma AllowedExactly(files: seq<RepoFile>, relevant: seq<string>, p: string)
    ensures p in AllowedPaths(files, relevant) <==>
      (exists i :: 0 <= i < |files| && NormalizePlanPath(files[i].path) == p) ||
      (exists q :: q in relevant && NormalizePlanPath(q) == p)
  {
    hide NormalizePlanPath;
    StoredPaths(files, p);
  }
}
