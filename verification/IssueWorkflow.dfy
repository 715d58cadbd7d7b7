// The issue workflow over a map-like store: what each operation reads, changes and stores, and
// what it dispatches.  A call of the generator splits ExecuteTask into two segments, and a call of
// GitFlame splits the request that applies a contract; between segments anything else may happen,
// and a job may be executed any number of times.
module IssueWorkflow {
  import opened Collections
  import opened Text
  import opened PlanPaths
  import opened GeneratedFiles
  import opened FileContract

  datatype SessionStatus =
    | Generating | Processing | PlanGenerated | Approved | CodeGenerationQueued | CodeGenerationProcessing
    | CodeGenerated | CorrectionRequested | SessionRejected | SessionFailed

  datatype TaskKind = InitialPlan | PlanRevision | CodeGeneration

  datatype TaskStatus = Queued | TaskProcessing | Completed | TaskFailed

  datatype TaskError = TaskError(httpStatus: int, code: string)

  // What became of the contract; the empty status of the source is Unapplied.
  datatype ApplyStatus = Unapplied | Applied | ApplyFailed

  datatype Session = Session(
    id: string, repositoryId: string, issueId: string, uploaded: seq<RepoFile>, legacy: seq<string>,
    status: SessionStatus, plan: string, revision: int, feedback: seq<string>,
    contract: Option<seq<FileOp>>, apply: ApplyStatus)

  datatype Task = Task(id: string, sessionId: string, kind: TaskKind, status: TaskStatus, attempt: int,
                       error: Option<TaskError>, plan: string)

  // What is published for a worker; plan is the approved plan of a code generation.
  datatype Job = Job(taskId: string, sessionId: string, kind: TaskKind, attempt: int, files: seq<RepoFile>,
                     previousPlan: Option<string>, feedback: Option<string>, plan: string)

  // An execution between its two segments: the job, and the task as it was read.
  datatype Flight = Flight(job: Job, task: Task)

  // A request to apply a contract, while GitFlame works on it: the session as it was read, and
  // the operations that were sent.
  datatype Applying = Applying(session: Session, sent: seq<FileOp>)

  datatype Store = Store(sessions: map<string, Session>, tasks: map<string, Task>, index: map<string, string>)

  // jobs: everything ever dispatched; flights: every execution that reached the generator;
  // applies: every request that reached GitFlame.
  datatype State = State(store: Store, jobs: set<Job>, flights: set<Flight>, applies: set<Applying>)

  // The structural rules for a plan, which may cite the allowed paths, and the size thresholds
  // for incomplete files.
  datatype World = World(rules: (string, set<string>) -> bool, partial: Partial)

  datatype Answer =
    | Done | NotFound | WrongStatus | EmptyFeedback | EmptyPlan | BadPlan | NotRetryable | NotDispatched
    | EngineFailed | BadOutput | FilesNotReady | AlreadyApplied | NoEffect | NoClient | ApplyError

  datatype Request = Request(repositoryId: string, issueId: string, uploaded: seq<RepoFile>, legacy: seq<string>)

  // The publish succeeds, fails, or fails although the job was queued.
  datatype Publication = Published | Failed | FailedButQueued

  // ------------------------------------------------------------ the store

  function SessionKey(repositoryId: string, issueId: string): string {
    repositoryId + "\0" + issueId
  }

  function SessionFiles(s: Session): seq<RepoFile> {
    FilesForSession(s.uploaded, s.legacy)
  }

  // An id is first looked up as an issue, then as a session.
  function FindSession(st: Store, id: string): Option<Session> {
    var key := if id in st.index then st.index[id] else id;
    if key in st.sessions then Some(st.sessions[key]) else None
  }

  function PutSession(st: Store, s: Session): Store {
    st.(sessions := st.sessions[s.id := s],
        index := st.index[s.issueId := s.id][SessionKey(s.repositoryId, s.issueId) := s.id])
  }

  function PutTask(st: Store, t: Task): Store {
    st.(tasks := st.tasks[t.id := t])
  }

  function NewSession(id: string, req: Request): Session {
    Session(id, req.repositoryId, req.issueId, req.uploaded, req.legacy, Generating, "", 0, [], None, Unapplied)
  }

  function NewTask(id: string, sessionId: string, kind: TaskKind): Task {
    Task(id, sessionId, kind, Queued, 1, None, "")
  }

  predicate HasTask(st: Store, sessionId: string) {
    exists id :: id in st.tasks && st.tasks[id].sessionId == sessionId
  }

  // ------------------------------------------------------------ plans

  function AllowedPaths(files: seq<RepoFile>, relevant: seq<string>): set<string> {
    ContentByPath(files).Keys + set p | p in relevant :: NormalizePlanPath(p)
  }

  predicate ValidatePlan(w: World, plan: string, allowed: set<string>) {
    !IsBlank(plan) && w.rules(GoTrim(plan), allowed)
  }

  // A plan that passed the rules against the session's files and, perhaps, paths the generator
  // reported as relevant.
  ghost predicate PlanPassed(w: World, plan: string, files: seq<RepoFile>) {
    exists relevant: seq<string> :: ValidatePlan(w, plan, AllowedPaths(files, relevant))
  }

  // ------------------------------------------------------------ the operations

  function QueuedStatus(kind: TaskKind): SessionStatus {
    if kind == CodeGeneration then CodeGenerationQueued else Generating
  }

  function ProcessingStatus(kind: TaskKind): SessionStatus {
    if kind == CodeGeneration then CodeGenerationProcessing else Processing
  }

  predicate Recoverable(e: TaskError) {
    e.httpStatus == 503 || e.httpStatus == 504 ||
    (e.httpStatus == 502 && (e.code == "agent_engine_unreachable" || e.code == "agent_engine_error"))
  }

  function FailTask(st: Store, taskId: string, error: TaskError): Store {
    if taskId !in st.tasks then st
    else
      var task := st.tasks[taskId].(status := TaskFailed, error := Some(error));
      var st1 := PutTask(st, task);
      var session := FindSession(st1, task.sessionId);
      if session.None? then st1 else PutSession(st1, session.value.(status := SessionFailed))
  }

  const DISPATCH_ERROR := TaskError(502, "agent_engine_error")

  const INVALID_OUTPUT := TaskError(422, "invalid_output")

  const INVALID_FILES := TaskError(422, "invalid_generated_files")

  function Dispatch(s: State, job: Job, pub: Publication): (State, Answer) {
    var s1 := if pub == Failed then s else s.(jobs := s.jobs + {job});
    if pub == Published then (s1, Done) else (s1.(store := FailTask(s1.store, job.taskId, DISPATCH_ERROR)), NotDispatched)
  }

  function PlanJob(task: Task, session: Session, previousPlan: Option<string>, feedback: Option<string>): Job {
    Job(task.id, session.id, task.kind, task.attempt, SessionFiles(session), previousPlan, feedback, "")
  }

  function CodeJob(task: Task, session: Session): Job {
    Job(task.id, session.id, task.kind, task.attempt, SessionFiles(session), None, None, session.plan)
  }

  // A new session gets a first task; a known one only when it has none and waits for one.
  function Analyze(s: State, req: Request, sessionId: string, taskId: string, pub: Publication): (State, Answer) {
    var key := SessionKey(req.repositoryId, req.issueId);
    var known := key in s.store.index && s.store.index[key] in s.store.sessions;
    var session := if known then s.store.sessions[s.store.index[key]] else NewSession(sessionId, req);
    if known && HasTask(s.store, session.id) then (s, Done)
    else if known && session.status != Generating then (s, NotFound)
    else
      var st := if known then s.store else PutSession(s.store, session);
      var task := NewTask(taskId, session.id, InitialPlan);
      Dispatch(s.(store := PutTask(st, task)), PlanJob(task, session, None, None), pub)
  }

  function Correct(s: State, issueId: string, feedback: string, taskId: string, pub: Publication): (State, Answer) {
    if IsBlank(feedback) then (s, EmptyFeedback)
    else
      var found := FindSession(s.store, issueId);
      if found.None? then (s, NotFound)
      else if found.value.status != PlanGenerated then (s, WrongStatus)
      else
        var session := found.value.(status := CorrectionRequested, feedback := found.value.feedback + [feedback]);
        var task := NewTask(taskId, session.id, PlanRevision);
        var st := PutTask(PutSession(s.store, session), task);
        Dispatch(s.(store := st), PlanJob(task, session, Some(session.plan), Some(feedback)), pub)
  }

  function Retry(s: State, failedId: string, taskId: string, pub: Publication): (State, Answer) {
    if failedId !in s.store.tasks then (s, NotFound)
    else
      var failed := s.store.tasks[failedId];
      if failed.status != TaskFailed || failed.error.None? || !Recoverable(failed.error.value) then (s, NotRetryable)
      else
        var found := FindSession(s.store, failed.sessionId);
        if found.None? then (s, NotFound)
        else
          var session := found.value.(status := QueuedStatus(failed.kind));
          var task := NewTask(taskId, session.id, failed.kind).(attempt := failed.attempt + 1);
          var revising := failed.kind == PlanRevision;
          var last := |session.feedback| - 1;
          var job :=
            if failed.kind == CodeGeneration then CodeJob(task, session)
            else PlanJob(task, session, if revising then Some(session.plan) else None,
                         if revising && last >= 0 then Some(session.feedback[last]) else None);
          Dispatch(s.(store := PutSession(PutTask(s.store, task), session)), job, pub)
  }

  function Approve(w: World, s: State, issueId: string, edited: Option<string>, taskId: string,
                   pub: Publication): (State, Answer) {
    var found := FindSession(s.store, issueId);
    if found.None? then (s, NotFound)
    else if found.value.status != PlanGenerated then (s, WrongStatus)
    else
      var plan := if edited.Some? then GoTrim(edited.value) else found.value.plan;
      if edited.Some? && plan == "" then (s, EmptyPlan)
      else if plan != found.value.plan && !ValidatePlan(w, plan, AllowedPaths(SessionFiles(found.value), [])) then (s, BadPlan)
      else
        var revision := if plan != found.value.plan then found.value.revision + 1 else found.value.revision;
        var session := found.value.(plan := plan, revision := revision, contract := Some([]), apply := Unapplied,
                                    status := CodeGenerationQueued);
        var task := NewTask(taskId, session.id, CodeGeneration);
        Dispatch(s.(store := PutTask(PutSession(s.store, session), task)), CodeJob(task, session), pub)
  }

  function Reject(s: State, issueId: string): (State, Answer) {
    var found := FindSession(s.store, issueId);
    if found.None? then (s, NotFound)
    else if found.value.status in {Approved, CodeGenerationQueued, CodeGenerationProcessing, CodeGenerated} then (s, WrongStatus)
    else (s.(store := PutSession(s.store, found.value.(status := SessionRejected))), Done)
  }

  // ExecuteTask up to the call of the generator.
  function Start(s: State, job: Job): (State, Answer) {
    if job.taskId !in s.store.tasks then (s, NotFound)
    else
      var task := s.store.tasks[job.taskId].(status := TaskProcessing, attempt := job.attempt, error := None);
      var st := PutTask(s.store, task);
      var found := FindSession(st, task.sessionId);
      if found.None? then (s.(store := st), NotFound)
      else
        (s.(store := PutSession(st, found.value.(status := ProcessingStatus(task.kind))),
            flights := s.flights + {Flight(job, task)}), Done)
  }

  datatype PlanReply = Plan(plan: string, relevant: seq<string>) | NoPlan(error: TaskError)

  datatype FilesReply = Files(ops: seq<FileOp>) | NoFiles(error: TaskError)

  // ... and from its answer on, for a plan
  function EndPlan(w: World, s: State, f: Flight, reply: PlanReply): (State, Answer) {
    if reply.NoPlan? then (s.(store := FailTask(s.store, f.job.taskId, reply.error)), EngineFailed)
    else if !ValidatePlan(w, reply.plan, AllowedPaths(f.job.files, reply.relevant)) then
      (s.(store := FailTask(s.store, f.job.taskId, INVALID_OUTPUT)), BadOutput)
    else
      var st := PutTask(s.store, f.task.(status := Completed, plan := reply.plan));
      var found := FindSession(st, f.task.sessionId);
      if found.None? then (s.(store := st), NotFound)
      else
        var session := found.value.(plan := reply.plan, status := PlanGenerated, revision := found.value.revision + 1);
        (s.(store := PutSession(st, session)), Done)
  }

  // ... and for generated files.
  ghost function EndFiles(w: World, s: State, f: Flight, reply: FilesReply): (State, Answer) {
    if reply.NoFiles? then (s.(store := FailTask(s.store, f.job.taskId, reply.error)), EngineFailed)
    else
      var outcome := Generated(reply.ops, f.job.files, w.partial);
      if !outcome.Contract? then (s.(store := FailTask(s.store, f.job.taskId, INVALID_FILES)), BadOutput)
      else
        var st := PutTask(s.store, f.task.(status := Completed));
        var found := FindSession(st, f.task.sessionId);
        if found.None? then (s.(store := st), NotFound)
        else
          var session := found.value.(contract := Some(outcome.files), apply := Unapplied, status := CodeGenerated);
          (s.(store := PutSession(st, session)), Done)
  }

  // RetryTask: the worker puts a task back before it publishes the job again.
  function Requeue(s: State, job: Job): (State, Answer) {
    if job.taskId !in s.store.tasks then (s, NotFound)
    else
      var task := s.store.tasks[job.taskId].(status := Queued, attempt := job.attempt);
      var st := PutTask(s.store, task);
      var found := FindSession(st, task.sessionId);
      if found.None? then (s.(store := st), NotFound)
      else (s.(store := PutSession(st, found.value.(status := QueuedStatus(task.kind))), jobs := s.jobs + {job}), Done)
  }

  // ------------------------------------------------------------ applying the contract

  predicate HasFiles(s: Session) {
    s.contract.Some? && s.contract.value != []
  }

  function WithStatus(files: seq<FileOp>, status: string): (r: seq<FileOp>)
    ensures |r| == |files| && forall i :: 0 <= i < |r| ==> r[i] == files[i].(status := status)
  {
    seq(|files|, i requires 0 <= i < |files| => files[i].(status := status))
  }

  function Marked(s: Session, apply: ApplyStatus, status: string): Session
    requires HasFiles(s)
  {
    s.(apply := apply, contract := Some(WithStatus(s.contract.value, status)))
  }

  // The handler up to the call of GitFlame, for which there may be no client.
  function ApplyStart(s: State, id: string, client: bool): (State, Answer) {
    var found := FindSession(s.store, id);
    if found.None? then (s, NotFound)
    else if !HasFiles(found.value) then (s, FilesNotReady)
    else if found.value.apply == Applied then (s, AlreadyApplied)
    else
      var sent := DropNoop(found.value.contract.value, ContentByPath(found.value.uploaded));
      if sent == [] then (s.(store := PutSession(s.store, Marked(found.value, ApplyFailed, "skipped"))), NoEffect)
      else if !client then (s, NoClient)
      else (s.(applies := s.applies + {Applying(found.value, sent)}), Done)
  }

  // ... and from its answer on: the session is stored as it was read, with the outcome.
  function ApplyEnd(s: State, a: Applying, ok: bool): (State, Answer)
    requires HasFiles(a.session)
  {
    if ok then (s.(store := PutSession(s.store, Marked(a.session, Applied, "applied"))), Done)
    else (s.(store := PutSession(s.store, a.session.(apply := ApplyFailed))), ApplyError)
  }

  // ------------------------------------------------------------ runs

  datatype Action =
    | DoAnalyze(req: Request, sessionId: string, taskId: string, pub: Publication)
    | DoCorrect(issueId: string, text: string, taskId: string, pub: Publication)
    | DoRetry(failedId: string, taskId: string, pub: Publication)
    | DoApprove(issueId: string, edited: Option<string>, taskId: string, pub: Publication)
    | DoReject(issueId: string)
    | DoStart(job: Job)
    | DoEndPlan(flight: Flight, planReply: PlanReply)
    | DoEndFiles(flight: Flight, filesReply: FilesReply)
    | DoRequeue(job: Job, attempt: int)
    | DoApplyStart(issueId: string, client: bool)
    | DoApplyEnd(applying: Applying, applied: bool)

  // Only what was dispatched is executed, and only what was started ends, with the reply of
  // the generator its task asks for.  A started request holds a contract with files.
  ghost function Act(w: World, s: State, a: Action): State {
    match a
    case DoAnalyze(req, sessionId, taskId, pub) => Analyze(s, req, sessionId, taskId, pub).0
    case DoCorrect(issueId, text, taskId, pub) => Correct(s, issueId, text, taskId, pub).0
    case DoRetry(failedId, taskId, pub) => Retry(s, failedId, taskId, pub).0
    case DoApprove(issueId, edited, taskId, pub) => Approve(w, s, issueId, edited, taskId, pub).0
    case DoReject(issueId) => Reject(s, issueId).0
    case DoStart(job) => if job in s.jobs then Start(s, job).0 else s
    case DoEndPlan(f, reply) => if f in s.flights && f.task.kind != CodeGeneration then EndPlan(w, s, f, reply).0 else s
    case DoEndFiles(f, reply) => if f in s.flights && f.task.kind == CodeGeneration then EndFiles(w, s, f, reply).0 else s
    case DoRequeue(job, attempt) => if job in s.jobs then Requeue(s, job.(attempt := attempt)).0 else s
    case DoApplyStart(issueId, client) => ApplyStart(s, issueId, client).0
    case DoApplyEnd(a, ok) => if a in s.applies && HasFiles(a.session) then ApplyEnd(s, a, ok).0 else s
  }

  ghost function Run(w: World, actions: seq<Action>): State {
    if actions == [] then State(Store(map[], map[], map[]), {}, {}, {})
    else Act(w, Run(w, actions[..|actions| - 1]), actions[|actions| - 1])
  }
}
