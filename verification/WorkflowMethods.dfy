// The store and the workflow as objects: the methods read, change and store sessions and tasks
// step by step, and end where the specification functions say.
module WorkflowMethods {
  import opened Collections
  import opened Text
  import opened GeneratedFiles
  import opened FileContract
  import opened IssueWorkflow
  import Spec = IssueWorkflow

  // A later write of a session or a task replaces the earlier one.
  lemma PutSessionTwice(st: Store, a: Session, b: Session)
    requires a.id == b.id && a.issueId == b.issueId && a.repositoryId == b.repositoryId
    ensures PutSession(PutSession(st, a), b) == PutSession(st, b)
  {
    var r, t := PutSession(PutSession(st, a), b), PutSession(st, b);
    assert r.sessions == t.sessions && r.index == t.index;
  }

  lemma PutTaskTwice(st: Store, a: Task, b: Task)
    requires a.id == b.id
    ensures PutTask(PutTask(st, a), b) == PutTask(st, b)
  {
    assert PutTask(PutTask(st, a), b).tasks == PutTask(st, b).tasks;
  }

  lemma PutSwap(st: Store, t: Task, s: Session)
    ensures PutSession(PutTask(st, t), s) == PutTask(PutSession(st, s), t)
  {
  }

  // The in-memory store.  Values are copied in and out, so nobody shares them.
  class MemoryStore {
    var sessions: map<string, Session>
    var tasks: map<string, Task>
    var issueIndex: map<string, string>

    constructor ()
      ensures Now() == Store(map[], map[], map[]) && Valid()
    {
      sessions, tasks, issueIndex := map[], map[], map[];
    }

    ghost function Now(): Store
      reads this
    {
      Store(sessions, tasks, issueIndex)
    }

    // What the index names exists.
    ghost predicate Valid()
      reads this
    {
      forall key :: key in issueIndex ==> issueIndex[key] in sessions
    }

    method CreateSession(req: Request, newId: string) returns (session: Session, created: bool)
      requires Valid()
      modifies this
      ensures Valid()
      ensures var key := SessionKey(req.repositoryId, req.issueId);
        if key in old(issueIndex) then
          !created && Now() == old(Now()) && old(issueIndex)[key] in sessions && session == sessions[old(issueIndex)[key]]
        else created && session == NewSession(newId, req) && Now() == PutSession(old(Now()), session)
    {
      var key := SessionKey(req.repositoryId, req.issueId);
      if key in issueIndex {
        return sessions[issueIndex[key]], false;
      }
      session := NewSession(newId, req);
      sessions := sessions[session.id := session];
      issueIndex := issueIndex[req.issueId := session.id];
      issueIndex := issueIndex[key := session.id];
      return session, true;
    }

    method GetSession(id: string) returns (session: Option<Session>)
      ensures session == FindSession(Now(), id)
    {
      var key := id;
      if id in issueIndex {
        key := issueIndex[id];
      }
      if key !in sessions {
        return None;
      }
      return Some(sessions[key]);
    }

    method UpdateSession(v: Session)
      requires Valid()
      modifies this
      ensures Valid() && Now() == PutSession(old(Now()), v)
    {
      sessions := sessions[v.id := v];
      issueIndex := issueIndex[v.issueId := v.id];
      issueIndex := issueIndex[SessionKey(v.repositoryId, v.issueId) := v.id];
    }

    method CreateTask(newId: string, sessionId: string, kind: TaskKind) returns (task: Task)
      requires Valid()
      modifies this
      ensures Valid() && task == NewTask(newId, sessionId, kind) && Now() == PutTask(old(Now()), task)
    {
      task := NewTask(newId, sessionId, kind);
      tasks := tasks[newId := task];
    }

    method GetTask(id: string) returns (task: Option<Task>)
      ensures task == if id in tasks then Some(tasks[id]) else None
    {
      return if id in tasks then Some(tasks[id]) else None;
    }

    // LatestTask, as far as its caller looks: whether there is a task of the session.
    method LatestTaskExists(sessionId: string) returns (found: bool)
      ensures found <==> HasTask(Now(), sessionId)
    {
      var left := tasks.Keys;
      while left != {}
        invariant left <= tasks.Keys
        invariant forall id :: id in tasks && id !in left ==> tasks[id].sessionId != sessionId
        decreases |left|
      {
        var id :| id in left;
        if tasks[id].sessionId == sessionId {
          return true;
        }
        left := left - {id};
      }
      return false;
    }

    method UpdateTask(v: Task)
      requires Valid()
      modifies this
      ensures Valid() && Now() == PutTask(old(Now()), v)
    {
      tasks := tasks[v.id := v];
    }
  }

  class Workflow {
    const store: MemoryStore
    const world: World
    var jobs: set<Job>
    var flights: set<Flight>
    var applies: set<Applying>

    constructor (store: MemoryStore, world: World)
      requires store.Valid()
      ensures this.store == store && this.world == world && jobs == {} && flights == {} && applies == {} && Valid()
    {
      this.store, this.world, jobs, flights, applies := store, world, {}, {}, {};
    }

    ghost predicate Valid()
      reads this, store
    {
      store.Valid()
    }

    ghost function Now(): State
      reads this, store
    {
      State(store.Now(), jobs, flights, applies)
    }

    // The publish of a job; a job whose publish failed may be queued all the same.
    method Publish(job: Job, pub: Publication) returns (ok: bool)
      modifies this
      ensures ok == (pub == Published) && flights == old(flights) && applies == old(applies)
      ensures jobs == old(jobs) + if pub == Failed then {} else {job}
    {
      if pub != Failed {
        jobs := jobs + {job};
      }
      return pub == Published;
    }

    method Dispatch(job: Job, pub: Publication) returns (answer: Answer)
      requires Valid()
      modifies this, store
      ensures Valid() && (Now(), answer) == Spec.Dispatch(old(Now()), job, pub)
    {
      var ok := Publish(job, pub);
      assert jobs == if pub == Failed then old(jobs) else old(jobs) + {job};
      if !ok {
        FailTask(job.taskId, DISPATCH_ERROR);
        return NotDispatched;
      }
      return Done;
    }

    method FailTask(taskId: string, error: TaskError)
      requires Valid()
      modifies store
      ensures Valid() && store.Now() == Spec.FailTask(old(store.Now()), taskId, error)
    {
      var task := store.GetTask(taskId);
      if task.None? {
        return;
      }
      var failed := task.value.(status := TaskFailed, error := Some(error));
      store.UpdateTask(failed);
      var session := store.GetSession(failed.sessionId);
      if session.Some? {
        store.UpdateSession(session.value.(status := SessionFailed));
      }
    }

    method Analyze(req: Request, sessionId: string, taskId: string, pub: Publication) returns (answer: Answer)
      requires Valid()
      modifies this, store
      ensures Valid() && (Now(), answer) == Spec.Analyze(old(Now()), req, sessionId, taskId, pub)
    {
      hide Spec.FailTask, FindSession, SessionFiles;
      var session, created := store.CreateSession(req, sessionId);
      if !created {
        var found := store.LatestTaskExists(session.id);
        if found {
          return Done;
        }
        if session.status != Generating {
          return NotFound;
        }
      }
      var task := store.CreateTask(taskId, session.id, InitialPlan);
      answer := Dispatch(PlanJob(task, session, None, None), pub);
    }

    method Correct(issueId: string, feedback: string, taskId: string, pub: Publication) returns (answer: Answer)
      requires Valid()
      modifies this, store
      ensures Valid() && (Now(), answer) == Spec.Correct(old(Now()), issueId, feedback, taskId, pub)
    {
      hide Spec.FailTask, SessionFiles, IsBlank;
      if IsBlank(feedback) {
        return EmptyFeedback;
      }
      var found := store.GetSession(issueId);
      if found.None? {
        return NotFound;
      }
      var session := found.value;
      if session.status != PlanGenerated {
        return WrongStatus;
      }
      session := session.(status := CorrectionRequested);
      session := session.(feedback := session.feedback + [feedback]);
      store.UpdateSession(session);
      var task := store.CreateTask(taskId, session.id, PlanRevision);
      answer := Dispatch(PlanJob(task, session, Some(session.plan), Some(feedback)), pub);
    }

    method Retry(failedId: string, taskId: string, pub: Publication) returns (answer: Answer)
      requires Valid()
      modifies this, store
      ensures Valid() && (Now(), answer) == Spec.Retry(old(Now()), failedId, taskId, pub)
    {
      hide Spec.FailTask, SessionFiles, Recoverable;
      var failed := store.GetTask(failedId);
      if failed.None? {
        return NotFound;
      }
      if failed.value.status != TaskFailed || failed.value.error.None? || !Recoverable(failed.value.error.value) {
        return NotRetryable;
      }
      var found := store.GetSession(failed.value.sessionId);
      if found.None? {
        return NotFound;
      }
      var session := found.value;
      var task := store.CreateTask(taskId, session.id, failed.value.kind);
      ghost var queued := task;
      task := task.(attempt := failed.value.attempt + 1);
      store.UpdateTask(task);
      PutTaskTwice(old(store.Now()), queued, task);
      session := session.(status := QueuedStatus(failed.value.kind));
      store.UpdateSession(session);
      var previousPlan, feedback := None, None;
      if failed.value.kind == PlanRevision {
        previousPlan := Some(session.plan);
        if |session.feedback| > 0 {
          feedback := Some(session.feedback[|session.feedback| - 1]);
        }
      }
      var job := PlanJob(task, session, previousPlan, feedback);
      if failed.value.kind == CodeGeneration {
        job := CodeJob(task, session);
      }
      answer := Dispatch(job, pub);
    }

    method Approve(issueId: string, edited: Option<string>, taskId: string, pub: Publication) returns (answer: Answer)
      requires Valid()
      modifies this, store
      ensures Valid() && (Now(), answer) == Spec.Approve(world, old(Now()), issueId, edited, taskId, pub)
    {
      hide Spec.FailTask, SessionFiles, GoTrim, ValidatePlan, AllowedPaths;
      var found := store.GetSession(issueId);
      if found.None? {
        return NotFound;
      }
      var session := found.value;
      if session.status != PlanGenerated {
        return WrongStatus;
      }
      if edited.Some? {
        var plan := GoTrim(edited.value);
        if plan == "" {
          return EmptyPlan;
        }
        if plan != session.plan {
          if !ValidatePlan(world, plan, AllowedPaths(SessionFiles(session), [])) {
            return BadPlan;
          }
          session := session.(plan := plan);
          session := session.(revision := session.revision + 1);
          store.UpdateSession(session);
        }
      }
      ghost var edit := session;
      session := session.(contract := Some([]), apply := Unapplied);
      session := session.(status := Approved);
      store.UpdateSession(session);
      var task := store.CreateTask(taskId, session.id, CodeGeneration);
      ghost var approved := session;
      session := session.(status := CodeGenerationQueued);
      store.UpdateSession(session);
      PutSessionTwice(old(store.Now()), edit, approved);
      PutSessionTwice(old(store.Now()), approved, session);
      PutSwap(PutSession(old(store.Now()), approved), task, session);
      answer := Dispatch(CodeJob(task, session), pub);
    }

    method Reject(issueId: string) returns (answer: Answer)
      requires Valid()
      modifies store
      ensures Valid() && (Now(), answer) == Spec.Reject(old(Now()), issueId)
    {
      var found := store.GetSession(issueId);
      if found.None? {
        return NotFound;
      }
      var status := found.value.status;
      if status == Approved || status == CodeGenerationQueued || status == CodeGenerationProcessing || status == CodeGenerated {
        return WrongStatus;
      }
      store.UpdateSession(found.value.(status := SessionRejected));
      return Done;
    }

    // ExecuteTask up to the call of the generator.
    method Start(job: Job) returns (answer: Answer)
      requires Valid()
      modifies this, store
      ensures Valid() && (Now(), answer) == Spec.Start(old(Now()), job)
    {
      var found := store.GetTask(job.taskId);
      if found.None? {
        return NotFound;
      }
      var task := found.value.(status := TaskProcessing, attempt := job.attempt, error := None);
      store.UpdateTask(task);
      var session := store.GetSession(task.sessionId);
      if session.None? {
        return NotFound;
      }
      store.UpdateSession(session.value.(status := ProcessingStatus(task.kind)));
      flights := flights + {Flight(job, task)};
      return Done;
    }

    // executePlanTask from the generator's answer on.
    method EndPlan(f: Flight, reply: PlanReply) returns (answer: Answer)
      requires Valid()
      modifies store
      ensures Valid() && (Now(), answer) == Spec.EndPlan(world, old(Now()), f, reply)
    {
      hide Spec.FailTask, ValidatePlan, AllowedPaths;
      if reply.NoPlan? {
        FailTask(f.job.taskId, reply.error);
        return EngineFailed;
      }
      if !ValidatePlan(world, reply.plan, AllowedPaths(f.job.files, reply.relevant)) {
        FailTask(f.job.taskId, INVALID_OUTPUT);
        return BadOutput;
      }
      store.UpdateTask(f.task.(status := Completed, plan := reply.plan));
      var found := store.GetSession(f.task.sessionId);
      if found.None? {
        return NotFound;
      }
      var session := found.value.(plan := reply.plan, status := PlanGenerated);
      session := session.(revision := session.revision + 1);
      store.UpdateSession(session);
      return Done;
    }

    // executeCodeGenerationTask from the generator's answer on.
    method EndFiles(f: Flight, reply: FilesReply) returns (answer: Answer)
      requires Valid()
      modifies store
      ensures Valid() && (Now(), answer) == Spec.EndFiles(world, old(Now()), f, reply)
    {
      hide Spec.FailTask, Generated;
      if reply.NoFiles? {
        FailTask(f.job.taskId, reply.error);
        return EngineFailed;
      }
      var outcome := GenerateContract(reply.ops, f.job.files, world.partial);
      if !outcome.Contract? {
        FailTask(f.job.taskId, INVALID_FILES);
        return BadOutput;
      }
      store.UpdateTask(f.task.(status := Completed));
      var found := store.GetSession(f.task.sessionId);
      if found.None? {
        return NotFound;
      }
      store.UpdateSession(found.value.(contract := Some(outcome.files), apply := Unapplied, status := CodeGenerated));
      return Done;
    }

    // RetryTask; the worker publishes the job again afterwards.
    method Requeue(job: Job) returns (answer: Answer)
      requires Valid()
      modifies this, store
      ensures Valid() && (Now(), answer) == Spec.Requeue(old(Now()), job)
    {
      var found := store.GetTask(job.taskId);
      if found.None? {
        return NotFound;
      }
      var task := found.value.(status := Queued, attempt := job.attempt);
      store.UpdateTask(task);
      var session := store.GetSession(task.sessionId);
      if session.None? {
        return NotFound;
      }
      store.UpdateSession(session.value.(status := QueuedStatus(task.kind)));
      jobs := jobs + {job};
      return Done;
    }

    // The loop that marks the operations of a contract.
    method MarkFiles(files: seq<FileOp>, status: string) returns (marked: seq<FileOp>)
      ensures marked == WithStatus(files, status)
    {
      marked := files;
      for i := 0 to |files|
        invariant |marked| == |files|
        invariant forall k :: 0 <= k < |files| ==> marked[k] == if k < i then files[k].(status := status) else files[k]
      {
        marked := marked[i := marked[i].(status := status)];
      }
    }

    // applyGeneratedFiles up to the call of GitFlame.
    method ApplyStart(id: string, client: bool) returns (answer: Answer)
      requires Valid()
      modifies this, store
      ensures Valid() && (Now(), answer) == Spec.ApplyStart(old(Now()), id, client)
    {
      hide DropNoop, ContentByPath;
      var found := store.GetSession(id);
      if found.None? {
        return NotFound;
      }
      var session := found.value;
      if session.contract.None? || |session.contract.value| == 0 {
        return FilesNotReady;
      }
      if session.apply == Applied {
        return AlreadyApplied;
      }
      var sent := DropNoopGeneratedFiles(session.contract.value, session.uploaded);
      if |sent| == 0 {
        var marked := MarkFiles(session.contract.value, "skipped");
        store.UpdateSession(session.(apply := ApplyFailed, contract := Some(marked)));
        return NoEffect;
      }
      if !client {
        return NoClient;
      }
      applies := applies + {Applying(session, sent)};
      return Done;
    }

    // ... and from its answer on.
    method ApplyEnd(a: Applying, ok: bool) returns (answer: Answer)
      requires Valid() && HasFiles(a.session)
      modifies store
      ensures Valid() && (Now(), answer) == Spec.ApplyEnd(old(Now()), a, ok)
    {
      if !ok {
        store.UpdateSession(a.session.(apply := ApplyFailed));
        return ApplyError;
      }
      var marked := MarkFiles(a.session.contract.value, "applied");
      store.UpdateSession(a.session.(apply := Applied, contract := Some(marked)));
      return Done;
    }
  }
}
