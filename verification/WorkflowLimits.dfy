// Where the results of an execution are stored, and the limits of the workflow's guarantees: ids
// that are mistaken for issues, and answers of GitFlame that come late.
module WorkflowLimits {
  import opened Collections
  import opened Text
  import opened GeneratedFiles
  import opened FileContract
  import opened IssueWorkflow
  import opened WorkflowTheorems

  // ------------------------------------------------------------ where a plan is stored

  // Every session is found by its own id.
  ghost predicate OwnLookup(st: Store) {
    forall id :: id in st.sessions ==> FindSession(st, id) == Some(st.sessions[id])
  }

  // Storing a new session keeps that exactly when the issue, alone or with its repository, is
  // not named like a stored session, and the new id is no issue's, other than its own.
  lemma NewSessionLookup(st: Store, id: string, req: Request)
    requires OwnLookup(st) && id !in st.sessions
    requires forall key :: key in st.index ==> st.index[key] in st.sessions
    requires forall k :: k in st.sessions ==> st.sessions[k].id == k
    ensures var key := SessionKey(req.repositoryId, req.issueId);
      OwnLookup(PutSession(st, NewSession(id, req))) <==>
      req.issueId !in st.sessions && key !in st.sessions && (id in st.index ==> id == req.issueId || id == key)
  {
    hide SessionKey;
    var key := SessionKey(req.repositoryId, req.issueId);
    var r := PutSession(st, NewSession(id, req));
    if req.issueId !in st.sessions && key !in st.sessions && (id in st.index ==> id == req.issueId || id == key) {
      forall other | other in r.sessions ensures FindSession(r, other) == Some(r.sessions[other]) {
        if other in st.sessions {
          assert FindSession(st, other) == Some(st.sessions[other]);
        }
      }
    } else {
      var bad := if req.issueId in st.sessions then req.issueId else if key in st.sessions then key else id;
      assert FindSession(r, bad) != Some(r.sessions[bad]) by {
        FoundElsewhere(st, id, req, bad);
      }
    }
  }

  lemma FoundElsewhere(st: Store, id: string, req: Request, bad: string)
    requires OwnLookup(st) && id !in st.sessions
    requires forall key :: key in st.index ==> st.index[key] in st.sessions
    requires forall k :: k in st.sessions ==> st.sessions[k].id == k
    requires var key := SessionKey(req.repositoryId, req.issueId);
      (bad in st.sessions && (bad == req.issueId || bad == key)) ||
      (bad == id && id in st.index && id != req.issueId && id != key)
    ensures var r := PutSession(st, NewSession(id, req));
      bad in r.sessions && FindSession(r, bad) != Some(r.sessions[bad])
  {
    hide SessionKey;
  }

  function Planned(was: Session, plan: string): Session {
    was.(plan := plan, status := PlanGenerated, revision := was.revision + 1)
  }

  // In every run an accepted plan is stored in the session of its task, and nowhere else.
  lemma {:induction false} PlanLandsInItsSession(w: World, actions: seq<Action>, f: Flight, reply: PlanReply)
    requires LegalRun(w, actions) && f in Run(w, actions).flights
    ensures var s, id := Run(w, actions), f.task.sessionId;
      var (r, answer) := EndPlan(w, s, f, reply);
      id in s.store.sessions &&
      (answer == Done <==> reply.Plan? && ValidatePlan(w, reply.plan, AllowedPaths(f.job.files, reply.relevant))) &&
      (answer == Done ==> r.store.sessions == s.store.sessions[id := Planned(s.store.sessions[id], reply.plan)])
  {
    hide Act, ValidatePlan, AllowedPaths, StoreOk, FailTask;
    var s := Run(w, actions);
    RunKeeps(w, actions);
    FlightFinds(w, s, f, f.task.(status := Completed, plan := if reply.Plan? then reply.plan else ""));
  }

  // ... and an accepted contract is stored in the session of its task, and nowhere else.
  lemma {:induction false} FilesLandInTheirSession(w: World, actions: seq<Action>, f: Flight, reply: FilesReply)
    requires LegalRun(w, actions) && f in Run(w, actions).flights
    ensures var s, id := Run(w, actions), f.task.sessionId;
      var (r, answer) := EndFiles(w, s, f, reply);
      id in s.store.sessions &&
      (answer == Done <==> reply.Files? && Generated(reply.ops, f.job.files, w.partial).Contract?) &&
      (answer == Done ==>
        var files := Generated(reply.ops, f.job.files, w.partial).files;
        var was := s.store.sessions[id];
        r.store.sessions ==
          s.store.sessions[id := was.(contract := Some(files), apply := Unapplied, status := CodeGenerated)])
  {
    hide Act, Generated, StoreOk, FailTask;
    var s := Run(w, actions);
    RunKeeps(w, actions);
    FlightFinds(w, s, f, f.task.(status := Completed));
  }

  // An execution finds the session of its task, whatever it stored in the task before.
  lemma FlightFinds(w: World, s: State, f: Flight, task: Task)
    requires StateOk(w, s) && f in s.flights && task.sessionId == f.task.sessionId
    ensures f.task.sessionId in s.store.sessions
    ensures var was := s.store.sessions[f.task.sessionId];
      was.id == f.task.sessionId && FindSession(PutTask(s.store, task), f.task.sessionId) == Some(was)
  {
    hide StoreOk, FindSession, SessionOk;
    FlightIs(w, s, f);
    StoreIs(w, s);
    SessionIs(w, s.store, f.task.sessionId);
    Finds(w, s.store, f.task.sessionId);
    PutTaskFinds(s.store, task, f.task.sessionId);
  }

  lemma PutTaskFinds(st: Store, task: Task, id: string)
    ensures FindSession(PutTask(st, task), id) == FindSession(st, id)
  {
  }

  // On any consistent store, an accepted plan is stored in the session the lookup finds, which is
  // the session of its task if and only if no issue of another session is named like it.
  lemma PlanLandsExactly(w: World, s: State, f: Flight, reply: PlanReply)
    requires f.task.sessionId in s.store.sessions
    requires forall key :: key in s.store.index ==> s.store.index[key] in s.store.sessions
    requires forall k :: k in s.store.sessions ==> s.store.sessions[k].id == k
    requires reply.Plan? && ValidatePlan(w, reply.plan, AllowedPaths(f.job.files, reply.relevant))
    ensures var st, r, id := s.store, EndPlan(w, s, f, reply).0.store, f.task.sessionId;
      var found := if id in st.index then st.index[id] else id;
      r.sessions == st.sessions[found := Planned(st.sessions[found], reply.plan)] &&
      (r.sessions[id] == Planned(st.sessions[id], reply.plan) <==> (id in st.index ==> st.index[id] == id))
  {
    hide ValidatePlan, AllowedPaths;
  }

  // And without that condition a plan lands in another session: the second issue is named like
  // the first session, so the task of the first session stores its plan in the second.
  lemma PlanLandsElsewhere(w: World, plan: string)
    requires !IsBlank(plan) && forall allowed :: w.rules(GoTrim(plan), allowed)
    ensures var st := Run(w, Misplaced(plan)).store;
      "A" in st.sessions && "B" in st.sessions && st.sessions["A"].plan == "" && st.sessions["B"].plan == plan &&
      "1" in st.tasks && st.tasks["1"].sessionId == "A" && st.tasks["1"].status == Completed
  {
    var a := Misplaced(plan);
    assert a[..1][..0] == [] && a[..2][..1] == a[..1] && a[..3][..2] == a[..2] && a[..4] == a && a[..4][..3] == a[..3];
    var s2 := Act(w, Act(w, Run(w, []), a[0]), a[1]);
    TwoIssues(w, a[0], a[1]);
    PlanStored(w, s2, a[2], a[3], plan);
    hide Act;
    assert Run(w, a[..1]) == Act(w, Run(w, []), a[0]);
    assert Run(w, a[..2]) == s2;
    assert Run(w, a[..3]) == Act(w, s2, a[2]);
  }

  ghost predicate Aliased(s: State) {
    "A" in s.store.sessions && s.store.sessions["A"] == NewSession("A", Request("r", "i", [], [])) &&
    "B" in s.store.sessions && s.store.sessions["B"] == NewSession("B", Request("r", "A", [], [])) &&
    "1" in s.store.tasks && s.store.tasks["1"] == NewTask("1", "A", InitialPlan) &&
    "A" in s.store.index && s.store.index["A"] == "B" && FirstJob() in s.jobs
  }

  lemma TwoIssues(w: World, first: Action, second: Action)
    requires first == DoAnalyze(Request("r", "i", [], []), "A", "1", Published)
    requires second == DoAnalyze(Request("r", "A", [], []), "B", "2", Published)
    ensures Aliased(Act(w, Act(w, Run(w, []), first), second))
  {
    var s1 := Act(w, Run(w, []), first);
    assert SessionFiles(NewSession("A", Request("r", "i", [], []))) == [];
    assert FirstJob() in s1.jobs;
    assert s1.store.sessions == map["A" := NewSession("A", Request("r", "i", [], []))];
    assert SessionKey("r", "i")[2] != SessionKey("r", "A")[2];
    assert |SessionKey("r", "A")| == 3;
  }

  lemma PlanStored(w: World, s: State, start: Action, end: Action, plan: string)
    requires Aliased(s) && start == DoStart(FirstJob())
    requires end == DoEndPlan(Flight(FirstJob(), NewTask("1", "A", InitialPlan).(status := TaskProcessing)), Plan(plan, []))
    requires !IsBlank(plan) && forall allowed :: w.rules(GoTrim(plan), allowed)
    ensures var st := Act(w, Act(w, s, start), end).store;
      "A" in st.sessions && "B" in st.sessions && st.sessions["A"].plan == "" && st.sessions["B"].plan == plan &&
      "1" in st.tasks && st.tasks["1"].sessionId == "A" && st.tasks["1"].status == Completed
  {
    hide IsBlank, GoTrim;
    assert SessionKey("r", "A")[1] == '\0' && |SessionKey("r", "A")| == 3;
  }

  function FirstJob(): Job {
    Job("1", "A", InitialPlan, 1, [], None, None, "")
  }

  function Misplaced(plan: string): seq<Action> {
    [DoAnalyze(Request("r", "i", [], []), "A", "1", Published),
     DoAnalyze(Request("r", "A", [], []), "B", "2", Published),
     DoStart(FirstJob()),
     DoEndPlan(Flight(FirstJob(), NewTask("1", "A", InitialPlan).(status := TaskProcessing)), Plan(plan, []))]
  }

  // ------------------------------------------------------------ a late answer of GitFlame

  // From every sound state: when a plan is stored while GitFlame applies the contract of the
  // session, the answer takes the plan and its revision back.
  lemma AnswerTakesPlanBack(w: World, s: State, f: Flight, plan: string, ok: bool)
    requires StateOk(w, s) && f in s.flights && f.task.kind != CodeGeneration && f.task.sessionId in s.store.sessions
    requires var was := s.store.sessions[f.task.sessionId]; HasFiles(was) && was.apply != Applied
    requires ValidatePlan(w, plan, AllowedPaths(f.job.files, []))
    ensures var id := f.task.sessionId;
      var was := s.store.sessions[id];
      var asked := Act(w, s, DoApplyStart(id, true));
      var planned := Act(w, asked, DoEndPlan(f, Plan(plan, [])));
      var answered := Act(w, planned, DoApplyEnd(Applying(was, was.contract.value), ok));
      id in planned.store.sessions && planned.store.sessions[id] == Planned(was, plan) &&
      id in answered.store.sessions && answered.store.sessions[id].plan == was.plan &&
      answered.store.sessions[id].revision == planned.store.sessions[id].revision - 1
  {
    hide Act, StateOk, ValidatePlan, AllowedPaths;
    var was := s.store.sessions[f.task.sessionId];
    Asked(w, s, f);
    var asked := Act(w, s, DoApplyStart(f.task.sessionId, true));
    PlanStoredAt(w, asked, f, plan);
    var planned := Act(w, asked, DoEndPlan(f, Plan(plan, [])));
    Answered(w, planned, Applying(was, was.contract.value), ok);
  }

  lemma Asked(w: World, s: State, f: Flight)
    requires StateOk(w, s) && f in s.flights && f.task.sessionId in s.store.sessions
    requires var was := s.store.sessions[f.task.sessionId]; HasFiles(was) && was.apply != Applied
    ensures var id := f.task.sessionId;
      var (was, r) := (s.store.sessions[id], Act(w, s, DoApplyStart(id, true)));
      was.id == id && FindSession(s.store, id) == Some(was) &&
      r == s.(applies := s.applies + {Applying(was, was.contract.value)})
  {
    hide Act, StateOk, FindSession, SessionOk, DropNoop, ContentByPath, PutTask, ApplyStart;
    FlightFinds(w, s, f, f.task);
    PutTaskFinds(s.store, f.task, f.task.sessionId);
    SendsAll(w, s, f.task.sessionId);
    AskedFor(w, s, f.task.sessionId);
  }

  lemma AskedFor(w: World, s: State, id: string)
    requires var found := FindSession(s.store, id);
      found.Some? && HasFiles(found.value) && found.value.apply != Applied &&
      DropNoop(found.value.contract.value, ContentByPath(found.value.uploaded)) == found.value.contract.value
    ensures var read := FindSession(s.store, id).value;
      Act(w, s, DoApplyStart(id, true)) == s.(applies := s.applies + {Applying(read, read.contract.value)})
  {
    hide FindSession, DropNoop, ContentByPath;
  }

  lemma PlanStoredAt(w: World, s: State, f: Flight, plan: string)
    requires f in s.flights && f.task.kind != CodeGeneration && f.task.sessionId in s.store.sessions
    requires ValidatePlan(w, plan, AllowedPaths(f.job.files, []))
    requires var was := s.store.sessions[f.task.sessionId];
      was.id == f.task.sessionId && FindSession(s.store, f.task.sessionId) == Some(was)
    ensures var r := Act(w, s, DoEndPlan(f, Plan(plan, [])));
      r.store.sessions == s.store.sessions[f.task.sessionId := Planned(s.store.sessions[f.task.sessionId], plan)] &&
      r.applies == s.applies
  {
    hide FindSession, ValidatePlan, AllowedPaths, SessionKey;
    PutTaskFinds(s.store, f.task.(status := Completed, plan := plan), f.task.sessionId);
  }

  lemma Answered(w: World, s: State, a: Applying, ok: bool)
    requires a in s.applies && HasFiles(a.session)
    ensures var r := Act(w, s, DoApplyEnd(a, ok)).store.sessions;
      a.session.id in r && r[a.session.id].plan == a.session.plan && r[a.session.id].revision == a.session.revision
  {
    hide SessionKey;
  }

  // Such a state is reached with one issue: it is planned, approved and generated, and its first
  // job is delivered again.  Session A, of issue i in repository r, is the only one.
  ghost predicate Lone(s: State, session: Session, tasks: map<string, Task>) {
    session.id == "A" && session.issueId == "i" && session.repositoryId == "r" &&
    session.uploaded == [] && session.legacy == [] &&
    s.store.sessions == map["A" := session] && "A" !in s.store.index && s.store.tasks == tasks
  }

  lemma LonePut(st: Store, session: Session)
    requires session.id == "A" && session.issueId == "i" && session.repositoryId == "r" && "A" !in st.index
    requires st.sessions.Keys <= {"A"}
    ensures PutSession(st, session).sessions == map["A" := session] && "A" !in PutSession(st, session).index
    ensures PutSession(st, session).tasks == st.tasks
  {
    assert |SessionKey("r", "i")| == 3 && |"A"| == 1;
  }

  lemma LoneAnalyze(w: World)
    ensures var r := Act(w, Run(w, []), FIRST);
      Lone(r, NewSession("A", FIRST.req), map["1" := NewTask("1", "A", InitialPlan)]) && FirstJob() in r.jobs
  {
    hide PutSession, SessionKey;
    LonePut(Run(w, []).store, NewSession("A", FIRST.req));
    assert SessionFiles(NewSession("A", FIRST.req)) == [];
  }

  lemma LoneStart(w: World, s: State, session: Session, tasks: map<string, Task>, job: Job)
    requires Lone(s, session, tasks) && job in s.jobs && job.taskId in tasks
    requires tasks[job.taskId].id == job.taskId && tasks[job.taskId].sessionId == "A"
    ensures var r, task := Act(w, s, DoStart(job)), tasks[job.taskId].(status := TaskProcessing, attempt := job.attempt, error := None);
      Lone(r, session.(status := ProcessingStatus(task.kind)), tasks[task.id := task]) &&
      Flight(job, task) in r.flights && s.jobs <= r.jobs
  {
    hide PutSession, SessionKey;
    var task := tasks[job.taskId].(status := TaskProcessing, attempt := job.attempt, error := None);
    LonePut(PutTask(s.store, task), session.(status := ProcessingStatus(task.kind)));
  }

  lemma LoneEndPlan(w: World, s: State, session: Session, tasks: map<string, Task>, f: Flight, plan: string)
    requires Lone(s, session, tasks) && f in s.flights && f.task.kind != CodeGeneration && f.task.sessionId == "A"
    requires ValidatePlan(w, plan, AllowedPaths(f.job.files, []))
    ensures var r := Act(w, s, DoEndPlan(f, Plan(plan, [])));
      Lone(r, Planned(session, plan), tasks[f.task.id := f.task.(status := Completed, plan := plan)]) && r.jobs == s.jobs
  {
    hide PutSession, SessionKey, ValidatePlan, AllowedPaths;
    LonePut(PutTask(s.store, f.task.(status := Completed, plan := plan)), Planned(session, plan));
  }

  lemma LoneApprove(w: World, s: State, session: Session, tasks: map<string, Task>)
    requires Lone(s, session, tasks) && session.status == PlanGenerated
    ensures var r, task := Act(w, s, APPROVE), NewTask("2", "A", CodeGeneration);
      var approved := session.(contract := Some([]), apply := Unapplied, status := CodeGenerationQueued);
      Lone(r, approved, tasks["2" := task]) && CodeJob(task, approved) in r.jobs && s.jobs <= r.jobs
  {
    hide PutSession, SessionKey, ValidatePlan, AllowedPaths, GoTrim;
    LonePut(s.store, session.(contract := Some([]), apply := Unapplied, status := CodeGenerationQueued));
  }

  lemma LoneEndFiles(w: World, s: State, session: Session, tasks: map<string, Task>, f: Flight, ops: seq<FileOp>)
    requires Lone(s, session, tasks) && f in s.flights && f.task.kind == CodeGeneration && f.task.sessionId == "A"
    requires Generated(ops, f.job.files, w.partial).Contract?
    ensures var r := Act(w, s, DoEndFiles(f, Files(ops)));
      var files := Generated(ops, f.job.files, w.partial).files;
      Lone(r, session.(contract := Some(files), apply := Unapplied, status := CodeGenerated),
           tasks[f.task.id := f.task.(status := Completed)]) && r.jobs == s.jobs
  {
    hide PutSession, SessionKey, Generated;
    var files := Generated(ops, f.job.files, w.partial).files;
    LonePut(PutTask(s.store, f.task.(status := Completed)),
            session.(contract := Some(files), apply := Unapplied, status := CodeGenerated));
  }

  const FIRST := DoAnalyze(Request("r", "i", [], []), "A", "1", Published)

  const APPROVE := DoApprove("A", None, "2", Published)

  // The second job: code generation for the approved plan.
  function SecondJob(plan: string): Job {
    Job("2", "A", CodeGeneration, 1, [], None, None, plan)
  }

  // The tasks while they are executed; the first one again after its plan is stored.
  function PlanTask(before: string): Task {
    Task("1", "A", InitialPlan, TaskProcessing, 1, None, before)
  }

  function CodeTask(): Task {
    Task("2", "A", CodeGeneration, TaskProcessing, 1, None, "")
  }

  // What the handler reads.
  function ReadSession(plan: string, files: seq<FileOp>): Session {
    NewSession("A", FIRST.req).(status := Processing, plan := plan, revision := 1, contract := Some(files))
  }

  function LateAnswer(plan: string, newer: string, ops: seq<FileOp>, files: seq<FileOp>): seq<Action> {
    [FIRST, DoStart(FirstJob()), DoEndPlan(Flight(FirstJob(), PlanTask("")), Plan(plan, [])), APPROVE,
     DoStart(SecondJob(plan)), DoEndFiles(Flight(SecondJob(plan), CodeTask()), Files(ops)), DoStart(FirstJob()),
     DoApplyStart("A", true), DoEndPlan(Flight(FirstJob(), PlanTask(plan)), Plan(newer, [])),
     DoApplyEnd(Applying(ReadSession(plan, files), files), true)]
  }

  lemma RunNext(w: World, a: seq<Action>, k: nat)
    requires k < |a|
    ensures Run(w, a[..k + 1]) == Act(w, Run(w, a[..k]), a[k])
    ensures LegalRun(w, a[..k + 1]) <==>
      LegalRun(w, a[..k]) && FreshIds(Run(w, a[..k]), a[k]) && Unaliased(Run(w, a[..k]), a[k])
  {
    hide Act, FreshIds, Unaliased;
    assert a[..k + 1][..k] == a[..k];
  }

  // Until the first plan is approved.
  lemma Approved(w: World, a: seq<Action>, plan: string)
    requires |a| > 4 && a[0] == FIRST && a[1] == DoStart(FirstJob()) && a[3] == APPROVE
    requires a[2] == DoEndPlan(Flight(FirstJob(), PlanTask("")), Plan(plan, []))
    requires ValidatePlan(w, plan, AllowedPaths([], []))
    ensures LegalRun(w, a[..4])
    ensures var s := Run(w, a[..4]);
      var session := NewSession("A", FIRST.req).(plan := plan, revision := 1, contract := Some([]), status := CodeGenerationQueued);
      Lone(s, session, map["1" := PlanTask(plan).(status := Completed), "2" := NewTask("2", "A", CodeGeneration)]) &&
      FirstJob() in s.jobs && SecondJob(plan) in s.jobs
  {
    hide Act, ValidatePlan, AllowedPaths, Lone, LegalRun, Run;
    var session, task := NewSession("A", FIRST.req), NewTask("1", "A", InitialPlan);
    NoneYet(w, a);
    RunNext(w, a, 0);
    LoneAnalyze(w);
    RunNext(w, a, 1);
    LoneStart(w, Run(w, a[..1]), session, map["1" := task], FirstJob());
    RunNext(w, a, 2);
    var processing := session.(status := Processing);
    assert map["1" := task]["1" := PlanTask("")] == map["1" := PlanTask("")];
    LoneEndPlan(w, Run(w, a[..2]), processing, map["1" := PlanTask("")], Flight(FirstJob(), PlanTask("")), plan);
    RunNext(w, a, 3);
    var done := PlanTask(plan).(status := Completed);
    assert map["1" := PlanTask("")]["1" := done] == map["1" := done];
    LoneApprove(w, Run(w, a[..3]), Planned(processing, plan), map["1" := done]);
    LoneTasks(Run(w, a[..3]), Planned(processing, plan), map["1" := done]);
    assert SessionFiles(session) == [];
  }

  lemma NoneYet(w: World, a: seq<Action>)
    ensures a[..0] == [] && LegalRun(w, a[..0]) && Run(w, a[..0]) == State(Store(map[], map[], map[]), {}, {}, {})
  {
  }

  lemma LoneTasks(s: State, session: Session, tasks: map<string, Task>)
    requires Lone(s, session, tasks)
    ensures s.store.tasks == tasks && s.store.sessions == map["A" := session]
  {
  }

  // ... and then until the first job is delivered again.
  lemma Delivered(w: World, a: seq<Action>, plan: string, ops: seq<FileOp>)
    requires |a| > 7 && LegalRun(w, a[..4])
    requires a[4] == DoStart(SecondJob(plan)) && a[5] == DoEndFiles(Flight(SecondJob(plan), CodeTask()), Files(ops))
    requires a[6] == DoStart(FirstJob()) && Generated(ops, [], w.partial).Contract?
    requires var s := Run(w, a[..4]);
      var session := NewSession("A", FIRST.req).(plan := plan, revision := 1, contract := Some([]), status := CodeGenerationQueued);
      Lone(s, session, map["1" := PlanTask(plan).(status := Completed), "2" := NewTask("2", "A", CodeGeneration)]) &&
      FirstJob() in s.jobs && SecondJob(plan) in s.jobs
    ensures LegalRun(w, a[..7])
    ensures var s := Run(w, a[..7]);
      Lone(s, ReadSession(plan, Generated(ops, [], w.partial).files),
           map["1" := PlanTask(plan), "2" := CodeTask().(status := Completed)]) &&
      Flight(FirstJob(), PlanTask(plan)) in s.flights
  {
    hide Act, Lone, LegalRun, Run, Generated;
    var session := NewSession("A", FIRST.req).(plan := plan, revision := 1, contract := Some([]), status := CodeGenerationQueued);
    var planned := PlanTask(plan).(status := Completed);
    var files := Generated(ops, [], w.partial).files;
    var tasks := map["1" := planned, "2" := NewTask("2", "A", CodeGeneration)];
    RunNext(w, a, 4);
    LoneStart(w, Run(w, a[..4]), session, tasks, SecondJob(plan));
    assert tasks["2" := CodeTask()] == map["1" := planned, "2" := CodeTask()];
    RunNext(w, a, 5);
    var generating := session.(status := CodeGenerationProcessing);
    LoneEndFiles(w, Run(w, a[..5]), generating, tasks["2" := CodeTask()], Flight(SecondJob(plan), CodeTask()), ops);
    var written := CodeTask().(status := Completed);
    assert tasks["2" := CodeTask()]["2" := written] == map["1" := planned, "2" := written];
    RunNext(w, a, 6);
    LoneStart(w, Run(w, a[..6]), generating.(contract := Some(files), status := CodeGenerated),
              map["1" := planned, "2" := written], FirstJob());
    assert map["1" := planned, "2" := written]["1" := PlanTask(plan)] == map["1" := PlanTask(plan), "2" := written];
  }

  // So the revision goes back from 2 to 1 and the newer plan is lost, in a run of ten steps of
  // one issue, for any two plans that pass and any contract.
  lemma LateAnswerTakesPlanBack(w: World, plan: string, newer: string, ops: seq<FileOp>)
    requires ValidatePlan(w, plan, AllowedPaths([], [])) && ValidatePlan(w, newer, AllowedPaths([], []))
    requires Generated(ops, [], w.partial).Contract?
    ensures var a := LateAnswer(plan, newer, ops, Generated(ops, [], w.partial).files);
      var (before, after) := (Run(w, a[..9]).store.sessions, Run(w, a).store.sessions);
      LegalRun(w, a) && "A" in before && "A" in after &&
      before["A"].plan == newer && before["A"].revision == 2 && after["A"].plan == plan && after["A"].revision == 1 &&
      !EveryStepGrows(w, a)
  {
    hide Act, Lone, LegalRun, Run, Generated, ValidatePlan, AllowedPaths, Grew;
    var a := LateAnswer(plan, newer, ops, Generated(ops, [], w.partial).files);
    Approved(w, a, plan);
    Delivered(w, a, plan, ops);
    LastSteps(w, a, plan, newer, ops);
    assert a[..10] == a;
    LessGrew(Run(w, a[..9]).store, Run(w, a).store);
    StepShrinks(w, a);
  }

  lemma LastSteps(w: World, a: seq<Action>, plan: string, newer: string, ops: seq<FileOp>)
    requires |a| == 10 && LegalRun(w, a[..7]) && Generated(ops, [], w.partial).Contract?
    requires ValidatePlan(w, newer, AllowedPaths([], []))
    requires var files := Generated(ops, [], w.partial).files;
      Lone(Run(w, a[..7]), ReadSession(plan, files), map["1" := PlanTask(plan), "2" := CodeTask().(status := Completed)]) &&
      a[9] == DoApplyEnd(Applying(ReadSession(plan, files), files), true)
    requires var f := Flight(FirstJob(), PlanTask(plan));
      f in Run(w, a[..7]).flights && a[7] == DoApplyStart("A", true) && a[8] == DoEndPlan(f, Plan(newer, []))
    ensures LegalRun(w, a[..10])
    ensures var (before, after) := (Run(w, a[..9]).store.sessions, Run(w, a[..10]).store.sessions);
      "A" in before && "A" in after &&
      before["A"].plan == newer && before["A"].revision == 2 && after["A"].plan == plan && after["A"].revision == 1
  {
    hide Act, Lone, LegalRun, Run, Generated, ValidatePlan, AllowedPaths;
    var s, files := Run(w, a[..7]), Generated(ops, [], w.partial).files;
    RunNext(w, a, 7);
    RunNext(w, a, 8);
    RunNext(w, a, 9);
    LoneTasks(s, ReadSession(plan, files), map["1" := PlanTask(plan), "2" := CodeTask().(status := Completed)]);
    RunKeeps(w, a[..7]);
    NotEmpty(w, ops);
    AnswerTakesPlanBack(w, s, Flight(FirstJob(), PlanTask(plan)), newer, true);
  }

  lemma NotEmpty(w: World, ops: seq<FileOp>)
    requires Generated(ops, [], w.partial).Contract?
    ensures Generated(ops, [], w.partial).files != []
  {
    hide Generated, ValidFiles, DropNoop, ContentByPath;
    assert FilesForSession([], []) == [];
    ContractAppliesUnchanged(ops, [], [], w.partial);
  }

  lemma StepShrinks(w: World, a: seq<Action>)
    requires a != [] && !Grew(Run(w, a[..|a| - 1]).store, Run(w, a).store)
    ensures !EveryStepGrows(w, a)
  {
    hide Grew, Run;
  }

  lemma LessGrew(a: Store, b: Store)
    requires "A" in a.sessions && "A" in b.sessions && b.sessions["A"].revision < a.sessions["A"].revision
    ensures !Grew(a, b)
  {
    assert !GrewAt(a, b, "A");
  }
}
