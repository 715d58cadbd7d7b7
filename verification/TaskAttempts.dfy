// How often exactly a job is executed that fails for now every time.
module TaskAttempts {
  import opened Collections
  import opened TaskQueue
  import opened TaskRetries
  import opened TaskWorker
  import opened TaskProgress

  // ------------------------------------------------------------ every calm run

  ghost predicate InRoot(q: Queue, id: nat, start: nat) {
    id in q.root && q.root[id] == start
  }

  // Every execution in the chain of start fails for now and its task is put back; the worker's
  // publishes for that chain do not fail and find room.
  ghost predicate FailsForNow(cfg: Config, s: State, a: Action, start: nat) {
    s.pcs != [] &&
    match a
    case Execute(c, outcome) =>
      c == 0 && s.pcs[0].Executing? && InRoot(s.queue, s.pcs[0].id, start) ==> outcome == Temporary(true)
    case Issue(c, fault, _) =>
      c == 0 && (s.pcs[0].Measuring? || s.pcs[0].Adding?) && InRoot(s.queue, s.pcs[0].id, start) ==>
        fault == Fine && (s.pcs[0].Measuring? ==> |s.queue.entries| < cfg.maxLength)
    case _ => true
  }

  ghost predicate FailingRun(cfg: Config, clients: nat, actions: seq<Action>, start: nat) {
    actions == [] ||
    (FailingRun(cfg, clients, actions[..|actions| - 1], start) &&
     FailsForNow(cfg, Run(cfg, Init(clients), actions[..|actions| - 1]), actions[|actions| - 1], start))
  }

  // The entry was executed and has no attempt left.
  ghost predicate Exhausted(cfg: Config, s: State, id: nat) {
    id in s.queue.accepted && s.queue.accepted[id].attempt >= cfg.maxRetries && id in s.executions
  }

  // In the chain of start only such entries are buried.
  ghost predicate BuriedLast(cfg: Config, s: State, start: nat) {
    s.pcs != [] &&
    (forall id :: id in s.queue.dead ==>
      id in s.queue.accepted && (InRoot(s.queue, id, start) ==> Exhausted(cfg, s, id))) &&
    (s.pcs[0].Burying? && InRoot(s.queue, s.pcs[0].id, start) ==> Exhausted(cfg, s, s.pcs[0].id)) &&
    forall cmd :: cmd in s.late ==> !cmd.XAddDead?
  }

  // What a command does to dead letters and to the jobs that were accepted before.
  lemma DeadLetters(q: Queue, cmd: Command)
    requires IdOk(q, q.nextId)
    ensures var r := Apply(q, cmd).0;
      r.dead == (if cmd.XAddDead? then q.dead[cmd.originalId := cmd.job] else q.dead) &&
      forall id :: id in q.accepted ==>
        id in r.accepted && r.accepted[id] == q.accepted[id] && (id in r.root <==> id in q.root) &&
        (id in q.root ==> r.root[id] == q.root[id])
  {
    hide Settled;
  }

  lemma ExhaustedStays(cfg: Config, s: State, t: State, start: nat, id: nat)
    requires id in s.queue.accepted && id in t.queue.accepted && t.queue.accepted[id] == s.queue.accepted[id]
    requires (id in t.queue.root <==> id in s.queue.root) && (id in s.queue.root ==> t.queue.root[id] == s.queue.root[id])
    requires InRoot(s.queue, id, start) ==> Exhausted(cfg, s, id)
    requires forall e :: e in s.executions ==> e in t.executions
    ensures InRoot(t.queue, id, start) ==> Exhausted(cfg, t, id)
  {
  }

  lemma BuriedIssue(cfg: Config, s: State, c: nat, fault: Fault, pick: nat, start: nat)
    requires QueueOk(s.queue) && BuriedLast(cfg, s, start) && c < |s.pcs| && !s.pcs[c].Executing?
    requires PcOk(cfg, s.queue, s.pcs[c]) && PcOk(cfg, s.queue, s.pcs[0]) && (c > 0 ==> Publisher(s.pcs[c]))
    requires Calm(s, Issue(c, fault, pick)) && FailsForNow(cfg, s, Issue(c, fault, pick), start)
    ensures BuriedLast(cfg, Issued(cfg, s, c, fault, pick), start)
  {
    var t, cmd := Issued(cfg, s, c, fault, pick), CommandOf(s.pcs[c], pick);
    assert IdOk(s.queue, s.queue.nextId);
    DeadLetters(s.queue, cmd);
    assert t.executions == s.executions;
    BuryingAfter(cfg, s, c, fault, pick, start);
    hide QueueOk, Apply, Exhausted, After;
    forall id | id in t.queue.dead
      ensures id in t.queue.accepted && (InRoot(t.queue, id, start) ==> Exhausted(cfg, t, id))
    {
      if id in s.queue.dead {
        ExhaustedStays(cfg, s, t, start, id);
      } else {
        assert c == 0 && s.pcs[0].Burying? && id == s.pcs[0].id;
        ExhaustedStays(cfg, s, t, start, id);
      }
    }
  }

  lemma BuryingAfter(cfg: Config, s: State, c: nat, fault: Fault, pick: nat, start: nat)
    requires QueueOk(s.queue) && BuriedLast(cfg, s, start) && c < |s.pcs| && !s.pcs[c].Executing?
    requires PcOk(cfg, s.queue, s.pcs[0]) && (c > 0 ==> Publisher(s.pcs[c]))
    requires Calm(s, Issue(c, fault, pick)) && FailsForNow(cfg, s, Issue(c, fault, pick), start)
    ensures var t := Issued(cfg, s, c, fault, pick);
      t.pcs[0].Burying? ==>
        t.pcs[0].id in t.queue.accepted && (InRoot(t.queue, t.pcs[0].id, start) ==> Exhausted(cfg, t, t.pcs[0].id))
  {
    var t, cmd := Issued(cfg, s, c, fault, pick), CommandOf(s.pcs[c], pick);
    assert IdOk(s.queue, s.queue.nextId);
    DeadLetters(s.queue, cmd);
    if t.pcs[0].Burying? {
      var id := t.pcs[0].id;
      assert id in s.queue.accepted;
      assert InRoot(s.queue, id, start) ==> s.pcs[0].Burying? && s.pcs[0].id == id;
      ExhaustedStays(cfg, s, t, start, id);
    }
  }

  lemma BuriedStep(cfg: Config, s: State, a: Action, start: nat)
    requires Inv(cfg, s) && CalmInv(cfg, s) && Calm(s, a) && BuriedLast(cfg, s, start) && FailsForNow(cfg, s, a, start)
    ensures BuriedLast(cfg, Act(cfg, s, a), start)
  {
    hide CalmInv, Issued, QueueOk, IdOk, Settled, MayRetry, CommandOk;
    OnlyPublishers(cfg, s);
    assert PcOk(cfg, s.queue, s.pcs[0]);
    match a
    case Issue(c, fault, pick) =>
      if c < |s.pcs| && !s.pcs[c].Executing? {
        assert PcOk(cfg, s.queue, s.pcs[c]);
        BuriedIssue(cfg, s, c, fault, pick, start);
      }
    case Arrive(cmd) =>
      if cmd in s.late {
        BuriedArrive(cfg, s, cmd, start);
      }
    case Execute(c, outcome) => assert c < |s.pcs| && s.pcs[c].Executing? ==> c == 0;
    case Publish(_, _) =>
    case Crash(_) =>
  }

  lemma OnlyPublishers(cfg: Config, s: State)
    requires CalmInv(cfg, s)
    ensures forall c :: 1 <= c < |s.pcs| ==> Publisher(s.pcs[c])
  {
  }

  lemma BuriedArrive(cfg: Config, s: State, cmd: Command, start: nat)
    requires Inv(cfg, s) && BuriedLast(cfg, s, start) && cmd in s.late && PcOk(cfg, s.queue, s.pcs[0])
    ensures BuriedLast(cfg, Act(cfg, s, Arrive(cmd)), start)
  {
    assert QueueOk(s.queue) && IdOk(s.queue, s.queue.nextId);
    DeadLetters(s.queue, cmd);
    var t := Act(cfg, s, Arrive(cmd));
    assert t == s.(queue := Apply(s.queue, cmd).0, late := s.late - multiset{cmd}, lateAdds := t.lateAdds);
    hide Inv, QueueOk, IdOk, Apply, Act, Exhausted, InRoot;
    forall id | id in s.queue.dead ensures InRoot(t.queue, id, start) ==> Exhausted(cfg, t, id) {
      ExhaustedStays(cfg, s, t, start, id);
    }
    if s.pcs[0].Burying? {
      ExhaustedStays(cfg, s, t, start, s.pcs[0].id);
    }
  }

  lemma {:induction false} BuriedRun(cfg: Config, clients: nat, actions: seq<Action>, start: nat)
    requires clients > 0 && CalmRun(cfg, clients, actions) && FailingRun(cfg, clients, actions, start)
    ensures BuriedLast(cfg, Run(cfg, Init(clients), actions), start)
  {
    hide Act, Inv, CalmInv, Calm, FailsForNow;
    if actions != [] {
      hide BuriedLast;
      var init := actions[..|actions| - 1];
      BuriedRun(cfg, clients, init, start);
      RunKeeps(cfg, clients, init);
      CalmRunKeeps(cfg, clients, init);
      BuriedStep(cfg, Run(cfg, Init(clients), init), actions[|actions| - 1], start);
    }
  }

  // An executed entry has executed predecessors for every attempt back to the first.
  lemma {:induction false} EveryAttempt(cfg: Config, s: State, id: nat, start: nat, v: int) returns (e: nat)
    requires Inv(cfg, s) && CalmInv(cfg, s) && id in s.executions && id in s.queue.accepted && InRoot(s.queue, id, start)
    requires start in s.queue.accepted && s.queue.accepted[start].attempt <= v <= s.queue.accepted[id].attempt
    ensures e in s.executions && e in s.queue.accepted && InRoot(s.queue, e, start) && s.queue.accepted[e].attempt == v
    decreases if id in s.queue.accepted then s.queue.accepted[id].attempt - v else 0
  {
    var q := s.queue;
    if q.accepted[id].attempt == v {
      e := id;
    } else {
      assert ChainAt(cfg, q, id);
      var p :| p in q.retriedAs && q.retriedAs[p] == id;
      assert QueueOk(q) && IdOk(q, p) && OneRetryAt(s, p);
      e := EveryAttempt(cfg, s, p, start, v);
    }
  }

  lemma {:induction false} Counted(executions: seq<nat>, root: map<nat, nat>, start: nat, id: nat)
    requires id in executions && id in root && root[id] == start
    ensures id in ExecutionsOf(executions, root, start)
  {
    if id != executions[|executions| - 1] {
      assert executions == executions[..|executions| - 1] + [executions[|executions| - 1]];
      Counted(executions[..|executions| - 1], root, start, id);
    }
  }

  ghost predicate Attempted(ids: seq<nat>, attempt: map<nat, int>, v: int) {
    exists i :: 0 <= i < |ids| && ids[i] in attempt && attempt[ids[i]] == v
  }

  // As many ids as there are attempts, when each attempt has one.
  lemma {:induction false} ManyAttempts(ids: seq<nat>, attempt: map<nat, int>, low: int, high: int)
    requires forall id :: id in ids ==> id in attempt
    requires forall v :: low <= v < high ==> Attempted(ids, attempt, v)
    ensures |ids| >= high - low
    decreases high - low
  {
    if low < high {
      assert Attempted(ids, attempt, high - 1);
      var k :| 0 <= k < |ids| && attempt[ids[k]] == high - 1;
      var rest := ids[..k] + ids[k + 1..];
      forall v | low <= v < high - 1 ensures Attempted(rest, attempt, v) {
        assert Attempted(ids, attempt, v);
        var i :| 0 <= i < |ids| && attempt[ids[i]] == v;
        assert rest[if i < k then i else i - 1] == ids[i];
      }
      ManyAttempts(rest, attempt, low, high - 1);
    }
  }

  // With one worker that does not crash and whose acknowledgements and dead letters succeed: a job
  // published at attempt a, whose executions all fail for now and whose retries find room, is
  // executed exactly max(1, maxRetries - a + 1) times before it is in the dead-letter stream.
  lemma {:induction false} RetriesExactly(cfg: Config, clients: nat, actions: seq<Action>, start: nat, last: nat)
    requires clients > 0 && CalmRun(cfg, clients, actions) && FailingRun(cfg, clients, actions, start)
    requires var q := Run(cfg, Init(clients), actions).queue;
      start in q.accepted && InRoot(q, start, start) && last in q.dead && InRoot(q, last, start)
    ensures var s := Run(cfg, Init(clients), actions);
      var most := cfg.maxRetries - s.queue.accepted[start].attempt + 1;
      |ExecutionsOf(s.executions, s.queue.root, start)| == if most > 1 then most else 1
  {
    hide Act, Inv, CalmInv;
    var s := Run(cfg, Init(clients), actions);
    RetriesBounded(cfg, clients, actions, start);
    RunKeeps(cfg, clients, actions);
    CalmRunKeeps(cfg, clients, actions);
    BuriedRun(cfg, clients, actions, start);
    var ids := ExecutionsOf(s.executions, s.queue.root, start);
    var attempt := map id | id in s.queue.accepted :: s.queue.accepted[id].attempt;
    var low, high := attempt[start], attempt[last] + 1;
    ExecutedListed(cfg, s, start);
    RootFirst(cfg, s, last);
    forall v | low <= v < high ensures Attempted(ids, attempt, v) {
      var e := EveryAttempt(cfg, s, last, start, v);
      Counted(s.executions, s.queue.root, start, e);
    }
    ManyAttempts(ids, attempt, low, high);
  }

  lemma ExecutedListed(cfg: Config, s: State, start: nat)
    requires CalmInv(cfg, s)
    ensures forall id :: id in ExecutionsOf(s.executions, s.queue.root, start) ==> id in s.queue.accepted
  {
    ExecutionsKept(s.executions, s.queue.root, start);
    forall id | id in s.executions ensures OnceAt(s, id) {
    }
  }

  lemma RootFirst(cfg: Config, s: State, id: nat)
    requires CalmInv(cfg, s) && id in s.queue.accepted
    ensures id in s.queue.root && s.queue.root[id] in s.queue.accepted
    ensures s.queue.accepted[s.queue.root[id]].attempt <= s.queue.accepted[id].attempt
  {
    assert ChainAt(cfg, s.queue, id);
  }

  // ------------------------------------------------------------ one job, round by round

  ghost predicate Only(m: map<nat, Job>, id: nat, job: Job) {
    m.Keys == {id} && m[id] == job
  }

  // The k-th entry is all there is: the job, tried k times, waits to be read.
  ghost predicate Tried(s: State, job: Job, k: nat) {
    s.pcs == [Idle] && Only(s.queue.entries, k, Job(job.task, job.attempt + k)) &&
    s.queue.nextId == k + 1 && s.queue.delivered == k && s.queue.pending == {} && s.queue.dead == map[] &&
    s.queue.done == {} && s.executions == Numbers(k)
  }

  function Numbers(n: nat): (r: seq<nat>)
    ensures |r| == n && forall i :: 0 <= i < n ==> r[i] == i
  {
    seq(n, i => i)
  }

  // It was read n times, is in the dead-letter stream, and nothing else is left.
  ghost predicate BuriedAfter(s: State, job: Job, n: nat) {
    n > 0 && s.pcs == [Idle] && s.queue.entries == map[] && s.queue.pending == {} && s.queue.done == {} &&
    Only(s.queue.dead, n - 1, Job(job.task, job.attempt + n - 1)) && s.executions == Numbers(n)
  }

  ghost predicate AllFailForNow(w: World) {
    AllFine(w) && forall n :: w.outcome(n) == Temporary(true)
  }

  lemma ReadsIt(cfg: Config, w: World, s: State, sent: nat, job: Job, k: nat)
    requires AllFine(w) && s.pcs == [Idle] && Tried(s, job, k)
    ensures var (held, n) := ReadOne(cfg, w, s, sent);
      held == s.(pcs := [Executing(k, Job(job.task, job.attempt + k))],
                 queue := s.queue.(delivered := k + 1, pending := {k}))
  {
    hide Drive;
    var first := s.(pcs := [Reading]);
    var job1 := Job(job.task, job.attempt + k);
    var held := s.(pcs := [Executing(k, job1)], queue := s.queue.(delivered := k + 1, pending := {k}));
    IssuedIs(cfg, s, w.fault(sent), w.pick(sent));
    assert Sent(cfg, w, s, sent) == first;
    DriveStep(cfg, w, first, sent + 1);
    IssuedIs(cfg, first, w.fault(sent + 1), w.pick(sent + 1));
    assert k in s.queue.entries;
    FirstHere(s.queue.entries, k);
    assert {} + {k} == {k};
    assert Apply(s.queue, XReadGroup) == (held.queue, Message(k, job1));
    assert Sent(cfg, w, first, sent + 1) == held;
    HeldNow(cfg, w, held, sent + 2);
  }

  lemma FirstHere(entries: map<nat, Job>, k: nat)
    requires k in entries
    ensures FirstFrom(entries, k, k + 1) == Some(k)
  {
  }

  lemma HeldNow(cfg: Config, w: World, s: State, sent: nat)
    requires |s.pcs| == 1 && s.pcs[0].Executing?
    ensures Drive(cfg, w, s, sent) == (s, sent)
  {
  }

  lemma OneTry(cfg: Config, w: World, s: State, sent: nat, job: Job, k: nat)
    requires AllFailForNow(w) && s.pcs == [Idle] && Tried(s, job, k) && cfg.maxLength > 1
    ensures var t := Round(cfg, w, s, sent).0;
      if job.attempt + k < cfg.maxRetries then Tried(t, job, k + 1) else BuriedAfter(t, job, k + 1)
  {
    hide ReadOne, ProcessOne, Processed, Tried, BuriedAfter;
    ReadsIt(cfg, w, s, sent, job, k);
    TriedIdle(s, job, k);
    var (held, n) := ReadOne(cfg, w, s, sent);
    ProcessEffect(cfg, w, held, n);
    TryEnds(cfg, s, held.queue, ProcessOne(cfg, w, held, n).0, job, k);
  }

  lemma TriedIdle(s: State, job: Job, k: nat)
    requires Tried(s, job, k)
    ensures s.pcs == [Idle] && s.executions == Numbers(k)
  {
  }

  lemma TryEnds(cfg: Config, s: State, q: Queue, t: State, job: Job, k: nat)
    requires Tried(s, job, k) && cfg.maxLength > 1 && q == s.queue.(delivered := k + 1, pending := {k})
    requires Processed(cfg, q, t.queue, k, Job(job.task, job.attempt + k), Temporary(true))
    requires t.pcs == [Idle] && t.executions == s.executions + [k]
    ensures if job.attempt + k < cfg.maxRetries then Tried(t, job, k + 1) else BuriedAfter(t, job, k + 1)
  {
    OneNumber(k);
    QueueAfter(cfg, q, t.queue, job, k);
    hide Numbers, Processed, Only;
  }

  lemma QueueAfter(cfg: Config, q: Queue, r: Queue, job: Job, k: nat)
    requires Only(q.entries, k, Job(job.task, job.attempt + k)) && q.nextId == k + 1 && q.delivered == k + 1
    requires q.pending == {k} && q.dead == map[] && q.done == {} && cfg.maxLength > 1
    requires Processed(cfg, q, r, k, Job(job.task, job.attempt + k), Temporary(true))
    ensures r.pending == {} && r.done == {} && r.delivered == k + 1
    ensures if job.attempt + k < cfg.maxRetries then
        Only(r.entries, k + 1, Job(job.task, job.attempt + k + 1)) && r.nextId == k + 2 && r.dead == map[]
      else r.entries == map[] && Only(r.dead, k, Job(job.task, job.attempt + k))
  {
    OneEntry(q.entries, k, Job(job.task, job.attempt + k), Job(job.task, job.attempt + k + 1));
    OneDead(q.dead, k, Job(job.task, job.attempt + k));
    hide Only;
  }

  lemma OneNumber(k: nat)
    ensures Numbers(k) + [k] == Numbers(k + 1)
  {
  }

  lemma OneEntry(m: map<nat, Job>, k: nat, job: Job, next: Job)
    requires Only(m, k, job)
    ensures |m| == 1 && m - {k} == map[] && {k} - {k} == {}
    ensures Only(m[k + 1 := next] - {k}, k + 1, next)
  {
    assert |m| == |m.Keys|;
    assert (m - {k}).Keys == {};
  }

  lemma OneDead(m: map<nat, Job>, k: nat, job: Job)
    ensures m == map[] ==> Only(m[k := job], k, job)
  {
  }

  // A job that fails for now every time, alone in a stream with room for one more: it is executed
  // once in each round until max(1, maxRetries - a + 1) executions, and then it is buried.
  lemma {:induction false} BuriedWhenExhausted(cfg: Config, w: World, s: State, sent: nat, job: Job, n: nat)
    requires AllFailForNow(w) && s.pcs == [Idle] && Tried(s, job, 0) && cfg.maxLength > 1
    requires n <= if cfg.maxRetries - job.attempt + 1 > 1 then cfg.maxRetries - job.attempt + 1 else 1
    ensures var t := Rounds(cfg, w, s, sent, n).0;
      var most := if cfg.maxRetries - job.attempt + 1 > 1 then cfg.maxRetries - job.attempt + 1 else 1;
      if n < most then Tried(t, job, n) else BuriedAfter(t, job, n)
  {
    hide Round, Tried, BuriedAfter;
    if n > 0 {
      BuriedWhenExhausted(cfg, w, s, sent, job, n - 1);
      var (t, m) := Rounds(cfg, w, s, sent, n - 1);
      OneTry(cfg, w, t, m, job, n - 1);
    }
  }
}
