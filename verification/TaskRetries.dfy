// How often a job is executed when one worker serves the queue, does not crash, and its
// acknowledgements and dead letters succeed.  Reads and publishes may still fail in every way.
module TaskRetries {
  import opened Collections
  import opened TaskQueue

  // Client 0 is the worker; the others only publish.
  ghost predicate Calm(s: State, a: Action) {
    match a
    case Issue(c, fault, _) =>
      c < |s.pcs| ==>
        (c > 0 ==> s.pcs[c].PubMeasuring? || s.pcs[c].PubAdding?) &&
        (s.pcs[c].Acking? || s.pcs[c].Burying? ==> fault == Fine)
    case Crash(c) => c > 0
    case _ => true
  }

  ghost predicate CalmRun(cfg: Config, clients: nat, actions: seq<Action>) {
    actions == [] ||
    (CalmRun(cfg, clients, actions[..|actions| - 1]) &&
     Calm(Run(cfg, Init(clients), actions[..|actions| - 1]), actions[|actions| - 1]))
  }

  // ------------------------------------------------------------ the invariant, id by id

  // The worker is publishing the retry of this entry.
  predicate Retrying(pc: Pc, id: nat) {
    (pc.Measuring? || pc.Adding?) && pc.id == id
  }

  // The worker has executed this entry and not yet acknowledged it.
  predicate Finishing(pc: Pc, id: nat) {
    (pc.Measuring? || pc.Adding? || pc.Burying? || pc.Acking?) && pc.id == id
  }

  ghost predicate Publisher(pc: Pc) {
    pc.Idle? || pc.PubMeasuring? || pc.PubAdding?
  }

  function RetryCommand(job: Job, id: nat): Command {
    XAdd(Retry(job), Some(id))
  }

  // An entry is handed to the worker again only if it was not executed.
  ghost predicate OnceAt(s: State, id: nat) {
    s.pcs != [] &&
    (id in s.executions ==>
      id in s.queue.accepted && id < s.queue.delivered && (id in s.queue.pending ==> Finishing(s.pcs[0], id))) &&
    (s.pcs[0].Executing? && s.pcs[0].id == id ==> id !in s.executions)
  }

  // It is retried at most once: by an entry that exists, one that is under way, or one that is late.
  ghost predicate OneRetryAt(s: State, id: nat) {
    s.pcs != [] &&
    (id in s.queue.retriedAs ==> id in s.executions && !Retrying(s.pcs[0], id)) &&
    (Retrying(s.pcs[0], id) ==> id in s.executions) &&
    (id in s.queue.accepted ==>
      var cmd := RetryCommand(s.queue.accepted[id], id);
      s.late[cmd] <= 1 &&
      (cmd in s.late ==> id in s.executions && id !in s.queue.retriedAs && !Retrying(s.pcs[0], id)))
  }

  ghost predicate HasPrevious(q: Queue, id: nat) {
    exists p :: p in q.retriedAs && q.retriedAs[p] == id
  }

  // A chain starts at its root and its attempts grow from there, up to the limit.
  ghost predicate ChainAt(cfg: Config, q: Queue, id: nat) {
    id in q.accepted ==>
      id in q.root && q.root[id] in q.accepted && q.root[id] in q.root && q.root[q.root[id]] == q.root[id] &&
      q.accepted[q.root[id]].attempt <= q.accepted[id].attempt &&
      (q.root[id] == id || (q.accepted[id].attempt <= cfg.maxRetries && HasPrevious(q, id)))
  }

  // The entries of a chain differ in their attempts.
  ghost predicate ApartAt(q: Queue, i: nat, j: nat) {
    (i in q.accepted && j in q.accepted && i in q.root && j in q.root &&
     q.root[i] == q.root[j] && q.accepted[i].attempt == q.accepted[j].attempt) ==>
    i == j
  }

  ghost predicate CalmInv(cfg: Config, s: State) {
    s.pcs != [] && Distinct(s.executions) &&
    (forall c :: 1 <= c < |s.pcs| ==> Publisher(s.pcs[c])) &&
    (forall id :: OnceAt(s, id)) && (forall id :: OneRetryAt(s, id)) &&
    (forall id :: ChainAt(cfg, s.queue, id)) && (forall i, j :: ApartAt(s.queue, i, j))
  }

  // ------------------------------------------------------------ one step

  ghost predicate Issues(cfg: Config, s: State, c: nat, fault: Fault, pick: nat) {
    Inv(cfg, s) && c < |s.pcs| && !s.pcs[c].Executing? && Calm(s, Issue(c, fault, pick)) &&
    PcOk(cfg, s.queue, s.pcs[c]) && PcOk(cfg, s.queue, s.pcs[0])
  }

  lemma OnceRead(cfg: Config, s: State, c: nat, fault: Fault, pick: nat, id: nat)
    requires Issues(cfg, s, c, fault, pick) && (s.pcs[c].Idle? || s.pcs[c].Reading?)
    requires OnceAt(s, id) && IdOk(s.queue, id)
    ensures OnceAt(Issued(cfg, s, c, fault, pick), id)
  {
    hide Inv, IdOk, Settled, MayRetry;
  }

  lemma OnceWork(cfg: Config, s: State, c: nat, fault: Fault, pick: nat, id: nat)
    requires Issues(cfg, s, c, fault, pick) && !s.pcs[c].Idle? && !s.pcs[c].Reading?
    requires OnceAt(s, id) && IdOk(s.queue, id)
    ensures OnceAt(Issued(cfg, s, c, fault, pick), id)
  {
    hide Inv, IdOk, Settled, MayRetry;
  }

  lemma RetryAdd(cfg: Config, s: State, c: nat, fault: Fault, pick: nat, id: nat)
    requires Issues(cfg, s, c, fault, pick) && s.pcs[c].Adding?
    requires OneRetryAt(s, id) && IdOk(s.queue, s.queue.nextId)
    ensures OneRetryAt(Issued(cfg, s, c, fault, pick), id)
  {
    var accepted := Apply(s.queue, CommandOf(s.pcs[c], pick)).0.accepted;
    if id in accepted {
      var retry := RetryCommand(accepted[id], id);
      assert retry in s.late ==> CommandOk(cfg, s.queue, retry);
    }
    hide Inv, QueueOk, IdOk, Settled;
  }

  lemma RetryPublish(cfg: Config, s: State, c: nat, fault: Fault, pick: nat, id: nat)
    requires Issues(cfg, s, c, fault, pick) && s.pcs[c].PubAdding?
    requires OneRetryAt(s, id) && IdOk(s.queue, s.queue.nextId)
    ensures OneRetryAt(Issued(cfg, s, c, fault, pick), id)
  {
    var accepted := Apply(s.queue, CommandOf(s.pcs[c], pick)).0.accepted;
    if id in accepted {
      var retry := RetryCommand(accepted[id], id);
      assert retry in s.late ==> CommandOk(cfg, s.queue, retry);
    }
    hide Inv, QueueOk, IdOk, Settled;
  }

  lemma RetrySame(cfg: Config, s: State, c: nat, fault: Fault, pick: nat, id: nat)
    requires Issues(cfg, s, c, fault, pick) && !s.pcs[c].Adding? && !s.pcs[c].PubAdding?
    requires OneRetryAt(s, id)
    ensures OneRetryAt(Issued(cfg, s, c, fault, pick), id)
  {
    SameRetries(s.queue, CommandOf(s.pcs[c], pick));
    hide Inv, IdOk, Settled, Apply, Held;
  }

  lemma SameRetries(q: Queue, cmd: Command)
    requires !cmd.XAdd?
    ensures Apply(q, cmd).0.accepted == q.accepted && Apply(q, cmd).0.retriedAs == q.retriedAs
  {
  }

  lemma OnceIssue(cfg: Config, s: State, c: nat, fault: Fault, pick: nat, id: nat)
    requires Issues(cfg, s, c, fault, pick) && IdOk(s.queue, id) && OnceAt(s, id)
    ensures OnceAt(Issued(cfg, s, c, fault, pick), id)
  {
    hide OnceAt, IdOk, Issued;
    if s.pcs[c].Idle? || s.pcs[c].Reading? {
      OnceRead(cfg, s, c, fault, pick, id);
    } else {
      OnceWork(cfg, s, c, fault, pick, id);
    }
  }

  lemma RetryIssue(cfg: Config, s: State, c: nat, fault: Fault, pick: nat, id: nat)
    requires Issues(cfg, s, c, fault, pick) && IdOk(s.queue, s.queue.nextId) && OneRetryAt(s, id)
    ensures OneRetryAt(Issued(cfg, s, c, fault, pick), id)
  {
    hide OneRetryAt, IdOk, Issued;
    if s.pcs[c].Adding? {
      RetryAdd(cfg, s, c, fault, pick, id);
    } else if s.pcs[c].PubAdding? {
      RetryPublish(cfg, s, c, fault, pick, id);
    } else {
      RetrySame(cfg, s, c, fault, pick, id);
    }
  }

  // A retry is new to its chain: its entry was not retried before.
  ghost predicate FreshRetry(q: Queue, cmd: Command) {
    cmd.XAdd? && cmd.from.Some? ==> cmd.from.value !in q.retriedAs
  }

  lemma ChainApply(cfg: Config, q: Queue, cmd: Command, id: nat)
    requires CommandOk(cfg, q, cmd) && FreshRetry(q, cmd) && IdOk(q, q.nextId)
    requires ChainAt(cfg, q, id) && (cmd.XAdd? && cmd.from.Some? ==> ChainAt(cfg, q, cmd.from.value))
    ensures ChainAt(cfg, Apply(q, cmd).0, id)
  {
    var r := Apply(q, cmd).0;
    if HasPrevious(q, id) {
      var p :| p in q.retriedAs && q.retriedAs[p] == id;
      assert p in r.retriedAs && r.retriedAs[p] == id;
    }
    if cmd.XAdd? && cmd.from.Some? {
      assert cmd.from.value in r.retriedAs && r.retriedAs[cmd.from.value] == q.nextId;
    }
  }

  // An entry of the chain with the next attempt is the retry of this one.
  lemma NextIsRetry(cfg: Config, q: Queue, id: nat, other: nat)
    requires id in q.accepted && other in q.accepted && IdOk(q, id) && IdOk(q, other)
    requires ChainAt(cfg, q, id) && ChainAt(cfg, q, other)
    requires forall p :: IdOk(q, p) && ApartAt(q, p, id)
    requires q.root[other] == q.root[id] && q.accepted[other].attempt == q.accepted[id].attempt + 1
    ensures id in q.retriedAs
  {
    var p :| p in q.retriedAs && q.retriedAs[p] == other;
    assert IdOk(q, p) && ApartAt(q, p, id);
  }

  lemma AttemptFree(cfg: Config, q: Queue, id: nat, other: nat)
    requires id in q.accepted && other in q.accepted && IdOk(q, id) && IdOk(q, other)
    requires ChainAt(cfg, q, id) && ChainAt(cfg, q, other)
    requires forall p :: IdOk(q, p) && ApartAt(q, p, id)
    ensures q.root[other] == q.root[id] && q.accepted[other].attempt == q.accepted[id].attempt + 1 ==> id in q.retriedAs
  {
    if q.root[other] == q.root[id] && q.accepted[other].attempt == q.accepted[id].attempt + 1 {
      NextIsRetry(cfg, q, id, other);
    }
  }

  lemma ApartApply(cfg: Config, q: Queue, cmd: Command, i: nat, j: nat)
    requires QueueOk(q) && CommandOk(cfg, q, cmd) && FreshRetry(q, cmd)
    requires (forall id :: ChainAt(cfg, q, id)) && (forall a, b :: ApartAt(q, a, b))
    ensures ApartAt(Apply(q, cmd).0, i, j)
  {
    hide ChainAt;
    assert ApartAt(q, i, j) && IdOk(q, q.nextId) && IdOk(q, i) && IdOk(q, j);
    assert ChainAt(cfg, q, i) && ChainAt(cfg, q, j);
    RootListed(cfg, q, i);
    RootListed(cfg, q, j);
    if cmd.XAdd? && cmd.from.Some? {
      var e := cmd.from.value;
      assert IdOk(q, e) && ChainAt(cfg, q, e);
      if i in q.accepted {
        AttemptFree(cfg, q, e, i);
      }
      if j in q.accepted {
        AttemptFree(cfg, q, e, j);
      }
    }
  }

  lemma RootListed(cfg: Config, q: Queue, id: nat)
    requires ChainAt(cfg, q, id)
    ensures id in q.accepted ==> id in q.root && q.root[id] in q.accepted
  {
  }

  // The retry a client sends, or left behind, is always fresh.
  lemma CommandFresh(cfg: Config, s: State, c: nat, pick: nat)
    requires CalmInv(cfg, s) && c < |s.pcs| && !s.pcs[c].Executing?
    ensures FreshRetry(s.queue, CommandOf(s.pcs[c], pick))
  {
    if s.pcs[c].Adding? {
      assert OneRetryAt(s, s.pcs[c].id);
    }
  }

  lemma LateFresh(cfg: Config, s: State, cmd: Command)
    requires Inv(cfg, s) && CalmInv(cfg, s) && cmd in s.late
    ensures FreshRetry(s.queue, cmd)
  {
    if cmd.XAdd? && cmd.from.Some? {
      assert CommandOk(cfg, s.queue, cmd);
      assert OneRetryAt(s, cmd.from.value);
    }
  }

  lemma OnceOther(cfg: Config, s: State, a: Action, id: nat)
    requires Inv(cfg, s) && Calm(s, a) && !a.Issue? && OnceAt(s, id)
    requires forall c :: 1 <= c < |s.pcs| ==> Publisher(s.pcs[c])
    ensures OnceAt(Act(cfg, s, a), id)
  {
    assert PcOk(cfg, s.queue, s.pcs[0]);
    assert QueueOk(s.queue);
    assert IdOk(s.queue, id);
    hide Inv, QueueOk, IdOk;
    if a.Arrive? && a.cmd in s.late {
      OnceArrive(cfg, s, a.cmd, id);
    }
  }

  lemma OnceArrive(cfg: Config, s: State, cmd: Command, id: nat)
    requires OnceAt(s, id)
    ensures OnceAt(s.(queue := Apply(s.queue, cmd).0, late := s.late - multiset{cmd}), id)
  {
  }

  lemma RetryOther(cfg: Config, s: State, a: Action, id: nat)
    requires Inv(cfg, s) && Calm(s, a) && !a.Issue? && OneRetryAt(s, id) && OnceAt(s, id)
    requires forall c :: 1 <= c < |s.pcs| ==> Publisher(s.pcs[c])
    ensures OneRetryAt(Act(cfg, s, a), id)
  {
    assert PcOk(cfg, s.queue, s.pcs[0]);
    assert IdOk(s.queue, s.queue.nextId);
    hide QueueOk, IdOk;
    if a.Arrive? && a.cmd in s.late {
      RetryArrive(cfg, s, a.cmd, id);
    }
  }

  lemma RetryArrive(cfg: Config, s: State, cmd: Command, id: nat)
    requires Inv(cfg, s) && s.pcs != [] && OneRetryAt(s, id) && cmd in s.late
    ensures OneRetryAt(s.(queue := Apply(s.queue, cmd).0, late := s.late - multiset{cmd}), id)
  {
    assert CommandOk(cfg, s.queue, cmd) && IdOk(s.queue, s.queue.nextId) && PcOk(cfg, s.queue, s.pcs[0]);
    var accepted := Apply(s.queue, cmd).0.accepted;
    if id in accepted {
      var retry := RetryCommand(accepted[id], id);
      assert retry in s.late ==> CommandOk(cfg, s.queue, retry);
    }
    hide Inv, QueueOk, IdOk;
  }

  // The chains change with the queue only.
  lemma ChainsKeep(cfg: Config, s: State, cmd: Command)
    requires Inv(cfg, s) && CalmInv(cfg, s) && CommandOk(cfg, s.queue, cmd) && FreshRetry(s.queue, cmd)
    ensures var r := Apply(s.queue, cmd).0;
      (forall id :: ChainAt(cfg, r, id)) && forall i, j :: ApartAt(r, i, j)
  {
    hide ChainAt, ApartAt, IdOk, CommandOk, FreshRetry, Apply, OnceAt, OneRetryAt;
    var q, r := s.queue, Apply(s.queue, cmd).0;
    forall id: nat ensures ChainAt(cfg, r, id) {
      assert IdOk(q, q.nextId) && ChainAt(cfg, q, id);
      assert cmd.XAdd? && cmd.from.Some? ==> ChainAt(cfg, q, cmd.from.value);
      ChainApply(cfg, q, cmd, id);
    }
    forall i: nat, j: nat ensures ApartAt(r, i, j) {
      ApartApply(cfg, q, cmd, i, j);
    }
  }

  lemma CalmIssue(cfg: Config, s: State, c: nat, fault: Fault, pick: nat)
    requires Inv(cfg, s) && CalmInv(cfg, s) && Calm(s, Issue(c, fault, pick)) && c < |s.pcs| && !s.pcs[c].Executing?
    ensures CalmInv(cfg, Issued(cfg, s, c, fault, pick))
  {
    var s' := Issued(cfg, s, c, fault, pick);
    assert Issues(cfg, s, c, fault, pick);
    CommandFresh(cfg, s, c, pick);
    AfterOk(cfg, s.queue, s.pcs[c], pick);
    ChainsKeep(cfg, s, CommandOf(s.pcs[c], pick));
    hide ChainAt, ApartAt, IdOk, CommandOk, FreshRetry, Apply, OnceAt, OneRetryAt, PcOk, CommandOf, Issues;
    forall id: nat ensures OnceAt(s', id) {
      assert IdOk(s.queue, id);
      OnceIssue(cfg, s, c, fault, pick, id);
    }
    forall id: nat ensures OneRetryAt(s', id) {
      assert IdOk(s.queue, s.queue.nextId);
      RetryIssue(cfg, s, c, fault, pick, id);
    }
  }

  lemma CalmStep(cfg: Config, s: State, a: Action)
    requires Inv(cfg, s) && CalmInv(cfg, s) && Calm(s, a)
    ensures CalmInv(cfg, Act(cfg, s, a))
  {
    hide ChainAt, ApartAt, IdOk, CommandOk, FreshRetry, Apply, OnceAt, OneRetryAt, PcOk, Inv, Issued, Executed;
    if a.Issue? {
      if a.client < |s.pcs| && !s.pcs[a.client].Executing? {
        CalmIssue(cfg, s, a.client, a.fault, a.pick);
      }
    } else {
      var s' := Act(cfg, s, a);
      forall id: nat ensures OnceAt(s', id) {
        OnceOther(cfg, s, a, id);
      }
      forall id: nat ensures OneRetryAt(s', id) {
        RetryOther(cfg, s, a, id);
      }
      ExecutedOnce(s, a);
      if a.Arrive? && a.cmd in s.late {
        LateFresh(cfg, s, a.cmd);
        LateOk(cfg, s, a.cmd);
        ChainsKeep(cfg, s, a.cmd);
      } else {
        SameChains(cfg, s, a);
      }
    }
  }

  lemma LateOk(cfg: Config, s: State, cmd: Command)
    requires Inv(cfg, s) && cmd in s.late
    ensures CommandOk(cfg, s.queue, cmd)
  {
  }

  lemma ExecutedOnce(s: State, a: Action)
    requires s.pcs != [] && Distinct(s.executions)
    requires s.pcs[0].Executing? ==> OnceAt(s, s.pcs[0].id)
    requires forall c :: 1 <= c < |s.pcs| ==> Publisher(s.pcs[c])
    ensures a.Execute? ==> Distinct(Act(Config(0, 0), s, a).executions)
  {
  }

  lemma SameChains(cfg: Config, s: State, a: Action)
    requires CalmInv(cfg, s) && !a.Issue? && !(a.Arrive? && a.cmd in s.late)
    ensures var r := Act(cfg, s, a).queue;
      (forall id :: ChainAt(cfg, r, id)) && forall i, j :: ApartAt(r, i, j)
  {
    var q, r := s.queue, Act(cfg, s, a).queue;
    assert r == q.(done := r.done, undecodable := r.undecodable);
    forall id: nat ensures ChainAt(cfg, r, id) {
      assert ChainAt(cfg, q, id);
      assert HasPrevious(q, id) ==> HasPrevious(r, id);
    }
    forall i: nat, j: nat ensures ApartAt(r, i, j) {
      assert ApartAt(q, i, j);
    }
  }

  lemma CalmStart(cfg: Config, clients: nat)
    requires clients > 0
    ensures CalmInv(cfg, Init(clients))
  {
    var s := Init(clients);
    assert s.queue.accepted == map[] && s.queue.retriedAs == map[] && s.executions == [];
    assert s.pcs[0] == Idle;
  }

  lemma {:induction false} CalmRunKeeps(cfg: Config, clients: nat, actions: seq<Action>)
    requires clients > 0 && CalmRun(cfg, clients, actions)
    ensures CalmInv(cfg, Run(cfg, Init(clients), actions))
  {
    hide CalmInv, Calm, Act, Inv;
    if actions == [] {
      CalmStart(cfg, clients);
    } else {
      CalmRunKeeps(cfg, clients, actions[..|actions| - 1]);
      RunKeeps(cfg, clients, actions[..|actions| - 1]);
      CalmStep(cfg, Run(cfg, Init(clients), actions[..|actions| - 1]), actions[|actions| - 1]);
    }
  }

  // ------------------------------------------------------------ counting executions

  // The executions of the chain that began with the entry start.
  function ExecutionsOf(executions: seq<nat>, root: map<nat, nat>, start: nat): seq<nat> {
    if executions == [] then []
    else
      var last := executions[|executions| - 1];
      ExecutionsOf(executions[..|executions| - 1], root, start)
        + if last in root && root[last] == start then [last] else []
  }

  lemma {:induction false} ExecutionsKept(executions: seq<nat>, root: map<nat, nat>, start: nat)
    requires Distinct(executions)
    ensures var r := ExecutionsOf(executions, root, start);
      Distinct(r) && forall id :: id in r ==> id in executions && id in root && root[id] == start
  {
    if executions != [] {
      var init, last := executions[..|executions| - 1], executions[|executions| - 1];
      ExecutionsKept(init, root, start);
      assert executions == init + [last];
      assert last !in init;
    }
  }

  // A sequence of ids with distinct attempts between low and high has no more than that many.
  lemma {:induction false} FewAttempts(ids: seq<nat>, attempt: map<nat, int>, low: int, high: int)
    requires forall id :: id in ids ==> id in attempt && low <= attempt[id] < high
    requires forall i, j :: 0 <= i < j < |ids| ==> attempt[ids[i]] != attempt[ids[j]]
    ensures |ids| == 0 || |ids| <= high - low
    decreases high - low
  {
    if ids != [] {
      assert ids[0] in attempt && low < high;
      if k :| 0 <= k < |ids| && attempt[ids[k]] == high - 1 {
        var rest := ids[..k] + ids[k + 1..];
        forall id | id in rest ensures id in attempt && low <= attempt[id] < high - 1 {
          var i :| 0 <= i < |rest| && rest[i] == id;
          assert ids[if i < k then i else i + 1] == id;
        }
        FewAttempts(rest, attempt, low, high - 1);
      } else {
        forall id | id in ids ensures attempt[id] < high - 1 {
          var i :| 0 <= i < |ids| && ids[i] == id;
        }
        FewAttempts(ids, attempt, low, high - 1);
      }
    }
  }

  // With one worker that does not crash and whose acknowledgements and dead letters succeed, a
  // job published at attempt a is executed at most max(1, maxRetries - a + 1) times, its retries
  // included.
  lemma {:induction false} RetriesBounded(cfg: Config, clients: nat, actions: seq<Action>, start: nat)
    requires clients > 0 && CalmRun(cfg, clients, actions)
    requires var q := Run(cfg, Init(clients), actions).queue;
      start in q.accepted && start in q.root && q.root[start] == start
    ensures var s := Run(cfg, Init(clients), actions);
      var most := cfg.maxRetries - s.queue.accepted[start].attempt + 1;
      |ExecutionsOf(s.executions, s.queue.root, start)| <= if most > 1 then most else 1
  {
    var s := Run(cfg, Init(clients), actions);
    CalmRunKeeps(cfg, clients, actions);
    var ids := ExecutionsOf(s.executions, s.queue.root, start);
    ExecutionsKept(s.executions, s.queue.root, start);
    ChainBounded(cfg, s, ids, start);
  }

  lemma ChainBounded(cfg: Config, s: State, ids: seq<nat>, start: nat)
    requires CalmInv(cfg, s) && Distinct(ids) && start in s.queue.accepted && start in s.queue.root
    requires s.queue.root[start] == start
    requires forall id :: id in ids ==> id in s.executions && id in s.queue.root && s.queue.root[id] == start
    ensures var most := cfg.maxRetries - s.queue.accepted[start].attempt + 1;
      |ids| <= if most > 1 then most else 1
  {
    var q := s.queue;
    var low := q.accepted[start].attempt;
    var high := if cfg.maxRetries < low then low + 1 else cfg.maxRetries + 1;
    var attempt := map id | id in q.accepted :: q.accepted[id].attempt;
    forall id | id in ids ensures id in q.accepted && low <= q.accepted[id].attempt < high {
      assert OnceAt(s, id) && ChainAt(cfg, q, id);
    }
    forall i, j | 0 <= i < j < |ids| ensures attempt[ids[i]] != attempt[ids[j]] {
      assert ids[i] in ids && ids[j] in ids;
      assert ApartAt(q, ids[i], ids[j]);
    }
    FewAttempts(ids, attempt, low, high);
  }

  // What an execution leaves behind, once the worker has let go of the entry: it will not be
  // handed out again, and it is done, or in the dead-letter stream, or continued by a retry with
  // one attempt more, which there is only below the limit.  maxRetries - attempt is the measure.
  lemma {:induction false} ExecutedIsOver(cfg: Config, clients: nat, actions: seq<Action>, id: nat)
    requires clients > 0 && CalmRun(cfg, clients, actions)
    requires var s := Run(cfg, Init(clients), actions);
      id in s.executions && s.pcs != [] && !Finishing(s.pcs[0], id)
    ensures var q := Run(cfg, Init(clients), actions).queue;
      id in q.accepted && !Alive(q, id) && Settled(q, id) &&
      (q.accepted[id].attempt >= cfg.maxRetries ==> id in q.done || id in q.dead) &&
      (id !in q.done && id !in q.dead ==>
        id in q.retriedAs && Continues(q, id, q.retriedAs[id]) &&
        0 <= cfg.maxRetries - q.accepted[q.retriedAs[id]].attempt < cfg.maxRetries - q.accepted[id].attempt)
  {
    hide Act;
    var s := Run(cfg, Init(clients), actions);
    RunKeeps(cfg, clients, actions);
    CalmRunKeeps(cfg, clients, actions);
    ExecutedSettled(cfg, s, id);
  }

  lemma {:induction false} ExecutedSettled(cfg: Config, s: State, id: nat)
    requires Inv(cfg, s) && CalmInv(cfg, s) && id in s.executions && !Finishing(s.pcs[0], id)
    ensures var q := s.queue;
      id in q.accepted && !Alive(q, id) && Settled(q, id) &&
      (id in q.retriedAs ==>
        Continues(q, id, q.retriedAs[id]) && q.accepted[q.retriedAs[id]].attempt <= cfg.maxRetries)
  {
    var q := s.queue;
    assert OnceAt(s, id) && IdOk(q, id);
    if id in q.retriedAs {
      assert ChainAt(cfg, q, id) && ChainAt(cfg, q, q.retriedAs[id]);
    }
  }

  // So when every entry of a chain was executed and the worker is between two messages, nothing of
  // the job is left to hand out, and it succeeded or is dead-lettered.
  lemma {:induction false} FinishedOrBuried(cfg: Config, clients: nat, actions: seq<Action>, start: nat)
    returns (last: nat)
    requires clients > 0 && CalmRun(cfg, clients, actions)
    requires start in Run(cfg, Init(clients), actions).queue.accepted
    requires var s := Run(cfg, Init(clients), actions);
      s.pcs != [] && (s.pcs[0].Idle? || s.pcs[0].Reading?) && forall id :: InChain(s.queue, start, id) ==> id in s.executions
    ensures var q := Run(cfg, Init(clients), actions).queue;
      (forall id :: InChain(q, start, id) ==> !Alive(q, id)) && Follows(q, start, last) && Closed(q, last)
  {
    hide Act;
    var q := Run(cfg, Init(clients), actions).queue;
    RunKeeps(cfg, clients, actions);
    forall id | InChain(q, start, id) ensures !Alive(q, id) {
      ExecutedIsOver(cfg, clients, actions, id);
    }
    last := SoundAccounts(cfg, q, start);
  }

  // The entries of the chain that an entry is part of.
  ghost predicate InChain(q: Queue, start: nat, id: nat) {
    id in q.accepted && id in q.root && start in q.root && q.root[id] == q.root[start]
  }
}
