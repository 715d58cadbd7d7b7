// The task queue as a protocol: a Redis stream with one consumer group, and clients that
// publish jobs or work on them.  A client issues one command at a time; a command may be
// lost before it takes effect, after it, or reach the server after its client gave up, and
// a client may crash between any two steps.
module TaskQueue {
  import opened Collections

  datatype Job = Job(task: string, attempt: int)

  // What Message{ID: id} holds when the payload cannot be decoded.
  const NO_JOB := Job("", 0)

  // ------------------------------------------------------------ the server

  // The stream, its group and the dead-letter stream.  accepted, done, undecodable, retriedAs and
  // root are history: every job ever added, the entries whose execution succeeded, those whose
  // payload a worker could not decode, the entry that continues another, and the entry a chain
  // of retries began with.
  datatype Queue = Queue(
    entries: map<nat, Job>, nextId: nat,
    delivered: nat, pending: set<nat>,
    dead: map<nat, Job>,
    accepted: map<nat, Job>, done: set<nat>, undecodable: set<nat>, retriedAs: map<nat, nat>, root: map<nat, nat>)

  datatype Command =
    | XLen
    | XAdd(job: Job, from: Option<nat>)
    | XAddDead(originalId: nat, job: Job)
    | XAutoClaim(pick: nat)
    | XReadGroup
    | XAck(id: nat)
    | XDel(id: nat)

  datatype Reply = Count(n: nat) | Message(id: nat, job: Job) | NoMessage | Okay | Error

  // The first entry from an id on.
  function FirstFrom(entries: map<nat, Job>, i: nat, nextId: nat): (r: Option<nat>)
    ensures r.Some? ==> i <= r.value < nextId && r.value in entries
    ensures forall j :: i <= j < (if r.Some? then r.value else nextId) ==> j !in entries
    decreases nextId - i
  {
    if i >= nextId then None
    else if i in entries then Some(i)
    else FirstFrom(entries, i + 1, nextId)
  }

  function Apply(q: Queue, cmd: Command): (Queue, Reply) {
    match cmd
    case XLen => (q, Count(|q.entries|))
    case XAdd(job, from) =>
      var id := q.nextId;
      (q.(entries := q.entries[id := job], accepted := q.accepted[id := job], nextId := id + 1,
          retriedAs := if from.Some? then q.retriedAs[from.value := id] else q.retriedAs,
          root := q.root[id := if from.Some? && from.value in q.root then q.root[from.value] else id]),
       Okay)
    case XAddDead(id, job) => (q.(dead := q.dead[id := job]), Okay)
    case XAutoClaim(pick) =>
      (q, if pick in q.pending && pick in q.entries then Message(pick, q.entries[pick]) else NoMessage)
    case XReadGroup =>
      (match FirstFrom(q.entries, q.delivered, q.nextId)
       case None => (q, NoMessage)
       case Some(id) => (q.(delivered := id + 1, pending := q.pending + {id}), Message(id, q.entries[id])))
    case XAck(id) => (q.(pending := q.pending - {id}), Okay)
    case XDel(id) => (q.(entries := q.entries - {id}), Okay)
  }

  // ------------------------------------------------------------ the clients

  datatype Pc =
    | Idle
    | Reading
    | Executing(id: nat, job: Job)
    | Measuring(id: nat, job: Job)
    | Adding(id: nat, job: Job)
    | Burying(id: nat, job: Job)
    | Acking(id: nat)
    | Deleting(id: nat)
    | PubMeasuring(job: Job)
    | PubAdding(job: Job)

  datatype Config = Config(maxLength: nat, maxRetries: int)

  // The command a client sends next.
  function CommandOf(pc: Pc, pick: nat): Command
    requires !pc.Executing?
  {
    match pc
    case Idle => XAutoClaim(pick)
    case Reading => XReadGroup
    case Measuring(_, _) => XLen
    case Adding(id, job) => XAdd(job, Some(id))
    case Burying(id, job) => XAddDead(id, job)
    case Acking(id) => XAck(id)
    case Deleting(id) => XDel(id)
    case PubMeasuring(_) => XLen
    case PubAdding(job) => XAdd(job, None)
  }

  // Where a reply takes it.
  function After(cfg: Config, pc: Pc, reply: Reply): Pc
    requires !pc.Executing?
  {
    match pc
    case Idle =>
      if reply.Message? then Executing(reply.id, reply.job) else if reply.NoMessage? then Reading else Idle
    case Reading => if reply.Message? then Executing(reply.id, reply.job) else Idle
    case Measuring(id, job) => if reply.Count? && reply.n < cfg.maxLength then Adding(id, job) else Burying(id, job)
    case Adding(id, job) => if reply == Error then Burying(id, job) else Acking(id)
    case Burying(id, _) => if reply == Error then Idle else Acking(id)
    case Acking(id) => if reply == Error then Idle else Deleting(id)
    case Deleting(_) => Idle
    case PubMeasuring(job) => if reply.Count? && reply.n < cfg.maxLength then PubAdding(job) else Idle
    case PubAdding(_) => Idle
  }

  // How the execution of a message ends: it succeeds, fails for good, or fails for now, in
  // which case putting the task back may itself fail; or its payload cannot be decoded.
  datatype Outcome = Success | Permanent | Temporary(retryStored: bool) | Undecodable

  function Executed(cfg: Config, id: nat, job: Job, outcome: Outcome): Pc {
    match outcome
    case Success => Acking(id)
    case Permanent => Burying(id, job)
    case Temporary(retryStored) =>
      if job.attempt >= cfg.maxRetries then Burying(id, job)
      else if retryStored then Measuring(id, job.(attempt := job.attempt + 1))
      else Burying(id, job.(attempt := job.attempt + 1))
    case Undecodable => Burying(id, NO_JOB)
  }

  // What the outcome adds to the history.
  function Recorded(q: Queue, id: nat, outcome: Outcome): Queue {
    q.(done := if outcome == Success then q.done + {id} else q.done,
       undecodable := if outcome == Undecodable then q.undecodable + {id} else q.undecodable)
  }

  datatype Fault = Fine | LostReply | Dropped | Late

  datatype Action =
    | Issue(client: nat, fault: Fault, pick: nat)
    | Execute(client: nat, outcome: Outcome)
    | Publish(client: nat, job: Job)
    | Crash(client: nat)
    | Arrive(cmd: Command)

  // late holds the commands left behind that have not arrived; lateAdds counts the entries that
  // were added by one that did.
  datatype State = State(queue: Queue, pcs: seq<Pc>, late: multiset<Command>, lateAdds: nat, executions: seq<nat>)

  function Issued(cfg: Config, s: State, c: nat, fault: Fault, pick: nat): State
    requires c < |s.pcs| && !s.pcs[c].Executing?
  {
    var pc := s.pcs[c];
    var cmd := CommandOf(pc, pick);
    var (q, reply) := Apply(s.queue, cmd);
    var heard := if fault == Fine then reply else Error;
    s.(queue := if fault in {Fine, LostReply} then q else s.queue,
       pcs := s.pcs[c := After(cfg, pc, heard)],
       late := if fault == Late then s.late + multiset{cmd} else s.late)
  }

  function Act(cfg: Config, s: State, a: Action): State {
    match a
    case Issue(c, fault, pick) =>
      if c < |s.pcs| && !s.pcs[c].Executing? then Issued(cfg, s, c, fault, pick) else s
    case Execute(c, outcome) =>
      if c < |s.pcs| && s.pcs[c].Executing? then
        var Executing(id, job) := s.pcs[c];
        s.(pcs := s.pcs[c := Executed(cfg, id, job, outcome)],
           queue := Recorded(s.queue, id, outcome),
           executions := if outcome == Undecodable then s.executions else s.executions + [id])
      else s
    case Publish(c, job) => if c < |s.pcs| && s.pcs[c].Idle? then s.(pcs := s.pcs[c := PubMeasuring(job)]) else s
    case Crash(c) => if c < |s.pcs| then s.(pcs := s.pcs[c := Idle]) else s
    case Arrive(cmd) =>
      if cmd in s.late then
        s.(queue := Apply(s.queue, cmd).0, late := s.late - multiset{cmd},
           lateAdds := if cmd.XAdd? then s.lateAdds + 1 else s.lateAdds)
      else s
  }

  function Run(cfg: Config, s: State, actions: seq<Action>): State {
    if actions == [] then s
    else Act(cfg, Run(cfg, s, actions[..|actions| - 1]), actions[|actions| - 1])
  }

  function AllIdle(n: nat): (pcs: seq<Pc>)
    ensures |pcs| == n
    ensures forall c :: 0 <= c < n ==> pcs[c] == Idle
  {
    if n == 0 then [] else AllIdle(n - 1) + [Idle]
  }

  function Init(clients: nat): State {
    State(Queue(map[], 0, 0, {}, map[], map[], {}, {}, map[], map[]), AllIdle(clients), multiset{}, 0, [])
  }

  // ------------------------------------------------------------ the invariant

  ghost predicate Settled(q: Queue, id: nat) {
    id in q.done || id in q.dead || id in q.retriedAs
  }

  // Undelivered or pending: the entry will be handed to a worker.
  ghost predicate Alive(q: Queue, id: nat) {
    (id in q.entries && id >= q.delivered) || id in q.pending
  }

  // Entry next is the retry of entry id.
  ghost predicate Continues(q: Queue, id: nat, next: nat) {
    id in q.accepted && next in q.accepted && id < next < q.nextId && id in q.root && next in q.root &&
    q.root[next] == q.root[id] && q.accepted[next] == Retry(q.accepted[id])
  }

  function Retry(job: Job): Job {
    job.(attempt := job.attempt + 1)
  }

  // A dead letter for the entry: its job, before or after the attempt was counted, or nothing
  // that can be said when the payload could not be decoded.
  ghost predicate CarriesJob(q: Queue, id: nat, job: Job) {
    id in q.undecodable || (id in q.accepted && (job == q.accepted[id] || job == Retry(q.accepted[id])))
  }

  // What holds of every id.  The second line is the heart of it: an accepted job is alive or
  // settled.
  ghost predicate IdOk(q: Queue, id: nat) {
    (id in q.accepted ==> id < q.nextId && id in q.root && q.root[id] in q.accepted) &&
    (id in q.accepted ==> Alive(q, id) || Settled(q, id)) &&
    (id in q.entries ==> id in q.accepted && q.accepted[id] == q.entries[id]) &&
    (id in q.pending ==> id in q.entries && id < q.delivered) &&
    (id in q.dead ==> CarriesJob(q, id, q.dead[id])) &&
    (id in q.retriedAs ==> Continues(q, id, q.retriedAs[id]))
  }

  ghost predicate QueueOk(q: Queue) {
    q.delivered <= q.nextId && forall id :: IdOk(q, id)
  }

  ghost predicate Held(q: Queue, id: nat) {
    id in q.accepted && id < q.delivered
  }

  // What a command relies on when it takes effect, now or later.
  ghost predicate CommandOk(cfg: Config, q: Queue, cmd: Command) {
    match cmd
    case XAdd(job, from) => from.Some? ==> Held(q, from.value) && MayRetry(cfg, q, from.value, job)
    case XAddDead(id, job) => Held(q, id) && CarriesJob(q, id, job)
    case XAck(id) => Held(q, id) && Settled(q, id)
    case XDel(id) => Held(q, id) && Settled(q, id) && id !in q.pending
    case _ => true
  }

  ghost predicate MayRetry(cfg: Config, q: Queue, id: nat, job: Job) {
    id in q.accepted && job == Retry(q.accepted[id]) && job.attempt <= cfg.maxRetries
  }

  ghost predicate PcOk(cfg: Config, q: Queue, pc: Pc) {
    match pc
    case Executing(id, job) => Held(q, id) && q.accepted[id] == job
    case Measuring(id, job) => Held(q, id) && MayRetry(cfg, q, id, job)
    case Adding(id, job) => Held(q, id) && MayRetry(cfg, q, id, job)
    case Burying(id, job) => Held(q, id) && CarriesJob(q, id, job)
    case Acking(id) => Held(q, id) && Settled(q, id)
    case Deleting(id) => Held(q, id) && Settled(q, id) && id !in q.pending
    case _ => true
  }

  ghost predicate Inv(cfg: Config, s: State) {
    QueueOk(s.queue) &&
    (forall c :: 0 <= c < |s.pcs| ==> PcOk(cfg, s.queue, s.pcs[c])) &&
    (forall cmd :: cmd in s.late ==> CommandOk(cfg, s.queue, cmd))
  }

  // What never goes back: jobs stay accepted, settled entries stay settled, and an entry that
  // was delivered and acknowledged never becomes pending again.
  ghost predicate GrowsAt(q: Queue, r: Queue, id: nat) {
    (id in q.accepted ==> id in r.accepted && r.accepted[id] == q.accepted[id]) &&
    (Settled(q, id) ==> Settled(r, id)) && (id in q.undecodable ==> id in r.undecodable) &&
    (id < q.delivered && id !in q.pending ==> id !in r.pending)
  }

  ghost predicate Grows(q: Queue, r: Queue) {
    q.delivered <= r.delivered && q.nextId <= r.nextId && forall id :: GrowsAt(q, r, id)
  }

  lemma GrowsKeeps(cfg: Config, q: Queue, r: Queue, cmd: Command, pc: Pc)
    requires Grows(q, r)
    ensures CommandOk(cfg, q, cmd) ==> CommandOk(cfg, r, cmd)
    ensures PcOk(cfg, q, pc) ==> PcOk(cfg, r, pc)
  {
    hide Settled;
    if pc.Executing? || pc.Measuring? || pc.Adding? || pc.Burying? || pc.Acking? || pc.Deleting? {
      assert GrowsAt(q, r, pc.id);
    }
    match cmd
    case XAdd(_, from) => assert from.Some? ==> GrowsAt(q, r, from.value);
    case XAddDead(id, _) => assert GrowsAt(q, r, id);
    case XAck(id) => assert GrowsAt(q, r, id);
    case XDel(id) => assert GrowsAt(q, r, id);
    case _ =>
  }

  // ------------------------------------------------------------ every command keeps it

  lemma AddKeepsId(cfg: Config, q: Queue, job: Job, from: Option<nat>, id: nat)
    requires IdOk(q, id) && IdOk(q, q.nextId) && q.delivered <= q.nextId && CommandOk(cfg, q, XAdd(job, from))
    requires from.Some? ==> IdOk(q, from.value)
    ensures var r := Apply(q, XAdd(job, from)).0; IdOk(r, id) && GrowsAt(q, r, id)
  {
  }

  lemma AckKeepsId(cfg: Config, q: Queue, ack: nat, id: nat)
    requires IdOk(q, id) && CommandOk(cfg, q, XAck(ack))
    ensures var r := Apply(q, XAck(ack)).0; IdOk(r, id) && GrowsAt(q, r, id)
  {
  }

  lemma DeleteKeepsId(cfg: Config, q: Queue, del: nat, id: nat)
    requires IdOk(q, id) && CommandOk(cfg, q, XDel(del))
    ensures var r := Apply(q, XDel(del)).0; IdOk(r, id) && GrowsAt(q, r, id)
  {
  }

  lemma BuryKeepsId(cfg: Config, q: Queue, bury: nat, job: Job, id: nat)
    requires IdOk(q, id) && CommandOk(cfg, q, XAddDead(bury, job))
    ensures var r := Apply(q, XAddDead(bury, job)).0; IdOk(r, id) && GrowsAt(q, r, id)
  {
  }

  // XREADGROUP hands over the oldest undelivered entry and skips none.
  lemma ReadKeepsId(q: Queue, id: nat)
    requires IdOk(q, id)
    ensures var r := Apply(q, XReadGroup).0; IdOk(r, id) && GrowsAt(q, r, id)
  {
  }

  lemma ApplyKeepsId(cfg: Config, q: Queue, cmd: Command, id: nat)
    requires QueueOk(q) && CommandOk(cfg, q, cmd)
    ensures var r := Apply(q, cmd).0; IdOk(r, id) && GrowsAt(q, r, id)
  {
    hide IdOk;
    assert IdOk(q, id) && IdOk(q, q.nextId);
    match cmd
    case XAdd(job, from) =>
      assert from.Some? ==> IdOk(q, from.value);
      AddKeepsId(cfg, q, job, from, id);
    case XAck(ack) => AckKeepsId(cfg, q, ack, id);
    case XDel(del) => DeleteKeepsId(cfg, q, del, id);
    case XAddDead(bury, job) => BuryKeepsId(cfg, q, bury, job, id);
    case XReadGroup => ReadKeepsId(q, id);
    case _ =>
  }

  // A command keeps the queue sound whenever it takes effect.
  lemma ApplyKeeps(cfg: Config, q: Queue, cmd: Command)
    requires QueueOk(q) && CommandOk(cfg, q, cmd)
    ensures QueueOk(Apply(q, cmd).0) && Grows(q, Apply(q, cmd).0)
  {
    var r := Apply(q, cmd).0;
    assert q.delivered <= r.delivered <= r.nextId && q.nextId <= r.nextId;
    hide IdOk, GrowsAt, Apply, CommandOk;
    forall id: nat ensures IdOk(r, id) && GrowsAt(q, r, id) {
      ApplyKeepsId(cfg, q, cmd, id);
    }
  }

  // A client only sends what the queue can take, and its place fits what it heard back.
  lemma AfterOk(cfg: Config, q: Queue, pc: Pc, pick: nat)
    requires QueueOk(q) && PcOk(cfg, q, pc) && !pc.Executing?
    ensures CommandOk(cfg, q, CommandOf(pc, pick))
    ensures PcOk(cfg, q, After(cfg, pc, Error))
    ensures var (r, reply) := Apply(q, CommandOf(pc, pick)); PcOk(cfg, r, After(cfg, pc, reply))
  {
    match pc
    case Idle => assert IdOk(q, pick);
    case Reading =>
      var first := FirstFrom(q.entries, q.delivered, q.nextId);
      assert first.Some? ==> IdOk(q, first.value);
    case Measuring(id, _) => assert IdOk(q, id);
    case Adding(id, _) => assert IdOk(q, id);
    case _ =>
  }

  lemma ExecutedOk(cfg: Config, q: Queue, id: nat, job: Job, outcome: Outcome)
    requires PcOk(cfg, q, Executing(id, job))
    ensures PcOk(cfg, Recorded(q, id, outcome), Executed(cfg, id, job, outcome))
  {
  }

  lemma RecordKeeps(q: Queue, id: nat, outcome: Outcome)
    requires QueueOk(q)
    ensures QueueOk(Recorded(q, id, outcome)) && Grows(q, Recorded(q, id, outcome))
  {
    var r := Recorded(q, id, outcome);
    forall i: nat ensures IdOk(r, i) && GrowsAt(q, r, i) {
      assert IdOk(q, i);
    }
  }

  // The clients and the late commands that do not take part in a step.
  lemma OthersKeep(cfg: Config, s: State, r: Queue)
    requires Inv(cfg, s) && Grows(s.queue, r)
    ensures forall c :: 0 <= c < |s.pcs| ==> PcOk(cfg, r, s.pcs[c])
    ensures forall cmd :: cmd in s.late ==> CommandOk(cfg, r, cmd)
  {
    hide PcOk, CommandOk, Grows;
    forall c | 0 <= c < |s.pcs| ensures PcOk(cfg, r, s.pcs[c]) {
      GrowsKeeps(cfg, s.queue, r, XLen, s.pcs[c]);
    }
    forall cmd | cmd in s.late ensures CommandOk(cfg, r, cmd) {
      GrowsKeeps(cfg, s.queue, r, cmd, Idle);
    }
  }

  lemma NoChange(q: Queue)
    ensures Grows(q, q)
  {
  }

  lemma IssueKeeps(cfg: Config, s: State, c: nat, fault: Fault, pick: nat)
    requires Inv(cfg, s) && c < |s.pcs| && !s.pcs[c].Executing?
    ensures Inv(cfg, Issued(cfg, s, c, fault, pick)) && Grows(s.queue, Issued(cfg, s, c, fault, pick).queue)
  {
    hide PcOk, CommandOk, Apply, After, QueueOk, Grows, CommandOf;
    var cmd := CommandOf(s.pcs[c], pick);
    AfterOk(cfg, s.queue, s.pcs[c], pick);
    ApplyKeeps(cfg, s.queue, cmd);
    NoChange(s.queue);
    var (q, reply) := Apply(s.queue, cmd);
    var s' := Issued(cfg, s, c, fault, pick);
    assert Grows(s.queue, s'.queue);
    OthersKeep(cfg, s, s'.queue);
    GrowsKeeps(cfg, s.queue, s'.queue, cmd, After(cfg, s.pcs[c], Error));
  }

  // One step of any client, or the arrival of a late command, keeps the invariant.
  lemma ActKeeps(cfg: Config, s: State, a: Action)
    requires Inv(cfg, s)
    ensures Inv(cfg, Act(cfg, s, a)) && Grows(s.queue, Act(cfg, s, a).queue)
  {
    NoChange(s.queue);
    hide PcOk, CommandOk, Apply, After, QueueOk, Grows, Issued, Executed;
    match a
    case Issue(c, fault, pick) =>
      if c < |s.pcs| && !s.pcs[c].Executing? {
        IssueKeeps(cfg, s, c, fault, pick);
      }
    case Execute(c, outcome) =>
      if c < |s.pcs| && s.pcs[c].Executing? {
        var Executing(id, job) := s.pcs[c];
        ExecutedOk(cfg, s.queue, id, job, outcome);
        RecordKeeps(s.queue, id, outcome);
        OthersKeep(cfg, s, Act(cfg, s, a).queue);
      }
    case Arrive(cmd) =>
      if cmd in s.late {
        ApplyKeeps(cfg, s.queue, cmd);
        OthersKeep(cfg, s, Apply(s.queue, cmd).0);
      }
    case Publish(c, job) =>
      IdleOk(cfg, s.queue, job);
    case Crash(c) =>
      IdleOk(cfg, s.queue, NO_JOB);
  }

  lemma IdleOk(cfg: Config, q: Queue, job: Job)
    ensures PcOk(cfg, q, Idle) && PcOk(cfg, q, PubMeasuring(job))
  {
  }

  lemma {:induction false} RunKeeps(cfg: Config, clients: nat, actions: seq<Action>)
    ensures Inv(cfg, Run(cfg, Init(clients), actions))
  {
    if actions == [] {
      assert QueueOk(Init(clients).queue);
    } else {
      hide Inv, Act;
      RunKeeps(cfg, clients, actions[..|actions| - 1]);
      ActKeeps(cfg, Run(cfg, Init(clients), actions[..|actions| - 1]), actions[|actions| - 1]);
    }
  }

  lemma GrowsTwice(q: Queue, r: Queue, t: Queue)
    requires Grows(q, r) && Grows(r, t)
    ensures Grows(q, t)
  {
    forall id: nat ensures GrowsAt(q, t, id) {
      assert GrowsAt(q, r, id) && GrowsAt(r, t, id);
    }
  }

  // From any sound state every run stays sound, and nothing it accepted or settled is forgotten.
  lemma {:induction false} RunGrows(cfg: Config, s: State, actions: seq<Action>)
    requires Inv(cfg, s)
    ensures Inv(cfg, Run(cfg, s, actions)) && Grows(s.queue, Run(cfg, s, actions).queue)
  {
    hide Inv, Act, Grows;
    if actions == [] {
      NoChange(s.queue);
    } else {
      var init := Run(cfg, s, actions[..|actions| - 1]);
      RunGrows(cfg, s, actions[..|actions| - 1]);
      ActKeeps(cfg, init, actions[|actions| - 1]);
      GrowsTwice(s.queue, init.queue, Run(cfg, s, actions).queue);
    }
  }

  // ------------------------------------------------------------ no job is lost

  // Entry last is entry id, or its retry, or a retry of that, and so on.
  ghost predicate Reaches(q: Queue, id: nat, last: nat)
    decreases last - id
  {
    id == last || (id in q.retriedAs && id < q.retriedAs[id] <= last && Reaches(q, q.retriedAs[id], last))
  }

  // ... so it is the same task, with each retry counted as an attempt.
  ghost predicate Follows(q: Queue, id: nat, last: nat) {
    id <= last && Reaches(q, id, last) && id in q.accepted && last in q.accepted && id in q.root && last in q.root &&
    q.root[id] == q.root[last] && q.accepted[id].task == q.accepted[last].task &&
    last - id >= q.accepted[last].attempt - q.accepted[id].attempt >= 0
  }

  lemma {:induction false} ChainEnds(cfg: Config, q: Queue, id: nat) returns (last: nat)
    requires QueueOk(q) && id in q.accepted
    ensures Follows(q, id, last)
    ensures Alive(q, last) || last in q.done || last in q.dead
    decreases q.nextId - id
  {
    assert IdOk(q, id);
    if Alive(q, id) || id in q.done || id in q.dead {
      last := id;
    } else {
      last := ChainEnds(cfg, q, q.retriedAs[id]);
    }
  }

  // Where a job stands: done, or in the dead-letter stream with its job, or to be handed to a
  // worker, its job intact.
  ghost predicate Closed(q: Queue, id: nat) {
    id in q.done || (id in q.dead && CarriesJob(q, id, q.dead[id]))
  }

  ghost predicate Accounted(q: Queue, id: nat) {
    exists last :: Follows(q, id, last) &&
      (Closed(q, last) || (Alive(q, last) && last in q.entries && q.entries[last] == q.accepted[last]))
  }

  lemma {:induction false} SoundAccounts(cfg: Config, q: Queue, id: nat) returns (last: nat)
    requires QueueOk(q) && id in q.accepted
    ensures Follows(q, id, last) && Accounted(q, id)
    ensures Closed(q, last) || (Alive(q, last) && last in q.entries && q.entries[last] == q.accepted[last])
  {
    last := ChainEnds(cfg, q, id);
    assert IdOk(q, last);
  }

  // In every reachable state, whatever was lost, delayed or crashed: each job the stream ever
  // accepted, or a retry of it, is undelivered or pending with its job intact, or executed
  // successfully, or in the dead-letter stream with its job.
  lemma {:induction false} NoJobLost(cfg: Config, clients: nat, actions: seq<Action>, id: nat)
    requires id in Run(cfg, Init(clients), actions).queue.accepted
    ensures Accounted(Run(cfg, Init(clients), actions).queue, id)
  {
    hide Act;
    RunKeeps(cfg, clients, actions);
    var last := SoundAccounts(cfg, Run(cfg, Init(clients), actions).queue, id);
  }

  // ------------------------------------------------------------ the length of the stream

  // The clients that measured the stream and are about to add to it.
  function Ready(pcs: seq<Pc>): (n: nat)
    ensures n <= |pcs|
  {
    if pcs == [] then 0
    else
      var last := pcs[|pcs| - 1];
      Ready(pcs[..|pcs| - 1]) + if last.Adding? || last.PubAdding? then 1 else 0
  }

  lemma {:induction false} ReadyStep(pcs: seq<Pc>, c: nat, pc: Pc)
    requires c < |pcs|
    ensures Ready(pcs[c := pc]) == Ready(pcs)
      - (if pcs[c].Adding? || pcs[c].PubAdding? then 1 else 0) + (if pc.Adding? || pc.PubAdding? then 1 else 0)
  {
    var n := |pcs| - 1;
    if c == n {
      assert pcs[c := pc][..n] == pcs[..n];
    } else {
      assert pcs[c := pc][..n] == pcs[..n][c := pc];
      ReadyStep(pcs[..n], c, pc);
    }
  }

  ghost predicate Bounded(cfg: Config, s: State) {
    s.pcs != [] && cfg.maxLength > 0 &&
    |s.queue.entries| + Ready(s.pcs) <= cfg.maxLength + |s.pcs| - 1 + s.lateAdds
  }

  lemma ApplyLength(cfg: Config, q: Queue, cmd: Command)
    requires QueueOk(q)
    ensures |Apply(q, cmd).0.entries| <= |q.entries| + if cmd.XAdd? then 1 else 0
  {
    if cmd.XAdd? {
      assert IdOk(q, q.nextId);
      AddSize(q.entries, q.nextId, cmd.job);
    } else if cmd.XDel? {
      RemoveSize(q.entries, cmd.id);
    }
  }

  lemma AddSize(m: map<nat, Job>, id: nat, job: Job)
    requires id !in m
    ensures |m[id := job]| == |m| + 1
  {
    assert m[id := job].Keys == m.Keys + {id};
  }

  lemma RemoveSize(m: map<nat, Job>, id: nat)
    ensures |m - {id}| <= |m|
  {
    if id in m {
      assert m.Keys == (m - {id}).Keys + {id};
    } else {
      assert m - {id} == m;
    }
  }

  lemma BoundedIssue(cfg: Config, s: State, c: nat, fault: Fault, pick: nat)
    requires QueueOk(s.queue) && Bounded(cfg, s) && c < |s.pcs| && !s.pcs[c].Executing?
    ensures Bounded(cfg, Issued(cfg, s, c, fault, pick))
  {
    hide Apply, Ready, QueueOk;
    var cmd := CommandOf(s.pcs[c], pick);
    var s' := Issued(cfg, s, c, fault, pick);
    ApplyLength(cfg, s.queue, cmd);
    ReadyStep(s.pcs, c, s'.pcs[c]);
    LengthReply(s.queue);
    assert Ready(s'.pcs) <= |s'.pcs|;
  }

  lemma BoundedStep(cfg: Config, s: State, a: Action)
    requires QueueOk(s.queue) && Bounded(cfg, s)
    ensures Bounded(cfg, Act(cfg, s, a))
  {
    hide Apply, Ready, QueueOk, Executed, Issued;
    match a
    case Issue(c, fault, pick) =>
      if c < |s.pcs| && !s.pcs[c].Executing? {
        BoundedIssue(cfg, s, c, fault, pick);
      }
    case Execute(c, outcome) =>
      if c < |s.pcs| && s.pcs[c].Executing? {
        var Executing(id, job) := s.pcs[c];
        NotReady(cfg, id, job, outcome);
        ReadyStep(s.pcs, c, Executed(cfg, id, job, outcome));
      }
    case Arrive(cmd) =>
      ApplyLength(cfg, s.queue, cmd);
    case Publish(c, job) =>
      if c < |s.pcs| {
        ReadyStep(s.pcs, c, PubMeasuring(job));
      }
    case Crash(c) =>
      if c < |s.pcs| {
        ReadyStep(s.pcs, c, Idle);
      }
  }

  lemma LengthReply(q: Queue)
    ensures Apply(q, XLen) == (q, Count(|q.entries|))
  {
  }

  lemma NotReady(cfg: Config, id: nat, job: Job, outcome: Outcome)
    ensures var pc := Executed(cfg, id, job, outcome); !pc.Adding? && !pc.PubAdding?
  {
  }

  // The limit is checked before the entry is added, so n clients can pass the check together:
  // the stream never holds more than maxLength + n - 1 entries, and one more for each XADD that
  // arrived after its client gave up on it.
  lemma {:induction false} QueueBounded(cfg: Config, clients: nat, actions: seq<Action>)
    requires clients > 0 && cfg.maxLength > 0
    ensures var s := Run(cfg, Init(clients), actions);
      Bounded(cfg, s) && |s.pcs| == clients && |s.queue.entries| <= cfg.maxLength + clients - 1 + s.lateAdds
  {
    if actions == [] {
      NoneReady(clients);
    } else {
      hide Act;
      QueueBounded(cfg, clients, actions[..|actions| - 1]);
      RunKeeps(cfg, clients, actions[..|actions| - 1]);
      BoundedStep(cfg, Run(cfg, Init(clients), actions[..|actions| - 1]), actions[|actions| - 1]);
      SameClients(cfg, Run(cfg, Init(clients), actions[..|actions| - 1]), actions[|actions| - 1]);
    }
  }

  lemma SameClients(cfg: Config, s: State, a: Action)
    ensures |Act(cfg, s, a).pcs| == |s.pcs|
  {
  }

  lemma {:induction false} NoneReady(n: nat)
    ensures Ready(AllIdle(n)) == 0
  {
    if n > 0 {
      NoneReady(n - 1);
    }
  }

  // ------------------------------------------------------------ and the bound is reached

  lemma {:induction false} RunJoin(cfg: Config, s: State, a: seq<Action>, b: seq<Action>)
    ensures Run(cfg, s, a + b) == Run(cfg, Run(cfg, s, a), b)
  {
    if b == [] {
      assert a + b == a;
    } else {
      assert (a + b)[..|a + b| - 1] == a + b[..|b| - 1];
      RunJoin(cfg, s, a, b[..|b| - 1]);
    }
  }

  const LATE_ADD := XAdd(NO_JOB, None)

  // n entries, the ids below n; so many additions left behind, and so many that arrived.
  ghost predicate Holds(s: State, n: nat, pcs: seq<Pc>, left: nat, arrived: nat) {
    |s.queue.entries| == n == s.queue.nextId && (forall id :: id in s.queue.entries ==> id < n) &&
    s.pcs == pcs && s.late[LATE_ADD] == left && s.lateAdds == arrived
  }

  function PassCheck(c: nat): seq<Action> {
    [Publish(c, NO_JOB), Issue(c, Fine, 0)]
  }

  // k times: client 0 measures, and its addition takes effect or is left behind.
  function Repeat(fault: Fault, k: nat): seq<Action> {
    if k == 0 then [] else Repeat(fault, k - 1) + (PassCheck(0) + [Issue(0, fault, 0)])
  }

  // The first k clients measure; then they add.
  function AllPass(k: nat): seq<Action> {
    if k == 0 then [] else AllPass(k - 1) + PassCheck(k - 1)
  }

  function AllAdd(k: nat): seq<Action> {
    if k == 0 then [] else AllAdd(k - 1) + [Issue(k - 1, Fine, 0)]
  }

  // k additions that were left behind arrive.
  function AllArrive(k: nat): seq<Action> {
    if k == 0 then [] else AllArrive(k - 1) + [Arrive(LATE_ADD)]
  }

  function Waiting(n: nat, from: nat, to: nat): (pcs: seq<Pc>)
    ensures |pcs| == n
    ensures forall c :: 0 <= c < n ==> pcs[c] == if from <= c < to then PubAdding(NO_JOB) else Idle
  {
    seq(n, c => if from <= c < to then PubAdding(NO_JOB) else Idle)
  }

  lemma PassOne(cfg: Config, s: State, len: nat, n: nat, c: nat, left: nat)
    requires c < n && len < cfg.maxLength && Holds(s, len, Waiting(n, 0, c), left, 0)
    ensures Holds(Run(cfg, s, PassCheck(c)), len, Waiting(n, 0, c + 1), left, 0)
  {
    var a := PassCheck(c);
    assert a[..1] == [a[0]] && a[..1][..0] == [];
    assert Run(cfg, s, a[..1]) == Act(cfg, s, a[0]);
    var s' := Run(cfg, s, a);
    assert s' == Act(cfg, Act(cfg, s, a[0]), a[1]);
    assert s'.pcs == Waiting(n, 0, c + 1);
  }

  lemma AddOne(cfg: Config, s: State, len: nat, n: nat, c: nat, to: nat, left: nat)
    requires c < to <= n && Holds(s, len, Waiting(n, c, to), left, 0)
    ensures Holds(Act(cfg, s, Issue(c, Fine, 0)), len + 1, Waiting(n, c + 1, to), left, 0)
    ensures Holds(Act(cfg, s, Issue(c, Late, 0)), len, Waiting(n, c + 1, to), left + 1, 0)
  {
    AddSize(s.queue.entries, s.queue.nextId, NO_JOB);
    assert Act(cfg, s, Issue(c, Fine, 0)).pcs == Waiting(n, c + 1, to);
    assert Act(cfg, s, Issue(c, Late, 0)).pcs == Waiting(n, c + 1, to);
  }

  lemma ArriveOne(cfg: Config, s: State, len: nat, pcs: seq<Pc>, left: nat, arrived: nat)
    requires left > 0 && Holds(s, len, pcs, left, arrived)
    ensures Holds(Act(cfg, s, Arrive(LATE_ADD)), len + 1, pcs, left - 1, arrived + 1)
  {
    AddSize(s.queue.entries, s.queue.nextId, NO_JOB);
  }

  lemma {:induction false} Repeated(cfg: Config, s: State, n: nat, fault: Fault, len: nat, left: nat, k: nat)
    requires n > 0 && (fault == Fine || fault == Late) && Holds(s, len, Waiting(n, 0, 0), left, 0)
    requires if fault == Fine then len + k <= cfg.maxLength else len < cfg.maxLength
    ensures Holds(Run(cfg, s, Repeat(fault, k)), if fault == Fine then len + k else len, Waiting(n, 0, 0),
                  if fault == Fine then left else left + k, 0)
  {
    hide Act, Holds;
    if k > 0 {
      Repeated(cfg, s, n, fault, len, left, k - 1);
      var t := Run(cfg, s, Repeat(fault, k - 1));
      var len1 := if fault == Fine then len + k - 1 else len;
      var left1 := if fault == Fine then left else left + k - 1;
      PassOne(cfg, t, len1, n, 0, left1);
      AddOne(cfg, Run(cfg, t, PassCheck(0)), len1, n, 0, 1, left1);
      RunJoin(cfg, t, PassCheck(0), [Issue(0, fault, 0)]);
      RunJoin(cfg, s, Repeat(fault, k - 1), PassCheck(0) + [Issue(0, fault, 0)]);
      assert Waiting(n, 1, 1) == Waiting(n, 0, 0);
      OneAction(cfg, Run(cfg, t, PassCheck(0)), Issue(0, fault, 0));
    }
  }

  lemma OneAction(cfg: Config, s: State, a: Action)
    ensures Run(cfg, s, [a]) == Act(cfg, s, a)
  {
    assert [a][..0] == [];
  }

  lemma {:induction false} Pass(cfg: Config, s: State, len: nat, n: nat, left: nat, k: nat)
    requires k <= n && len < cfg.maxLength && Holds(s, len, Waiting(n, 0, 0), left, 0)
    ensures Holds(Run(cfg, s, AllPass(k)), len, Waiting(n, 0, k), left, 0)
  {
    hide Act, Holds;
    if k > 0 {
      Pass(cfg, s, len, n, left, k - 1);
      PassOne(cfg, Run(cfg, s, AllPass(k - 1)), len, n, k - 1, left);
      RunJoin(cfg, s, AllPass(k - 1), PassCheck(k - 1));
    }
  }

  lemma {:induction false} Add(cfg: Config, s: State, len: nat, n: nat, left: nat, k: nat)
    requires k <= n && Holds(s, len, Waiting(n, 0, n), left, 0)
    ensures Holds(Run(cfg, s, AllAdd(k)), len + k, Waiting(n, k, n), left, 0)
  {
    hide Act, Holds;
    if k > 0 {
      Add(cfg, s, len, n, left, k - 1);
      AddOne(cfg, Run(cfg, s, AllAdd(k - 1)), len + k - 1, n, k - 1, n, left);
      RunJoin(cfg, s, AllAdd(k - 1), [Issue(k - 1, Fine, 0)]);
      OneAction(cfg, Run(cfg, s, AllAdd(k - 1)), Issue(k - 1, Fine, 0));
    }
  }

  lemma ArriveNext(cfg: Config, s: State, k: nat)
    requires k > 0
    ensures Run(cfg, s, AllArrive(k)) == Act(cfg, Run(cfg, s, AllArrive(k - 1)), Arrive(LATE_ADD))
  {
    hide Act;
    var a := AllArrive(k);
    assert a[..|a| - 1] == AllArrive(k - 1) && a[|a| - 1] == Arrive(LATE_ADD);
  }

  lemma {:induction false} Arrived(cfg: Config, s: State, len: nat, pcs: seq<Pc>, left: nat, k: nat)
    requires k <= left && Holds(s, len, pcs, left, 0)
    ensures Holds(Run(cfg, s, AllArrive(k)), len + k, pcs, left - k, k)
  {
    hide Act, Holds;
    if k > 0 {
      hide Run, AllArrive;
      Arrived(cfg, s, len, pcs, left, k - 1);
      ArriveNext(cfg, s, k);
      ArriveOne(cfg, Run(cfg, s, AllArrive(k - 1)), len + k - 1, pcs, left - (k - 1), k - 1);
    }
  }

  // Up to one below the limit; then late additions are left behind, all clients measure and add,
  // and the late ones arrive.
  function Overfull(cfg: Config, clients: nat, late: nat): seq<Action>
    requires cfg.maxLength > 0
  {
    Repeat(Fine, cfg.maxLength - 1) + (Repeat(Late, late) + (AllPass(clients) + (AllAdd(clients) + AllArrive(late))))
  }

  lemma StartHolds(n: nat)
    ensures Holds(Init(n), 0, Waiting(n, 0, 0), 0, 0)
  {
    assert Init(n).pcs == Waiting(n, 0, 0);
  }

  lemma HoldsMeans(s: State, n: nat, pcs: seq<Pc>, left: nat, arrived: nat)
    requires Holds(s, n, pcs, left, arrived)
    ensures |s.queue.entries| == n && s.lateAdds == arrived
  {
  }

  // For every number of clients and of late additions there is a run that reaches the bound,
  // and it needs no other fault.
  lemma BoundReached(cfg: Config, clients: nat, late: nat)
    requires clients > 0 && cfg.maxLength > 0
    ensures var s := Run(cfg, Init(clients), Overfull(cfg, clients, late));
      |s.queue.entries| == cfg.maxLength + clients - 1 + late && s.lateAdds == late
  {
    hide Act, Run, Repeat, AllPass, AllAdd, AllArrive, Waiting, Holds;
    var len, n := cfg.maxLength - 1, clients;
    StartHolds(n);
    Repeated(cfg, Init(n), n, Fine, 0, 0, len);
    var full := Run(cfg, Init(n), Repeat(Fine, len));
    Repeated(cfg, full, n, Late, len, 0, late);
    var behind := Run(cfg, full, Repeat(Late, late));
    Pass(cfg, behind, len, n, late, n);
    var passed := Run(cfg, behind, AllPass(n));
    Add(cfg, passed, len, n, late, n);
    var added := Run(cfg, passed, AllAdd(n));
    Arrived(cfg, added, len + n, Waiting(n, n, n), late, late);
    assert Holds(Run(cfg, added, AllArrive(late)), len + n + late, Waiting(n, n, n), 0, late);
    HoldsMeans(Run(cfg, added, AllArrive(late)), len + n + late, Waiting(n, n, n), 0, late);
    RunJoin(cfg, passed, AllAdd(n), AllArrive(late));
    RunJoin(cfg, behind, AllPass(n), AllAdd(n) + AllArrive(late));
    RunJoin(cfg, full, Repeat(Late, late), AllPass(n) + (AllAdd(n) + AllArrive(late)));
    RunJoin(cfg, Init(n), Repeat(Fine, len), Repeat(Late, late) + (AllPass(n) + (AllAdd(n) + AllArrive(late))));
  }
}
