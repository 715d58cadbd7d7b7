// The worker as it is written: a loop that reads a message and processes it, issuing broker
// commands in order.  Every command is shown to be a step of the protocol, so what holds of
// the protocol holds of this loop.
module TaskWorker {
  import opened Collections
  import opened TaskQueue

  // What the surroundings decide, by the number of commands sent so far: how each command
  // fares, which pending entry is old enough to be claimed, how an execution ends.
  datatype World = World(fault: nat -> Fault, pick: nat -> nat, outcome: nat -> Outcome)

  // ------------------------------------------------------------ the protocol, one client

  function Rank(pc: Pc): nat {
    match pc
    case Measuring(_, _) => 5
    case Adding(_, _) => 4
    case Burying(_, _) => 3
    case Acking(_) => 2
    case PubMeasuring(_) => 2
    case Idle => 0
    case Executing(_, _) => 0
    case _ => 1
  }

  function Sent(cfg: Config, w: World, s: State, sent: nat): (r: State)
    requires |s.pcs| == 1 && !s.pcs[0].Executing?
    ensures |r.pcs| == 1
  {
    Issued(cfg, s, 0, w.fault(sent), w.pick(sent))
  }

  // The client's commands until it is idle again or holds a message.
  function Drive(cfg: Config, w: World, s: State, sent: nat): (r: (State, nat))
    requires |s.pcs| == 1
    ensures |r.0.pcs| == 1 && (r.0.pcs[0].Idle? || r.0.pcs[0].Executing?)
    ensures !s.pcs[0].Reading? && !s.pcs[0].Executing? ==> r.0.pcs == [Idle]
    ensures r.1 >= sent
    decreases Rank(s.pcs[0])
  {
    if s.pcs[0].Idle? || s.pcs[0].Executing? then (s, sent)
    else Drive(cfg, w, Sent(cfg, w, s, sent), sent + 1)
  }

  lemma DriveStep(cfg: Config, w: World, s: State, sent: nat)
    requires |s.pcs| == 1
    ensures s.pcs[0].Idle? || s.pcs[0].Executing? || Drive(cfg, w, s, sent) == Drive(cfg, w, Sent(cfg, w, s, sent), sent + 1)
  {
  }

  lemma IssuedIs(cfg: Config, s: State, fault: Fault, pick: nat)
    requires |s.pcs| == 1 && !s.pcs[0].Executing?
    ensures var pc := s.pcs[0];
      var cmd := CommandOf(pc, pick);
      var (q, reply) := Apply(s.queue, cmd);
      Issued(cfg, s, 0, fault, pick) ==
        State(if fault == Fine || fault == LostReply then q else s.queue,
              [After(cfg, pc, if fault == Fine then reply else Error)],
              if fault == Late then s.late + multiset{cmd} else s.late,
              s.lateAdds, s.executions)
  {
    hide After, Apply, CommandOf;
  }

  // broker.Read, then process when there is a message: one round of the loop.
  function ReadOne(cfg: Config, w: World, s: State, sent: nat): (r: (State, nat))
    requires s.pcs == [Idle]
    ensures |r.0.pcs| == 1 && (r.0.pcs[0].Idle? || r.0.pcs[0].Executing?)
  {
    Drive(cfg, w, Sent(cfg, w, s, sent), sent + 1)
  }

  function ProcessOne(cfg: Config, w: World, s: State, sent: nat): (r: (State, nat))
    requires |s.pcs| == 1
    ensures |r.0.pcs| == 1
    ensures s.pcs[0].Executing? ==> r.0.pcs == [Idle]
  {
    Drive(cfg, w, Act(cfg, s, Execute(0, w.outcome(sent))), sent)
  }

  function Round(cfg: Config, w: World, s: State, sent: nat): (r: (State, nat))
    requires s.pcs == [Idle]
    ensures r.0.pcs == [Idle]
  {
    var (held, n) := ReadOne(cfg, w, s, sent);
    if held.pcs[0].Idle? then (held, n) else ProcessOne(cfg, w, held, n)
  }

  function Rounds(cfg: Config, w: World, s: State, sent: nat, n: nat): (r: (State, nat))
    requires s.pcs == [Idle]
    ensures r.0.pcs == [Idle]
  {
    if n == 0 then (s, sent)
    else
      var (before, m) := Rounds(cfg, w, s, sent, n - 1);
      Round(cfg, w, before, m)
  }

  function DriveTrace(cfg: Config, w: World, s: State, sent: nat): seq<Action>
    requires |s.pcs| == 1
    decreases Rank(s.pcs[0])
  {
    if s.pcs[0].Idle? || s.pcs[0].Executing? then []
    else [Issue(0, w.fault(sent), w.pick(sent))] + DriveTrace(cfg, w, Sent(cfg, w, s, sent), sent + 1)
  }

  lemma {:induction false} DriveIsRun(cfg: Config, w: World, s: State, sent: nat)
    requires |s.pcs| == 1
    ensures Run(cfg, s, DriveTrace(cfg, w, s, sent)) == Drive(cfg, w, s, sent).0
    decreases Rank(s.pcs[0])
  {
    hide Issued;
    if !(s.pcs[0].Idle? || s.pcs[0].Executing?) {
      var a, next := Issue(0, w.fault(sent), w.pick(sent)), Sent(cfg, w, s, sent);
      OneAction(cfg, s, a);
      SentRank(cfg, w, s, sent);
      RunJoin(cfg, s, [a], DriveTrace(cfg, w, next, sent + 1));
      DriveIsRun(cfg, w, next, sent + 1);
    }
  }

  lemma SentRank(cfg: Config, w: World, s: State, sent: nat)
    requires |s.pcs| == 1 && !s.pcs[0].Executing? && !s.pcs[0].Idle?
    ensures |Sent(cfg, w, s, sent).pcs| == 1 && Rank(Sent(cfg, w, s, sent).pcs[0]) < Rank(s.pcs[0])
    ensures Sent(cfg, w, s, sent) == Act(cfg, s, Issue(0, w.fault(sent), w.pick(sent)))
  {
  }

  function ReadTrace(cfg: Config, w: World, s: State, sent: nat): seq<Action>
    requires s.pcs == [Idle]
  {
    [Issue(0, w.fault(sent), w.pick(sent))] + DriveTrace(cfg, w, Sent(cfg, w, s, sent), sent + 1)
  }

  function ProcessTrace(cfg: Config, w: World, s: State, sent: nat): seq<Action>
    requires |s.pcs| == 1
  {
    var a := Execute(0, w.outcome(sent));
    [a] + DriveTrace(cfg, w, Act(cfg, s, a), sent)
  }

  lemma ReadIsRun(cfg: Config, w: World, s: State, sent: nat)
    requires s.pcs == [Idle]
    ensures Run(cfg, s, ReadTrace(cfg, w, s, sent)) == ReadOne(cfg, w, s, sent).0
  {
    hide Issued, Run;
    var a, first := Issue(0, w.fault(sent), w.pick(sent)), Sent(cfg, w, s, sent);
    assert first == Act(cfg, s, a);
    OneAction(cfg, s, a);
    DriveIsRun(cfg, w, first, sent + 1);
    RunJoin(cfg, s, [a], DriveTrace(cfg, w, first, sent + 1));
  }

  lemma ProcessIsRun(cfg: Config, w: World, s: State, sent: nat)
    requires |s.pcs| == 1
    ensures Run(cfg, s, ProcessTrace(cfg, w, s, sent)) == ProcessOne(cfg, w, s, sent).0
  {
    hide Run;
    var a := Execute(0, w.outcome(sent));
    var next := Act(cfg, s, a);
    OneAction(cfg, s, a);
    DriveIsRun(cfg, w, next, sent);
    RunJoin(cfg, s, [a], DriveTrace(cfg, w, next, sent));
  }

  // A round is a run of the protocol.
  lemma {:induction false} RoundIsRun(cfg: Config, w: World, s: State, sent: nat) returns (trace: seq<Action>)
    requires s.pcs == [Idle]
    ensures Run(cfg, s, trace) == Round(cfg, w, s, sent).0
  {
    hide Run, ReadTrace, ProcessTrace, ProcessOne, ReadOne;
    var (held, n) := ReadOne(cfg, w, s, sent);
    ReadIsRun(cfg, w, s, sent);
    trace := ReadTrace(cfg, w, s, sent);
    if !held.pcs[0].Idle? {
      ProcessIsRun(cfg, w, held, n);
      RunJoin(cfg, s, trace, ProcessTrace(cfg, w, held, n));
      trace := trace + ProcessTrace(cfg, w, held, n);
    }
  }

  lemma ExecuteIs(cfg: Config, s: State, outcome: Outcome)
    requires |s.pcs| == 1 && s.pcs[0].Executing?
    ensures Act(cfg, s, Execute(0, outcome)) == s.(
      pcs := [Executed(cfg, s.pcs[0].id, s.pcs[0].job, outcome)],
      queue := Recorded(s.queue, s.pcs[0].id, outcome),
      executions := if outcome == Undecodable then s.executions else s.executions + [s.pcs[0].id])
  {
  }

  // ------------------------------------------------------------ what processing a message means

  datatype Received = Received(id: nat, job: Job)

  // No command with these numbers fails.
  ghost predicate Quiet(w: World, from: nat, to: nat) {
    forall n :: from <= n < to ==> w.fault(n) == Fine
  }

  // The execution of the job failed for now and it is put in the stream again: there are attempts
  // left, the task was put back, and the stream has room.
  ghost predicate Retried(cfg: Config, q: Queue, job: Job, outcome: Outcome) {
    outcome == Temporary(true) && job.attempt < cfg.maxRetries && |q.entries| < cfg.maxLength
  }

  // What is written to the dead-letter stream: a retry that did not come about was counted.
  ghost function DeadJob(cfg: Config, job: Job, outcome: Outcome): Job {
    match outcome
    case Undecodable => Job("", 0)
    case Temporary(_) => if job.attempt < cfg.maxRetries then Job(job.task, job.attempt + 1) else job
    case _ => job
  }

  // The queue before and after a message was processed without a fault: the entry is no longer
  // pending nor in the stream, and the job succeeded, or is in the stream once more with one
  // attempt more, or is in the dead-letter stream.
  ghost predicate Processed(cfg: Config, q: Queue, r: Queue, id: nat, job: Job, outcome: Outcome) {
    r.pending == q.pending - {id} && r.delivered == q.delivered &&
    r.done == (if outcome == Success then q.done + {id} else q.done) &&
    r.undecodable == (if outcome == Undecodable then q.undecodable + {id} else q.undecodable) &&
    if Retried(cfg, q, job, outcome) then
      var next := Job(job.task, job.attempt + 1);
      r.nextId == q.nextId + 1 && r.accepted == q.accepted[q.nextId := next] &&
      r.entries == q.entries[q.nextId := next] - {id} && r.retriedAs == q.retriedAs[id := q.nextId] && r.dead == q.dead &&
      r.root == q.root[q.nextId := if id in q.root then q.root[id] else q.nextId]
    else
      r.nextId == q.nextId && r.accepted == q.accepted && r.entries == q.entries - {id} &&
      r.retriedAs == q.retriedAs && r.root == q.root &&
      r.dead == if outcome == Success then q.dead else q.dead[id := DeadJob(cfg, job, outcome)]
  }

  // An entry was added: a retry of another entry, or the first of its chain.
  ghost predicate Added(q: Queue, r: Queue, job: Job, from: Option<nat>) {
    r == q.(entries := q.entries[q.nextId := job], accepted := q.accepted[q.nextId := job], nextId := q.nextId + 1,
            retriedAs := match from { case Some(id) => q.retriedAs[id := q.nextId] case None => q.retriedAs },
            root := q.root[q.nextId := match from {
                             case Some(id) => if id in q.root then q.root[id] else q.nextId
                             case None => q.nextId
                           }])
  }

  // What a read hands over: the pending entry that may be claimed, if its payload is still there,
  // else the oldest entry that was never delivered, which becomes pending.
  ghost predicate HandsOver(q: Queue, r: Queue, claimable: nat, message: Option<Received>) {
    if claimable in q.pending && claimable in q.entries then
      r == q && message == Some(Received(claimable, q.entries[claimable]))
    else
      match message
      case Some(Received(id, job)) =>
        q.delivered <= id < q.nextId && id in q.entries && q.entries[id] == job &&
        (forall other :: other in q.entries && q.delivered <= other < q.nextId ==> id <= other) &&
        r == q.(delivered := id + 1, pending := q.pending + {id})
      case None => r == q && forall other :: other in q.entries ==> !(q.delivered <= other < q.nextId)
  }

  lemma HandedOver(q: Queue, claimable: nat)
    ensures var claimed := Apply(q, XAutoClaim(claimable));
      claimed.0 == q &&
      if claimed.1.Message? then HandsOver(q, q, claimable, Some(Received(claimed.1.id, claimed.1.job)))
      else
        var (r, value) := Apply(q, XReadGroup);
        HandsOver(q, r, claimable, if value.Message? then Some(Received(value.id, value.job)) else None)
  {
  }

  // One command that does not fail.
  lemma FineCommand(cfg: Config, w: World, s: State, sent: nat)
    requires |s.pcs| == 1 && !s.pcs[0].Executing? && !s.pcs[0].Idle? && Quiet(w, sent, Drive(cfg, w, s, sent).1)
    ensures var (q, reply) := Apply(s.queue, CommandOf(s.pcs[0], w.pick(sent)));
      var t := s.(queue := q, pcs := [After(cfg, s.pcs[0], reply)]);
      Drive(cfg, w, s, sent) == Drive(cfg, w, t, sent + 1)
  {
    hide After, Apply, CommandOf;
    DriveStep(cfg, w, s, sent);
    IssuedIs(cfg, s, w.fault(sent), w.pick(sent));
  }

  lemma AckEffect(cfg: Config, w: World, s: State, sent: nat, id: nat)
    requires s.pcs == [Acking(id)] && Quiet(w, sent, Drive(cfg, w, s, sent).1)
    ensures Drive(cfg, w, s, sent).0 ==
      s.(pcs := [Idle], queue := s.queue.(pending := s.queue.pending - {id}, entries := s.queue.entries - {id}))
  {
    hide Drive;
    FineCommand(cfg, w, s, sent);
    var t := s.(pcs := [Deleting(id)], queue := s.queue.(pending := s.queue.pending - {id}));
    assert Drive(cfg, w, s, sent) == Drive(cfg, w, t, sent + 1);
    FineCommand(cfg, w, t, sent + 1);
    IdleNow(cfg, w, t.(pcs := [Idle], queue := t.queue.(entries := t.queue.entries - {id})), sent + 2);
  }

  lemma IdleNow(cfg: Config, w: World, s: State, sent: nat)
    requires s.pcs == [Idle]
    ensures Drive(cfg, w, s, sent) == (s, sent)
  {
  }

  lemma BuryEffect(cfg: Config, w: World, s: State, sent: nat, id: nat, job: Job)
    requires s.pcs == [Burying(id, job)] && Quiet(w, sent, Drive(cfg, w, s, sent).1)
    ensures var q := s.queue;
      Drive(cfg, w, s, sent).0 ==
      s.(pcs := [Idle], queue := q.(dead := q.dead[id := job], pending := q.pending - {id}, entries := q.entries - {id}))
  {
    hide Drive;
    FineCommand(cfg, w, s, sent);
    var t := s.(pcs := [Acking(id)], queue := s.queue.(dead := s.queue.dead[id := job]));
    assert Drive(cfg, w, s, sent) == Drive(cfg, w, t, sent + 1);
    AckEffect(cfg, w, t, sent + 1, id);
  }

  lemma RetryEffect(cfg: Config, w: World, s: State, sent: nat, id: nat, job: Job)
    requires s.pcs == [Measuring(id, job)] && Quiet(w, sent, Drive(cfg, w, s, sent).1)
    ensures var q := s.queue;
      var full := |q.entries| >= cfg.maxLength;
      Drive(cfg, w, s, sent).0 ==
        if full then
          s.(pcs := [Idle], queue := q.(dead := q.dead[id := job], pending := q.pending - {id}, entries := q.entries - {id}))
        else
          s.(pcs := [Idle],
             queue := q.(entries := q.entries[q.nextId := job] - {id}, accepted := q.accepted[q.nextId := job],
                         nextId := q.nextId + 1, retriedAs := q.retriedAs[id := q.nextId],
                         root := q.root[q.nextId := if id in q.root then q.root[id] else q.nextId],
                         pending := q.pending - {id}))
  {
    hide Drive;
    FineCommand(cfg, w, s, sent);
    if |s.queue.entries| >= cfg.maxLength {
      BuryEffect(cfg, w, s.(pcs := [Burying(id, job)]), sent + 1, id, job);
    } else {
      var t := s.(pcs := [Adding(id, job)]);
      assert Drive(cfg, w, s, sent) == Drive(cfg, w, t, sent + 1);
      FineCommand(cfg, w, t, sent + 1);
      var u := s.(pcs := [Acking(id)], queue := Apply(s.queue, XAdd(job, Some(id))).0);
      assert Drive(cfg, w, t, sent + 1) == Drive(cfg, w, u, sent + 2);
      AckEffect(cfg, w, u, sent + 2, id);
    }
  }

  lemma ProcessEffect(cfg: Config, w: World, s: State, sent: nat)
    requires |s.pcs| == 1 && s.pcs[0].Executing? && Quiet(w, sent, ProcessOne(cfg, w, s, sent).1)
    ensures var (t, outcome) := (ProcessOne(cfg, w, s, sent).0, w.outcome(sent));
      var Executing(id, job) := s.pcs[0];
      Processed(cfg, s.queue, t.queue, id, job, outcome) && t.late == s.late && t.lateAdds == s.lateAdds &&
      t.executions == s.executions + (if outcome == Undecodable then [] else [id])
  {
    hide Drive, Act, Apply, After, CommandOf, Issued, Quiet;
    var Executing(id, job) := s.pcs[0];
    var outcome := w.outcome(sent);
    ExecuteIs(cfg, s, outcome);
    var t := Act(cfg, s, Execute(0, outcome));
    match t.pcs[0]
    case Acking(_) => AckEffect(cfg, w, t, sent, id);
    case Burying(_, dead) => BuryEffect(cfg, w, t, sent, id, dead);
    case Measuring(_, next) => RetryEffect(cfg, w, t, sent, id, next);
  }

  lemma ProcessMeans(cfg: Config, w: World, s: State, sent: nat)
    requires |s.pcs| == 1 && s.pcs[0].Executing?
    ensures var (t, n) := ProcessOne(cfg, w, s, sent);
      (t, n) == Drive(cfg, w, Act(cfg, s, Execute(0, w.outcome(sent))), sent) &&
      (Quiet(w, sent, n) ==>
        Processed(cfg, s.queue, t.queue, s.pcs[0].id, s.pcs[0].job, w.outcome(sent)) &&
        t.executions == s.executions + if w.outcome(sent) == Undecodable then [] else [s.pcs[0].id])
  {
    hide Drive, Act, Processed, Quiet;
    if Quiet(w, sent, ProcessOne(cfg, w, s, sent).1) {
      ProcessEffect(cfg, w, s, sent);
    }
  }

  // ------------------------------------------------------------ the broker and the worker

  class RedisBroker {
    const cfg: Config
    const world: World
    var queue: Queue
    var late: multiset<Command>
    var lateAdds: nat
    var sent: nat
    var executions: seq<nat>

    constructor (cfg: Config, world: World)
      ensures this.cfg == cfg && this.world == world && Now(Idle) == Init(1) && sent == 0
    {
      this.cfg, this.world := cfg, world;
      queue, late, lateAdds, sent, executions := Init(1).queue, multiset{}, 0, 0, [];
      new;
      assert AllIdle(0) == [] && AllIdle(1) == [Idle];
    }

    // The protocol state when the one client stands at pc.
    ghost function Now(pc: Pc): State
      reads this
    {
      State(queue, [pc], late, lateAdds, executions)
    }

    ghost function Left(pc: Pc): (State, nat)
      reads this
    {
      Drive(cfg, world, Now(pc), sent)
    }

    // Sends a command and waits for the reply, which may not come.
    method SendCommand(cmd: Command, ghost pc: Pc) returns (reply: Reply)
      requires !pc.Executing? && CommandOf(pc, world.pick(sent)) == cmd
      modifies this
      ensures Now(After(cfg, pc, reply)) == Sent(cfg, world, old(Now(pc)), old(sent))
      ensures sent == old(sent) + 1 && (reply == Error || (queue, reply) == Apply(old(queue), cmd))
      ensures world.fault(old(sent)) == Fine ==> (queue, reply) == Apply(old(queue), cmd)
      ensures !pc.Idle? ==> old(Left(pc)) == Left(After(cfg, pc, reply))
    {
      hide After, Apply, Rank, CommandOf, Drive, Issued;
      IssuedIs(cfg, Now(pc), world.fault(sent), world.pick(sent));
      DriveStep(cfg, world, Now(pc), sent);
      var fault := world.fault(sent);
      var (after, answer) := Apply(queue, cmd);
      reply := if fault == Fine then answer else Error;
      if fault == Fine || fault == LostReply {
        queue := after;
      }
      if fault == Late {
        late := late + multiset{cmd};
      }
      sent := sent + 1;
    }

    // XLEN, then XADD; true when the job was added.
    method Publish(job: Job, from: Option<nat>, ghost pc: Pc) returns (ok: bool)
      requires pc == if from.Some? then Measuring(from.value, job) else PubMeasuring(job)
      modifies this
      ensures old(Left(pc)) ==
              Left(if from.None? then Idle else if ok then Acking(from.value) else Burying(from.value, job))
      ensures sent >= old(sent) && (ok ==> Added(old(queue), queue, job, from))
      ensures Quiet(world, old(sent), sent) ==>
        ok == (|old(queue).entries| < cfg.maxLength) && (!ok ==> queue == old(queue))
    {
      var length := SendCommand(XLen, pc);
      ghost var next := After(cfg, pc, length);
      if length == Error {
        return false;
      }
      if length.Count? && length.n >= cfg.maxLength {
        return false;
      }
      var added := SendCommand(XAdd(job, from), next);
      return added != Error;
    }

    // XACK, then XDEL.
    method Ack(id: nat) returns (ok: bool)
      modifies this
      ensures old(Left(Acking(id))) == Left(Idle) == (Now(Idle), sent)
      ensures sent > old(sent)
      ensures Quiet(world, old(sent), sent) ==>
        ok && queue == old(queue).(pending := old(queue).pending - {id}, entries := old(queue).entries - {id})
    {
      var acknowledged := SendCommand(XAck(id), Acking(id));
      if acknowledged == Error {
        return false;
      }
      var deleted := SendCommand(XDel(id), Deleting(id));
      return deleted != Error;
    }

    method DeadLetter(id: nat, job: Job) returns (ok: bool)
      modifies this
      ensures old(Left(Burying(id, job))) == Left(if ok then Acking(id) else Idle)
      ensures Left(Idle) == (Now(Idle), sent)
      ensures sent == old(sent) + 1
      ensures ok ==> queue == old(queue).(dead := old(queue).dead[id := job])
      ensures Quiet(world, old(sent), sent) ==> ok
    {
      var added := SendCommand(XAddDead(id, job), Burying(id, job));
      return added != Error;
    }

    // XAUTOCLAIM, then XREADGROUP when nothing was claimed.
    method Read() returns (message: Option<Received>)
      modifies this
      ensures ReadOne(cfg, world, old(Now(Idle)), old(sent)) ==
              Left(if message.Some? then Executing(message.value.id, message.value.job) else Idle)
      ensures sent > old(sent)
      ensures Quiet(world, old(sent), sent) ==> HandsOver(old(queue), queue, world.pick(old(sent)), message)
    {
      HandedOver(queue, world.pick(sent));
      var claimed := SendCommand(XAutoClaim(world.pick(sent)), Idle);
      if claimed == Error {
        return None;
      }
      if claimed.Message? {
        return Some(Received(claimed.id, claimed.job));
      }
      var value := SendCommand(XReadGroup, Reading);
      return if value.Message? then Some(Received(value.id, value.job)) else None;
    }

    // process: execute the message, then acknowledge, retry or bury it.
    method Process(message: Received)
      modifies this
      ensures ProcessOne(cfg, world, old(Now(Executing(message.id, message.job))), old(sent)) == (Now(Idle), sent)
      ensures sent >= old(sent)
      ensures Quiet(world, old(sent), sent) ==>
        Processed(cfg, old(queue), queue, message.id, message.job, world.outcome(old(sent))) &&
        executions == old(executions) + if world.outcome(old(sent)) == Undecodable then [] else [message.id]
    {
      hide Drive, Act, Processed, Quiet, Added, ProcessOne;
      ProcessMeans(cfg, world, Now(Executing(message.id, message.job)), sent);
      var err := world.outcome(sent);
      ExecuteIs(cfg, Now(Executing(message.id, message.job)), err);
      var id, job := message.id, message.job;
      ghost var start := Act(cfg, Now(Executing(id, job)), Execute(0, err));
      queue := Recorded(queue, id, err);
      if err == Undecodable {
        job := NO_JOB;
      } else {
        executions := executions + [id];
      }
      assert start == Now(Executed(cfg, id, message.job, err));
      if err == Success {
        var _ := Ack(id);
        return;
      }
      if err.Temporary? && job.attempt < cfg.maxRetries {
        job := job.(attempt := job.attempt + 1);
        if err.retryStored {
          var published := Publish(job, Some(id), Measuring(id, job));
          if published {
            var _ := Ack(id);
            return;
          }
        }
      }
      var buried := DeadLetter(id, job);
      if !buried {
        return;
      }
      var _ := Ack(id);
    }

    // What every reachable state of the queue meets.
    ghost predicate Valid()
      reads this
    {
      Inv(cfg, Now(Idle))
    }

    // The read loop of the worker, stopped between two rounds, after any number of them, on any
    // queue that clients may have left behind.  trace is the run of the protocol it went through.
    method Serve(rounds: nat) returns (ghost trace: seq<Action>)
      requires Valid()
      modifies this
      ensures Now(Idle) == Run(cfg, old(Now(Idle)), trace)
      ensures (Now(Idle), sent) == Rounds(cfg, world, old(Now(Idle)), old(sent), rounds)
      ensures Valid() && Grows(old(queue), queue)
      ensures forall id :: id in queue.accepted ==> Accounted(queue, id)
    {
      hide Run, Round, ReadOne, ProcessOne, Inv, Grows, Accounted;
      trace := [];
      RunNothing(cfg, Now(Idle));
      for i := 0 to rounds
        invariant Now(Idle) == Run(cfg, old(Now(Idle)), trace)
        invariant (Now(Idle), sent) == Rounds(cfg, world, old(Now(Idle)), old(sent), i)
      {
        ghost var more := RoundIsRun(cfg, world, Now(Idle), sent);
        RunJoin(cfg, old(Now(Idle)), trace, more);
        trace := trace + more;
        RoundIs(cfg, world, Now(Idle), sent);
        var message := Read();
        if message.Some? {
          Process(message.value);
        }
      }
      RunGrows(cfg, old(Now(Idle)), trace);
      AllAccounted(cfg, Now(Idle));
    }

    // A job published by a client that is not in the middle of anything.
    method PublishNew(job: Job) returns (ok: bool)
      requires Valid()
      modifies this
      ensures Valid() && Grows(old(queue), queue)
      ensures ok ==> old(queue).nextId in queue.accepted && queue.accepted[old(queue).nextId] == job
    {
      hide Inv, Grows, Run;
      ghost var start := Act(cfg, Now(Idle), TaskQueue.Publish(0, job));
      assert start == Now(PubMeasuring(job));
      ActKeeps(cfg, Now(Idle), TaskQueue.Publish(0, job));
      ghost var trace := DriveTrace(cfg, world, start, sent);
      DriveIsRun(cfg, world, start, sent);
      ok := Publish(job, None, PubMeasuring(job));
      assert Now(Idle) == Run(cfg, start, trace);
      RunGrows(cfg, start, trace);
    }
  }

  lemma RunNothing(cfg: Config, s: State)
    ensures Run(cfg, s, []) == s
  {
  }

  lemma RoundIs(cfg: Config, w: World, s: State, sent: nat)
    requires s.pcs == [Idle]
    ensures var (held, n) := ReadOne(cfg, w, s, sent);
      Round(cfg, w, s, sent) == if held.pcs[0].Idle? then (held, n) else ProcessOne(cfg, w, held, n)
  {
  }

  lemma AllAccounted(cfg: Config, s: State)
    requires Inv(cfg, s)
    ensures forall id :: id in s.queue.accepted ==> Accounted(s.queue, id)
  {
    forall id | id in s.queue.accepted ensures Accounted(s.queue, id) {
      var last := SoundAccounts(cfg, s.queue, id);
    }
  }

  // Whatever any number of clients did before, the worker starts on a valid queue.
  lemma OneOfMany(cfg: Config, clients: nat, actions: seq<Action>)
    ensures var s := Run(cfg, Init(clients), actions); Inv(cfg, s.(pcs := [Idle]))
  {
    hide Act;
    RunKeeps(cfg, clients, actions);
  }

  // Jobs are published, and the worker serves: every job whose publish succeeded is accounted for.
  method PublishThenServe(cfg: Config, world: World, jobs: seq<Job>, rounds: nat)
    returns (broker: RedisBroker, published: seq<bool>)
    ensures fresh(broker) && broker.Valid() && |published| == |jobs|
    ensures forall i :: 0 <= i < |jobs| && published[i] ==> JobAccounted(broker.queue, jobs[i])
    ensures forall id :: id in broker.queue.accepted ==> Accounted(broker.queue, id)
  {
    hide Inv, Grows, Accounted;
    broker := new RedisBroker(cfg, world);
    published := [];
    OneOfMany(cfg, 1, []);
    for i := 0 to |jobs|
      invariant broker.Valid() && |published| == i
      invariant forall k :: 0 <= k < i && published[k] ==> JobAccepted(broker.queue, jobs[k])
    {
      ghost var before := broker.queue;
      var ok := broker.PublishNew(jobs[i]);
      StillAccepted(before, broker.queue, jobs);
      published := published + [ok];
    }
    ghost var before := broker.queue;
    ghost var trace := broker.Serve(rounds);
    StillAccepted(before, broker.queue, jobs);
  }

  ghost predicate JobAccepted(q: Queue, job: Job) {
    exists id :: id in q.accepted && q.accepted[id] == job
  }

  ghost predicate JobAccounted(q: Queue, job: Job) {
    exists id :: id in q.accepted && q.accepted[id] == job && Accounted(q, id)
  }

  lemma StillAccepted(q: Queue, r: Queue, jobs: seq<Job>)
    requires Grows(q, r)
    ensures forall k :: 0 <= k < |jobs| && JobAccepted(q, jobs[k]) ==> JobAccepted(r, jobs[k])
  {
    forall k | 0 <= k < |jobs| && JobAccepted(q, jobs[k]) ensures JobAccepted(r, jobs[k]) {
      var id :| id in q.accepted && q.accepted[id] == jobs[k];
      assert GrowsAt(q, r, id);
    }
  }
}
