// Progress: once commands stop failing, the worker's rounds settle everything that was accepted,
// whatever faults and crashes came before.
module TaskProgress {
  import opened Collections
  import opened TaskQueue
  import opened TaskWorker

  // ------------------------------------------------------------ the work left

  // How many executions an entry can still bring: its own and one for each retry below the limit.
  function Weight(cfg: Config, job: Job): (n: nat)
    ensures n > 0
  {
    if job.attempt < cfg.maxRetries then cfg.maxRetries - job.attempt + 1 else 1
  }

  ghost function EntryWork(cfg: Config, q: Queue, id: nat): nat {
    if Alive(q, id) && id in q.accepted then Weight(cfg, q.accepted[id]) else 0
  }

  ghost function WorkBelow(cfg: Config, q: Queue, n: nat): nat {
    if n == 0 then 0 else WorkBelow(cfg, q, n - 1) + EntryWork(cfg, q, n - 1)
  }

  ghost function Work(cfg: Config, q: Queue): nat {
    WorkBelow(cfg, q, q.nextId)
  }

  // The work below n when only entry id changed.
  lemma {:induction false} WorkChanges(cfg: Config, q: Queue, r: Queue, n: nat, id: nat)
    requires forall i :: 0 <= i < n && i != id ==> EntryWork(cfg, r, i) == EntryWork(cfg, q, i)
    ensures WorkBelow(cfg, r, n) - WorkBelow(cfg, q, n)
         == if id < n then EntryWork(cfg, r, id) - EntryWork(cfg, q, id) else 0
  {
    hide EntryWork;
    if n > 0 {
      WorkChanges(cfg, q, r, n - 1, id);
    }
  }

  lemma {:induction false} NoWork(cfg: Config, q: Queue, n: nat, id: nat)
    requires WorkBelow(cfg, q, n) == 0 && id < n && id in q.accepted
    ensures !Alive(q, id)
  {
    if id < n - 1 {
      NoWork(cfg, q, n - 1, id);
    }
  }

  // ------------------------------------------------------------ what each command does to it

  lemma AddWork(cfg: Config, q: Queue, job: Job, from: Option<nat>)
    requires QueueOk(q)
    ensures Work(cfg, Apply(q, XAdd(job, from)).0) == Work(cfg, q) + Weight(cfg, job)
  {
    var r := Apply(q, XAdd(job, from)).0;
    assert IdOk(q, q.nextId);
    WorkChanges(cfg, q, r, q.nextId, q.nextId);
  }

  lemma AckWork(cfg: Config, q: Queue, id: nat)
    requires QueueOk(q) && id in q.pending
    ensures id in q.accepted && Work(cfg, Apply(q, XAck(id)).0) == Work(cfg, q) - Weight(cfg, q.accepted[id])
  {
    var r := Apply(q, XAck(id)).0;
    assert IdOk(q, id);
    WorkChanges(cfg, q, r, q.nextId, id);
  }

  lemma DeleteWork(cfg: Config, q: Queue, id: nat)
    requires QueueOk(q) && id < q.delivered && id !in q.pending
    ensures Work(cfg, Apply(q, XDel(id)).0) == Work(cfg, q)
  {
    WorkChanges(cfg, q, Apply(q, XDel(id)).0, q.nextId, q.nextId);
  }

  lemma BuryWork(cfg: Config, q: Queue, id: nat, job: Job)
    ensures Work(cfg, Apply(q, XAddDead(id, job)).0) == Work(cfg, q)
  {
    WorkChanges(cfg, q, Apply(q, XAddDead(id, job)).0, q.nextId, q.nextId);
  }

  lemma RecordWork(cfg: Config, q: Queue, id: nat, outcome: Outcome)
    ensures Work(cfg, Recorded(q, id, outcome)) == Work(cfg, q)
  {
    WorkChanges(cfg, q, Recorded(q, id, outcome), q.nextId, q.nextId);
  }

  // Reading moves an entry from undelivered to pending: it stays alive.
  lemma ReadWork(cfg: Config, q: Queue)
    requires QueueOk(q)
    ensures var (r, reply) := Apply(q, XReadGroup);
      Work(cfg, r) == Work(cfg, q) &&
      (if reply.Message? then reply.id in r.pending && r.pending == q.pending + {reply.id} else r == q) &&
      (reply == NoMessage ==> forall i :: i in q.entries ==> i < q.delivered)
  {
    var r := Apply(q, XReadGroup).0;
    var first := FirstFrom(q.entries, q.delivered, q.nextId);
    WorkChanges(cfg, q, r, q.nextId, q.nextId);
    forall i | i in q.entries ensures IdOk(q, i) {
    }
  }

  // ------------------------------------------------------------ processing a message

  ghost predicate AllFine(w: World) {
    forall n :: w.fault(n) == Fine
  }

  // The worker holds a message that is pending, and is past its execution or done with it.
  ghost predicate Holding(s: State) {
    |s.pcs| == 1 &&
    match s.pcs[0]
    case Measuring(id, _) => id in s.queue.pending
    case Adding(id, _) => id in s.queue.pending
    case Burying(id, _) => id in s.queue.pending
    case Acking(id) => id in s.queue.pending
    case Deleting(id) => id !in s.queue.pending
    case Idle => true
    case _ => false
  }

  // The most work that can be left when the worker is idle again: a retry weighs one less than
  // the entry it continues.
  ghost function Future(cfg: Config, s: State): int
    requires Holding(s) && QueueOk(s.queue)
  {
    match s.pcs[0]
    case Measuring(_, _) => Work(cfg, s.queue) - 1
    case Adding(_, _) => Work(cfg, s.queue) - 1
    case Burying(id, _) => assert IdOk(s.queue, id); Work(cfg, s.queue) - Weight(cfg, s.queue.accepted[id])
    case Acking(id) => assert IdOk(s.queue, id); Work(cfg, s.queue) - Weight(cfg, s.queue.accepted[id])
    case _ => Work(cfg, s.queue)
  }

  // What stays pending when the worker is idle again.
  ghost function Remaining(s: State): set<nat>
    requires Holding(s)
  {
    if s.pcs[0].Idle? || s.pcs[0].Deleting? then s.queue.pending else s.queue.pending - {s.pcs[0].id}
  }

  lemma FineStep(cfg: Config, s: State, pick: nat)
    requires Inv(cfg, s) && Holding(s) && !s.pcs[0].Idle?
    ensures var t := Issued(cfg, s, 0, Fine, pick);
      Inv(cfg, t) && Holding(t) && Future(cfg, t) <= Future(cfg, s) && Remaining(t) == Remaining(s)
  {
    var pc, q := s.pcs[0], s.queue;
    var t := Issued(cfg, s, 0, Fine, pick);
    IssueKeeps(cfg, s, 0, Fine, pick);
    assert PcOk(cfg, q, pc) && IdOk(q, pc.id);
    hide Inv, Work, IdOk, QueueOk;
    match pc
    case Adding(id, job) =>
      AddWork(cfg, q, job, Some(id));
      assert t.queue.accepted[id] == q.accepted[id] by { FreshId(q, id); }
    case Burying(id, job) => BuryWork(cfg, q, id, job);
    case Acking(id) => AckWork(cfg, q, id);
    case Deleting(id) => DeleteWork(cfg, q, id);
    case _ =>
  }

  lemma FreshId(q: Queue, id: nat)
    requires QueueOk(q) && id in q.accepted
    ensures id != q.nextId
  {
    assert IdOk(q, id);
  }

  lemma {:induction false} DriveSettles(cfg: Config, w: World, s: State, sent: nat)
    requires AllFine(w) && Inv(cfg, s) && Holding(s)
    ensures var t := Drive(cfg, w, s, sent).0;
      t.pcs == [Idle] && Inv(cfg, t) && Work(cfg, t.queue) <= Future(cfg, s) && t.queue.pending == Remaining(s)
    decreases Rank(s.pcs[0])
  {
    hide Inv, Work, Issued;
    if !s.pcs[0].Idle? {
      SentRank(cfg, w, s, sent);
      FineStep(cfg, s, w.pick(sent));
      DriveSettles(cfg, w, Sent(cfg, w, s, sent), sent + 1);
    }
  }

  // ------------------------------------------------------------ a round

  // Pending entries left behind are old enough to be claimed when the round starts.
  ghost predicate Prompt(w: World, q: Queue, sent: nat) {
    q.pending != {} ==> w.pick(sent) in q.pending
  }

  lemma {:induction false} NothingAlive(cfg: Config, q: Queue, n: nat)
    requires forall id :: !Alive(q, id)
    ensures WorkBelow(cfg, q, n) == 0
  {
    if n > 0 {
      NothingAlive(cfg, q, n - 1);
    }
  }

  lemma ClaimStep(cfg: Config, w: World, s: State, sent: nat)
    requires AllFine(w) && Inv(cfg, s) && s.pcs == [Idle] && Prompt(w, s.queue, sent)
    ensures var t := Sent(cfg, w, s, sent);
      Inv(cfg, t) && t.queue == s.queue &&
      if s.queue.pending == {} then t.pcs == [Reading]
      else t.pcs[0].Executing? && t.pcs[0].id in s.queue.pending
  {
    IssueKeeps(cfg, s, 0, Fine, w.pick(sent));
    assert IdOk(s.queue, w.pick(sent));
  }

  lemma ReadStep(cfg: Config, w: World, s: State, sent: nat)
    requires AllFine(w) && Inv(cfg, s) && s.pcs == [Reading]
    ensures var t := Sent(cfg, w, s, sent);
      Inv(cfg, t) && Work(cfg, t.queue) == Work(cfg, s.queue) &&
      if t.pcs[0].Executing? then
        t.pcs[0].id in t.queue.pending && t.queue.pending == s.queue.pending + {t.pcs[0].id}
      else
        t.pcs == [Idle] && t.queue == s.queue && forall i :: i in s.queue.entries ==> i < s.queue.delivered
  {
    hide Work;
    IssueKeeps(cfg, s, 0, Fine, w.pick(sent));
    ReadWork(cfg, s.queue);
  }

  // Reading finds an entry to work on whenever there is one.
  lemma ReadFinds(cfg: Config, w: World, s: State, sent: nat)
    requires AllFine(w) && Inv(cfg, s) && s.pcs == [Idle] && Prompt(w, s.queue, sent)
    ensures var t := ReadOne(cfg, w, s, sent).0;
      Inv(cfg, t) && Work(cfg, t.queue) == Work(cfg, s.queue) &&
      if t.pcs[0].Executing? then
        t.pcs[0].id in t.queue.pending && t.queue.pending == s.queue.pending + {t.pcs[0].id}
      else
        t.queue == s.queue && Work(cfg, s.queue) == 0
  {
    hide Inv, Work, Issued;
    var first := Sent(cfg, w, s, sent);
    ClaimStep(cfg, w, s, sent);
    if s.queue.pending == {} {
      var second := Sent(cfg, w, first, sent + 1);
      ReadStep(cfg, w, first, sent + 1);
      DriveStep(cfg, w, first, sent + 1);
      assert Drive(cfg, w, second, sent + 2) == (second, sent + 2);
      if !second.pcs[0].Executing? {
        WorkEmpty(cfg, s.queue);
      }
    }
  }

  lemma WorkEmpty(cfg: Config, q: Queue)
    requires q.pending == {} && forall i :: i in q.entries ==> i < q.delivered
    ensures Work(cfg, q) == 0
  {
    NothingAlive(cfg, q, q.nextId);
  }

  lemma ProcessSettles(cfg: Config, w: World, s: State, sent: nat)
    requires AllFine(w) && Inv(cfg, s) && |s.pcs| == 1 && s.pcs[0].Executing? && s.pcs[0].id in s.queue.pending
    ensures var t := ProcessOne(cfg, w, s, sent).0;
      t.pcs == [Idle] && Inv(cfg, t) && Work(cfg, t.queue) < Work(cfg, s.queue) &&
      t.queue.pending == s.queue.pending - {s.pcs[0].id}
  {
    var Executing(id, job) := s.pcs[0];
    var outcome := w.outcome(sent);
    var next := Act(cfg, s, Execute(0, outcome));
    ActKeeps(cfg, s, Execute(0, outcome));
    RecordWork(cfg, s.queue, id, outcome);
    ExecuteIs(cfg, s, outcome);
    assert QueueOk(next.queue);
    hide Inv, Work, Act, Drive, QueueOk;
    DriveSettles(cfg, w, next, sent);
  }

  // While there is work, a round takes some of it and adds less; and it leaves nothing pending
  // that was not pending before.
  lemma RoundWorks(cfg: Config, w: World, s: State, sent: nat)
    requires AllFine(w) && Inv(cfg, s) && s.pcs == [Idle] && Prompt(w, s.queue, sent)
    ensures var t := Round(cfg, w, s, sent).0;
      Inv(cfg, t) && t.queue.pending <= s.queue.pending &&
      (Work(cfg, t.queue) < Work(cfg, s.queue) || Work(cfg, t.queue) == Work(cfg, s.queue) == 0)
  {
    hide Inv, Work, ReadOne, ProcessOne;
    var (held, n) := ReadOne(cfg, w, s, sent);
    ReadFinds(cfg, w, s, sent);
    if held.pcs[0].Executing? {
      ProcessSettles(cfg, w, held, n);
    }
  }

  // ------------------------------------------------------------ all rounds

  ghost predicate PromptRounds(cfg: Config, w: World, s: State, sent: nat, n: nat)
    requires s.pcs == [Idle]
  {
    forall i :: 0 <= i < n ==> var (t, m) := Rounds(cfg, w, s, sent, i); Prompt(w, t.queue, m)
  }

  lemma {:induction false} RoundsWork(cfg: Config, w: World, s: State, sent: nat, n: nat)
    requires AllFine(w) && Inv(cfg, s) && s.pcs == [Idle] && PromptRounds(cfg, w, s, sent, n)
    ensures var t := Rounds(cfg, w, s, sent, n).0;
      Inv(cfg, t) && t.queue.pending <= s.queue.pending &&
      Work(cfg, t.queue) <= (if n < Work(cfg, s.queue) then Work(cfg, s.queue) - n else 0)
  {
    hide Inv, Work, Round, Prompt;
    if n > 0 {
      var (t, m) := Rounds(cfg, w, s, sent, n - 1);
      RoundsWork(cfg, w, s, sent, n - 1);
      assert Prompt(w, t.queue, m);
      RoundWorks(cfg, w, t, m);
    }
  }

  // From every sound state, whatever faults, crashes and other workers left it: when commands
  // succeed from now on and old pending entries get claimed, then after as many rounds as there
  // are executions left nothing is undelivered or pending, and every job ever accepted was
  // executed successfully, in itself or in a retry of it, or is in the dead-letter stream.
  lemma WorkRunsOut(cfg: Config, w: World, s: State, sent: nat, n: nat)
    requires AllFine(w) && Inv(cfg, s) && s.pcs == [Idle]
    requires PromptRounds(cfg, w, s, sent, n) && n >= Work(cfg, s.queue)
    ensures var q := Rounds(cfg, w, s, sent, n).0.queue;
      (forall id :: !Alive(q, id)) &&
      forall id :: id in q.accepted ==> exists last :: Follows(q, id, last) && Closed(q, last)
  {
    hide Inv, Rounds;
    RoundsWork(cfg, w, s, sent, n);
    var t := Rounds(cfg, w, s, sent, n).0;
    forall id: nat ensures !Alive(t.queue, id) {
      if Alive(t.queue, id) {
        AliveListed(cfg, t, id);
        NoWork(cfg, t.queue, t.queue.nextId, id);
      }
    }
    SoundQueue(cfg, t);
    forall id | id in t.queue.accepted ensures exists last :: Follows(t.queue, id, last) && Closed(t.queue, last) {
      var last := SoundAccounts(cfg, t.queue, id);
    }
  }

  lemma SoundQueue(cfg: Config, s: State)
    requires Inv(cfg, s)
    ensures QueueOk(s.queue)
  {
  }

  lemma AliveListed(cfg: Config, s: State, id: nat)
    requires Inv(cfg, s) && Alive(s.queue, id)
    ensures id in s.queue.accepted && id < s.queue.nextId
  {
    assert IdOk(s.queue, id);
  }

  // With nothing pending at the start nothing is left pending between rounds, so nothing needs
  // to be claimed.
  lemma {:induction false} NothingToClaim(cfg: Config, w: World, s: State, sent: nat, n: nat)
    requires AllFine(w) && Inv(cfg, s) && s.pcs == [Idle] && s.queue.pending == {}
    ensures PromptRounds(cfg, w, s, sent, n)
  {
    hide Inv, Round;
    if n > 0 {
      NothingToClaim(cfg, w, s, sent, n - 1);
      RoundsWork(cfg, w, s, sent, n - 1);
    }
  }

  // The loop itself: served for long enough without a fault, it empties the queue.
  method ServeUntilSettled(broker: RedisBroker, rounds: nat)
    requires broker.Valid() && AllFine(broker.world) && broker.queue.pending == {}
    requires rounds >= Work(broker.cfg, broker.queue)
    modifies broker
    ensures broker.Valid() && Grows(old(broker.queue), broker.queue)
    ensures forall id :: !Alive(broker.queue, id)
    ensures forall id :: id in broker.queue.accepted ==>
      exists last :: Follows(broker.queue, id, last) && Closed(broker.queue, last)
  {
    hide Rounds, Inv, Grows;
    NothingToClaim(broker.cfg, broker.world, broker.Now(Idle), broker.sent, rounds);
    WorkRunsOut(broker.cfg, broker.world, broker.Now(Idle), broker.sent, rounds);
    ghost var trace := broker.Serve(rounds);
  }
}
