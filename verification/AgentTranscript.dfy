// The agent loop read from its log: which messages the model was sent, which calls were executed
// and how the run ended, said of the recorded turns alone.
module AgentTranscript {
  import opened Collections
  import opened Text
  import opened ContextFit
  import opened AgentLoop
  import opened AgentLoopTheorems

  // What a run starts with.
  datatype Opening = Opening(system: string, prompt: string, evidence: set<string>)

  ghost predicate SameCall(a: ToolCall, b: ToolCall) {
    a.name + ":" + a.args == b.name + ":" + b.args
  }

  // One of the calls was executed before, or stands twice in the reply.
  ghost predicate Repeats(executed: seq<ToolCall>, calls: seq<ToolCall>) {
    exists i :: 0 <= i < |calls| && SeenBefore(executed + calls[..i], calls[i])
  }

  ghost predicate SeenBefore(before: seq<ToolCall>, call: ToolCall) {
    exists k :: 0 <= k < |before| && SameCall(before[k], call)
  }

  // The calls of a turn are executed when tools were offered, none repeats and the limit is kept.
  ghost predicate Runs(c: Settings, executed: seq<ToolCall>, turn: Turn) {
    turn.toolsOffered && !Repeats(executed, CallsIn(turn)) && |executed| + |CallsIn(turn)| <= c.maxToolCalls
  }

  ghost function ExecutedIn(c: Settings, turns: seq<Turn>): seq<ToolCall> {
    if turns == [] then []
    else
      var before, last := ExecutedIn(c, turns[..|turns| - 1]), turns[|turns| - 1];
      if Runs(c, before, last) then before + CallsIn(last) else before
  }

  // The evidence when a turn is answered.
  ghost function EvidenceIn(w: World, c: Settings, o: Opening, turns: seq<Turn>): set<string> {
    var executed := ExecutedIn(c, turns);
    o.evidence + FoundBy(w, executed, |executed|)
  }

  ghost function ErrorsOf(w: World, c: Settings, o: Opening, before: seq<Turn>, reply: Reply): seq<string>
    requires reply.Reply?
  {
    w.errors(PyStrip(reply.content), EvidenceIn(w, c, o, before))
  }

  // The errors of the last candidate plan.
  ghost function LastErrors(w: World, c: Settings, o: Opening, turns: seq<Turn>): seq<string> {
    if turns == [] then []
    else
      var before, reply := turns[..|turns| - 1], turns[|turns| - 1].reply;
      if reply.Reply? && reply.toolCalls == [] then ErrorsOf(w, c, o, before, reply) else LastErrors(w, c, o, before)
  }

  function ToolMessages(w: World, calls: seq<ToolCall>, from: nat): (r: seq<Message>)
    ensures |r| == |calls|
    ensures forall k :: 0 <= k < |calls| ==>
      r[k] == Message(Tool(calls[k].id, calls[k].name), Some(w.execute(from + k, calls[k]).text), [])
  {
    seq(|calls|, k requires 0 <= k < |calls| =>
      Message(Tool(calls[k].id, calls[k].name), Some(w.execute(from + k, calls[k]).text), []))
  }

  // What a turn adds to the conversation.
  ghost function Block(w: World, c: Settings, o: Opening, before: seq<Turn>, turn: Turn): seq<Message> {
    var executed, calls := ExecutedIn(c, before), CallsIn(turn);
    if turn.reply.Failed? then []
    else if calls == [] then
      var errors := ErrorsOf(w, c, o, before, turn.reply);
      if errors == [] then []
      else
        [Message(Assistant, Some(PyStrip(turn.reply.content)), []), Message(User, Some(w.feedback(errors)), [])]
    else if !turn.toolsOffered then [NOT_AVAILABLE]
    else if Repeats(executed, calls) then [REPEATED]
    else if |executed| + |calls| > c.maxToolCalls then []
    else
      [Message(Assistant, if turn.reply.content == "" then None else Some(turn.reply.content), calls)]
        + ToolMessages(w, calls, |executed|)
  }

  // The conversation after the turns, and before the next one: the notice stands once, before the
  // first turn without tools.
  ghost function Conversation(w: World, c: Settings, o: Opening, turns: seq<Turn>): seq<Message>
    decreases |turns|, 0
  {
    if turns == [] then [Message(System, Some(o.system), []), Message(User, Some(o.prompt), [])]
    else
      var before, last := turns[..|turns| - 1], turns[|turns| - 1];
      Asking(w, c, o, before, last.toolsOffered) + Block(w, c, o, before, last)
  }

  ghost function Asking(w: World, c: Settings, o: Opening, before: seq<Turn>, offered: bool): seq<Message>
    decreases |before|, 1
  {
    Conversation(w, c, o, before) + if !offered && AllOffered(before) then [DISABLED] else []
  }

  ghost predicate AllOffered(turns: seq<Turn>) {
    forall j :: 0 <= j < |turns| ==> turns[j].toolsOffered
  }

  // Tools are offered while no reply repeated a call and more steps are left than are reserved.
  ghost predicate OfferedNext(c: Settings, before: seq<Turn>) {
    |before| < ToolSteps(c) &&
    forall j :: 0 <= j < |before| ==>
      !(before[j].toolsOffered && Repeats(ExecutedIn(c, before[..j]), CallsIn(before[j])))
  }

  // The j-th turn: what was sent, whether tools were offered, and the answer to that.
  ghost predicate Logged(w: World, c: Settings, o: Opening, turns: seq<Turn>, j: nat)
    requires j < |turns|
  {
    var turn, before := turns[j], turns[..j];
    turn.reply.Reply? && turn.toolsOffered == OfferedNext(c, before) &&
    turn.request == Fitted(Asking(w, c, o, before, turn.toolsOffered), c.maxChars) &&
    turn.reply == w.complete(j, turn.request, turn.toolsOffered)
  }

  // The turn ended the run: a candidate without errors, or calls beyond the limit.
  ghost predicate Ends(w: World, c: Settings, o: Opening, before: seq<Turn>, turn: Turn) {
    var executed, calls := ExecutedIn(c, before), CallsIn(turn);
    if turn.reply.Failed? then false
    else if calls == [] then ErrorsOf(w, c, o, before, turn.reply) == []
    else turn.toolsOffered && !Repeats(executed, calls) && |executed| + |calls| > c.maxToolCalls
  }

  ghost predicate Concludes(w: World, c: Settings, o: Opening, turns: seq<Turn>, outcome: Outcome) {
    var ended := turns != [] && Ends(w, c, o, turns[..|turns| - 1], turns[|turns| - 1]);
    var offered := OfferedNext(c, turns);
    match outcome
    case Plan(plan, usage, toolCalls) =>
      ended && CallsIn(turns[|turns| - 1]) == [] && plan == PyStrip(turns[|turns| - 1].reply.content) &&
      usage == UsageOf(turns) && toolCalls == |ExecutedIn(c, turns)|
    case ToolLimitExceeded =>
      if ended then CallsIn(turns[|turns| - 1]) != [] else |turns| >= c.maxSteps && LastErrors(w, c, o, turns) == []
    case InvalidPlan(errors) => !ended && |turns| >= c.maxSteps && errors == LastErrors(w, c, o, turns) != []
    case ClientFailed =>
      !ended && |turns| < c.maxSteps &&
      w.complete(|turns|, Fitted(Asking(w, c, o, turns, offered), c.maxChars), offered).Failed?
  }

  // ------------------------------------------------------------ the loop keeps the log

  // The keys that were seen are those of the calls.
  ghost predicate Known(seen: set<string>, calls: seq<ToolCall>) {
    forall key :: key in seen <==> exists k :: 0 <= k < |calls| && Key(calls[k]) == key
  }

  lemma KnownMore(seen: set<string>, calls: seq<ToolCall>, call: ToolCall)
    requires Known(seen, calls)
    ensures Known(seen + {Key(call)}, calls + [call])
    ensures Key(call) in seen <==> SeenBefore(calls, call)
  {
    var more := calls + [call];
    assert more[|calls|] == call;
    forall key ensures key in seen + {Key(call)} <==> exists k :: 0 <= k < |more| && Key(more[k]) == key {
      if key in seen {
        var k :| 0 <= k < |calls| && Key(calls[k]) == key;
        assert more[k] == calls[k];
      }
    }
    if SeenBefore(calls, call) {
      var k :| 0 <= k < |calls| && SameCall(calls[k], call);
      assert Key(calls[k]) == Key(call);
    }
  }

  lemma {:induction false} FreshMeans(executed: seq<ToolCall>, calls: seq<ToolCall>, seen: set<string>, i: nat)
    requires i <= |calls| && Known(seen, executed + calls[..i])
    ensures FreshFrom(calls, seen, i) == |calls| <==>
      forall j :: i <= j < |calls| ==> !SeenBefore(executed + calls[..j], calls[j])
    decreases |calls| - i
  {
    hide Key, SeenBefore, Known;
    if i < |calls| {
      KnownMore(seen, executed + calls[..i], calls[i]);
      assert executed + calls[..i] + [calls[i]] == executed + calls[..i + 1];
      if Key(calls[i]) !in seen {
        FreshMeans(executed, calls, seen + {Key(calls[i])}, i + 1);
      }
    }
  }

  lemma {:induction false} KnownKeys(seen: set<string>, executed: seq<ToolCall>, calls: seq<ToolCall>, n: nat)
    requires n <= |calls| && Known(seen, executed)
    ensures Known(seen + Keys(calls, n), executed + calls[..n])
  {
    hide Known, Key;
    if n == 0 {
      assert executed + calls[..0] == executed && seen + Keys(calls, 0) == seen;
    } else {
      KnownKeys(seen, executed, calls, n - 1);
      KnownMore(seen + Keys(calls, n - 1), executed + calls[..n - 1], calls[n - 1]);
      assert executed + calls[..n - 1] + [calls[n - 1]] == executed + calls[..n];
      assert seen + Keys(calls, n - 1) + {Key(calls[n - 1])} == seen + Keys(calls, n);
    }
  }

  lemma FreshOrRepeats(executed: seq<ToolCall>, calls: seq<ToolCall>, seen: set<string>)
    requires Known(seen, executed)
    ensures FreshCalls(calls, seen) == |calls| <==> !Repeats(executed, calls)
    ensures Known(seen + Keys(calls, |calls|), executed + calls)
  {
    hide Known, SeenBefore, FreshFrom, Keys;
    assert executed + calls[..0] == executed && calls[..|calls|] == calls;
    FreshMeans(executed, calls, seen, 0);
    KnownKeys(seen, executed, calls, |calls|);
  }

  lemma {:induction false} RunTells(w: World, calls: seq<ToolCall>, s: State)
    ensures RunCalls(w, calls, s).messages == s.messages + ToolMessages(w, calls, |s.executed|)
  {
    if calls != [] {
      var init, call := calls[..|calls| - 1], calls[|calls| - 1];
      RunTells(w, init, s);
      RunKeeps(w, init, s);
      assert ToolMessages(w, calls, |s.executed|) ==
             ToolMessages(w, init, |s.executed|) + [ToolMessage(call, w.execute(|s.executed| + |init|, call).text)];
    }
  }

  ghost predicate NoRepeat(c: Settings, turns: seq<Turn>) {
    forall j :: 0 <= j < |turns| ==>
      !(turns[j].toolsOffered && Repeats(ExecutedIn(c, turns[..j]), CallsIn(turns[j])))
  }

  // The state is what the log says.
  ghost predicate Told(w: World, c: Settings, o: Opening, s: State) {
    s.messages == Conversation(w, c, o, s.turns) && s.executed == ExecutedIn(c, s.turns) &&
    s.evidence == EvidenceIn(w, c, o, s.turns) && s.usage == UsageOf(s.turns) &&
    s.lastErrors == LastErrors(w, c, o, s.turns) &&
    (s.noticeSent <==> !AllOffered(s.turns)) && (s.forceSynthesis <==> !NoRepeat(c, s.turns)) &&
    (!s.forceSynthesis ==> Known(s.seen, s.executed)) &&
    forall j :: 0 <= j < |s.turns| ==> Logged(w, c, o, s.turns, j)
  }

  lemma OfferedIs(w: World, c: Settings, o: Opening, s: State)
    requires Told(w, c, o, s)
    ensures ToolsEnabled(c, s) == OfferedNext(c, s.turns)
    ensures Noticed(c, s).messages == Asking(w, c, o, s.turns, ToolsEnabled(c, s))
    ensures Noticed(c, s) == s.(messages := Noticed(c, s).messages, noticeSent := Noticed(c, s).noticeSent)
    ensures Noticed(c, s).noticeSent <==> !(AllOffered(s.turns) && ToolsEnabled(c, s))
  {
    hide Conversation, ExecutedIn, Repeats, EvidenceIn, LastErrors, Known, Logged;
  }

  // One turn more in the log.
  lemma LogMore(w: World, c: Settings, o: Opening, turns: seq<Turn>, turn: Turn)
    ensures var more := turns + [turn];
      var executed := ExecutedIn(c, turns);
      ExecutedIn(c, more) == (if Runs(c, executed, turn) then executed + CallsIn(turn) else executed) &&
      Conversation(w, c, o, more) == Asking(w, c, o, turns, turn.toolsOffered) + Block(w, c, o, turns, turn) &&
      LastErrors(w, c, o, more) ==
        (if turn.reply.Reply? && turn.reply.toolCalls == [] then ErrorsOf(w, c, o, turns, turn.reply)
         else LastErrors(w, c, o, turns)) &&
      (AllOffered(more) <==> AllOffered(turns) && turn.toolsOffered) &&
      (NoRepeat(c, more) <==> NoRepeat(c, turns) && !(turn.toolsOffered && Repeats(executed, CallsIn(turn)))) &&
      UsageOf(more) == UsageOf(turns) + (if turn.reply.Reply? then turn.reply.usage else 0)
  {
    hide Repeats, ErrorsOf, Block, Asking, CallsIn;
    var more := turns + [turn];
    assert more[..|more| - 1] == turns && more[|turns|] == turn;
    forall j | 0 <= j < |turns| ensures more[j] == turns[j] && more[..j] == turns[..j] {
    }
    if NoRepeat(c, more) {
      forall j | 0 <= j < |turns|
        ensures !(turns[j].toolsOffered && Repeats(ExecutedIn(c, turns[..j]), CallsIn(turns[j])))
      {
        assert more[j] == turns[j] && more[..j] == turns[..j];
      }
    }
    UsageMore(turns, turn);
  }

  lemma LoggedMore(w: World, c: Settings, o: Opening, turns: seq<Turn>, turn: Turn)
    requires forall j :: 0 <= j < |turns| ==> Logged(w, c, o, turns, j)
    requires turn.reply.Reply? && turn.toolsOffered == OfferedNext(c, turns)
    requires turn.request == Fitted(Asking(w, c, o, turns, turn.toolsOffered), c.maxChars)
    requires turn.reply == w.complete(|turns|, turn.request, turn.toolsOffered)
    ensures forall j :: 0 <= j < |turns + [turn]| ==> Logged(w, c, o, turns + [turn], j)
  {
    hide OfferedNext, Fitted, Asking;
    var more := turns + [turn];
    forall j | 0 <= j < |more| ensures Logged(w, c, o, more, j) {
      if j < |turns| {
        assert more[j] == turns[j] && more[..j] == turns[..j] && Logged(w, c, o, turns, j);
      } else {
        assert more[..j] == turns && more[j] == turn;
      }
    }
  }

  // No turn but perhaps the last one ended the run.
  ghost predicate GoesOn(w: World, c: Settings, o: Opening, turns: seq<Turn>, n: int) {
    forall j :: 0 <= j < n && j < |turns| ==> !Ends(w, c, o, turns[..j], turns[j])
  }

  lemma GoesOnMore(w: World, c: Settings, o: Opening, turns: seq<Turn>, turn: Turn)
    requires GoesOn(w, c, o, turns, |turns|)
    ensures GoesOn(w, c, o, turns + [turn], |turns|)
    ensures !Ends(w, c, o, turns, turn) ==> GoesOn(w, c, o, turns + [turn], |turns| + 1)
  {
    hide Ends;
    var more := turns + [turn];
    forall j | 0 <= j < |turns| ensures more[j] == turns[j] && more[..j] == turns[..j] {
    }
    assert more[|turns|] == turn && more[..|turns|] == turns;
  }

  ghost predicate Finished(w: World, c: Settings, o: Opening, outcome: Outcome, s: State) {
    (forall j :: 0 <= j < |s.turns| ==> Logged(w, c, o, s.turns, j)) &&
    GoesOn(w, c, o, s.turns, |s.turns| - 1) && Concludes(w, c, o, s.turns, outcome) &&
    s.executed == ExecutedIn(c, s.turns) && s.evidence == EvidenceIn(w, c, o, s.turns) && s.usage == UsageOf(s.turns) &&
    s.messages == if outcome.ClientFailed? then Asking(w, c, o, s.turns, OfferedNext(c, s.turns))
                  else Conversation(w, c, o, s.turns)
  }

  // The state after the reply came, before it is looked at.
  ghost predicate Heard(w: World, c: Settings, o: Opening, before: State, turn: Turn, s: State) {
    Told(w, c, o, before) && GoesOn(w, c, o, before.turns, |before.turns|) && turn.reply.Reply? &&
    turn.toolsOffered == OfferedNext(c, before.turns) &&
    turn.request == Fitted(Asking(w, c, o, before.turns, turn.toolsOffered), c.maxChars) &&
    turn.reply == w.complete(|before.turns|, turn.request, turn.toolsOffered) &&
    s == before.(messages := Asking(w, c, o, before.turns, turn.toolsOffered),
                 noticeSent := !(AllOffered(before.turns) && turn.toolsOffered),
                 turns := before.turns + [turn], usage := before.usage + turn.reply.usage)
  }

  ghost predicate Went(w: World, c: Settings, o: Opening, before: State, turn: Turn, p: Progress) {
    p.state.turns == before.turns + [turn] &&
    if p.Continue? then Told(w, c, o, p.state) && GoesOn(w, c, o, p.state.turns, |p.state.turns|)
    else Finished(w, c, o, p.outcome, p.state)
  }

  lemma CandidateTold(w: World, c: Settings, o: Opening, before: State, turn: Turn, s: State)
    requires Heard(w, c, o, before, turn, s) && turn.reply.toolCalls == []
    ensures Went(w, c, o, before, turn, OnCandidate(w, s, turn.reply))
  {
    hide Conversation, ExecutedIn, Repeats, LastErrors, Known, Logged, Asking, AllOffered, NoRepeat, Fitted, PyStrip;
    hide OfferedNext, UsageOf, FoundBy, GoesOn;
    LogMore(w, c, o, before.turns, turn);
    LoggedMore(w, c, o, before.turns, turn);
    GoesOnMore(w, c, o, before.turns, turn);
    var more := before.turns + [turn];
    assert more[..|more| - 1] == before.turns && more[|more| - 1] == turn;
    assert CallsIn(turn) == [];
    NoCallsRun(c, before, turn);
    assert ExecutedIn(c, more) == before.executed;
  }

  lemma NoCallsRun(c: Settings, s: State, turn: Turn)
    requires CallsIn(turn) == []
    ensures !Repeats(s.executed, CallsIn(turn)) && s.executed + CallsIn(turn) == s.executed
  {
  }

  lemma CallsTold(w: World, c: Settings, o: Opening, before: State, turn: Turn, s: State)
    requires Heard(w, c, o, before, turn, s) && turn.reply.toolCalls != []
    ensures Went(w, c, o, before, turn, OnCalls(w, c, s, turn.reply, turn.toolsOffered))
  {
    hide Conversation, ExecutedIn, Repeats, LastErrors, Known, Logged, Asking, AllOffered, NoRepeat, Fitted;
    hide OfferedNext, UsageOf, FoundBy, GoesOn, RunCalls, FreshCalls, Keys, EvidenceIn;
    LogMore(w, c, o, before.turns, turn);
    LoggedMore(w, c, o, before.turns, turn);
    GoesOnMore(w, c, o, before.turns, turn);
    var more, calls := before.turns + [turn], turn.reply.toolCalls;
    assert more[..|more| - 1] == before.turns && more[|more| - 1] == turn;
    assert CallsIn(turn) == calls;
    SameEvidence(w, c, o, before.turns, more);
    if turn.toolsOffered {
      OfferedQuiet(c, before.turns);
      FreshOrRepeats(before.executed, calls, before.seen);
      if FreshCalls(calls, s.seen) == |calls| && |s.executed| + |calls| <= c.maxToolCalls {
        CallsRun(w, c, o, before, turn, s);
      }
    }
  }

  lemma OfferedQuiet(c: Settings, turns: seq<Turn>)
    requires OfferedNext(c, turns)
    ensures NoRepeat(c, turns)
  {
  }

  lemma SameEvidence(w: World, c: Settings, o: Opening, turns: seq<Turn>, more: seq<Turn>)
    ensures ExecutedIn(c, more) == ExecutedIn(c, turns) ==> EvidenceIn(w, c, o, more) == EvidenceIn(w, c, o, turns)
  {
  }

  lemma CallsRun(w: World, c: Settings, o: Opening, before: State, turn: Turn, s: State)
    requires Heard(w, c, o, before, turn, s) && turn.toolsOffered && turn.reply.toolCalls != []
    requires !Repeats(s.executed, turn.reply.toolCalls) && |s.executed| + |turn.reply.toolCalls| <= c.maxToolCalls
    ensures var calls := turn.reply.toolCalls;
      var r := RunCalls(w, calls, s.(seen := s.seen + Keys(calls, |calls|), messages := s.messages + [AssistantMessage(turn.reply)]));
      var more := before.turns + [turn];
      r == s.(seen := s.seen + Keys(calls, |calls|), messages := Conversation(w, c, o, more),
              executed := ExecutedIn(c, more), evidence := EvidenceIn(w, c, o, more))
  {
    hide Conversation, ExecutedIn, Repeats, LastErrors, Known, Logged, Asking, AllOffered, NoRepeat, Fitted;
    hide OfferedNext, UsageOf, FoundBy, GoesOn, RunCalls, Keys;
    var calls, more := turn.reply.toolCalls, before.turns + [turn];
    var s1 := s.(seen := s.seen + Keys(calls, |calls|), messages := s.messages + [AssistantMessage(turn.reply)]);
    LogMore(w, c, o, before.turns, turn);
    RunTells(w, calls, s1);
    RunKeeps(w, calls, s1);
    RunFinds(w, calls, s1, o.evidence);
    assert s.messages + [AssistantMessage(turn.reply)] + ToolMessages(w, calls, |s.executed|) ==
           s.messages + ([AssistantMessage(turn.reply)] + ToolMessages(w, calls, |s.executed|));
  }

  lemma StepTold(w: World, c: Settings, o: Opening, s: State)
    requires Told(w, c, o, s) && GoesOn(w, c, o, s.turns, |s.turns|) && |s.turns| < c.maxSteps
    ensures var p := Step(w, c, s);
      if p.Continue? then Told(w, c, o, p.state) && GoesOn(w, c, o, p.state.turns, |p.state.turns|)
      else Finished(w, c, o, p.outcome, p.state)
  {
    hide Conversation, ExecutedIn, Repeats, LastErrors, Known, Logged, Asking, AllOffered, NoRepeat, Fitted;
    hide OfferedNext, UsageOf, FoundBy, GoesOn, OnCalls, OnCandidate, EvidenceIn, ToolsEnabled, Noticed;
    OfferedIs(w, c, o, s);
    var turn := Asked(w, c, s);
    if turn.reply.Reply? {
      var s1 := Noticed(c, s).(turns := s.turns + [turn], usage := s.usage + turn.reply.usage);
      assert Heard(w, c, o, s, turn, s1);
      if turn.reply.toolCalls == [] {
        CandidateTold(w, c, o, s, turn, s1);
      } else {
        CallsTold(w, c, o, s, turn, s1);
      }
    } else {
      LastGoesOn(w, c, o, s.turns);
    }
  }

  lemma LastGoesOn(w: World, c: Settings, o: Opening, turns: seq<Turn>)
    requires GoesOn(w, c, o, turns, |turns|)
    ensures GoesOn(w, c, o, turns, |turns| - 1)
    ensures turns != [] ==> !Ends(w, c, o, turns[..|turns| - 1], turns[|turns| - 1])
  {
  }

  lemma {:induction false} RunTold(w: World, c: Settings, o: Opening, s: State)
    requires Told(w, c, o, s) && GoesOn(w, c, o, s.turns, |s.turns|)
    ensures var (outcome, last) := Play(w, c, s); Finished(w, c, o, outcome, last)
    decreases c.maxSteps - |s.turns|
  {
    hide Step, Told, GoesOn, Finished;
    PlayStep(w, c, s);
    if |s.turns| < c.maxSteps {
      StepTold(w, c, o, s);
      if Step(w, c, s).Continue? {
        RunTold(w, c, o, Step(w, c, s).state);
      }
    } else {
      OutOfSteps(w, c, o, s);
    }
  }

  lemma OutOfSteps(w: World, c: Settings, o: Opening, s: State)
    requires Told(w, c, o, s) && GoesOn(w, c, o, s.turns, |s.turns|) && |s.turns| >= c.maxSteps
    ensures Finished(w, c, o, if s.lastErrors != [] then InvalidPlan(s.lastErrors) else ToolLimitExceeded, s)
  {
    hide Conversation, ExecutedIn, Repeats, LastErrors, Logged, Asking, OfferedNext, UsageOf, FoundBy, GoesOn, Ends;
    LastGoesOn(w, c, o, s.turns);
  }

  // Every run is explained by its log: each request is the fitted conversation of that moment and
  // is answered by the model, tools are offered exactly as the rules say, the conversation holds
  // what was answered, what the tools returned, the feedback and the notices, in order, and the
  // run stops at the first turn that ends it, with the outcome of that turn.
  lemma LogExplains(w: World, c: Settings, o: Opening)
    ensures var (outcome, last) := Play(w, c, Start(o.system, o.prompt, o.evidence)); Finished(w, c, o, outcome, last)
  {
    RunTold(w, c, o, Start(o.system, o.prompt, o.evidence));
  }
}
