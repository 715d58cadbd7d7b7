// What every run of the agent loop keeps, whatever the model, the tools and the validator do.
module AgentLoopTheorems {
  import opened Collections
  import opened Text
  import opened ContextFit
  import opened AgentLoop

  // ------------------------------------------------------------ the tool budget

  function UsageOf(turns: seq<Turn>): nat {
    if turns == [] then 0
    else
      var last := turns[|turns| - 1];
      UsageOf(turns[..|turns| - 1]) + if last.reply.Reply? then last.reply.usage else 0
  }

  function CallsIn(turn: Turn): seq<ToolCall> {
    if turn.reply.Reply? then turn.reply.toolCalls else []
  }

  // All the calls asked for in the first n turns.
  function CallsOf(turns: seq<Turn>, n: nat): seq<ToolCall>
    requires n <= |turns|
  {
    if n == 0 then [] else CallsOf(turns, n - 1) + CallsIn(turns[n - 1])
  }

  // Tools are offered in the first n turns and in no other.
  ghost predicate Offered(turns: seq<Turn>, n: nat) {
    n <= |turns| && forall j :: 0 <= j < |turns| ==> (turns[j].toolsOffered <==> j < n)
  }

  ghost predicate DistinctKeys(calls: seq<ToolCall>) {
    forall i, j :: 0 <= i < j < |calls| ==> Key(calls[i]) != Key(calls[j])
  }

  ghost predicate AllSeen(calls: seq<ToolCall>, seen: set<string>) {
    forall i :: 0 <= i < |calls| ==> Key(calls[i]) in seen
  }

  // How many turns may offer tools.
  function ToolSteps(c: Settings): nat {
    Max(0, c.maxSteps - Reserved(c))
  }

  // Tools were offered in the first n turns, the calls of the first m of them were executed
  // and no others.  m falls behind n only by one turn, whose calls were refused.
  ghost predicate Budgeted(c: Settings, s: State, n: nat, m: nat) {
    Offered(s.turns, n) && n <= ToolSteps(c) && (s.turns != [] && c.maxSteps > 0 ==> n > 0) &&
    (m == n || m == n - 1) && s.executed == CallsOf(s.turns, m) &&
    |s.executed| <= Max(0, c.maxToolCalls) && DistinctKeys(s.executed)
  }

  ghost predicate Tooling(c: Settings, s: State, n: nat) {
    AllSeen(s.executed, s.seen) &&
    if s.forceSynthesis then n > 0 && Budgeted(c, s, n, n - 1)
    else Budgeted(c, s, n, n) && n == Min(|s.turns|, ToolSteps(c))
  }

  lemma {:induction false} FreshAreNew(calls: seq<ToolCall>, seen: set<string>, i: nat)
    requires i <= |calls| && FreshFrom(calls, seen, i) == |calls|
    ensures forall j :: i <= j < |calls| ==> Key(calls[j]) !in seen
    ensures forall j, k :: i <= j < k < |calls| ==> Key(calls[j]) != Key(calls[k])
    decreases |calls| - i
  {
    hide Key;
    if i < |calls| {
      var more := seen + {Key(calls[i])};
      FreshAreNew(calls, more, i + 1);
      forall j | i < j < |calls| ensures Key(calls[j]) != Key(calls[i]) && Key(calls[j]) !in seen {
        assert Key(calls[j]) !in more;
      }
    }
  }

  lemma {:induction false} KeysCover(calls: seq<ToolCall>, n: nat)
    requires n <= |calls|
    ensures forall j :: 0 <= j < n ==> Key(calls[j]) in Keys(calls, n)
  {
    hide Key;
    if n > 0 {
      KeysCover(calls, n - 1);
    }
  }

  // Fresh calls may join the ones executed before.
  lemma FreshJoin(executed: seq<ToolCall>, calls: seq<ToolCall>, seen: set<string>)
    requires DistinctKeys(executed) && AllSeen(executed, seen) && FreshCalls(calls, seen) == |calls|
    ensures DistinctKeys(executed + calls) && AllSeen(executed + calls, seen + Keys(calls, |calls|))
  {
    hide Key;
    FreshAreNew(calls, seen, 0);
    KeysCover(calls, |calls|);
    forall i, j | 0 <= i < j < |executed + calls|
      ensures Key((executed + calls)[i]) != Key((executed + calls)[j])
    {
      if i < |executed| <= j {
        assert Key(executed[i]) in seen;
        assert Key(calls[j - |executed|]) !in seen;
      }
    }
  }

  lemma OfferedMore(turns: seq<Turn>, n: nat, turn: Turn)
    requires Offered(turns, n)
    ensures n <= |turns|
    ensures turn.toolsOffered && n == |turns| ==> Offered(turns + [turn], n + 1)
    ensures !turn.toolsOffered ==> Offered(turns + [turn], n)
  {
  }

  lemma {:induction false} CallsOfMore(turns: seq<Turn>, n: nat, turn: Turn)
    requires n <= |turns|
    ensures CallsOf(turns + [turn], n) == CallsOf(turns, n)
    ensures n == |turns| ==> CallsOf(turns + [turn], n + 1) == CallsOf(turns, n) + CallsIn(turn)
  {
    if n > 0 {
      CallsOfMore(turns, n - 1, turn);
      assert (turns + [turn])[n - 1] == turns[n - 1];
      if n == |turns| {
        assert (turns + [turn])[n] == turn;
      }
    }
  }

  // One step keeps the tool budget; a refused reply counts as offered but not executed.
  lemma ToolStep(w: World, c: Settings, s: State, n: nat) returns (n': nat)
    requires Tooling(c, s, n) && |s.turns| < c.maxSteps
    ensures Step(w, c, s).Continue? ==> Tooling(c, Step(w, c, s).state, n')
    ensures Step(w, c, s).Done? ==>
      Budgeted(c, Step(w, c, s).state, n', n') || (n' > 0 && Budgeted(c, Step(w, c, s).state, n', n' - 1))
  {
    hide Fitted, PyStrip, AssistantMessage, UserMessage, Key, Keys, FreshCalls, RunCalls, Offered, CallsOf;
    hide DistinctKeys, AllSeen;
    var turn := Asked(w, c, s);
    n' := if turn.reply.Reply? && turn.toolsOffered then n + 1 else n;
    OfferedMore(s.turns, n, turn);
    CallsOfMore(s.turns, n, turn);
    if n > 0 {
      CallsOfMore(s.turns, n - 1, turn);
    }
    StepTurns(w, c, s);
    if turn.reply.Reply? && turn.toolsOffered && turn.reply.toolCalls != [] {
      var calls := turn.reply.toolCalls;
      var s1 := s.(turns := s.turns + [turn], usage := s.usage + turn.reply.usage);
      var s2 := s1.(seen := s1.seen + Keys(calls, FreshCalls(calls, s1.seen)));
      RunKeeps(w, calls, s2.(messages := s2.messages + [AssistantMessage(turn.reply)]));
      if FreshCalls(calls, s.seen) == |calls| {
        FreshJoin(s.executed, calls, s.seen);
      } else {
        MoreSeen(s.executed, s.seen, Keys(calls, FreshCalls(calls, s.seen)));
      }
    }
  }

  lemma MoreSeen(calls: seq<ToolCall>, seen: set<string>, more: set<string>)
    requires AllSeen(calls, seen)
    ensures AllSeen(calls, seen + more)
  {
  }

  // Over a whole run at most maxToolCalls calls are executed, no two with the same key.  They
  // are the calls of the first m turns; tools were offered in the first n turns only, none of
  // them among the reserved final steps, and every turn but perhaps the n-th had its calls run.
  lemma {:induction false} RunToolBudget(w: World, c: Settings, s: State, n: nat) returns (n': nat, m: nat)
    requires Tooling(c, s, n)
    ensures Budgeted(c, Play(w, c, s).1, n', m)
    decreases c.maxSteps - |s.turns|
  {
    hide Step, Budgeted;
    PlayStep(w, c, s);
    if |s.turns| >= c.maxSteps {
      n', m := n, if s.forceSynthesis then n - 1 else n;
    } else {
      var k := ToolStep(w, c, s, n);
      var p := Step(w, c, s);
      if p.Continue? {
        n', m := RunToolBudget(w, c, p.state, k);
      } else {
        n', m := k, if Budgeted(c, p.state, k, k) then k else k - 1;
      }
    }
  }

  lemma ToolBudget(w: World, c: Settings, system: string, prompt: string,
                   evidence: set<string>) returns (n: nat, m: nat)
    ensures Budgeted(c, Play(w, c, Start(system, prompt, evidence)).1, n, m)
  {
    n, m := RunToolBudget(w, c, Start(system, prompt, evidence), 0);
  }

  // The reserved steps exist when the settings ask for them and there are steps to spare.
  lemma ReservedSteps(c: Settings)
    ensures c.maxSteps > 0 ==> 0 < ToolSteps(c) <= c.maxSteps
    ensures c.maxSteps > c.synthesisReservedSteps >= 0 ==> ToolSteps(c) + c.synthesisReservedSteps == c.maxSteps
  {
  }

  // ------------------------------------------------------------ counting and evidence

  // The paths that the first n calls brought.
  ghost function FoundBy(w: World, calls: seq<ToolCall>, n: nat): set<string>
    requires n <= |calls|
  {
    if n == 0 then {} else FoundBy(w, calls, n - 1) + w.execute(n - 1, calls[n - 1]).found
  }

  ghost predicate Counted(w: World, c: Settings, evidence: set<string>, s: State) {
    |s.turns| <= Max(0, c.maxSteps) && s.usage == UsageOf(s.turns) &&
    s.evidence == evidence + FoundBy(w, s.executed, |s.executed|)
  }

  lemma {:induction false} FoundMore(w: World, calls: seq<ToolCall>, n: nat, call: ToolCall)
    requires n <= |calls|
    ensures FoundBy(w, calls + [call], n) == FoundBy(w, calls, n)
  {
    if n > 0 {
      FoundMore(w, calls, n - 1, call);
    }
  }

  lemma {:induction false} RunFinds(w: World, calls: seq<ToolCall>, s: State, evidence: set<string>)
    requires s.evidence == evidence + FoundBy(w, s.executed, |s.executed|)
    ensures var r := RunCalls(w, calls, s);
      r.evidence == evidence + FoundBy(w, r.executed, |r.executed|)
  {
    hide ToolMessage;
    if calls != [] {
      var before := RunCalls(w, calls[..|calls| - 1], s);
      RunFinds(w, calls[..|calls| - 1], s, evidence);
      FoundMore(w, before.executed, |before.executed|, calls[|calls| - 1]);
    }
  }

  lemma UsageMore(turns: seq<Turn>, turn: Turn)
    ensures UsageOf(turns + [turn]) == UsageOf(turns) + if turn.reply.Reply? then turn.reply.usage else 0
  {
    assert (turns + [turn])[..|turns|] == turns;
  }

  lemma CountStep(w: World, c: Settings, evidence: set<string>, s: State)
    requires Counted(w, c, evidence, s) && |s.turns| < c.maxSteps
    ensures Counted(w, c, evidence, Step(w, c, s).state)
  {
    hide Fitted, PyStrip, AssistantMessage, UserMessage, Keys, FreshCalls, RunCalls, UsageOf, FoundBy;
    var turn := Asked(w, c, s);
    StepTurns(w, c, s);
    UsageMore(s.turns, turn);
    if turn.reply.Reply? && turn.toolsOffered {
      var calls := turn.reply.toolCalls;
      var s1 := Noticed(c, s).(turns := s.turns + [turn], usage := s.usage + turn.reply.usage);
      var s2 := s1.(seen := s1.seen + Keys(calls, FreshCalls(calls, s1.seen)));
      var s3 := s2.(messages := s2.messages + [AssistantMessage(turn.reply)]);
      RunKeeps(w, calls, s3);
      RunFinds(w, calls, s3, evidence);
    }
  }

  // What a finished run reports: a plan is the stripped text of the last reply, without tool
  // calls, and the validator finds no error in it against the evidence of that moment.
  ghost predicate Explained(w: World, c: Settings, outcome: Outcome, s: State) {
    match outcome
    case Plan(plan, usage, toolCalls) =>
      s.turns != [] && usage == UsageOf(s.turns) && toolCalls == |s.executed| && w.errors(plan, s.evidence) == [] &&
      var reply := s.turns[|s.turns| - 1].reply;
      reply.Reply? && reply.toolCalls == [] && plan == PyStrip(reply.content)
    case InvalidPlan(errors) => |s.turns| >= c.maxSteps && errors != []
    case ToolLimitExceeded =>
      |s.turns| >= c.maxSteps ||
      (s.turns != [] && |s.executed| + |CallsIn(s.turns[|s.turns| - 1])| > c.maxToolCalls)
    case ClientFailed => true
  }

  lemma StepExplained(w: World, c: Settings, evidence: set<string>, s: State)
    requires Counted(w, c, evidence, s) && |s.turns| < c.maxSteps
    ensures Step(w, c, s).Done? ==> Explained(w, c, Step(w, c, s).outcome, Step(w, c, s).state)
  {
    hide Fitted, PyStrip, AssistantMessage, UserMessage, Keys, FreshCalls, RunCalls, UsageOf, FoundBy;
    UsageMore(s.turns, Asked(w, c, s));
  }

  // At most maxSteps replies are asked for, the usage is their sum, the evidence is what the
  // sources and the executed calls brought, and the outcome is explained.
  lemma {:induction false} RunExplained(w: World, c: Settings, evidence: set<string>, s: State)
    requires Counted(w, c, evidence, s)
    ensures var (outcome, last) := Play(w, c, s);
      Counted(w, c, evidence, last) && Explained(w, c, outcome, last)
    decreases c.maxSteps - |s.turns|
  {
    hide Step, Counted;
    PlayStep(w, c, s);
    if |s.turns| < c.maxSteps {
      CountStep(w, c, evidence, s);
      StepExplained(w, c, evidence, s);
      if Step(w, c, s).Continue? {
        RunExplained(w, c, evidence, Step(w, c, s).state);
      }
    }
  }

  lemma OutcomeExplained(w: World, c: Settings, system: string, prompt: string, evidence: set<string>)
    ensures var (outcome, last) := Play(w, c, Start(system, prompt, evidence));
      Counted(w, c, evidence, last) && Explained(w, c, outcome, last)
  {
    RunExplained(w, c, evidence, Start(system, prompt, evidence));
  }

  // ------------------------------------------------------------ the conversation

  ghost predicate Answered(messages: seq<Message>, calls: seq<ToolCall>) {
    |calls| <= |messages| &&
    forall k :: 0 <= k < |calls| ==> messages[k].role == Tool(calls[k].id, calls[k].name) && messages[k].calls == []
  }

  // Every assistant message that asks for tools is followed by one tool message for each call,
  // in order, and there are no other tool messages.
  ghost predicate Paired(messages: seq<Message>) {
    messages == [] || (HeadAnswered(messages) && Paired(messages[1 + |messages[0].calls|..]))
  }

  ghost predicate HeadAnswered(messages: seq<Message>)
    requires messages != []
  {
    !messages[0].role.Tool? && (messages[0].calls != [] ==> messages[0].role == Assistant) &&
    Answered(messages[1..], messages[0].calls)
  }

  lemma PairedIs(messages: seq<Message>)
    ensures messages == [] ==> Paired(messages)
    ensures messages != [] && HeadAnswered(messages) ==> 1 + |messages[0].calls| <= |messages|
    ensures messages != [] && HeadAnswered(messages) && Paired(messages[1 + |messages[0].calls|..]) ==> Paired(messages)
    ensures messages != [] && Paired(messages) ==>
      HeadAnswered(messages) && Paired(messages[1 + |messages[0].calls|..])
  {
  }

  lemma {:induction false} PairedJoin(a: seq<Message>, b: seq<Message>)
    requires Paired(a) && Paired(b)
    ensures Paired(a + b)
    decreases |a|
  {
    hide Answered, Paired;
    PairedIs(a);
    PairedIs(a + b);
    if a == [] {
      assert a + b == b;
    } else {
      var n := 1 + |a[0].calls|;
      AnsweredMore(a[1..], b, a[0].calls);
      PairedJoin(a[n..], b);
      assert (a + b)[n..] == a[n..] + b;
      assert (a + b)[1..] == a[1..] + b;
    }
  }

  lemma AnsweredMore(a: seq<Message>, b: seq<Message>, calls: seq<ToolCall>)
    requires Answered(a, calls)
    ensures |calls| <= |a| && Answered(a + b, calls)
  {
  }

  // Fitting the messages to the context keeps them paired.
  lemma {:induction false} PairedAlike(a: seq<Message>, b: seq<Message>)
    requires |a| == |b| && Paired(a)
    requires forall i :: 0 <= i < |a| ==> a[i].role == b[i].role && a[i].calls == b[i].calls
    ensures Paired(b)
    decreases |a|
  {
    if a != [] {
      var n := 1 + |a[0].calls|;
      assert Answered(a[1..], a[0].calls);
      assert Answered(b[1..], b[0].calls) by {
        forall k | 0 <= k < |b[0].calls|
          ensures b[1..][k].role == a[1..][k].role && b[1..][k].calls == a[1..][k].calls
        {
        }
      }
      PairedAlike(a[n..], b[n..]);
    }
  }

  lemma {:induction false} RequestPaired(messages: seq<Message>, maxChars: nat)
    requires Paired(messages)
    ensures Paired(Fitted(messages, maxChars))
  {
    forall i | 0 <= i < |messages|
      ensures messages[i].role == Fitted(messages, maxChars)[i].role
           && messages[i].calls == Fitted(messages, maxChars)[i].calls
    {
      FittedSizes(messages, maxChars, i);
    }
    PairedAlike(messages, Fitted(messages, maxChars));
  }

  lemma {:induction false} RunAnswers(w: World, calls: seq<ToolCall>, s: State) returns (tools: seq<Message>)
    ensures RunCalls(w, calls, s).messages == s.messages + tools
    ensures |tools| == |calls| && Answered(tools, calls)
  {
    if calls == [] {
      tools := [];
    } else {
      var init := RunAnswers(w, calls[..|calls| - 1], s);
      var before, call := RunCalls(w, calls[..|calls| - 1], s), calls[|calls| - 1];
      tools := init + [ToolMessage(call, w.execute(|before.executed|, call).text)];
      assert RunCalls(w, calls, s).messages == s.messages + tools;
    }
  }

  lemma BlockPaired(message: Message, tools: seq<Message>)
    requires message.role == Assistant && |tools| == |message.calls| && Answered(tools, message.calls)
    ensures Paired([message] + tools)
  {
    assert ([message] + tools)[1..] == tools;
    assert ([message] + tools)[1 + |tools|..] == [];
  }

  lemma PlainPaired(message: Message)
    requires !message.role.Tool? && message.calls == []
    ensures Paired([message])
  {
  }

  // Every request was paired, and a request without tools carries the notice, uncut.
  ghost predicate WellFormed(s: State) {
    Paired(s.messages) && (s.noticeSent ==> DISABLED in s.messages) &&
    forall j :: 0 <= j < |s.turns| ==> RequestOk(s.turns[j])
  }

  ghost predicate RequestOk(turn: Turn) {
    Paired(turn.request) && (turn.toolsOffered || DISABLED in turn.request)
  }

  lemma NoticeUncut(messages: seq<Message>, maxChars: nat)
    requires DISABLED in messages
    ensures DISABLED in Fitted(messages, maxChars)
  {
    var i :| 0 <= i < |messages| && messages[i] == DISABLED;
    FittedSizes(messages, maxChars, i);
    assert |ContentOf(DISABLED)| <= 512;
    assert Fitted(messages, maxChars)[i] == DISABLED;
  }

  lemma NoticedWell(c: Settings, s: State)
    requires WellFormed(s)
    ensures WellFormed(Noticed(c, s))
    ensures !ToolsEnabled(c, s) ==> DISABLED in Noticed(c, s).messages
  {
    hide Paired;
    PlainPaired(DISABLED);
    PairedJoin(s.messages, [DISABLED]);
  }

  lemma {:induction false} AskedWell(w: World, c: Settings, s: State)
    requires WellFormed(s)
    ensures RequestOk(Asked(w, c, s))
  {
    hide Paired, Fitted;
    NoticedWell(c, s);
    RequestPaired(Noticed(c, s).messages, c.maxChars);
    if !ToolsEnabled(c, s) {
      NoticeUncut(Noticed(c, s).messages, c.maxChars);
    }
  }

  lemma SaidMore(s: State, more: seq<Message>)
    requires WellFormed(s) && Paired(more)
    ensures WellFormed(s.(messages := s.messages + more))
  {
    hide Paired, RequestOk;
    PairedJoin(s.messages, more);
  }

  lemma CallsWell(w: World, c: Settings, s: State, reply: Reply, enabled: bool)
    requires WellFormed(s) && reply.Reply?
    ensures WellFormed(OnCalls(w, c, s, reply, enabled).state)
  {
    hide Paired, Keys, FreshCalls, RunCalls, RequestOk, Answered;
    PlainPaired(NOT_AVAILABLE);
    PlainPaired(REPEATED);
    SaidMore(s, [NOT_AVAILABLE]);
    SaidMore(s, [REPEATED]);
    var calls := reply.toolCalls;
    var s1 := s.(seen := s.seen + Keys(calls, FreshCalls(calls, s.seen)));
    var s2 := s1.(messages := s.messages + [AssistantMessage(reply)]);
    RunKeeps(w, calls, s2);
    var tools := RunAnswers(w, calls, s2);
    BlockPaired(AssistantMessage(reply), tools);
    SaidMore(s, [AssistantMessage(reply)] + tools);
    assert s.messages + ([AssistantMessage(reply)] + tools) == s2.messages + tools;
  }

  lemma CandidateWell(w: World, s: State, reply: Reply)
    requires WellFormed(s) && reply.Reply?
    ensures WellFormed(OnCandidate(w, s, reply).state)
  {
    hide Paired, RequestOk;
    var candidate := PyStrip(reply.content);
    var errors := w.errors(candidate, s.evidence);
    var answer, feedback := Message(Assistant, Some(candidate), []), UserMessage(w.feedback(errors));
    PlainPaired(answer);
    PlainPaired(feedback);
    PairedJoin([answer], [feedback]);
    assert [answer] + [feedback] == [answer, feedback];
    SaidMore(s, [answer, feedback]);
  }

  lemma StepWell(w: World, c: Settings, s: State)
    requires WellFormed(s)
    ensures WellFormed(Step(w, c, s).state)
  {
    hide Paired, OnCalls, OnCandidate, Asked, RequestOk;
    NoticedWell(c, s);
    AskedWell(w, c, s);
    var turn := Asked(w, c, s);
    if turn.reply.Reply? {
      var s1 := Noticed(c, s).(turns := s.turns + [turn], usage := s.usage + turn.reply.usage);
      assert WellFormed(s1);
      CallsWell(w, c, s1, turn.reply, turn.toolsOffered);
      CandidateWell(w, s1, turn.reply);
    }
  }

  lemma {:induction false} RunWell(w: World, c: Settings, s: State)
    requires WellFormed(s)
    ensures WellFormed(Play(w, c, s).1)
    decreases c.maxSteps - |s.turns|
  {
    hide Step, WellFormed;
    PlayStep(w, c, s);
    if |s.turns| < c.maxSteps {
      StepWell(w, c, s);
      if Step(w, c, s).Continue? {
        RunWell(w, c, Step(w, c, s).state);
      }
    }
  }

  lemma ConversationWellFormed(w: World, c: Settings, system: string, prompt: string, evidence: set<string>)
    ensures WellFormed(Play(w, c, Start(system, prompt, evidence)).1)
  {
    var start := Start(system, prompt, evidence);
    PlainPaired(start.messages[0]);
    PlainPaired(start.messages[1]);
    PairedJoin([start.messages[0]], [start.messages[1]]);
    assert start.messages == [start.messages[0]] + [start.messages[1]];
    RunWell(w, c, start);
  }

  // ------------------------------------------------------------ what the tools said

  ghost function ToolsIn(messages: seq<Message>): seq<Message> {
    if messages == [] then []
    else
      var last := messages[|messages| - 1];
      ToolsIn(messages[..|messages| - 1]) + if last.role.Tool? then [last] else []
  }

  // The k-th tool message answers the k-th executed call, with the text its execution brought.
  ghost predicate Shown(w: World, s: State) {
    |ToolsIn(s.messages)| == |s.executed| &&
    forall k :: 0 <= k < |s.executed| ==>
      ToolsIn(s.messages)[k].role == Tool(s.executed[k].id, s.executed[k].name) &&
      ToolsIn(s.messages)[k].content == Some(w.execute(k, s.executed[k]).text)
  }

  lemma ToolsMore(messages: seq<Message>, m: Message)
    ensures ToolsIn(messages + [m]) == ToolsIn(messages) + if m.role.Tool? then [m] else []
  {
    assert (messages + [m])[..|messages|] == messages;
  }

  lemma {:induction false} RunShows(w: World, calls: seq<ToolCall>, s: State)
    requires Shown(w, s)
    ensures Shown(w, RunCalls(w, calls, s))
  {
    hide ToolsIn;
    if calls != [] {
      var before, call := RunCalls(w, calls[..|calls| - 1], s), calls[|calls| - 1];
      RunShows(w, calls[..|calls| - 1], s);
      ToolsMore(before.messages, ToolMessage(call, w.execute(|before.executed|, call).text));
    }
  }

  lemma SaidPlain(w: World, s: State, m: Message)
    requires Shown(w, s) && !m.role.Tool?
    ensures Shown(w, s.(messages := s.messages + [m]))
  {
    hide ToolsIn;
    ToolsMore(s.messages, m);
  }

  lemma ShownAlike(w: World, s: State, t: State)
    requires Shown(w, s) && s.messages == t.messages && s.executed == t.executed
    ensures Shown(w, t)
  {
  }

  lemma StepShows(w: World, c: Settings, s: State)
    requires Shown(w, s)
    ensures Shown(w, Step(w, c, s).state)
  {
    hide Shown, RunCalls, FreshCalls, Fitted, Keys, PyStrip;
    SaidPlain(w, s, DISABLED);
    ShownAlike(w, s.(messages := s.messages + [DISABLED]), s.(messages := s.messages + [DISABLED], noticeSent := true));
    var noticed, turn := Noticed(c, s), Asked(w, c, s);
    assert Shown(w, noticed);
    if turn.reply.Reply? {
      var s1 := noticed.(turns := s.turns + [turn], usage := s.usage + turn.reply.usage);
      ShownAlike(w, noticed, s1);
      CallsShow(w, c, s1, turn.reply, turn.toolsOffered);
      CandidateShows(w, s1, turn.reply);
    }
  }

  lemma CallsShow(w: World, c: Settings, s: State, reply: Reply, enabled: bool)
    requires Shown(w, s) && reply.Reply?
    ensures Shown(w, OnCalls(w, c, s, reply, enabled).state)
  {
    hide Shown, RunCalls, FreshCalls, Keys;
    SaidPlain(w, s, NOT_AVAILABLE);
    SaidPlain(w, s, REPEATED);
    SaidPlain(w, s, AssistantMessage(reply));
    var s1 := s.(seen := s.seen + Keys(reply.toolCalls, FreshCalls(reply.toolCalls, s.seen)));
    var s2 := s1.(messages := s.messages + [AssistantMessage(reply)]);
    ShownAlike(w, s, s1);
    ShownAlike(w, s.(messages := s.messages + [REPEATED]), s1.(forceSynthesis := true, messages := s.messages + [REPEATED]));
    ShownAlike(w, s.(messages := s.messages + [AssistantMessage(reply)]), s2);
    RunShows(w, reply.toolCalls, s2);
  }

  lemma CandidateShows(w: World, s: State, reply: Reply)
    requires Shown(w, s) && reply.Reply?
    ensures Shown(w, OnCandidate(w, s, reply).state)
  {
    hide Shown, PyStrip;
    var candidate := PyStrip(reply.content);
    var s1 := s.(lastErrors := w.errors(candidate, s.evidence));
    var answer, feedback := Message(Assistant, Some(candidate), []), UserMessage(w.feedback(s1.lastErrors));
    ShownAlike(w, s, s1);
    SaidPlain(w, s1, answer);
    SaidPlain(w, s1.(messages := s.messages + [answer]), feedback);
    assert s.messages + [answer] + [feedback] == s.messages + [answer, feedback];
  }

  lemma {:induction false} RunShown(w: World, c: Settings, s: State)
    requires Shown(w, s)
    ensures Shown(w, Play(w, c, s).1)
    decreases c.maxSteps - |s.turns|
  {
    hide Step, Shown;
    PlayStep(w, c, s);
    if |s.turns| < c.maxSteps {
      StepShows(w, c, s);
      if Step(w, c, s).Continue? {
        RunShown(w, c, Step(w, c, s).state);
      }
    }
  }

  // Over whole runs the model is shown what the tools returned: one tool message for each
  // executed call, in order, with the text that this execution brought.
  lemma ToolOutputsShown(w: World, c: Settings, system: string, prompt: string, evidence: set<string>)
    ensures var last := Play(w, c, Start(system, prompt, evidence)).1;
      var tools := ToolsIn(last.messages);
      |tools| == |last.executed| &&
      forall k :: 0 <= k < |tools| ==>
        tools[k].role == Tool(last.executed[k].id, last.executed[k].name) &&
        tools[k].content == Some(w.execute(k, last.executed[k]).text)
  {
    var start := Start(system, prompt, evidence);
    assert start.messages == [start.messages[0]] + [start.messages[1]];
    ToolsMore([], start.messages[0]);
    ToolsMore([start.messages[0]], start.messages[1]);
    assert [] + [start.messages[0]] == [start.messages[0]];
    RunShown(w, c, start);
  }
}
