// The agent loop: a bounded conversation between a model and a read-only tool sandbox.
// The model, the tools and the validator are arbitrary functions, so every statement here
// holds for every behaviour they can show.
module AgentLoop {
  import opened Collections
  import opened Text
  import opened ContextFit

  datatype Reply = Reply(content: string, toolCalls: seq<ToolCall>, usage: nat) | Failed

  // What a tool call brings: the text for the model and the paths that become evidence.
  datatype ToolOutput = ToolOutput(text: string, found: set<string>)

  datatype World = World(
    complete: (nat, seq<Message>, bool) -> Reply,
    execute: (nat, ToolCall) -> ToolOutput,
    errors: (string, set<string>) -> seq<string>,
    feedback: seq<string> -> string)

  datatype Settings = Settings(maxSteps: int, synthesisReservedSteps: int, maxToolCalls: int, maxChars: nat)

  // One call of the model: what it was sent, whether tools were offered, what it answered.
  datatype Turn = Turn(request: seq<Message>, toolsOffered: bool, reply: Reply)

  datatype State = State(messages: seq<Message>, turns: seq<Turn>, usage: nat, executed: seq<ToolCall>,
                         seen: set<string>, evidence: set<string>, forceSynthesis: bool, noticeSent: bool,
                         lastErrors: seq<string>)

  datatype Outcome =
    | Plan(plan: string, usage: nat, toolCalls: nat)
    | InvalidPlan(errors: seq<string>)
    | ToolLimitExceeded
    | ClientFailed

  datatype Progress = Continue(state: State) | Done(outcome: Outcome, state: State)

  const DISABLED := UserMessage(
    "Tool use is now disabled. Use the repository evidence already collected in this conversation " +
    "and return the required complete Markdown implementation plan now. Do not ask for more tools.")

  const NOT_AVAILABLE := UserMessage(
    "Tool calls are not available in the synthesis phase. Return the required Markdown plan using " +
    "existing evidence only.")

  const REPEATED := UserMessage(
    "You repeated an identical tool call, so the research phase is complete. Return the required " +
    "Markdown implementation plan using the evidence already collected.")

  function UserMessage(text: string): Message {
    Message(User, Some(text), [])
  }

  function Key(call: ToolCall): string {
    call.name + ":" + call.args
  }

  // The keys of the first n calls.
  function Keys(calls: seq<ToolCall>, n: nat): set<string>
    requires n <= |calls|
  {
    if n == 0 then {} else Keys(calls, n - 1) + {Key(calls[n - 1])}
  }

  // The first call, from the i-th on, whose key was seen; |calls| when there is none.
  function FreshFrom(calls: seq<ToolCall>, seen: set<string>, i: nat): (n: nat)
    requires i <= |calls|
    ensures i <= n <= |calls|
    decreases |calls| - i
  {
    if i == |calls| || Key(calls[i]) in seen then i else FreshFrom(calls, seen + {Key(calls[i])}, i + 1)
  }

  function FreshCalls(calls: seq<ToolCall>, seen: set<string>): (n: nat)
    ensures n <= |calls|
  {
    FreshFrom(calls, seen, 0)
  }

  function Reserved(c: Settings): int {
    Min(Max(0, c.synthesisReservedSteps), Max(0, c.maxSteps - 1))
  }

  function Min(a: int, b: int): int {
    if a < b then a else b
  }

  function AssistantMessage(reply: Reply): Message
    requires reply.Reply?
  {
    Message(Assistant, if reply.content == "" then None else Some(reply.content), reply.toolCalls)
  }

  function ToolMessage(call: ToolCall, text: string): Message {
    Message(Tool(call.id, call.name), Some(text), [])
  }

  // Running the calls of one reply in order: a message for each, and the evidence they bring.
  function RunCalls(w: World, calls: seq<ToolCall>, s: State): State {
    if calls == [] then s
    else
      var before, call := RunCalls(w, calls[..|calls| - 1], s), calls[|calls| - 1];
      var output := w.execute(|before.executed|, call);
      before.(messages := before.messages + [ToolMessage(call, output.text)],
              executed := before.executed + [call],
              evidence := before.evidence + output.found)
  }

  function ToolsEnabled(c: Settings, s: State): bool {
    !s.forceSynthesis && c.maxSteps - |s.turns| > Reserved(c)
  }

  function Noticed(c: Settings, s: State): State {
    if !ToolsEnabled(c, s) && !s.noticeSent then s.(messages := s.messages + [DISABLED], noticeSent := true) else s
  }

  function Asked(w: World, c: Settings, s: State): Turn {
    var request := Fitted(Noticed(c, s).messages, c.maxChars);
    Turn(request, ToolsEnabled(c, s), w.complete(|s.turns|, request, ToolsEnabled(c, s)))
  }

  // The model asked for tools.
  function OnCalls(w: World, c: Settings, s: State, reply: Reply, enabled: bool): Progress
    requires reply.Reply?
  {
    var calls := reply.toolCalls;
    if !enabled then Continue(s.(messages := s.messages + [NOT_AVAILABLE]))
    else
      var n := FreshCalls(calls, s.seen);
      var s1 := s.(seen := s.seen + Keys(calls, n));
      if n < |calls| then Continue(s1.(forceSynthesis := true, messages := s.messages + [REPEATED]))
      else if |s.executed| + |calls| > c.maxToolCalls then Done(ToolLimitExceeded, s1)
      else Continue(RunCalls(w, calls, s1.(messages := s.messages + [AssistantMessage(reply)])))
  }

  // The model answered with a candidate plan.
  function OnCandidate(w: World, s: State, reply: Reply): Progress
    requires reply.Reply?
  {
    var candidate := PyStrip(reply.content);
    var s1 := s.(lastErrors := w.errors(candidate, s.evidence));
    if s1.lastErrors == [] then Done(Plan(candidate, s.usage, |s.executed|), s1)
    else
      Continue(s1.(messages := s.messages
                 + [Message(Assistant, Some(candidate), []), UserMessage(w.feedback(s1.lastErrors))]))
  }

  function Step(w: World, c: Settings, s: State): Progress {
    var noticed, turn := Noticed(c, s), Asked(w, c, s);
    if turn.reply.Failed? then Done(ClientFailed, noticed)
    else
      var s1 := noticed.(turns := s.turns + [turn], usage := s.usage + turn.reply.usage);
      if turn.reply.toolCalls != [] then OnCalls(w, c, s1, turn.reply, turn.toolsOffered)
      else OnCandidate(w, s1, turn.reply)
  }

  lemma StepTurns(w: World, c: Settings, s: State)
    ensures var p := Step(w, c, s);
      p.state.turns == s.turns + if p == Done(ClientFailed, Noticed(c, s)) then [] else [Asked(w, c, s)]
    ensures Step(w, c, s).Continue? ==> |Step(w, c, s).state.turns| == |s.turns| + 1
  {
    hide RunCalls, FreshCalls, Fitted, Keys, PyStrip, AssistantMessage, UserMessage;
    var turn := Asked(w, c, s);
    if turn.reply.Reply? && turn.toolsOffered {
      var s1 := Noticed(c, s).(turns := s.turns + [turn], usage := s.usage + turn.reply.usage);
      var s2 := s1.(seen := s1.seen + Keys(turn.reply.toolCalls, FreshCalls(turn.reply.toolCalls, s1.seen)));
      RunKeeps(w, turn.reply.toolCalls, s2.(messages := s2.messages + [AssistantMessage(turn.reply)]));
    }
  }

  // Only messages, calls and evidence change while tools run.
  lemma {:induction false} RunKeeps(w: World, calls: seq<ToolCall>, s: State)
    ensures var r := RunCalls(w, calls, s);
      r == s.(messages := r.messages, executed := s.executed + calls, evidence := r.evidence)
  {
    if calls != [] {
      RunKeeps(w, calls[..|calls| - 1], s);
      assert calls == calls[..|calls| - 1] + [calls[|calls| - 1]];
    }
  }

  // The steps left to take.
  function Play(w: World, c: Settings, s: State): (r: (Outcome, State))
    decreases c.maxSteps - |s.turns|
  {
    if |s.turns| >= c.maxSteps then (if s.lastErrors != [] then InvalidPlan(s.lastErrors) else ToolLimitExceeded, s)
    else
      StepTurns(w, c, s);
      match Step(w, c, s)
      case Continue(next) => Play(w, c, next)
      case Done(outcome, last) => (outcome, last)
  }

  lemma PlayStep(w: World, c: Settings, s: State)
    ensures |s.turns| >= c.maxSteps ==>
      Play(w, c, s) == (if s.lastErrors != [] then InvalidPlan(s.lastErrors) else ToolLimitExceeded, s)
    ensures |s.turns| < c.maxSteps && Step(w, c, s).Continue? ==>
      |Step(w, c, s).state.turns| == |s.turns| + 1 && Play(w, c, s) == Play(w, c, Step(w, c, s).state)
    ensures |s.turns| < c.maxSteps && Step(w, c, s).Done? ==>
      Play(w, c, s) == (Step(w, c, s).outcome, Step(w, c, s).state)
  {
    hide Step;
    StepTurns(w, c, s);
  }

  function Start(system: string, prompt: string, evidence: set<string>): State {
    State([Message(System, Some(system), []), UserMessage(prompt)], [], 0, [], {}, evidence, false, false, [])
  }

  // ------------------------------------------------------------ the loop of the source

  class AgentLoop {
    const world: World
    const settings: Settings
    var evidencePaths: set<string>

    constructor (world: World, settings: Settings, sourcePaths: set<string>)
      ensures this.world == world && this.settings == settings && evidencePaths == sourcePaths
    {
      this.world := world;
      this.settings := settings;
      evidencePaths := sourcePaths;
    }

    method Run(system: string, prompt: string) returns (outcome: Outcome, last: State)
      modifies this
      ensures (outcome, last) == Play(world, settings, Start(system, prompt, old(evidencePaths)))
      ensures evidencePaths == last.evidence
    {
      hide RunCalls, FreshCalls, Fitted, Keys, PyStrip, AssistantMessage, UserMessage, Play;
      var messages, turns := [Message(System, Some(system), []), UserMessage(prompt)], [];
      var totalUsage: nat, executed, seen := 0, [], {};
      var forceSynthesis, noticeSent, lastErrors := false, false, [];
      var reserved := Reserved(settings);
      ghost var start := Start(system, prompt, evidencePaths);
      last := Start(system, prompt, evidencePaths);
      while |turns| < settings.maxSteps
        invariant last == State(messages, turns, totalUsage, executed, seen, evidencePaths,
                                forceSynthesis, noticeSent, lastErrors)
        invariant Play(world, settings, last) == Play(world, settings, start)
        decreases settings.maxSteps - |turns|
      {
        ghost var before := last;
        PlayStep(world, settings, before);
        var toolsEnabled := !forceSynthesis && settings.maxSteps - |turns| > reserved;
        if !toolsEnabled && !noticeSent {
          messages := messages + [DISABLED];
          noticeSent := true;
        }
        var request := Fitted(messages, settings.maxChars);
        var reply := world.complete(|turns|, request, toolsEnabled);
        if reply.Failed? {
          last := State(messages, turns, totalUsage, executed, seen, evidencePaths,
                        forceSynthesis, noticeSent, lastErrors);
          return ClientFailed, last;
        }
        turns := turns + [Turn(request, toolsEnabled, reply)];
        totalUsage := totalUsage + reply.usage;
        if reply.toolCalls != [] {
          if !toolsEnabled {
            messages := messages + [NOT_AVAILABLE];
          } else {
            var duplicate;
            duplicate, seen := FirstDuplicateToolCall(reply.toolCalls, seen);
            if duplicate.Some? {
              forceSynthesis := true;
              messages := messages + [REPEATED];
            } else if |executed| + |reply.toolCalls| > settings.maxToolCalls {
              last := State(messages, turns, totalUsage, executed, seen, evidencePaths,
                            forceSynthesis, noticeSent, lastErrors);
              return ToolLimitExceeded, last;
            } else {
              messages := messages + [AssistantMessage(reply)];
              messages, executed := ExecuteCalls(reply.toolCalls, State(messages, turns, totalUsage, executed, seen,
                                                   evidencePaths, forceSynthesis, noticeSent, lastErrors));
            }
          }
        } else {
          var candidate := PyStrip(reply.content);
          lastErrors := world.errors(candidate, evidencePaths);
          if lastErrors == [] {
            last := State(messages, turns, totalUsage, executed, seen, evidencePaths,
                          forceSynthesis, noticeSent, lastErrors);
            return Plan(candidate, totalUsage, |executed|), last;
          }
          messages := messages + [Message(Assistant, Some(candidate), []), UserMessage(world.feedback(lastErrors))];
        }
        last := State(messages, turns, totalUsage, executed, seen, evidencePaths,
                      forceSynthesis, noticeSent, lastErrors);
        assert Step(world, settings, before) == Continue(last);
      }
      PlayStep(world, settings, last);
      if lastErrors != [] {
        return InvalidPlan(lastErrors), last;
      }
      return ToolLimitExceeded, last;
    }

    // for call in completion.tool_calls: every call is executed, its output recorded.
    method ExecuteCalls(calls: seq<ToolCall>, s: State) returns (messages: seq<Message>, executed: seq<ToolCall>)
      requires s.evidence == evidencePaths
      modifies this
      ensures var r := RunCalls(world, calls, s);
        r == s.(messages := messages, executed := executed, evidence := evidencePaths)
    {
      messages, executed := s.messages, s.executed;
      for i := 0 to |calls|
        invariant RunCalls(world, calls[..i], s) == s.(messages := messages, executed := executed, evidence := evidencePaths)
      {
        assert calls[..i + 1][..i] == calls[..i];
        var output := world.execute(|executed|, calls[i]);
        messages := messages + [ToolMessage(calls[i], output.text)];
        executed := executed + [calls[i]];
        evidencePaths := evidencePaths + output.found;
      }
      assert calls[..|calls|] == calls;
    }
  }

  method FirstDuplicateToolCall(calls: seq<ToolCall>, previous: set<string>)
    returns (duplicate: Option<ToolCall>, seen: set<string>)
    ensures var n := FreshCalls(calls, previous);
      duplicate == (if n < |calls| then Some(calls[n]) else None) && seen == previous + Keys(calls, n)
  {
    seen := previous;
    for i := 0 to |calls|
      invariant seen == previous + Keys(calls, i)
      invariant FreshFrom(calls, seen, i) == FreshCalls(calls, previous)
    {
      if Key(calls[i]) in seen {
        return Some(calls[i]), seen;
      }
      seen := seen + {Key(calls[i])};
    }
    return None, seen;
  }
}
