// Bounding the conversation before it is sent to the model.
module ContextFit {
  import opened Collections

  // A tool call as the model asks for it; args stands for the arguments in canonical form.
  datatype ToolCall = ToolCall(id: string, name: string, args: string)

  datatype Role = System | User | Assistant | Tool(callId: string, name: string)

  datatype Message = Message(role: Role, content: Option<string>, calls: seq<ToolCall>)

  const MARKER := "\n...[truncated by context compression]...\n"

  function Max(a: int, b: int): int {
    if a < b then b else a
  }

  // value[-n:] in Python: the last n characters, but all of them for n == 0.
  function LastChars(value: string, n: nat): string {
    if n == 0 || n > |value| then value else value[|value| - n..]
  }

  function CompressText(value: string, limit: int): string {
    if |value| <= limit then value
    else
      var remaining := Max(0, limit - |MARKER|);
      var head := remaining * 2 / 3;
      value[..head] + MARKER + LastChars(value, remaining - head)
  }

  // The limit is kept for every text exactly when it is larger than the marker: a smaller
  // limit leaves no room for a tail, and then the whole text is taken for the tail.
  lemma CompressBound(value: string, limit: int)
    ensures |CompressText(value, limit)| <= limit <==> |value| <= limit || limit > |MARKER|
    ensures |value| > limit > |MARKER| ==> |CompressText(value, limit)| == limit
  {
    if |value| > limit {
      var remaining := Max(0, limit - |MARKER|);
      var head := remaining * 2 / 3;
      assert CompressText(value, limit) == value[..head] + MARKER + LastChars(value, remaining - head);
      assert remaining == 0 || 0 < remaining - head <= |value|;
    }
  }

  // What a cut text is made of, for every limit: a beginning of the text, the marker and an end
  // of it.  With room beside the marker the two fill it, two to one up to rounding, and do not
  // overlap, so what stands between them is exactly what was dropped; without, the end is all.
  lemma CompressKeepsEnds(value: string, limit: int) returns (head: string, dropped: string, tail: string)
    requires |value| > limit
    ensures CompressText(value, limit) == head + MARKER + tail
    ensures limit > |MARKER| ==>
      value == head + dropped + tail && dropped != "" && |head| + |MARKER| + |tail| == limit &&
      |head| <= 2 * |tail| <= |head| + 2
    ensures limit <= |MARKER| ==> head == "" && tail == value
  {
    var remaining := Max(0, limit - |MARKER|);
    var n := remaining * 2 / 3;
    head, tail := value[..n], LastChars(value, remaining - n);
    dropped := if limit > |MARKER| then value[n..|value| - |tail|] else "";
  }

  // ------------------------------------------------------------ fitting the messages

  // str(message.get("content") or "")
  function ContentOf(message: Message): string {
    if message.content.Some? then message.content.value else ""
  }

  function Total(messages: seq<Message>): nat {
    if messages == [] then 0 else |ContentOf(messages[0])| + Total(messages[1..])
  }

  // From where on the messages fit together, newest first.
  function KeepFrom(messages: seq<Message>, maxChars: nat): (k: nat)
    ensures k <= |messages| && Total(messages[k..]) <= maxChars
  {
    if Total(messages) <= maxChars then 0
    else
      assert forall k :: 0 < k <= |messages| ==> messages[1..][k - 1..] == messages[k..];
      KeepFrom(messages[1..], maxChars) + 1
  }

  lemma {:induction false} KeepFromIsLeast(messages: seq<Message>, maxChars: nat, j: nat)
    requires j <= |messages|
    ensures Total(messages[j..]) <= maxChars <==> KeepFrom(messages, maxChars) <= j
  {
    TotalShrinks(messages, j);
    if Total(messages) > maxChars && j > 0 {
      assert messages[1..][j - 1..] == messages[j..];
      KeepFromIsLeast(messages[1..], maxChars, j - 1);
    } else {
      assert messages[0..] == messages;
    }
  }

  lemma {:induction false} TotalShrinks(messages: seq<Message>, j: nat)
    requires j <= |messages|
    ensures Total(messages[j..]) <= Total(messages)
  {
    if j > 0 {
      assert messages[1..][j - 1..] == messages[j..];
      TotalShrinks(messages[1..], j - 1);
    } else {
      assert messages[0..] == messages;
    }
  }

  // How much of a message may stay.
  function LimitAt(messages: seq<Message>, maxChars: nat, i: nat): int
    requires i < |messages|
  {
    var k := KeepFrom(messages, maxChars);
    if i >= k then |ContentOf(messages[i])|
    else if i == k - 1 then Max(512, maxChars - Total(messages[k..]))
    else 512
  }

  // The newest messages that fit together stay verbatim, the one before them gets what is
  // left of the budget but at least 512 characters, and the older ones get 512 each.
  function FittedAt(messages: seq<Message>, maxChars: nat, i: nat): Message
    requires i < |messages|
  {
    var content := ContentOf(messages[i]);
    if |content| <= LimitAt(messages, maxChars, i) then messages[i]
    else messages[i].(content := Some(CompressText(content, LimitAt(messages, maxChars, i))))
  }

  function Fitted(messages: seq<Message>, maxChars: nat): (fitted: seq<Message>)
    ensures |fitted| == |messages|
  {
    seq(|messages|, i requires 0 <= i < |messages| => FittedAt(messages, maxChars, i))
  }

  // The state of the reversed loop: everything from an index on is fitted.
  ghost predicate FittedFrom(preserved: seq<Message>, messages: seq<Message>, maxChars: nat, from: nat) {
    |preserved| == |messages| &&
    (forall i :: 0 <= i < |messages| && i < from ==> preserved[i] == messages[i]) &&
    (forall i :: from <= i < |messages| ==> preserved[i] == FittedAt(messages, maxChars, i))
  }

  lemma FittedStep(preserved: seq<Message>, messages: seq<Message>, maxChars: nat, i: nat)
    requires i < |messages| && FittedFrom(preserved, messages, maxChars, i + 1)
    ensures preserved[i] == messages[i]
    ensures FittedFrom(preserved[i := FittedAt(messages, maxChars, i)], messages, maxChars, i)
    ensures preserved[i := preserved[i]] == preserved
  {
    hide FittedAt;
  }

  lemma FittedAll(preserved: seq<Message>, messages: seq<Message>, maxChars: nat)
    ensures FittedFrom(messages, messages, maxChars, |messages|)
    ensures FittedFrom(preserved, messages, maxChars, 0) ==> preserved == Fitted(messages, maxChars)
  {
    hide FittedAt;
  }

  lemma {:induction false} NothingToFit(messages: seq<Message>, maxChars: nat)
    ensures Total(messages) <= maxChars ==> Fitted(messages, maxChars) == messages
    ensures Total(messages[|messages|..]) == 0
  {
    hide FittedAt;
    assert messages[|messages|..] == [];
    assert Total([]) == 0;
    hide Total;
    if Total(messages) <= maxChars {
      forall i | 0 <= i < |messages| ensures FittedAt(messages, maxChars, i) == messages[i] {
        FitWhole(messages, maxChars, i);
      }
    }
  }

  lemma FitWhole(messages: seq<Message>, maxChars: nat, i: nat)
    requires i < |messages| && Total(messages) <= maxChars
    ensures FittedAt(messages, maxChars, i) == messages[i]
  {
    hide Total, CompressText;
  }

  // One turn of the loop: the message stays when it fits the budget, and is cut when not.
  lemma {:induction false} FitOne(messages: seq<Message>, maxChars: nat, i: nat, budget: nat)
    requires i < |messages|
    requires budget == if i + 1 >= KeepFrom(messages, maxChars) then maxChars - Total(messages[i + 1..]) else 0
    ensures var content := ContentOf(messages[i]);
      if |content| <= budget then
        FittedAt(messages, maxChars, i) == messages[i] &&
        budget - |content| == if i >= KeepFrom(messages, maxChars) then maxChars - Total(messages[i..]) else 0
      else
        FittedAt(messages, maxChars, i) == messages[i].(content := Some(CompressText(content, Max(512, budget)))) &&
        i < KeepFrom(messages, maxChars)
  {
    hide Total, KeepFrom, LastChars;
    KeepFromIsLeast(messages, maxChars, i);
    KeepFromIsLeast(messages, maxChars, i + 1);
    TotalStep(messages, i);
  }

  class ContextCompressor {
    const maxContextChars: nat
    const maxToolOutputChars: int

    constructor (contextLimitTokens: int, maxToolOutputChars: int)
      ensures maxContextChars >= 8000 && maxContextChars >= contextLimitTokens * 3
      ensures maxContextChars == 8000 || maxContextChars == contextLimitTokens * 3
      ensures this.maxToolOutputChars == maxToolOutputChars
    {
      maxContextChars := Max(8000, contextLimitTokens * 3);
      this.maxToolOutputChars := maxToolOutputChars;
    }

    method FitMessages(messages: seq<Message>) returns (fitted: seq<Message>)
      ensures fitted == Fitted(messages, maxContextChars)
    {
      hide Total, CompressText, KeepFrom, LimitAt, FittedFrom, FittedAt, Fitted;
      NothingToFit(messages, maxContextChars);
      FittedAll(messages, messages, maxContextChars);
      var total := TotalOf(messages);
      if total <= maxContextChars {
        return messages;
      }
      var preserved := messages;
      var budget := maxContextChars;
      var i := |messages|;
      ghost var k := KeepFrom(messages, maxContextChars);
      while i > 0
        invariant 0 <= i <= |messages| == |preserved| && budget >= 0
        invariant budget == if i >= k then maxContextChars - Total(messages[i..]) else 0
        invariant FittedFrom(preserved, messages, maxContextChars, i)
      {
        i := i - 1;
        FitOne(messages, maxContextChars, i, budget);
        FittedStep(preserved, messages, maxContextChars, i);
        var content := ContentOf(preserved[i]);
        if |content| <= budget {
          budget := budget - |content|;
          continue;
        }
        preserved := preserved[i := preserved[i].(content := Some(CompressText(content, Max(512, budget))))];
        budget := 0;
      }
      FittedAll(preserved, messages, maxContextChars);
      return preserved;
    }
  }

  method TotalOf(messages: seq<Message>) returns (total: nat)
    ensures total == Total(messages)
  {
    total := 0;
    assert messages[0..] == messages;
    for i := 0 to |messages|
      invariant total + Total(messages[i..]) == Total(messages)
    {
      assert messages[i..][1..] == messages[i + 1..];
      total := total + |ContentOf(messages[i])|;
    }
  }

  // ------------------------------------------------------------ what fitting promises

  lemma FittedSizes(messages: seq<Message>, maxChars: nat, i: nat)
    requires i < |messages|
    ensures var fitted := Fitted(messages, maxChars)[i];
      fitted.role == messages[i].role && fitted.calls == messages[i].calls &&
      |ContentOf(fitted)| <= LimitAt(messages, maxChars, i) &&
      (|ContentOf(messages[i])| <= 512 ==> fitted == messages[i])
  {
    CompressBound(ContentOf(messages[i]), LimitAt(messages, maxChars, i));
  }

  // In every case the newest messages that fit together stay as they are.
  lemma NewestKept(messages: seq<Message>, maxChars: nat, j: nat)
    requires j <= |messages| && Total(messages[j..]) <= maxChars
    ensures Fitted(messages, maxChars)[j..] == messages[j..]
  {
    KeepFromIsLeast(messages, maxChars, j);
    hide Total, CompressText, KeepFrom;
  }

  // The size sent is at most the context plus 512 characters for each message not kept verbatim.
  lemma FittedTotal(messages: seq<Message>, maxChars: nat)
    ensures Total(Fitted(messages, maxChars)) <= maxChars + 512 * KeepFrom(messages, maxChars)
    ensures Total(Fitted(messages, maxChars)) <= maxChars + 512 * |messages|
  {
    hide Total, CompressText, KeepFrom, Fitted;
    var fitted, k := Fitted(messages, maxChars), KeepFrom(messages, maxChars);
    NewestKept(messages, maxChars, k);
    if k > 0 {
      FittedSizes(messages, maxChars, k - 1);
      TotalStep(fitted, k - 1);
      OldTotal(messages, maxChars, k - 1);
    }
    assert fitted[0..] == fitted;
  }

  lemma {:induction false} OldTotal(messages: seq<Message>, maxChars: nat, j: nat)
    requires j < KeepFrom(messages, maxChars)
    ensures var fitted := Fitted(messages, maxChars);
      Total(fitted) <= Total(fitted[j..]) + 512 * j
  {
    hide Total, CompressText, KeepFrom, Fitted;
    var fitted := Fitted(messages, maxChars);
    if j > 0 {
      FittedSizes(messages, maxChars, j - 1);
      TotalStep(fitted, j - 1);
      OldTotal(messages, maxChars, j - 1);
    } else {
      assert fitted[0..] == fitted;
    }
  }

  lemma TotalStep(messages: seq<Message>, i: nat)
    requires i < |messages|
    ensures Total(messages[i..]) == |ContentOf(messages[i])| + Total(messages[i + 1..])
  {
    assert messages[i..][1..] == messages[i + 1..];
  }

  // Every message of the result, said of what is newer: a message stays as it is while everything
  // from it on fits; the first one that does not is cut to what is left, at least 512 characters;
  // and older ones are cut to 512.
  lemma FittedExactly(messages: seq<Message>, maxChars: nat, i: nat)
    requires i < |messages|
    ensures var (m, newer) := (messages[i], Total(messages[i + 1..]));
      var size := |ContentOf(m)|;
      var limit := if newer + 512 <= maxChars then maxChars - newer else 512;
      Fitted(messages, maxChars)[i] ==
        if size <= limit then m else m.(content := Some(CompressText(ContentOf(m), limit)))
  {
    hide Total, CompressText, KeepFrom;
    KeepFromIsLeast(messages, maxChars, i);
    KeepFromIsLeast(messages, maxChars, i + 1);
    TotalStep(messages, i);
  }
}
