/** `compaction.go`: the token estimate and the folding of the transcript's middle. */
module Compaction {
  import opened Wrappers
  import opened Messages

  // ----- estimateTokens -----

  /** Bytes to tokens: four to one, rounded up. */
  function Quarter(bytes: nat): nat {
    (bytes + 3) / 4
  }

  const IMAGE_COST := 256

  function PartTokens(p: ContentPart): nat {
    if p.kind == "text" then Quarter(|p.text|) else if p.image.Some? then IMAGE_COST else 0
  }

  function PartsTokens(parts: seq<ContentPart>): nat {
    if parts == [] then 0 else PartsTokens(parts[..|parts| - 1]) + PartTokens(parts[|parts| - 1])
  }

  function CallTokens(tc: ToolCall): nat {
    Quarter(|tc.name| + |tc.arguments|)
  }

  function CallsTokens(calls: seq<ToolCall>): nat {
    if calls == [] then 0 else CallsTokens(calls[..|calls| - 1]) + CallTokens(calls[|calls| - 1])
  }

  function MessageTokens(m: Message): nat {
    Quarter(|m.content|) + PartsTokens(m.parts) + CallsTokens(m.toolCalls)
  }

  /** The estimate as a function of the transcript. */
  function Tokens(msgs: seq<Message>): nat {
    if msgs == [] then 0 else Tokens(msgs[..|msgs| - 1]) + MessageTokens(msgs[|msgs| - 1])
  }

  /** `estimateTokens`. */
  method EstimateTokens(msgs: seq<Message>) returns (n: nat)
    ensures n == Tokens(msgs)
  {
    n := 0;
    for i := 0 to |msgs|
      invariant n == Tokens(msgs[..i])
    {
      var m := msgs[i];
      n := n + Quarter(|m.content|);
      for j := 0 to |m.parts|
        invariant n == Tokens(msgs[..i]) + Quarter(|m.content|) + PartsTokens(m.parts[..j])
      {
        assert m.parts[..j + 1][..j] == m.parts[..j];
        if m.parts[j].kind == "text" {
          n := n + Quarter(|m.parts[j].text|);
        } else if m.parts[j].image.Some? {
          n := n + IMAGE_COST;
        }
      }
      assert m.parts[..|m.parts|] == m.parts;
      for j := 0 to |m.toolCalls|
        invariant n == Tokens(msgs[..i]) + Quarter(|m.content|) + PartsTokens(m.parts)
                       + CallsTokens(m.toolCalls[..j])
      {
        assert m.toolCalls[..j + 1][..j] == m.toolCalls[..j];
        n := n + Quarter(|m.toolCalls[j].name| + |m.toolCalls[j].arguments|);
      }
      assert m.toolCalls[..|m.toolCalls|] == m.toolCalls;
      assert msgs[..i + 1][..i] == msgs[..i];
    }
    assert msgs[..|msgs|] == msgs;
  }

  /** The estimate of a transcript is the sum over any way of cutting it in two. */
  lemma {:induction false} TokensAdd(a: seq<Message>, b: seq<Message>)
    ensures Tokens(a + b) == Tokens(a) + Tokens(b)
  {
    if b == [] {
      assert a + b == a;
    } else {
      var shorter := b[..|b| - 1];
      assert (a + b)[..|a + b| - 1] == a + shorter;
      TokensAdd(a, shorter);
    }
  }

  /** Bytes and pieces the estimate counts in a message: its text, its text parts, its calls. */
  function PartsBytes(parts: seq<ContentPart>): nat {
    if parts == [] then 0 else
      var p := parts[|parts| - 1];
      PartsBytes(parts[..|parts| - 1]) + if p.kind == "text" then |p.text| else 0
  }

  function CallsBytes(calls: seq<ToolCall>): nat {
    if calls == [] then 0 else
      var tc := calls[|calls| - 1];
      CallsBytes(calls[..|calls| - 1]) + |tc.name| + |tc.arguments|
  }

  function CountedBytes(msgs: seq<Message>): nat {
    if msgs == [] then 0 else
      var m := msgs[|msgs| - 1];
      CountedBytes(msgs[..|msgs| - 1]) + |m.content| + PartsBytes(m.parts) + CallsBytes(m.toolCalls)
  }

  function CountedPieces(msgs: seq<Message>): nat {
    if msgs == [] then 0 else
      var m := msgs[|msgs| - 1];
      CountedPieces(msgs[..|msgs| - 1]) + 1 + |m.parts| + |m.toolCalls|
  }

  ghost predicate ImageFree(msgs: seq<Message>) {
    forall i, j | 0 <= i < |msgs| && 0 <= j < |msgs[i].parts| ::
      msgs[i].parts[j].kind == "text" || msgs[i].parts[j].image.None?
  }

  lemma {:induction false} PartsBounds(parts: seq<ContentPart>)
    requires forall j | 0 <= j < |parts| :: parts[j].kind == "text" || parts[j].image.None?
    ensures PartsBytes(parts) <= 4 * PartsTokens(parts) <= PartsBytes(parts) + 3 * |parts|
  {
    if parts == [] {
    } else {
      PartsBounds(parts[..|parts| - 1]);
    }
  }

  lemma {:induction false} CallsBounds(calls: seq<ToolCall>)
    ensures CallsBytes(calls) <= 4 * CallsTokens(calls) <= CallsBytes(calls) + 3 * |calls|
  {
    if calls == [] {
    } else {
      CallsBounds(calls[..|calls| - 1]);
    }
  }

  /** The estimate never under-counts a quarter of the bytes, and over-counts by under one a piece. */
  lemma {:induction false} TokensBounds(msgs: seq<Message>)
    requires ImageFree(msgs)
    ensures CountedBytes(msgs) <= 4 * Tokens(msgs) <= CountedBytes(msgs) + 3 * CountedPieces(msgs)
  {
    if msgs == [] {
    } else {
      var shorter, m := msgs[..|msgs| - 1], msgs[|msgs| - 1];
      forall i, j | 0 <= i < |shorter| && 0 <= j < |shorter[i].parts|
        ensures shorter[i].parts[j].kind == "text" || shorter[i].parts[j].image.None?
      {
        assert shorter[i] == msgs[i];
      }
      TokensBounds(shorter);
      PartsBounds(m.parts);
      CallsBounds(m.toolCalls);
    }
  }

  // ----- what one piece costs -----

  /** The number of fours it takes to cover these bytes. */
  ghost predicate Covers(tokens: int, bytes: nat) {
    bytes <= 4 * tokens < bytes + 4
  }

  lemma OneMessage(m: Message)
    ensures Tokens([m]) == MessageTokens(m)
  {
    assert [m][..0] == [];
  }

  /** A message costs its text; a call, a text part and an image each add their own cost to it. */
  lemma PiecesCost(m: Message, tc: ToolCall, p: ContentPart)
    ensures Covers(Tokens([m.(parts := [], toolCalls := [])]), |m.content|)
    ensures Covers(Tokens([m.(toolCalls := m.toolCalls + [tc])]) - Tokens([m]), |tc.name| + |tc.arguments|)
    ensures var cost := Tokens([m.(parts := m.parts + [p])]) - Tokens([m]);
            if p.kind == "text" then Covers(cost, |p.text|) else cost == if p.image.Some? then 256 else 0
  {
    OneMessage(m);
    OneMessage(m.(parts := [], toolCalls := []));
    OneMessage(m.(toolCalls := m.toolCalls + [tc]));
    OneMessage(m.(parts := m.parts + [p]));
    assert (m.toolCalls + [tc])[..|m.toolCalls|] == m.toolCalls;
    assert (m.parts + [p])[..|m.parts|] == m.parts;
  }

  // ----- folding -----

  /** The decimal digits of a number, as the summary prints them. */
  function Decimal(n: nat): string {
    if n < 10 then ['0' + n as char] else Decimal(n / 10) + ['0' + (n % 10) as char]
  }

  function CallCount(msgs: seq<Message>): nat {
    if msgs == [] then 0 else CallCount(msgs[..|msgs| - 1]) + |msgs[|msgs| - 1].toolCalls|
  }

  /** The placeholder for an elided middle. */
  function Placeholder(mid: seq<Message>): Message {
    TextMessage("system",
      "[transcript compacted: " + Decimal(|mid|) + " prior messages elided, " + Decimal(CallCount(mid)) +
      " tool calls; see the event log for full history]")
  }

  /** `windowSummary`. */
  method WindowSummary(mid: seq<Message>) returns (summary: Message)
    ensures summary == Placeholder(mid)
  {
    var tools := 0;
    for i := 0 to |mid|
      invariant tools == CallCount(mid[..i])
    {
      assert mid[..i + 1][..i] == mid[..i];
      tools := tools + |mid[i].toolCalls|;
    }
    assert mid[..|mid|] == mid;
    return TextMessage("system",
      "[transcript compacted: " + Decimal(|mid|) + " prior messages elided, " + Decimal(tools) +
      " tool calls; see the event log for full history]");
  }

  function DigitValue(c: char): nat {
    if '0' <= c <= '9' then c as nat - '0' as nat else 0
  }

  /** Decimal digits read back. */
  function NumberOf(digits: string): nat {
    if digits == "" then 0 else 10 * NumberOf(digits[..|digits| - 1]) + DigitValue(digits[|digits| - 1])
  }

  lemma {:induction false} DecimalReads(n: nat)
    ensures Decimal(n) != "" && (forall c | c in Decimal(n) :: '0' <= c <= '9') && NumberOf(Decimal(n)) == n
  {
    if n < 10 {
      assert Decimal(n)[..0] == "";
    } else {
      DecimalReads(n / 10);
      var shorter, last := Decimal(n / 10), ['0' + (n % 10) as char];
      assert Decimal(n) == shorter + last;
      assert (shorter + last)[..|shorter|] == shorter;
    }
  }

  lemma {:induction false} CallCountAdds(a: seq<Message>, m: Message)
    ensures CallCount([]) == 0 && CallCount(a + [m]) == CallCount(a) + |m.toolCalls|
  {
    assert (a + [m])[..|a|] == a;
  }

  /** A system message naming two numbers: how many messages were elided, and how many tool calls they held. */
  lemma PlaceholderTells(mid: seq<Message>) returns (messages: string, calls: string)
    ensures (forall c | c in messages :: '0' <= c <= '9') && NumberOf(messages) == |mid|
    ensures (forall c | c in calls :: '0' <= c <= '9') && NumberOf(calls) == CallCount(mid)
    ensures var p := Placeholder(mid);
            && p.role == "system" && p.parts == [] && p.toolCalls == [] && p.name == "" && p.toolCallId == ""
            && p.content == "[transcript compacted: " + messages + " prior messages elided, " + calls
                            + " tool calls; see the event log for full history]"
  {
    DecimalReads(|mid|);
    DecimalReads(CallCount(mid));
    messages, calls := Decimal(|mid|), Decimal(CallCount(mid));
  }

  const PINNED := 2
  const RECENT := 4

  /** What either strategy leaves of a transcript, given the summary it chose. */
  function Folded(msgs: seq<Message>, summary: Message): seq<Message> {
    if |msgs| <= PINNED + RECENT then msgs else msgs[..PINNED] + [summary] + msgs[|msgs| - RECENT..]
  }

  /** The messages that folding leaves out. */
  function Middle(msgs: seq<Message>): seq<Message> {
    if |msgs| <= PINNED + RECENT then [] else msgs[PINNED..|msgs| - RECENT]
  }

  /** The summary standing for them: the model's briefing if there is one, else the placeholder. */
  function SummaryOf(msgs: seq<Message>, briefing: Option<string>): Message {
    if briefing.Some? then TextMessage("system", "[compacted summary]\n" + briefing.value)
    else Placeholder(Middle(msgs))
  }

  /** `defaultCompact`. */
  method DefaultCompact(msgs: seq<Message>) returns (out: seq<Message>)
    ensures out == Folded(msgs, SummaryOf(msgs, None))
  {
    if |msgs| <= 6 {
      return msgs;
    }
    var head := msgs[..2];
    var mid := msgs[2..|msgs| - 4];
    var tail := msgs[|msgs| - 4..];
    var summary := WindowSummary(mid);
    return head + [summary] + tail;
  }

  /** `llmCompact`: asking the model for a briefing may fail, and then the placeholder stands in. */
  method LlmCompact(msgs: seq<Message>, briefing: Option<string>) returns (out: seq<Message>)
    ensures out == Folded(msgs, SummaryOf(msgs, briefing))
  {
    if |msgs| <= 6 {
      return msgs;
    }
    var head := msgs[..2];
    var mid := msgs[2..|msgs| - 4];
    var tail := msgs[|msgs| - 4..];
    var summary: Message;
    if briefing.Some? {
      summary := TextMessage("system", "[compacted summary]\n" + briefing.value);
    } else {
      summary := WindowSummary(mid);
    }
    return head + [summary] + tail;
  }

  /** The summary is a system message: the briefing under its heading, or else the count of what was elided. */
  lemma SummaryTells(msgs: seq<Message>, briefing: Option<string>)
    ensures var s := SummaryOf(msgs, briefing);
            && s.role == "system" && s.parts == [] && s.toolCalls == [] && s.name == "" && s.toolCallId == ""
            && (briefing.Some? ==> s.content == "[compacted summary]\n" + briefing.value)
            && (briefing.None? && 6 < |msgs| ==> s == Placeholder(msgs[2..|msgs| - 4]))
  {
  }

  /** Nothing is lost but the middle, and the middle is not kept: what is folded is head, summary, tail. */
  lemma FoldingSplits(msgs: seq<Message>, summary: Message)
    ensures |msgs| <= 6 ==> Folded(msgs, summary) == msgs && Middle(msgs) == []
    ensures 6 < |msgs| ==>
      var out := Folded(msgs, summary);
      && |out| == 7 && out[2] == summary
      && out[..2] + Middle(msgs) + out[3..] == msgs
  {
    if 6 < |msgs| {
      var out := Folded(msgs, summary);
      assert out[..2] == msgs[..2];
      assert out[3..] == msgs[|msgs| - 4..];
    }
  }

  // ----- what the model is shown -----

  /** How much of the history is shown: all of it, or a summary and the messages from an index on. */
  datatype View = Entire | Since(summary: Message, from: nat)

  ghost predicate ViewOf(v: View, history: seq<Message>) {
    v.Since? ==> v.from + RECENT <= |history|
  }

  /** The transcript a view stands for: two pinned messages, at most one summary, a suffix of the history. */
  ghost function Shown(pinned: seq<Message>, v: View, history: seq<Message>): seq<Message>
    requires ViewOf(v, history)
  {
    match v
    case Entire => pinned + history
    case Since(summary, from) => pinned + [summary] + history[from..]
  }

  /** The view after folding. */
  ghost function Narrowed(v: View, history: seq<Message>, summary: Message): View
    requires ViewOf(v, history)
  {
    var shown := |Shown([], v, history)|;
    if shown <= RECENT then v else Since(summary, |history| - RECENT)
  }

  /** Folding a shown transcript shows the narrowed view: never two summaries, and never fewer than 4 recent messages. */
  lemma FoldingNarrows(pinned: seq<Message>, v: View, history: seq<Message>, summary: Message)
    requires |pinned| == PINNED && ViewOf(v, history)
    ensures var v' := Narrowed(v, history, summary);
            ViewOf(v', history) && Folded(Shown(pinned, v, history), summary) == Shown(pinned, v', history)
    ensures |Folded(Shown(pinned, v, history), summary)| <= PINNED + 1 + RECENT
  {
    var msgs := Shown(pinned, v, history);
    if PINNED + RECENT < |msgs| {
      assert msgs[..PINNED] == pinned;
      match v {
        case Entire => assert |history| > RECENT;
        case Since(_, from) =>
      }
      assert msgs[|msgs| - RECENT..] == history[|history| - RECENT..];
    }
  }

  /** A message added to the history shows up at the end of what is shown. */
  lemma ShowingGrows(pinned: seq<Message>, v: View, history: seq<Message>, m: Message)
    requires ViewOf(v, history)
    ensures ViewOf(v, history + [m])
    ensures Shown(pinned, v, history + [m]) == Shown(pinned, v, history) + [m]
  {
    if v.Since? {
      assert (history + [m])[v.from..] == history[v.from..] + [m];
    } else {
      assert pinned + (history + [m]) == pinned + history + [m];
    }
  }
}
