/**
 Two runs of one turn after which the log gives back less than memory holds: the model uses a call
 id twice, and it calls an unknown tool with arguments that are not JSON.
 */
module Partings {
  import opened Wrappers
  import opened Messages
  import opened Compaction
  import opened Events
  import opened Grammar
  import opened Tools
  import opened Memory
  import opened Moments

  /** The records of these payloads, numbered from 1, and a file that holds them. */
  function Numbered(ps: seq<Payload>): seq<Event> {
    seq(|ps|, i requires 0 <= i < |ps| => Event(i + 1, ps[i]))
  }

  function InFull(es: seq<Event>): seq<Chunk> {
    seq(|es|, i requires 0 <= i < |es| => Chunk(es[i], Whole))
  }

  /** A first turn up to the model's reply. */
  function Opened(cfg: Config, reply: Message): seq<Payload> {
    [RunStart("", cfg.goal, cfg.model), Turn(1), Llm(1, reply, 0)]
  }

  function RefusalOf(tc: ToolCall, attempt: nat, text: string): Payload {
    Tool(tc.id, Key("", tc.id, attempt), tc.name, tc.arguments, Status.Error, "", "", text)
  }

  /** The head of the loop after a first turn on an empty log. */
  ghost function HeadAfter(g: Setting, ps: seq<Payload>, entries: seq<Entry>): Moment {
    AtHead(Snap(InFull(Numbered(ps)), |ps|, Numbered(ps), entries, g.pinned + Spoken(entries), Entire), |ps|, 1)
  }

  lemma HeadAfterIsOk(cfg: Config, tools: Toolbox, ps: seq<Payload>, entries: seq<Entry>)
    requires !cfg.resume && ps != []
    requires var m := Trace(RulesOf(tools), Start(0), Numbered(ps)); m.Some? && m.value.phase.Head? && m.value.turn == 1
    requires Accounts(tools.codec, Numbered(ps), entries) && Waiting(entries) == []
    ensures var g := SettingOf(cfg, tools, []); MomentOk(g, HeadAfter(g, ps, entries))
    ensures Readable(InFull(Numbered(ps))) == Numbered(ps)
  {
    hide Trace, Accounts, Waiting, Spoken, Readable, LastStart, Replay, TailOf, OneWriter;
    var g, es := SettingOf(cfg, tools, []), Numbered(ps);
    assert InFull(es)[0..] == InFull(es) && EventsOf(InFull(es)) == es;
    assert g.recorded + Spoken(entries) == Spoken(entries);
    ReadableInFull(es);
  }

  lemma ReadableInFull(es: seq<Event>)
    requires es != []
    ensures Readable(InFull(es)) == es
  {
    hide Readable, Settled;
    assert [] + InFull(es) == InFull(es) && EventsOf(InFull(es)) == es;
    ReadableAfterSegment([], InFull(es));
    SettledOfNothing();
  }

  lemma TraceGrows(rules: Rules, ps: seq<Payload>, p: Payload, m: Mark)
    requires Trace(rules, Start(0), Numbered(ps)) == Some(m)
    ensures Trace(rules, Start(0), Numbered(ps + [p])) == Next(rules, m, p)
    ensures Added(Numbered(ps + [p])) == Added(Numbered(ps)) + Adds(p)
  {
    var e := Event(|ps| + 1, p);
    assert Numbered(ps + [p]) == Numbered(ps) + [e];
    TraceStep(rules, Start(0), Numbered(ps), e);
    assert (Numbered(ps) + [e])[..|ps|] == Numbered(ps);
  }

  lemma OpenedTrace(rules: Rules, cfg: Config, reply: Message)
    requires reply.toolCalls != []
    ensures Trace(rules, Start(0), Numbered(Opened(cfg, reply))) == Some(Mark(Calls(reply.toolCalls), 1, 0, ""))
    ensures Added(Numbered(Opened(cfg, reply))) == [Said(reply)]
  {
    var a, b, c := RunStart("", cfg.goal, cfg.model), Turn(1), Llm(1, reply, 0);
    assert Numbered([]) == [] && [] + [a] == [a] && [a] + [b] == [a, b] && [a, b] + [c] == Opened(cfg, reply);
    TraceGrows(rules, [], a, Start(0));
    TraceGrows(rules, [a], b, Mark(Head, 0, 0, ""));
    TraceGrows(rules, [a, b], c, Mark(Thinking, 1, 0, ""));
  }

  // ----- a call id used twice -----

  function RefusedTwice(cfg: Config, reply: Message, tc: ToolCall, text: string): seq<Payload> {
    Opened(cfg, reply) + [RefusalOf(tc, 1, text)] + [RefusalOf(tc, 2, text)] + [TurnEnd(1)]
  }

  lemma RefusalComesNext(rules: Rules, tc: ToolCall, rest: seq<ToolCall>, k: nat, text: string)
    requires rules.judge(tc) == Unknown && Recordable(rules.codec, tc)
    ensures Next(rules, Mark(Calls([tc] + rest), 1, k, ""), RefusalOf(tc, k + 1, text))
            == Some(Mark(Calls(rest), 1, k + 1, ""))
    ensures Adds(RefusalOf(tc, k + 1, text)) == [Replied(RequestOf(tc), text)]
  {
    assert ([tc] + rest)[1..] == rest;
    assert "" + text == text;
  }

  lemma SkipsOver(rules: Rules, tc: ToolCall)
    ensures Skip(rules, []) == []
    ensures Silent(rules, tc) ==> Skip(rules, [tc]) == []
  {
    assert [tc][1..] == [];
  }

  lemma TurnEndComesNext(rules: Rules, calls: seq<ToolCall>, k: nat)
    requires Skip(rules, calls) == []
    ensures Next(rules, Mark(Calls(calls), 1, k, ""), TurnEnd(1)) == Some(Mark(Head, 1, k + |calls|, ""))
    ensures Adds(TurnEnd(1)) == []
  {
  }

  lemma RefusedTwiceTrace(rules: Rules, cfg: Config, reply: Message, tc: ToolCall, text: string)
    requires reply.toolCalls == [tc, tc] && rules.judge(tc) == Unknown && Recordable(rules.codec, tc)
    ensures var es := Numbered(RefusedTwice(cfg, reply, tc, text));
            && Trace(rules, Start(0), es) == Some(Mark(Head, 1, 2, ""))
            && Added(es) == [Said(reply), Replied(RequestOf(tc), text), Replied(RequestOf(tc), text)]
  {
    hide Trace, Added, Next, Adds, Opened, RefusalOf, Numbered, Skip;
    var ps, p, q := Opened(cfg, reply), RefusalOf(tc, 1, text), RefusalOf(tc, 2, text);
    OpenedTrace(rules, cfg, reply);
    SkipsOver(rules, tc);
    RefusalComesNext(rules, tc, [tc], 0, text);
    RefusalComesNext(rules, tc, [], 1, text);
    TurnEndComesNext(rules, [], 2);
    assert [tc] + [tc] == [tc, tc] && [tc] + [] == [tc];
    TraceGrows(rules, ps, p, Mark(Calls([tc, tc]), 1, 0, ""));
    TraceGrows(rules, ps + [p], q, Mark(Calls([tc]), 1, 1, ""));
    TraceGrows(rules, ps + [p] + [q], TurnEnd(1), Mark(Calls([]), 1, 2, ""));
  }

  lemma NothingYet(codec: Codec)
    ensures Waiting([]) == [] && Orderly([]) && Spoken([]) == []
    ensures Kept(codec, []) == [] && Recalled(codec, NOTHING, []) == NOTHING
  {
  }

  lemma WhatLasts(codec: Codec, reply: Message, r: Request, text: string)
    ensures Lasting(codec, Said(reply))
    ensures Lasting(codec, Replied(r, text)) <==> Writable(codec, r.arguments)
  {
  }

  lemma TwoReplies(codec: Codec, reply: Message, r: Request, text: string)
    requires Requests(reply.toolCalls) == [r, r]
    ensures var h := [Said(reply), Replied(r, text), Replied(r, text)];
            && Orderly(h) && Waiting(h) == []
            && Spoken(h) == [reply, MessageOf(Replied(r, text)), MessageOf(Replied(r, text))]
            && (Writable(codec, r.arguments) ==>
                  Kept(codec, h) == h
                  && Recalled(codec, NOTHING, h).messages == [reply, MessageOf(Replied(r, text))])
  {
    hide Waiting, Orderly, Spoken, Kept, Recalled, Lasting, Writable, Requests;
    NothingYet(codec);
    WhatLasts(codec, reply, r, text);
    var s, x := Said(reply), Replied(r, text);
    assert [] + [s] == [s] && [s] + [x] == [s, x] && [s, x] + [x] == [s, x, x];
    WaitingStep([], s);
    WaitingStep([s], x);
    WaitingStep([s, x], x);
    KeptGrows(codec, [], [s]);
    RecalledStep(codec, NOTHING, [], [s]);
    KeptGrows(codec, [s], [x]);
    RecalledStep(codec, NOTHING, [s], [x]);
    KeptGrows(codec, [s, x], [x]);
    RecalledStep(codec, NOTHING, [s, x], [x]);
  }

  /** If the model uses a call id twice in a turn, memory has both replies and the log gives back one. */
  lemma RepeatedIdIsLost(cfg: Config, tools: Toolbox, reply: Message, tc: ToolCall, text: string)
    returns (x: Moment)
    requires !cfg.resume && reply.toolCalls == [tc, tc]
    requires Judge(tools, tc) == Unknown && Recordable(tools.codec, tc)
    ensures MomentOk(SettingOf(cfg, tools, []), x) && x.AtHead?
    ensures var answer := ToolMessage(tc.id, tc.name, text);
            && Spoken(x.snap.entries) == [reply, answer, answer]
            && Replay(NOTHING, Readable(x.snap.chunks)).messages == [reply, answer]
  {
    var r, ps := RequestOf(tc), RefusedTwice(cfg, reply, tc, text);
    var h := [Said(reply), Replied(r, text), Replied(r, text)];
    RefusedTwiceTrace(RulesOf(tools), cfg, reply, tc, text);
    TwoReplies(tools.codec, reply, r, text);
    x := PartingAt(cfg, tools, ps, h);
  }

  lemma PartingAt(cfg: Config, tools: Toolbox, ps: seq<Payload>, h: seq<Entry>) returns (x: Moment)
    requires !cfg.resume && ps != []
    requires var m := Trace(RulesOf(tools), Start(0), Numbered(ps)); m.Some? && m.value.phase.Head? && m.value.turn == 1
    requires Accounts(tools.codec, Numbered(ps), h) && Waiting(h) == []
    ensures MomentOk(SettingOf(cfg, tools, []), x) && x.AtHead? && x.snap.entries == h
    ensures Replay(NOTHING, Readable(x.snap.chunks)) == Recalled(tools.codec, NOTHING, h)
  {
    x := HeadAfter(SettingOf(cfg, tools, []), ps, h);
    HeadAfterIsOk(cfg, tools, ps, h);
    ReplayAccounts(tools.codec, NOTHING, Numbered(ps), h);
  }

  // ----- arguments that are not JSON -----

  /** A refusal whose record cannot be encoded leaves nothing at all in the log. */
  lemma UnencodableReplyIsLost(cfg: Config, tools: Toolbox, reply: Message, tc: ToolCall, text: string)
    returns (x: Moment)
    requires !cfg.resume && reply.toolCalls == [tc]
    requires Judge(tools, tc) == Unknown && !Recordable(tools.codec, tc)
    ensures MomentOk(SettingOf(cfg, tools, []), x) && x.AtHead?
    ensures Spoken(x.snap.entries) == [reply, ToolMessage(tc.id, tc.name, text)]
    ensures Replay(NOTHING, Readable(x.snap.chunks)).messages == [reply]
  {
    var ps, h := Opened(cfg, reply), [Said(reply), Replied(RequestOf(tc), text)];
    LeftOutTrace(RulesOf(tools), cfg, reply, tc);
    OneReply(tools.codec, reply, RequestOf(tc), text);
    x := PartingAt(cfg, tools, ps + [TurnEnd(1)], h);
  }

  lemma LeftOutTrace(rules: Rules, cfg: Config, reply: Message, tc: ToolCall)
    requires reply.toolCalls == [tc] && Silent(rules, tc)
    ensures var es := Numbered(Opened(cfg, reply) + [TurnEnd(1)]);
            && Trace(rules, Start(0), es) == Some(Mark(Head, 1, 1, ""))
            && Added(es) == [Said(reply)]
  {
    hide Trace, Added, Next, Adds, Opened, Numbered, Skip;
    OpenedTrace(rules, cfg, reply);
    SkipsOver(rules, tc);
    TurnEndComesNext(rules, [tc], 0);
    TraceGrows(rules, Opened(cfg, reply), TurnEnd(1), Mark(Calls([tc]), 1, 0, ""));
  }

  lemma OneReply(codec: Codec, reply: Message, r: Request, text: string)
    requires Requests(reply.toolCalls) == [r] && !Writable(codec, r.arguments)
    ensures var h := [Said(reply), Replied(r, text)];
            && Orderly(h) && Waiting(h) == []
            && Spoken(h) == [reply, MessageOf(Replied(r, text))]
            && Kept(codec, h) == [Said(reply)] && Recalled(codec, NOTHING, h).messages == [reply]
  {
    hide Waiting, Orderly, Spoken, Kept, Recalled, Lasting, Writable, Requests;
    NothingYet(codec);
    WhatLasts(codec, reply, r, text);
    var s, y := Said(reply), Replied(r, text);
    assert [] + [s] == [s] && [s] + [y] == [s, y];
    WaitingStep([], s);
    WaitingStep([s], y);
    KeptGrows(codec, [], [s]);
    RecalledStep(codec, NOTHING, [], [s]);
    KeptGrows(codec, [s], [y]);
    RecalledStep(codec, NOTHING, [s], [y]);
  }
}
