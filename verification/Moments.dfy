/**
 Moments of a run worth looking at: each head of its loop, each request to the model, each tool call.
 What is true at every one of them, and what follows for the log, the memory and a later crash.
 */
module Moments {
  import opened Wrappers
  import opened Messages
  import opened Compaction
  import opened Events
  import opened Grammar
  import opened Tools
  import opened Memory

  datatype Config = Config(
    goal: string,
    model: string,
    systemPrompt: string,
    resume: bool,
    llmCompaction: bool,
    limits: Limits)

  // ----- what a run starts from -----

  /** The file, the tail to count on from, the history to continue, and what every transcript begins with. */
  datatype Setting = Setting(
    base: seq<Chunk>,
    start: LogTail,
    recorded: seq<Message>,
    pinned: seq<Message>,
    rules: Rules,
    limits: Limits)

  /** A resumed run takes its goal from the last run_start it can read, unless that goal is empty. */
  ghost function GoalOf(cfg: Config, base: seq<Chunk>): string {
    var recorded := LastStart(Readable(base)).goal;
    if cfg.resume && recorded != "" then recorded else cfg.goal
  }

  /** The system prompt and the goal that stay in front of every transcript. */
  function Pinned(prompt: string, goal: string): (pair: seq<Message>)
    ensures |pair| == PINNED
  {
    [TextMessage("system", prompt), TextMessage("user", goal)]
  }

  /** Only a resumed run counts on from the log and continues the history in it. */
  ghost function SettingOf(cfg: Config, tools: Toolbox, base: seq<Chunk>): Setting {
    Setting(
      base,
      if cfg.resume then TailOf(Readable(base)) else LogTail(0, 0),
      if cfg.resume then Replay(NOTHING, Readable(base)).messages else [],
      Pinned(cfg.systemPrompt, GoalOf(cfg, base)),
      RulesOf(tools),
      cfg.limits)
  }

  /** What this text has to be to name the goal: the last run_start's, if the run resumes and it is not empty. */
  ghost predicate TellsGoal(cfg: Config, es: seq<Event>, text: string) {
    && (forall i | LatestStart(es, i) :: cfg.resume && es[i].payload.goal != "" ==> text == es[i].payload.goal)
    && ((!cfg.resume || forall i | LatestStart(es, i) :: es[i].payload.goal == "") ==> text == cfg.goal)
  }

  /** A transcript begins with the system prompt and a user message that names the goal. */
  ghost predicate BeginsRight(cfg: Config, es: seq<Event>, messages: seq<Message>) {
    && |messages| >= 2
    && messages[0].role == "system" && messages[0].content == cfg.systemPrompt
    && messages[1].role == "user" && TellsGoal(cfg, es, messages[1].content)
    && forall k | 0 <= k < 2 ::
         && messages[k].parts == [] && messages[k].toolCalls == []
         && messages[k].name == "" && messages[k].toolCallId == ""
  }

  lemma GoalIsTold(cfg: Config, base: seq<Chunk>)
    ensures TellsGoal(cfg, Readable(base), GoalOf(cfg, base))
  {
    hide Readable, LastStart;
    var es := Readable(base);
    var last := SomeStartIsLatest(es);
    forall i | LatestStart(es, i) ensures LastStart(es) == es[i].payload {
      LastStartIsLatest(es, i);
    }
  }

  lemma PinnedBeginsRight(cfg: Config, tools: Toolbox, base: seq<Chunk>, rest: seq<Message>)
    ensures BeginsRight(cfg, Readable(base), SettingOf(cfg, tools, base).pinned + rest)
  {
    GoalIsTold(cfg, base);
    hide TellsGoal, GoalOf, Readable, TailOf, Replay, RulesOf;
    var pinned := SettingOf(cfg, tools, base).pinned;
    assert (pinned + rest)[0] == pinned[0] && (pinned + rest)[1] == pinned[1];
  }

  // ----- what is true at a moment -----

  /** The file, how much of it is durable, the records of this run, and its memory. */
  datatype Snap = Snap(
    chunks: seq<Chunk>,
    synced: nat,
    produced: seq<Event>,
    entries: seq<Entry>,
    messages: seq<Message>,
    view: View)

  datatype Moment =
    | AtHead(snap: Snap, number: nat, turn: nat)
    | Asking(snap: Snap)
    | Invoking(snap: Snap, call: ToolCall)

  /** The file holds exactly these records on top of `base`, whole and durable. */
  ghost predicate AllDurable(base: seq<Chunk>, chunks: seq<Chunk>, synced: nat, produced: seq<Event>) {
    && synced == |chunks|
    && base <= chunks
    && EventsOf(chunks[|base|..]) == produced
    && forall i | |base| <= i < |chunks| :: chunks[i].extent.Whole?
  }

  lemma AllDurableOnTop(base: seq<Chunk>, own: seq<Chunk>, produced: seq<Event>)
    requires Tracks(own, produced, false)
    ensures AllDurable(base, base + own, |base + own|, produced)
  {
    assert (base + own)[|base|..] == own;
    forall i | |base| <= i < |base + own| ensures (base + own)[i].extent.Whole? {
      assert (base + own)[i] == own[i - |base|];
    }
  }

  /** A transcript shows a history: two pinned messages, at most one summary, a suffix of the history. */
  ghost predicate Shows(messages: seq<Message>, pinned: seq<Message>, view: View, history: seq<Message>) {
    && |pinned| == PINNED
    && ViewOf(view, history)
    && messages == Shown(pinned, view, history)
  }

  /** Adding a message to the transcript and its entry to the history keeps the one showing the other. */
  lemma ShowsStep(messages: seq<Message>, pinned: seq<Message>, view: View, recorded: seq<Message>,
                  entries: seq<Entry>, x: Entry)
    requires Shows(messages, pinned, view, recorded + Spoken(entries))
    ensures Shows(messages + [MessageOf(x)], pinned, view, recorded + Spoken(entries + [x]))
  {
    WaitingStep(entries, x);
    assert recorded + Spoken(entries + [x]) == recorded + Spoken(entries) + [MessageOf(x)];
    ShowingGrows(pinned, view, recorded + Spoken(entries), MessageOf(x));
  }

  /** A transcript that compaction has no more to say about. */
  ghost predicate InBounds(limits: Limits, messages: seq<Message>) {
    && (limits.maxTokens <= 0 ==> |messages| <= 40)
    && (0 < limits.maxTokens ==> Tokens(messages) <= limits.maxTokens * 8 / 10 || |messages| <= 7)
  }

  /** At any moment every record of the run is durable, in order, and accounts for the history in memory. */
  ghost predicate Caught(g: Setting, s: Snap) {
    && AllDurable(g.base, s.chunks, s.synced, s.produced)
    && s.produced != []
    && Trace(g.rules, Start(g.start.turn), s.produced).Some?
    && Rising(s.produced, g.start.number)
    && Accounts(g.rules.codec, s.produced, s.entries)
  }

  /** The transcript shows prompt, goal and the history: what the run started with and added since. */
  ghost predicate Displays(g: Setting, s: Snap) {
    Shows(s.messages, g.pinned, s.view, g.recorded + Spoken(s.entries))
  }

  ghost predicate MomentOk(g: Setting, x: Moment) {
    && Caught(g, x.snap)
    && var es, waiting := x.snap.produced, Waiting(x.snap.entries);
    match x
    case AtHead(s, number, turn) =>
      && waiting == [] && Displays(g, s)
      && es[|es| - 1].number == number
      && var m := Trace(g.rules, Start(g.start.turn), es).value;
         m.phase.Head? && m.turn == turn
    case Asking(s) =>
      && waiting == [] && Displays(g, s)
      && es[|es| - 1].payload.Turn?
      && InBounds(g.limits, s.messages)
    case Invoking(s, call) =>
      && waiting != [] && waiting[0] == RequestOf(call)
      && var p := es[|es| - 1].payload;
         IsIntent(p) && p.callId == call.id && p.name == call.name && p.args == call.arguments
  }

  /** Every moment of a run is as it should be, and the file has only grown since. */
  ghost predicate MomentsOk(g: Setting, xs: seq<Moment>, chunks: seq<Chunk>, synced: nat) {
    && (forall i | 0 <= i < |xs| ::
          MomentOk(g, xs[i]) && xs[i].snap.chunks <= chunks && xs[i].snap.synced <= synced)
    && (forall i, j | 0 <= i < j < |xs| :: xs[i].snap.synced <= xs[j].snap.synced)
  }

  lemma MomentsStay(g: Setting, xs: seq<Moment>, chunks: seq<Chunk>, synced: nat, more: seq<Chunk>, higher: nat)
    requires MomentsOk(g, xs, chunks, synced) && chunks <= more && synced <= higher
    ensures MomentsOk(g, xs, more, higher)
  {
  }

  lemma MomentsStep(g: Setting, xs: seq<Moment>, x: Moment)
    requires MomentOk(g, x) && MomentsOk(g, xs, x.snap.chunks, x.snap.synced)
    ensures MomentsOk(g, xs + [x], x.snap.chunks, x.snap.synced)
  {
  }

  /** Every transcript shown to the model, and kept at a loop head, begins with the prompt and the goal. */
  lemma TranscriptsBeginRight(cfg: Config, tools: Toolbox, base: seq<Chunk>, x: Moment)
    requires MomentOk(SettingOf(cfg, tools, base), x) && !x.Invoking?
    ensures BeginsRight(cfg, Readable(base), x.snap.messages)
  {
    hide BeginsRight, Readable, Replay, TailOf, LastStart, RulesOf, Caught, Spoken, Trace, Waiting;
    var g, s := SettingOf(cfg, tools, base), x.snap;
    assert Displays(g, s);
    var rest := if s.view.Entire? then g.recorded + Spoken(s.entries)
                else [s.view.summary] + (g.recorded + Spoken(s.entries))[s.view.from..];
    assert s.messages == g.pinned + rest;
    PinnedBeginsRight(cfg, tools, base, rest);
  }

  // ----- what the outside answered, as the records tell it -----

  /** An answer from outside: the model's reply, its failure, or what a tool answered a call. */
  datatype Heard =
    | FromModel(message: Message, tokens: int)
    | NoReply
    | FromTool(call: Request, content: string, isErr: bool)

  /** The answer that the next record tells of, in this phase: a result tells of a call only while one runs. */
  function Telling(ph: Phase, p: Payload): seq<Heard> {
    match p
    case Llm(_, m, tokens) => [FromModel(m, tokens)]
    case Log(Failure) => [NoReply]
    case Tool(id, _, name, args, status, stdout, _, _) =>
      if ph.Running? && Terminal(status) then [FromTool(Request(id, name, args), stdout, status == Status.Error)] else []
    case Finish(Decoded(_)) => if ph.Running? then [FromTool(RequestOf(ph.call), "finished", false)] else []
    case _ => []
  }

  /** The same, told from the records alone: a result or an output tells of the call whose intent precedes it. */
  ghost function TellsAfter(es: seq<Event>, p: Payload): seq<Heard> {
    var called := es != [] && IsIntent(es[|es| - 1].payload);
    match p
    case Llm(_, m, tokens) => [FromModel(m, tokens)]
    case Log(Failure) => [NoReply]
    case Tool(id, _, name, args, status, stdout, _, _) =>
      if called && status != Intent then [FromTool(Request(id, name, args), stdout, status == Status.Error)] else []
    case Finish(Decoded(_)) =>
      if called then
        var intent := es[|es| - 1].payload;
        [FromTool(Request(intent.callId, intent.name, intent.args), "finished", false)]
      else []
    case _ => []
  }

  /** All answers these records tell of, in order. */
  ghost function Told(es: seq<Event>): seq<Heard> {
    if es == [] then [] else Told(es[..|es| - 1]) + TellsAfter(es[..|es| - 1], es[|es| - 1].payload)
  }

  lemma ToldGrows(rules: Rules, turn: nat, es: seq<Event>, m: Mark, e: Event)
    requires Trace(rules, Start(turn), es) == Some(m)
    ensures Told(es + [e]) == Told(es) + Telling(m.phase, e.payload)
  {
    RunningAfterIntent(rules, turn, es);
    assert (es + [e])[..|es|] == es;
  }

  /**
   The k-th record is the result of a call that ran.  Then what it tells is what the tool answered, its
   status is an error exactly if the tool said so, and the reply in the history has that very text.
   */
  lemma AnswersAreReplied(rules: Rules, turn: nat, es: seq<Event>, h: seq<Entry>, k: nat)
    requires Trace(rules, Start(turn), es).Some? && Accounts(rules.codec, es, h)
    requires 0 < k < |es| && IsIntent(es[k - 1].payload) && es[k].payload.Tool?
    ensures Told(es[..k]) < Told(es) && Added(es[..k]) < Kept(rules.codec, h)
    ensures var p, answer, reply := es[k].payload, Told(es)[|Told(es[..k])|], Kept(rules.codec, h)[|Added(es[..k])|];
            && answer.FromTool? && answer.call == Request(p.callId, p.name, p.args)
            && reply == Replied(answer.call, answer.content)
            && p.stdout == answer.content && p.stderr == "" && p.error == ""
            && p.status == if answer.isErr then Status.Error else Ok
  {
    hide Trace, Next, Orderly, Fits, Told, Added, Kept, ReplyText, TellsAfter, Adds;
    var p, before := es[k].payload, es[..k];
    assert before[|before| - 1] == es[k - 1] && es[..k + 1] == before + [es[k]];
    ResultAt(rules, turn, es, k);
    ToldPrefix(es, k + 1);
    ToldStep(before, es[k]);
    AddedPrefix(es, k + 1);
    AddedGrows(before, es[k]);
    ResultAdds(p);
  }

  lemma ResultAdds(p: Payload)
    requires p.Tool? && (p.status == Ok || p.status == Status.Error) && p.stderr == "" && p.error == ""
    ensures Adds(p) == [Replied(Request(p.callId, p.name, p.args), p.stdout)]
  {
    ReplyTextTells(p);
  }

  /** A tool record directly after an intent is the result of the call: its text is the output alone. */
  lemma ResultAt(rules: Rules, turn: nat, es: seq<Event>, k: nat)
    requires Trace(rules, Start(turn), es).Some?
    requires 0 < k < |es| && IsIntent(es[k - 1].payload) && es[k].payload.Tool?
    ensures var p := es[k].payload;
            (p.status == Ok || p.status == Status.Error) && p.stderr == "" && p.error == ""
  {
    hide Trace, Next;
    TraceAt(rules, turn, es, k);
    assert es[..k][k - 1] == es[k - 1];
    RunningAfterIntent(rules, turn, es[..k]);
    ResultIsNext(rules, Trace(rules, Start(turn), es[..k]).value, es[k].payload);
  }

  lemma ToldStep(es: seq<Event>, e: Event)
    ensures Told(es + [e]) == Told(es) + TellsAfter(es, e.payload)
    ensures es != [] && IsIntent(es[|es| - 1].payload) && e.payload.Tool? && e.payload.status != Intent ==>
              var p := e.payload;
              TellsAfter(es, p) == [FromTool(Request(p.callId, p.name, p.args), p.stdout, p.status == Status.Error)]
  {
    assert (es + [e])[..|es|] == es;
  }

  lemma {:induction false} ToldPrefix(es: seq<Event>, k: nat)
    requires k <= |es|
    ensures Told(es[..k]) <= Told(es)
    decreases |es|
  {
    if k == |es| {
      assert es[..k] == es;
    } else {
      var shorter := es[..|es| - 1];
      ToldPrefix(shorter, k);
      assert shorter[..k] == es[..k];
    }
  }

  lemma ResultIsNext(rules: Rules, m: Mark, p: Payload)
    requires m.phase.Running? && Next(rules, m, p).Some? && p.Tool?
    ensures (p.status == Ok || p.status == Status.Error) && p.stderr == "" && p.error == ""
  {
  }

  // ----- no moment is missing -----

  ghost predicate SawHead(xs: seq<Moment>, es: seq<Event>) {
    exists x | x in xs :: x.AtHead? && x.snap.produced == es
  }

  ghost predicate SawRequest(xs: seq<Moment>, es: seq<Event>) {
    exists x | x in xs :: x.Asking? && x.snap.produced == es
  }

  ghost predicate SawCall(xs: seq<Moment>, es: seq<Event>) {
    exists x | x in xs :: x.Invoking? && x.snap.produced == es
  }

  /**
   Every loop head, every request to the model and every tool call that the records of a run tell of
   is among these moments, just before the record that tells of it: what follows an intent tells of
   the call, a reply or a noted failure of the request, a turn or the end by a limit of the loop head.
   */
  ghost predicate Complete(xs: seq<Moment>, es: seq<Event>) {
    && (forall x | x in xs :: x.snap.produced <= es)
    && forall k | 0 <= k < |es| ::
         && (FollowsHead(es[k].payload) ==> SawHead(xs, es[..k]))
         && (FollowsRequest(es[k].payload) ==> SawRequest(xs, es[..k]))
         && (k > 0 && IsIntent(es[k - 1].payload) ==> SawCall(xs, es[..k]))
  }

  /** What has to be among the moments before the next record is written in this phase. */
  ghost predicate Due(xs: seq<Moment>, es: seq<Event>, ph: Phase) {
    && (ph.Head? ==> SawHead(xs, es))
    && (ph.Thinking? ==> SawRequest(xs, es))
    && (ph.Running? ==> SawCall(xs, es))
  }

  lemma CompleteStep(rules: Rules, turn: nat, es: seq<Event>, m: Mark, xs: seq<Moment>, e: Event)
    requires Trace(rules, Start(turn), es) == Some(m) && Next(rules, m, e.payload).Some?
    requires Complete(xs, es) && Due(xs, es, m.phase)
    ensures Complete(xs, es + [e])
  {
    TraceCloses(rules, turn, es);
    StepCloses(rules, m, e.payload);
    RunningAfterIntent(rules, turn, es);
    hide Trace, Next, SawHead, SawRequest, SawCall, IsIntent, FollowsHead, FollowsRequest;
    var all := es + [e];
    forall k | 0 <= k < |all|
      ensures FollowsHead(all[k].payload) ==> SawHead(xs, all[..k])
      ensures FollowsRequest(all[k].payload) ==> SawRequest(xs, all[..k])
      ensures k > 0 && IsIntent(all[k - 1].payload) ==> SawCall(xs, all[..k])
    {
      if k < |es| {
        assert all[..k] == es[..k] && all[k] == es[k];
      } else {
        assert all[..k] == es;
      }
    }
  }

  lemma CompleteMore(xs: seq<Moment>, x: Moment, es: seq<Event>)
    requires Complete(xs, es) && x.snap.produced == es
    ensures Complete(xs + [x], es)
  {
    var all := xs + [x];
    assert forall y | y in xs :: y in all;
    forall k | 0 <= k < |es|
      ensures FollowsHead(es[k].payload) ==> SawHead(all, es[..k])
      ensures FollowsRequest(es[k].payload) ==> SawRequest(all, es[..k])
      ensures k > 0 && IsIntent(es[k - 1].payload) ==> SawCall(all, es[..k])
    {
    }
  }

  // ----- log and memory -----

  /** The run's part of the file at a moment. */
  ghost function OwnPart(g: Setting, s: Snap): seq<Chunk>
    requires Caught(g, s)
  {
    s.chunks[|g.base|..]
  }

  lemma CaughtIsWritten(g: Setting, s: Snap)
    requires Caught(g, s)
    ensures AllWritten(g.rules, g.start, OwnPart(g, s), s.produced) && s.chunks == g.base + OwnPart(g, s)
  {
    var own := OwnPart(g, s);
    forall i | 0 <= i < |own| ensures own[i].extent.Whole? {
      assert own[i] == s.chunks[|g.base| + i];
    }
    assert |EventsOf(own)| == |own|;
  }

  /** At every moment the log rebuilds what had settled before the run and what lasts of its history. */
  lemma LogAtMoment(g: Setting, x: Moment)
    requires MomentOk(g, x)
    ensures Replay(NOTHING, Readable(x.snap.chunks))
            == Recalled(g.rules.codec, Replay(NOTHING, Settled(g.base)), x.snap.entries)
  {
    var s := x.snap;
    CaughtIsWritten(g, s);
    RebuiltAfterRun(g.rules, g.start, g.base, OwnPart(g, s), s.produced);
    ReplayAccounts(g.rules.codec, Replay(NOTHING, Settled(g.base)), s.produced, s.entries);
  }

  /**
   What the log misses of a history, message by message: `Dropped` says which, and it is those
   replies to tool calls whose arguments no record can carry or whose id had a reply already.
   */
  lemma LogMissesTheDropped(g: Setting, x: Moment)
    requires MomentOk(g, x)
    ensures var settled := Replay(NOTHING, Settled(g.base));
            Replay(NOTHING, Readable(x.snap.chunks)).messages
            == settled.messages + Survivors(g.rules.codec, settled, x.snap.entries, |x.snap.entries|)
  {
    LogAtMoment(g, x);
    RecallsSurvivors(g.rules.codec, Replay(NOTHING, Settled(g.base)), x.snap.entries);
  }

  lemma ThinkingAfterTurn(rules: Rules, turn: nat, es: seq<Event>)
    requires Trace(rules, Start(turn), es).Some? && es != [] && es[|es| - 1].payload.Turn?
    ensures Trace(rules, Start(turn), es).value.phase.Thinking?
  {
  }

  /** At a loop head or a request every reply of the model so far has asked for calls. */
  lemma HistoryAsks(g: Setting, x: Moment)
    requires MomentOk(g, x) && !x.Invoking?
    ensures Orderly(x.snap.entries) && AllAsk(x.snap.entries)
  {
    hide AllAsk, Orderly, Kept, Added, Spoken;
    if x.Asking? {
      ThinkingAfterTurn(g.rules, g.start.turn, x.snap.produced);
    }
    RunningHistoriesAsk(g.rules, g.start.turn, x.snap.produced, x.snap.entries);
  }

  /** A resumed run starts from no less than what had settled. */
  lemma RecordedIsNoLess(cfg: Config, tools: Toolbox, base: seq<Chunk>)
    ensures var recorded, settled := SettingOf(cfg, tools, base).recorded, Replay(NOTHING, Settled(base)).messages;
            && (!cfg.resume ==> recorded == [])
            && (cfg.resume ==> |settled| <= |recorded| && (settled == recorded <==> !ForgetsTail(base)))
  {
    ForgetsTailIff(base);
  }

  /**
   At every loop head and every request to the model, of every run on any log, the log gives back the
   whole history in memory exactly if what had settled in it is what the run started with and the
   calls this run's records ask for are unambiguous.  Both can be read off the file.
   */
  lemma RebuildAgreesIff(cfg: Config, tools: Toolbox, base: seq<Chunk>, x: Moment)
    requires MomentOk(SettingOf(cfg, tools, base), x) && !x.Invoking?
    ensures var recorded, settled := SettingOf(cfg, tools, base).recorded, Replay(NOTHING, Settled(base));
            Replay(NOTHING, Readable(x.snap.chunks)).messages == recorded + Spoken(x.snap.entries)
            <==>
            && settled.messages == recorded
            && Unambiguous(tools.codec, settled.seen, Asked(EventsOf(x.snap.chunks[|base|..])))
  {
    var g, s, settled := SettingOf(cfg, tools, base), x.snap, Replay(NOTHING, Settled(base));
    LogAtMoment(g, x);
    AnsweredAreAsked(tools.codec, s.produced, s.entries);
    assert RepliedTo(s.entries) == Asked(s.produced);
    HistoryAsks(g, x);
    RecordedIsNoLess(cfg, tools, base);
    hide MomentOk, Replay, Readable, Settled, ForgetsTail, NoneDropped, Unambiguous, Recalled, Spoken, Orderly, AllAsk;
    NoneDroppedIff(tools.codec, settled, s.entries);
    RecalledIsHistoryIff(tools.codec, settled, s.entries, g.recorded);
  }

  /** For a resumed run: exactly if no call is ambiguous and it was not resumed from a message the log then lost. */
  lemma ResumeAgreesIff(cfg: Config, tools: Toolbox, base: seq<Chunk>, x: Moment)
    requires MomentOk(SettingOf(cfg, tools, base), x) && !x.Invoking?
    requires cfg.resume
    ensures Replay(NOTHING, Readable(x.snap.chunks)).messages
            == SettingOf(cfg, tools, base).recorded + Spoken(x.snap.entries)
            <==>
            && !ForgetsTail(base)
            && Unambiguous(tools.codec, Replay(NOTHING, Settled(base)).seen, Asked(EventsOf(x.snap.chunks[|base|..])))
  {
    hide MomentOk, Replay, Readable, Settled, ForgetsTail, Unambiguous, Spoken, SettingOf;
    RebuildAgreesIff(cfg, tools, base, x);
    RecordedIsNoLess(cfg, tools, base);
  }

  /** A run that does not resume, on a log in which some message had settled, never agrees with its log. */
  lemma FreshRunsDisagree(cfg: Config, tools: Toolbox, base: seq<Chunk>, x: Moment)
    requires MomentOk(SettingOf(cfg, tools, base), x) && !x.Invoking?
    requires !cfg.resume && Replay(NOTHING, Settled(base)).messages != []
    ensures Replay(NOTHING, Readable(x.snap.chunks)).messages
            != SettingOf(cfg, tools, base).recorded + Spoken(x.snap.entries)
  {
    hide MomentOk, Replay, Readable, Settled, ForgetsTail, Unambiguous, Spoken, SettingOf;
    RebuildAgreesIff(cfg, tools, base, x);
    RecordedIsNoLess(cfg, tools, base);
  }

  lemma EmptyFileSaysNothing()
    ensures TailOf([]) == LogTail(0, 0) && Replay(NOTHING, []).messages == []
  {
  }

  /**
   What a fresh scan finds at a loop head.  If the run counts on from the log: its counters, iff the
   log was not torn or a turn was taken.  If it does not resume: its counters, iff those that had
   settled do not exceed them, or, with its run_start lost and nothing after it, iff they are the same.
   */
  lemma RescanAgreesIff(cfg: Config, tools: Toolbox, base: seq<Chunk>, x: Moment)
    requires MomentOk(SettingOf(cfg, tools, base), x) && x.AtHead?
    ensures cfg.resume || Readable(base) == [] ==>
              (TailOf(Readable(x.snap.chunks)) == LogTail(x.number, x.turn) <==>
                 Clean(base) || TurnCount(x.snap.produced) > 0)
    ensures !cfg.resume ==>
              var settled := TailOf(Settled(base));
              TailOf(Readable(x.snap.chunks)) == LogTail(x.number, x.turn) <==>
                if Clean(base) || TurnCount(x.snap.produced) > 0
                then settled.number <= x.number && settled.turn <= x.turn
                else settled == LogTail(x.number, x.turn)
  {
    hide MomentOk, Readable, Settled, TailOf, TurnCount, AllWritten, Trace, Replay, LastStart, RulesOf;
    var g := SettingOf(cfg, tools, base);
    EmptyFileSaysNothing();
    var own := HeadIsWritten(g, x);
    if cfg.resume || Readable(base) == [] {
      RescanFindsCountersIff(g.rules, g.start, base, own, x.snap.produced);
    }
    if !cfg.resume {
      FreshRescanFindsCountersIff(g.rules, base, own, x.snap.produced);
    }
  }

  /** What a loop head says of the run's part of the file. */
  lemma HeadIsWritten(g: Setting, x: Moment) returns (own: seq<Chunk>)
    requires MomentOk(g, x) && x.AtHead?
    ensures AllWritten(g.rules, g.start, own, x.snap.produced) && x.snap.chunks == g.base + own
    ensures x.snap.produced[|x.snap.produced| - 1].number == x.number
    ensures var m := Trace(g.rules, Start(g.start.turn), x.snap.produced).value; m.phase.Head? && m.turn == x.turn
  {
    CaughtIsWritten(g, x.snap);
    own := OwnPart(g, x.snap);
  }

  // ----- write-ahead, and a crash -----

  /**
   What a moment leaves behind for good: its records, the intent of the tool about to run, and, for
   the next resume, every message that could be rebuilt at that moment.
   */
  ghost predicate Outlives(x: Moment, left: seq<Chunk>) {
    && x.snap.chunks <= left
    && (x.Invoking? ==> x.snap.produced != [] && x.snap.produced[|x.snap.produced| - 1] in Readable(left))
    && Replay(NOTHING, Readable(x.snap.chunks)).messages <= Replay(NOTHING, Readable(left)).messages
  }

  lemma {:induction false} SettledGrows(a: seq<Chunk>, b: seq<Chunk>)
    ensures Settled(a) <= Settled(a + b)
  {
    if b == [] {
      assert a + b == a;
    } else {
      hide Settled;
      var shorter, c := b[..|b| - 1], b[|b| - 1];
      SettledGrows(a, shorter);
      assert a + b == (a + shorter) + [c];
      SettledStep(a + shorter, c);
    }
  }

  lemma {:induction false} ReplayGrows(c: Convo, a: seq<Event>, b: seq<Event>)
    ensures Replay(c, a).messages <= Replay(c, a + b).messages
  {
    if b == [] {
      assert a + b == a;
    } else {
      var shorter, e := b[..|b| - 1], b[|b| - 1];
      ReplayGrows(c, a, shorter);
      assert a + b == (a + shorter) + [e];
      ReplayStep(c, a + shorter, e);
    }
  }

  /** From a file that ends at a line boundary a longer one rebuilds at least as much. */
  lemma RebuildGrows(chunks: seq<Chunk>, left: seq<Chunk>)
    requires Clean(chunks) && chunks <= left
    ensures Replay(NOTHING, Readable(chunks)).messages <= Replay(NOTHING, Readable(left)).messages
  {
    var b := left[|chunks|..];
    assert left == chunks + b;
    hide Readable, Settled, Replay;
    ReadableIsSettledPlus(chunks);
    ReadableIsSettledPlus(left);
    SettledGrows(chunks, b);
    var kept, found := Settled(chunks), Readable(left);
    assert kept <= found;
    assert found == kept + found[|kept|..];
    ReplayGrows(NOTHING, kept, found[|kept|..]);
  }

  /** Every moment outlives whatever comes later and keeps what was durable at it. */
  lemma MomentOutlives(g: Setting, x: Moment, left: seq<Chunk>)
    requires MomentOk(g, x) && x.snap.chunks[..x.snap.synced] <= left
    ensures Outlives(x, left)
  {
    var s := x.snap;
    assert s.chunks[..s.synced] == s.chunks;
    CaughtIsWritten(g, s);
    assert s.chunks[|s.chunks| - 1] == OwnPart(g, s)[|OwnPart(g, s)| - 1];
    RebuildGrows(s.chunks, left);
    if x.Invoking? {
      LastIsFound(g, s, left);
    }
  }

  lemma LastIsFound(g: Setting, s: Snap, left: seq<Chunk>)
    requires Caught(g, s) && s.chunks <= left
    requires IsIntent(s.produced[|s.produced| - 1].payload)
    ensures s.produced[|s.produced| - 1] in Readable(left)
  {
    CaughtIsWritten(g, s);
    var own, i := OwnPart(g, s), |s.chunks| - 1;
    TraceOpens(g.rules, g.start.turn, s.produced);
    assert |own| == |s.produced| > 1;
    assert s.chunks[i] == own[|own| - 1] && s.chunks[i - 1] == own[|own| - 2];
    assert left[i] == s.chunks[i] && left[i - 1] == s.chunks[i - 1];
    assert s.produced[|s.produced| - 1] == EventsOf(own)[|own| - 1];
    LegibleIsFound(left, |left|, i);
    ReadableIsLegible(left);
  }
}
