/** `agent.go`: the agent loop over its log, with every outside answer left open. */
module AgentLoop {
  import opened Wrappers
  import opened JsonValues
  import opened Messages
  import opened Compaction
  import opened Validate
  import opened Events
  import opened Grammar
  import opened Tools
  import opened Memory
  import opened LogLife
  import opened Moments

  datatype Reply = Reply(message: Message, tokens: int)

  /** How a run ended: an error that leaves no run_end, or a reason that run_end was asked to record. */
  datatype Exit = BootstrapError | LogError | DispatchError | Ended(reason: Reason)

  /** What a run returns: nothing, a text, the value given to finish, or a note of why it stopped. */
  datatype Final = Nothing | Text(text: string) | Value(value: Json) | Stopped(reason: Reason)

  /** What one record adds to the sums. */
  lemma SumsStep(es: seq<Event>, e: Event)
    ensures TurnCount(es + [e]) == TurnCount(es) + if e.payload.Turn? then 1 else 0
    ensures TokenSum(es + [e]) == TokenSum(es) + if e.payload.Llm? then e.payload.tokens else 0
    ensures CallSum(es + [e]) == CallSum(es) + if e.payload.Llm? then |e.payload.message.toolCalls| else 0
  {
    assert (es + [e])[..|es + [e]| - 1] == es;
  }

  ghost function Moved(rules: Rules, m: Mark, p: Payload): Mark
    requires Marshals(rules.codec, p) ==> Next(rules, m, p).Some?
  {
    if Marshals(rules.codec, p) then Next(rules, m, p).value else m
  }

  /** Records in order, within limits, and accounting for a history. */
  ghost predicate InOrder(rules: Rules, turn: nat, limits: Limits, es: seq<Event>, m: Mark, h: seq<Entry>) {
    && Trace(rules, Start(turn), es) == Some(m)
    && Accounts(rules.codec, es, h)
    && WithinLimits(limits, es)
  }

  /** A record that may come next keeps them so. */
  lemma InOrderStep(rules: Rules, turn: nat, limits: Limits, es: seq<Event>, m: Mark, h: seq<Entry>, e: Event)
    requires InOrder(rules, turn, limits, es, m, h)
    requires Marshals(rules.codec, e.payload) ==> Next(rules, m, e.payload).Some?
    requires e.payload.Turn? ==> MayStartTurn(limits, es)
    requires forall x | x in Adds(e.payload) :: Fits(h, x)
    ensures var es' := Attempted(rules.codec, es, e);
            && InOrder(rules, turn, limits, es', Moved(rules, m, e.payload), h + Adds(e.payload))
            && TurnCount(es') == TurnCount(es) + (if e.payload.Turn? then 1 else 0)
            && TokenSum(es') == TokenSum(es) + (if e.payload.Llm? then e.payload.tokens else 0)
            && CallSum(es') == CallSum(es) + (if e.payload.Llm? then |e.payload.message.toolCalls| else 0)
  {
    hide Accounts, Fits, Adds;
    AccountsStep(rules.codec, es, h, e);
    if Marshals(rules.codec, e.payload) {
      TraceStep(rules, Start(turn), es, e);
      WithinLimitsStep(limits, es, e);
      SumsStep(es, e);
    }
  }

  /** A run has two records once it has left its start and the head of its loop. */
  lemma TwoRecordsByThen(rules: Rules, turn: nat, es: seq<Event>)
    requires Trace(rules, Start(turn), es).Some?
    requires var ph := Trace(rules, Start(turn), es).value.phase; !ph.Opening? && !ph.Head?
    ensures |es| > 1
  {
    TraceOpens(rules, turn, es);
    assert es[..0] == [];
  }

  /** The first two records are the first two attempts. */
  ghost predicate Prompt(es: seq<Event>, low: nat, number: nat) {
    StartsAt(es, low) && (|es| < 2 ==> number == low + |es|)
  }

  lemma PromptStep(rules: Rules, turn: nat, limits: Limits, es: seq<Event>, m: Mark, h: seq<Entry>,
                   low: nat, e: Event)
    requires InOrder(rules, turn, limits, es, m, h)
    requires e.number > 0 && Prompt(es, low, e.number - 1)
    requires m.phase.Opening? || m.phase.Head? ==> Marshals(rules.codec, e.payload)
    ensures Prompt(Attempted(rules.codec, es, e), low, e.number)
  {
    if !m.phase.Opening? && !m.phase.Head? {
      TwoRecordsByThen(rules, turn, es);
    }
  }

  /** With a call at the front of what is left, either it leaves no record or the mark is settled on it. */
  lemma DealingStep(rules: Rules, m: Mark, rest: seq<ToolCall>, k: nat)
    requires m.phase.Calls? && rest != []
    requires Settle(rules, m) == Settle(rules, m.(phase := Calls(rest), attempts := k))
    ensures Silent(rules, rest[0]) ==>
              Settle(rules, m) == Settle(rules, m.(phase := Calls(rest[1..]), attempts := k + 1))
    ensures !Silent(rules, rest[0]) ==> Settle(rules, m) == m.(phase := Calls(rest), attempts := k)
  {
  }

  lemma NextUnknown(rules: Rules, m: Mark, rest: seq<ToolCall>, k: nat, p: Payload)
    requires m.phase.Calls? && rest != []
    requires Settle(rules, m) == Settle(rules, m.(phase := Calls(rest), attempts := k))
    requires rules.judge(rest[0]) == Unknown && Recordable(rules.codec, rest[0])
    requires Refusal(p, rest[0], Status.Error, m.run, k + 1)
    ensures Next(rules, m, p) == Some(m.(phase := Calls(rest[1..]), attempts := k + 1))
  {
    DealingStep(rules, m, rest, k);
  }

  lemma NextRejected(rules: Rules, m: Mark, rest: seq<ToolCall>, k: nat)
    requires m.phase.Calls? && rest != []
    requires Settle(rules, m) == Settle(rules, m.(phase := Calls(rest), attempts := k))
    requires rules.judge(rest[0]) == Rejected
    ensures Next(rules, m, Log(Warning)) == Some(m.(
              phase := if Recordable(rules.codec, rest[0]) then Warned(rest[0], rest[1..]) else Calls(rest[1..]),
              attempts := k + 1))
  {
    DealingStep(rules, m, rest, k);
  }

  lemma NextWarned(rules: Rules, m: Mark, p: Payload)
    requires m.phase.Warned? && Refusal(p, m.phase.call, Invalid, m.run, m.attempts)
    ensures Next(rules, m, p) == Some(m.(phase := Calls(m.phase.rest)))
  {
  }

  lemma NextRunnable(rules: Rules, m: Mark, rest: seq<ToolCall>, k: nat, p: Payload)
    requires m.phase.Calls? && rest != []
    requires Settle(rules, m) == Settle(rules, m.(phase := Calls(rest), attempts := k))
    requires rules.judge(rest[0]) == Runnable
    requires RecordOf(p, rest[0], Intent, m.run, k)
    ensures Next(rules, m, p) == Some(m.(phase := Running(rest[0], rest[1..]), attempts := k + 1))
  {
    DealingStep(rules, m, rest, k);
  }

  lemma NextResult(rules: Rules, m: Mark, p: Payload)
    requires m.phase.Running? && Result(p, m.phase.call, m.run, m.attempts)
    ensures Next(rules, m, p) == Some(m.(phase := Calls(m.phase.rest)))
  {
  }

  lemma NextOutput(rules: Rules, m: Mark, v: Json)
    requires m.phase.Running? && m.phase.call.name == rules.finish
    requires CarriesOutput(rules.codec, m.phase.call.arguments, v)
    ensures Next(rules, m, Payload.Finish(Decoded(v))) == Some(m.(phase := Closing(Finished)))
  {
  }

  lemma NextEnd(rules: Rules, m: Mark, reason: Reason)
    requires || (m.phase.Head? && OfLimit(reason))
             || (m.phase.Failed? && reason == LlmError)
             || m.phase == Closing(reason)
    ensures Next(rules, m, RunEnd(reason)) == Some(m.(phase := Closed))
  {
  }

  lemma NextReply(rules: Rules, m: Mark, p: Payload)
    requires m.phase.Thinking? && p.Llm? && p.turn == m.turn
    ensures Next(rules, m, p) == Some(m.(phase :=
              if p.message.toolCalls == [] then Answering(p.message.content) else Calls(p.message.toolCalls)))
  {
  }

  /** What reached the file of a run's records is a segment in order. */
  lemma SegmentOfRun(tools: Toolbox, t: LogTail, own: seq<Chunk>, produced: seq<Event>, h: seq<Entry>,
                     broken: bool, high: nat)
    requires Tracks(own, produced, broken)
    requires CountsUp(produced, t.number, high) && StartsAt(produced, t.number)
    requires Trace(RulesOf(tools), Start(t.turn), produced).Some?
    requires Accounts(tools.codec, produced, h)
    ensures SegmentFrom(t, Session(tools, own, h))
  {
    var k := |EventsOf(own)|;
    assert EventsOf(own) == produced[..k];
    TracePrefix(RulesOf(tools), Start(t.turn), produced, k);
    CountsUpRises(produced, t.number, high);
    RisingPrefix(produced, t.number, k);
    AddedPrefix(produced, k);
  }

  /** Between turns, and when the model answers without calls, every call asked for has been dealt with. */
  lemma AllDealtWith(rules: Rules, turn: nat, limits: Limits, es: seq<Event>, m: Mark, h: seq<Entry>)
    requires InOrder(rules, turn, limits, es, m, h)
    requires m.phase.Head? || m.phase.Thinking? || m.phase.Answering?
    ensures m.attempts == CallSum(es)
  {
    TraceCountsCalls(rules, turn, es);
  }

  lemma NextAfterCalls(rules: Rules, m: Mark, k: nat)
    requires m.phase.Calls?
    requires Settle(rules, m) == Settle(rules, m.(phase := Calls([]), attempts := k))
    ensures Next(rules, m, TurnEnd(m.turn)) == Some(m.(phase := Head, attempts := k))
  {
  }

  // ----- what may be noted -----

  /** With nothing lost to an error, and everything synced, the state of a run is one to note. */
  lemma IsCaught(g: Setting, own: seq<Chunk>, m: Mark, high: nat, s: Snap)
    requires Tracks(own, s.produced, false) && s.produced != []
    requires s.chunks == g.base + own && s.synced == |s.chunks|
    requires CountsUp(s.produced, g.start.number, high)
    requires InOrder(g.rules, g.start.turn, g.limits, s.produced, m, s.entries)
    ensures Caught(g, s)
  {
    hide Trace, Accounts, WithinLimits;
    AllDurableOnTop(g.base, own, s.produced);
    CountsUpRises(s.produced, g.start.number, high);
  }

  lemma HeadIsOk(g: Setting, m: Mark, s: Snap, number: nat, xs: seq<Moment>)
    requires Caught(g, s) && InOrder(g.rules, g.start.turn, g.limits, s.produced, m, s.entries)
    requires m.phase.Head? && Waiting(s.entries) == [] && Displays(g, s)
    requires s.produced[|s.produced| - 1].number == number
    requires MomentsOk(g, xs, s.chunks, s.synced) && Complete(xs, s.produced)
    ensures var xs' := xs + [AtHead(s, number, m.turn)];
            MomentsOk(g, xs', s.chunks, s.synced) && Complete(xs', s.produced)
  {
    CompleteMore(xs, AtHead(s, number, m.turn), s.produced);
    hide Caught, Displays, Waiting, Accounts, WithinLimits, Trace, Complete;
    MomentsStep(g, xs, AtHead(s, number, m.turn));
  }

  lemma AskingIsOk(g: Setting, s: Snap, xs: seq<Moment>)
    requires Caught(g, s) && Waiting(s.entries) == [] && Displays(g, s) && InBounds(g.limits, s.messages)
    requires s.produced[|s.produced| - 1].payload.Turn?
    requires MomentsOk(g, xs, s.chunks, s.synced) && Complete(xs, s.produced)
    ensures MomentsOk(g, xs + [Asking(s)], s.chunks, s.synced) && Complete(xs + [Asking(s)], s.produced)
  {
    CompleteMore(xs, Asking(s), s.produced);
    hide Caught, Displays, Waiting, InBounds, Complete;
    MomentsStep(g, xs, Asking(s));
  }

  lemma InvokingIsOk(g: Setting, s: Snap, call: ToolCall, xs: seq<Moment>)
    requires Caught(g, s)
    requires Waiting(s.entries) != [] && Waiting(s.entries)[0] == RequestOf(call)
    requires var p := s.produced[|s.produced| - 1].payload;
             IsIntent(p) && p.callId == call.id && p.name == call.name && p.args == call.arguments
    requires MomentsOk(g, xs, s.chunks, s.synced) && Complete(xs, s.produced)
    ensures MomentsOk(g, xs + [Invoking(s, call)], s.chunks, s.synced) && Complete(xs + [Invoking(s, call)], s.produced)
  {
    CompleteMore(xs, Invoking(s, call), s.produced);
    hide Caught, Waiting, Complete;
    MomentsStep(g, xs, Invoking(s, call));
  }

  /** Before the first record everything is accounted for. */
  lemma NothingWritten(rules: Rules, turn: nat, limits: Limits)
    ensures InOrder(rules, turn, limits, [], Start(turn), [])
    ensures TurnCount([]) == 0 && TokenSum([]) == 0 && Waiting([]) == []
  {
  }

  lemma NothingSaid(pinned: seq<Message>, recorded: seq<Message>)
    requires |pinned| == PINNED
    ensures Shows(pinned + recorded, pinned, Entire, recorded + Spoken([]))
  {
    assert recorded + Spoken([]) == recorded;
  }

  lemma RequestsStep(tc: ToolCall, rest: seq<ToolCall>)
    ensures Requests([tc] + rest) == [RequestOf(tc)] + Requests(rest)
  {
  }

  /**
   This is the reply to a call: the error for an unknown tool or for rejected arguments, and for a call
   that ran the very text its tool answered.
   */
  ghost predicate AnswersCall(verdict: Verdict, tc: ToolCall, reply: Entry, answers: seq<Heard>) {
    && reply.Replied? && reply.call == RequestOf(tc)
    && match verdict {
         case Unknown => answers == [] && reply.text == "error: unknown tool " + tc.name
         case Rejected => answers == [] && "invalid arguments: " <= reply.text
         case Runnable =>
           |answers| == 1 && answers[0].FromTool? && answers[0].call == RequestOf(tc) && answers[0].content == reply.text
       }
  }

  /** These are the replies to these calls, in order, given what the tools that ran answered, in order. */
  ghost predicate RepliesTo(rules: Rules, calls: seq<ToolCall>, replies: seq<Entry>, answers: seq<Heard>) {
    if calls == [] then replies == [] && answers == []
    else
      var tc := calls[|calls| - 1];
      var ran := if rules.judge(tc) == Runnable then 1 else 0;
      && replies != [] && ran <= |answers|
      && AnswersCall(rules.judge(tc), tc, replies[|replies| - 1], answers[|answers| - ran..])
      && RepliesTo(rules, calls[..|calls| - 1], replies[..|replies| - 1], answers[..|answers| - ran])
  }

  /** Transcript, history and answers have gained the replies to these calls. */
  datatype Gain = Gain(messages: seq<Message>, entries: seq<Entry>, heard: seq<Heard>)

  ghost predicate Gained(rules: Rules, before: Gain, after: Gain, calls: seq<ToolCall>) {
    && before.entries <= after.entries && before.heard <= after.heard
    && var replies := after.entries[|before.entries|..];
    && after.messages == before.messages + Spoken(replies)
    && RepliesTo(rules, calls, replies, after.heard[|before.heard|..])
  }

  lemma NothingGained(rules: Rules, g: Gain)
    ensures Gained(rules, g, g, [])
  {
  }

  lemma OneGained(rules: Rules, before: Gain, tc: ToolCall, reply: Entry, answers: seq<Heard>)
    requires AnswersCall(rules.judge(tc), tc, reply, answers)
    ensures Gained(rules, before,
                   Gain(before.messages + [MessageOf(reply)], before.entries + [reply], before.heard + answers), [tc])
  {
    var after := Gain(before.messages + [MessageOf(reply)], before.entries + [reply], before.heard + answers);
    assert after.entries[|before.entries|..] == [reply] && after.heard[|before.heard|..] == answers;
    assert [reply][..0] == [] && [tc][..0] == [];
    assert answers[..0] == [] && answers[|answers| - |answers|..] == answers;
    assert Spoken([reply]) == [MessageOf(reply)];
    assert RepliesTo(rules, [], [], []);
    assert [tc][|[tc]| - 1] == tc && [reply][|[reply]| - 1] == reply;
  }

  lemma OneMoreGained(rules: Rules, before: Gain, now: Gain, after: Gain, calls: seq<ToolCall>, tc: ToolCall)
    requires Gained(rules, before, now, calls) && Gained(rules, now, after, [tc])
    ensures Gained(rules, before, after, calls + [tc])
  {
    hide RepliesTo, Spoken, AnswersCall;
    var first, last := now.entries[|before.entries|..], after.entries[|now.entries|..];
    var heard, more := now.heard[|before.heard|..], after.heard[|now.heard|..];
    OneReplyOnly(rules, tc, last, more);
    assert last == [last[0]];
    assert after.entries[|before.entries|..] == first + last;
    assert after.heard[|before.heard|..] == heard + more;
    SpokenStep(first, last[0]);
    SpokenOne(last[0]);
    assert (before.messages + Spoken(first)) + Spoken(last) == before.messages + (Spoken(first) + Spoken(last));
    RepliesGrow(rules, calls, first, heard, tc, last[0], more);
  }

  lemma SpokenOne(x: Entry)
    ensures Spoken([x]) == [MessageOf(x)]
  {
    assert [x][..0] == [];
  }

  lemma OneReplyOnly(rules: Rules, tc: ToolCall, replies: seq<Entry>, answers: seq<Heard>)
    requires RepliesTo(rules, [tc], replies, answers)
    ensures |replies| == 1 && AnswersCall(rules.judge(tc), tc, replies[0], answers)
  {
    assert [tc][..0] == [];
    var ran := if rules.judge(tc) == Runnable then 1 else 0;
    assert replies[..|replies| - 1] == [] && answers[..|answers| - ran] == [];
    assert answers[|answers| - ran..] == answers;
  }

  lemma RepliesGrow(rules: Rules, calls: seq<ToolCall>, replies: seq<Entry>, answers: seq<Heard>,
                    tc: ToolCall, reply: Entry, more: seq<Heard>)
    requires RepliesTo(rules, calls, replies, answers) && AnswersCall(rules.judge(tc), tc, reply, more)
    ensures RepliesTo(rules, calls + [tc], replies + [reply], answers + more)
  {
    AnswerCount(rules.judge(tc), tc, reply, more);
    hide AnswersCall;
    assert (calls + [tc])[..|calls|] == calls && (replies + [reply])[..|replies|] == replies;
    assert (answers + more)[..|answers|] == answers && (answers + more)[|answers|..] == more;
  }

  lemma AnswerCount(verdict: Verdict, tc: ToolCall, reply: Entry, answers: seq<Heard>)
    requires AnswersCall(verdict, tc, reply, answers)
    ensures |answers| == if verdict == Runnable then 1 else 0
  {
  }

  /** A reply as the model sees it: a tool message that names its call. */
  lemma RepliesAreToolMessages(call: Request, text: string)
    ensures var m := MessageOf(Replied(call, text));
            && m.role == "tool" && m.toolCallId == call.id && m.name == call.name && m.content == text
            && m.parts == [] && m.toolCalls == []
  {
  }

  /** What asking the model came to. */
  function Outcome(reply: Option<Reply>): Heard {
    match reply
    case Some(r) => FromModel(r.message, r.tokens)
    case None => NoReply
  }

  class Agent {
    const cfg: Config
    const tools: Toolbox
    const log: EventLog
    var messages: seq<Message>
    var runId: string
    var turnsThisRun: nat
    var turnNumber: nat
    var totalTokens: int
    var toolInvocations: nat
    var finishSet: bool
    var finishOutput: Option<Json>  // None: raw text that is no decodable value
    var finishInvalid: seq<seq<Error>>
    var floors: seq<nat>          // how much of the file was durable at each moment noted
    ghost const setting: Setting  // what the run starts from
    ghost var mark: Mark          // where the records of this run have got to
    ghost var view: View          // what of the history is shown
    ghost var entries: seq<Entry> // what this run added to the history
    ghost var moments: seq<Moment>
    ghost var heard: seq<Heard>   // what the model and the tools answered

    /** The constants are what they are taken to be. */
    ghost predicate Grounded() {
      log.codec == tools.codec && setting == SettingOf(cfg, tools, log.base)
    }

    /** The records written so far are in order, within limits, and account for the history. */
    ghost predicate Core()
      reads `mark, `entries, `moments, `floors, log, log.file
    {
      && log.Valid()
      && log.base == setting.base && log.origin == setting.start.number
      && log.codec == setting.rules.codec && cfg.limits == setting.limits
      && InOrder(setting.rules, setting.start.turn, setting.limits, log.produced, mark, entries)
      && Prompt(log.produced, log.origin, log.number)
      && NotedSoFar()
      && Complete(moments, log.produced)
    }

    /** Every moment noted is as it should be, and what was durable at each is remembered. */
    ghost predicate NotedSoFar()
      reads `moments, `floors, log.file
    {
      && MomentsOk(setting, moments, log.file.chunks, log.file.synced)
      && |floors| == |moments|
      && forall i | 0 <= i < |floors| :: floors[i] == moments[i].snap.synced
    }

    /** The records tell of every answer so far, and of nothing else. */
    ghost predicate Transcribed()
      reads `heard, log`produced
    {
      heard == Told(log.produced)
    }

    /** There is one more answer, that the next record has to tell of. */
    ghost predicate ToTell(x: Heard)
      reads `heard, log`produced
    {
      heard == Told(log.produced) + [x]
    }

    /** What a record written now tells of. */
    ghost function News(p: Payload): seq<Heard>
      reads `mark
    {
      if Marshals(setting.rules.codec, p) then Telling(mark.phase, p) else []
    }

    /** The moment that the next record will tell of has been noted. */
    ghost predicate Warranted()
      reads `mark, `moments, log`produced
    {
      Due(moments, log.produced, mark.phase)
    }

    /** The transcript, history and answers of now. */
    ghost function Held(): Gain
      reads `messages, `entries, `heard
    {
      Gain(messages, entries, heard)
    }

    /** The whole history, as if nothing had ever been compacted. */
    ghost function History(): seq<Message>
      reads `entries
    {
      setting.recorded + Spoken(entries)
    }

    /** What is in memory to be shown to the model is a view of the history, behind prompt and goal. */
    ghost predicate Presented()
      reads `messages, `view, `entries
    {
      Shows(messages, setting.pinned, view, History())
    }

    /** The counters in memory are those of the records written. */
    ghost predicate Counted()
      reads `mark, `runId, `turnNumber, `turnsThisRun, `totalTokens, log`produced
    {
      && mark.run == runId
      && mark.turn == turnNumber
      && turnsThisRun == TurnCount(log.produced)
      && totalTokens == TokenSum(log.produced)
    }

    constructor (cfg: Config, tools: Toolbox, log: EventLog)
      requires log.Valid() && log.codec == tools.codec && log.produced == []
      requires log.number == 0 && log.origin == 0
      ensures this.cfg == cfg && this.tools == tools && this.log == log
      ensures Grounded() && Untouched() && turnNumber == 0
    {
      this.cfg, this.tools, this.log := cfg, tools, log;
      messages, runId := [], "";
      turnsThisRun, turnNumber, totalTokens, toolInvocations := 0, 0, 0, 0;
      finishSet, finishOutput, finishInvalid := false, None, [];
      mark, view, entries, moments, floors, heard := Start(0), Entire, [], [], [], [];
      setting := SettingOf(cfg, tools, log.base);
    }

    /** As constructed: nothing has been loaded, counted or written. */
    ghost predicate Untouched()
      reads `turnsThisRun, `totalTokens, `toolInvocations, `finishSet, `finishInvalid,
            `entries, `moments, `floors, `heard, `view, log, log.file
    {
      && log.Valid() && log.produced == []
      && turnsThisRun == 0 && totalTokens == 0 && toolInvocations == 0
      && !finishSet && finishInvalid == []
      && entries == [] && moments == [] && floors == [] && heard == [] && view == Entire
    }

    lemma GroundedSetting()
      requires Grounded()
      ensures log.codec == tools.codec == setting.rules.codec && setting.rules.finish == "finish"
      ensures log.base == setting.base && cfg.limits == setting.limits
      ensures |setting.pinned| == PINNED
    {
    }

    /** The run keeps the name in the last run_start, if there is one and it is not empty, or else this one. */
    ghost predicate TellsRun(drawn: string)
      reads `runId
    {
      var es := Readable(log.base);
      && (forall i | LatestStart(es, i) :: runId == if es[i].payload.runId != "" then es[i].payload.runId else drawn)
      && ((forall i | 0 <= i < |es| :: !es[i].payload.RunStart?) ==> runId == drawn)
    }

    lemma RunIsTold(base: seq<Chunk>)
      ensures forall i | LatestStart(Readable(base), i) :: LastStart(Readable(base)) == Readable(base)[i].payload
      ensures (forall i | 0 <= i < |Readable(base)| :: !Readable(base)[i].payload.RunStart?) ==>
                LastStart(Readable(base)) == RunStart("", "", "")
    {
      hide Readable, LastStart;
      var last := SomeStartIsLatest(Readable(base));
      forall i | LatestStart(Readable(base), i) ensures LastStart(Readable(base)) == Readable(base)[i].payload {
        LastStartIsLatest(Readable(base), i);
      }
    }

    /** The transcript, from the log. */
    method Rebuild() returns (ok: bool)
      requires cfg.resume && Grounded() && log.Valid() && log.produced == []
      modifies `messages, `runId
      ensures ok ==> log.openable
      ensures ok ==> TellsRun(old(runId))
      ensures ok ==> messages == setting.pinned + setting.recorded
      ensures ok ==> BeginsRight(cfg, Readable(log.base), messages)
    {
      hide LastStart, Replay, Readable, TailOf, RulesOf, Pinned;
      assert log.file.chunks == log.base;
      var breaks := *;
      var r := LoadTranscript(log.file, log.openable, breaks);
      if r.None? {
        return false;
      }
      var lt := r.value;
      messages := Pinned(cfg.systemPrompt, if lt.goal != "" then lt.goal else cfg.goal) + lt.messages;
      if lt.runId != "" {
        runId := lt.runId;
      }
      RunIsTold(log.base);
      PinnedBeginsRight(cfg, tools, log.base, setting.recorded);
      return true;
    }

    /** Both numberings, from the log's tail. */
    method TakeUpNumbers() returns (ok: bool)
      requires cfg.resume && Grounded() && Untouched() && log.openable
      modifies `turnNumber, log`tail, log`number, log`origin
      ensures Untouched()
      ensures ok ==> log.origin == log.number == setting.start.number && turnNumber == setting.start.turn
    {
      hide LastStart, Replay, Readable, TailOf, RulesOf, Pinned;
      var breaks := *;
      ok := log.ResumeSeq(breaks);
      if !ok {
        return;
      }
      var lastTurn := log.ResumeTurn(breaks);
      if lastTurn.None? {
        return false;
      }
      turnNumber := lastTurn.value;
    }

    /** The resuming half of `bootstrap`: rebuild the transcript and take up both numberings. */
    method Resume() returns (ok: bool)
      requires cfg.resume && Grounded() && Untouched()
      modifies `messages, `runId, `turnNumber, log`tail, log`number, log`origin
      ensures Untouched()
      ensures ok ==> log.origin == log.number == setting.start.number && turnNumber == setting.start.turn
      ensures ok ==> messages == setting.pinned + setting.recorded && BeginsRight(cfg, Readable(log.base), messages)
      ensures ok ==> TellsRun(old(runId))
    {
      hide Grounded, BeginsRight, TellsRun;
      ok := Rebuild();
      if ok {
        ok := TakeUpNumbers();
      }
    }

    /** The other half: just the two pinned messages, whatever the log holds. */
    method Seed()
      requires !cfg.resume && Grounded() && turnNumber == 0 && log.origin == log.number == 0
      modifies `messages
      ensures log.origin == log.number == setting.start.number && turnNumber == setting.start.turn
      ensures messages == setting.pinned + setting.recorded && BeginsRight(cfg, Readable(log.base), messages)
    {
      hide Pinned, RulesOf, Replay, Readable, TailOf, LastStart, BeginsRight;
      PinnedBeginsRight(cfg, tools, log.base, []);
      messages := Pinned(cfg.systemPrompt, cfg.goal);
      assert messages == setting.pinned + [];
    }

    /** With the transcript in place, the run stands before its first record. */
    ghost method Stand()
      requires Untouched() && Grounded()
      requires log.origin == log.number == setting.start.number && turnNumber == setting.start.turn
      requires messages == setting.pinned + setting.recorded
      modifies `mark
      ensures Core() && Presented() && mark == Start(turnNumber)
    {
      GroundedSetting();
      hide Grounded;
      mark := Start(turnNumber);
      NothingWritten(setting.rules, turnNumber, setting.limits);
      NothingSaid(setting.pinned, setting.recorded);
    }

    /** `bootstrap`: seed the transcript, or rebuild it from the log. */
    method Bootstrap() returns (ok: bool)
      requires Grounded() && Untouched() && turnNumber == 0 && log.origin == log.number == 0
      modifies `messages, `runId, `turnNumber, `mark, log`tail, log`number, log`origin
      ensures Untouched()
      ensures ok ==> Core() && Presented() && mark == Start(turnNumber)
      ensures ok ==> messages == setting.pinned + setting.recorded && BeginsRight(cfg, Readable(log.base), messages)
    {
      hide Untouched, Core, Presented, Grounded, BeginsRight, TellsRun;
      runId := *;  // newRunID
      if cfg.resume {
        ok := Resume();
        if !ok {
          return;
        }
      } else {
        Seed();
        ok := true;
      }
      Stand();
    }

    /**
     `log.Append`, with the order of records and the history kept up to date: a record that can
     be marshalled has to be one that may come next.
     */
    method Emit(p: Payload) returns (ok: bool)
      requires Core()
      requires Marshals(setting.rules.codec, p) ==> Next(setting.rules, mark, p).Some?
      requires mark.phase.Opening? || mark.phase.Head? ==> Marshals(setting.rules.codec, p)
      requires Warranted()
      requires p.Turn? ==> MayStartTurn(setting.limits, log.produced)
      requires forall x | x in Adds(p) :: Fits(entries, x)
      modifies this`mark, this`entries, log, log.file
      ensures Core()
      ensures mark == old(Moved(setting.rules, mark, p))
      ensures entries == old(entries) + Adds(p)
      ensures log.number == old(log.number) + 1
      ensures log.produced == Attempted(setting.rules.codec, old(log.produced), Event(log.number, p))
      ensures TurnCount(log.produced) == old(TurnCount(log.produced)) + (if p.Turn? then 1 else 0)
      ensures TokenSum(log.produced) == old(TokenSum(log.produced)) + (if p.Llm? then p.tokens else 0)
      ensures CallSum(log.produced) ==
              old(CallSum(log.produced)) + (if p.Llm? then |p.message.toolCalls| else 0)
      ensures Told(log.produced) == old(Told(log.produced) + News(p))
      ensures ok ==> Marshals(setting.rules.codec, p) && !log.broken && log.file.synced == |log.file.chunks|
    {
      hide InOrder, Prompt, MomentsOk, TurnCount, TokenSum, CallSum, Next, Adds, Fits, MayStartTurn,
           TailOf, Readable, Tracks, CountsUp, Complete, Warranted, Told, Telling;
      ghost var e, chunks, synced := Event(log.number + 1, p), log.file.chunks, log.file.synced;
      ghost var before := log.own;
      InOrderStep(setting.rules, setting.start.turn, setting.limits, log.produced, mark, entries, e);
      PromptStep(setting.rules, setting.start.turn, setting.limits, log.produced, mark, entries, log.origin, e);
      if Marshals(setting.rules.codec, p) {
        CompletelyNoted(p, e);
        NewsIsTold(e);
      }
      var fate: Fate := *;
      ok := log.Append(p, fate);
      mark, entries := Moved(setting.rules, mark, p), entries + Adds(p);
      assert log.file.chunks == log.base + log.own && before <= log.own;
      MomentsStay(setting, moments, chunks, synced, log.file.chunks, log.file.synced);
    }

    lemma NewsIsTold(e: Event)
      requires Core()
      ensures Told(log.produced + [e]) == Told(log.produced) + Telling(mark.phase, e.payload)
    {
      hide Accounts, WithinLimits, Complete, Trace, Prompt, MomentsOk, TailOf, Readable, Tracks, CountsUp, Told, Telling;
      ToldGrows(setting.rules, setting.start.turn, log.produced, mark, e);
    }

    lemma CompletelyNoted(p: Payload, e: Event)
      requires Core() && Warranted() && Next(setting.rules, mark, p).Some? && e.payload == p
      ensures Complete(moments, log.produced + [e])
    {
      hide Accounts, WithinLimits, Complete, Next, Trace, Prompt, MomentsOk, TailOf, Readable, Tracks, CountsUp, Due;
      CompleteStep(setting.rules, setting.start.turn, log.produced, mark, moments, e);
    }

    /** The state of the run as a moment finds it. */
    ghost function Now(): Snap
      reads `messages, `view, `entries, log, log.file
    {
      Snap(log.file.chunks, log.file.synced, log.produced, entries, messages, view)
    }

    ghost predicate Noted(x: Moment)
      reads `moments
    {
      moments != [] && moments[|moments| - 1] == x
    }

    /** Nothing has failed, and everything is durable: a moment can be noted. */
    ghost predicate Calm()
      reads log, log.file
    {
      !log.broken && log.file.synced == |log.file.chunks| && log.produced != []
    }

    lemma NowIsCaught()
      requires Core() && Calm()
      ensures Caught(setting, Now())
    {
      hide InOrder, CountsUp, Tracks, MomentsOk, Caught;
      IsCaught(setting, log.own, mark, log.number, Now());
    }

    /** Note where a loop head finds the log and the memory. */
    method NoteHead()
      requires AtLoopHead()
      modifies `moments, `floors
      ensures AtLoopHead() && Noted(AtHead(Now(), log.number, turnNumber))
    {
      hide InOrder, Caught, MomentsOk, Shows, Prompt, Tracks, CountsUp, Waiting, TurnCount, TokenSum, TailOf, Readable,
           Complete;
      NowIsCaught();
      HeadIsOk(setting, mark, Now(), log.number, moments);
      moments, floors := moments + [AtHead(Now(), log.number, turnNumber)], floors + [log.file.synced];
    }

    /** `ShouldCompact`: near the token budget when one is set, else on a message count. */
    method ShouldCompact() returns (due: bool)
      ensures cfg.limits.maxTokens <= 0 ==> (due <==> |messages| > 40)
      ensures 0 < cfg.limits.maxTokens ==> (due <==> Tokens(messages) > cfg.limits.maxTokens * 8 / 10)
    {
      if cfg.limits.maxTokens > 0 {
        var estimate := EstimateTokens(messages);
        return estimate > cfg.limits.maxTokens * 8 / 10;
      }
      return |messages| > 40;
    }

    /** `Compact`: fold the middle of the transcript; the history it stands for does not change. */
    method Compact() returns (ghost used: Option<string>)
      requires Presented()
      modifies `messages, `view
      ensures Presented()
      ensures messages == Folded(old(messages), SummaryOf(old(messages), used))
      ensures !cfg.llmCompaction ==> used.None?
      ensures |messages| <= PINNED + 1 + RECENT
    {
      hide Placeholder;
      var briefing: Option<string> := *;  // what the model wrote, or that asking it failed
      used := if cfg.llmCompaction then briefing else None;
      ghost var summary := SummaryOf(messages, used);
      if cfg.llmCompaction {
        messages := LlmCompact(messages, briefing);
      } else {
        messages := DefaultCompact(messages);
      }
      FoldingNarrows(setting.pinned, view, History(), summary);
      view := Narrowed(view, History(), summary);
    }

    /** `callLLM`: the endpoint may fail, or answer anything. */
    method CallLlm() returns (reply: Option<Reply>)
      requires Noted(Asking(Now()))
      modifies `heard
      ensures heard == old(heard) + [Outcome(reply)]
    {
      reply := *;
      heard := heard + [Outcome(reply)];
    }

    /** Compact if due: the transcript shown next is within bounds. */
    method CompactIfDue()
      requires Presented()
      modifies `messages, `view
      ensures Presented() && InBounds(cfg.limits, messages)
    {
      hide Presented, Tokens, Folded;
      var due := ShouldCompact();
      if due {
        var _ := Compact();
      }
    }

    /** Then ask the model. */
    method Ask() returns (reply: Option<Reply>)
      requires Core() && Presented() && Calm() && Waiting(entries) == []
      requires log.produced[|log.produced| - 1].payload.Turn?
      requires Transcribed()
      modifies `messages, `view, `moments, `floors, `heard
      ensures Core() && Presented() && Noted(Asking(Now())) && ToTell(Outcome(reply))
    {
      hide InBounds, Shows, InOrder, Caught, MomentsOk, Prompt, Tracks, CountsUp, Waiting, Complete;
      CompactIfDue();
      NowIsCaught();
      AskingIsOk(setting, Now(), moments);
      moments, floors := moments + [Asking(Now())], floors + [log.file.synced];
      reply := CallLlm();
    }

    /** A record that carries no message and starts no turn. */
    method EmitQuiet(p: Payload) returns (ok: bool)
      requires Core() && Adds(p) == [] && !p.Turn? && !p.Llm?
      requires Marshals(setting.rules.codec, p) ==> Next(setting.rules, mark, p).Some?
      requires mark.phase.Opening? || mark.phase.Head? ==> Marshals(setting.rules.codec, p)
      requires Warranted()
      modifies this`mark, this`entries, log, log.file
      ensures Core() && entries == old(entries)
      ensures mark == old(Moved(setting.rules, mark, p))
      ensures log.number == old(log.number) + 1
      ensures log.produced == Attempted(setting.rules.codec, old(log.produced), Event(log.number, p))
      ensures TurnCount(log.produced) == old(TurnCount(log.produced))
      ensures TokenSum(log.produced) == old(TokenSum(log.produced))
      ensures CallSum(log.produced) == old(CallSum(log.produced))
      ensures Told(log.produced) == old(Told(log.produced) + News(p))
      ensures ok ==> Marshals(setting.rules.codec, p) && !log.broken && log.file.synced == |log.file.chunks|
    {
      hide Core, Next, TurnCount, TokenSum, CallSum, Told, News;
      ok := Emit(p);
      assert entries == old(entries);
    }

    // ----- dispatchToolCalls, one method a case -----

    /** The calls from `rest` on are still to be dealt with, and everything before them has been. */
    ghost predicate Dealing(rest: seq<ToolCall>)
      reads `mark, `entries, `toolInvocations
    {
      && mark.phase.Calls?
      && Settle(setting.rules, mark) == Settle(setting.rules, mark.(phase := Calls(rest), attempts := toolInvocations))
      && Waiting(entries) == Requests(rest)
    }

    function ToolRecord(tc: ToolCall, status: Status, stdout: string, error: string): Payload
      reads `runId, `toolInvocations
    {
      Tool(tc.id, Key(runId, tc.id, toolInvocations), tc.name, tc.arguments, status, stdout, "", error)
    }

    /** `recordTool`: a terminal record, whose error is dropped. */
    method RecordTool(tc: ToolCall, status: Status, stdout: string, error: string)
      requires Core() && !mark.phase.Opening? && !mark.phase.Head? && Warranted()
      requires Terminal(status) && Waiting(entries) != [] && Waiting(entries)[0] == RequestOf(tc)
      requires var p := ToolRecord(tc, status, stdout, error);
               Marshals(setting.rules.codec, p) ==> Next(setting.rules, mark, p).Some?
      modifies this`mark, this`entries, log, log.file
      ensures Core()
      ensures TurnCount(log.produced) == old(TurnCount(log.produced))
      ensures TokenSum(log.produced) == old(TokenSum(log.produced))
      ensures log.number == old(log.number) + 1
      ensures var p := ToolRecord(tc, status, stdout, error);
              && mark == old(Moved(setting.rules, mark, ToolRecord(tc, status, stdout, error)))
              && log.produced == Attempted(setting.rules.codec, old(log.produced), Event(log.number, p))
              && entries == old(entries) + [Replied(RequestOf(tc), ReplyText(p))]
      ensures Told(log.produced) == old(Told(log.produced) + News(ToolRecord(tc, status, stdout, error)))
    {
      hide Core, Next, TurnCount, TokenSum, CallSum, Waiting, Told, News;
      var _ := Emit(ToolRecord(tc, status, stdout, error));
    }

    /** Append the message of the newest entry to the transcript. */
    method Say(m: Message, ghost before: seq<Entry>, ghost x: Entry)
      requires entries == before + [x] && MessageOf(x) == m
      requires Shows(messages, setting.pinned, view, setting.recorded + Spoken(before))
      modifies `messages
      ensures Presented() && messages == old(messages) + [m]
    {
      ShowsStep(messages, setting.pinned, view, setting.recorded, before, x);
      messages := messages + [m];
    }

    /** Record the outcome of a call and put it in the transcript. */
    method Conclude(tc: ToolCall, ghost rest: seq<ToolCall>, status: Status, stdout: string, error: string,
                    content: string)
      requires Core() && Presented() && !mark.phase.Opening? && !mark.phase.Head? && Warranted()
      requires Terminal(status) && Waiting(entries) == Requests([tc] + rest)
      requires content == ReplyText(ToolRecord(tc, status, stdout, error))
      requires Recordable(setting.rules.codec, tc) ==>
                 Next(setting.rules, mark, ToolRecord(tc, status, stdout, error)).Some?
      modifies `mark, `entries, `messages, log, log.file
      ensures Core() && Presented()
      ensures mark == old(if Recordable(setting.rules.codec, tc)
                          then Next(setting.rules, mark, ToolRecord(tc, status, stdout, error)).value else mark)
      ensures entries == old(entries) + [Replied(RequestOf(tc), content)] && Waiting(entries) == Requests(rest)
      ensures messages == old(messages) + [ToolMessage(tc.id, tc.name, content)]
      ensures log.number == old(log.number) + 1
      ensures log.produced == Attempted(setting.rules.codec, old(log.produced),
                                        Event(log.number, ToolRecord(tc, status, stdout, error)))
      ensures TurnCount(log.produced) == old(TurnCount(log.produced))
      ensures TokenSum(log.produced) == old(TokenSum(log.produced))
      ensures Told(log.produced) == old(Told(log.produced) + News(ToolRecord(tc, status, stdout, error)))
    {
      hide Core, Next, ReplyText, TurnCount, TokenSum, Waiting, Requests, Shows, Told, News, Warranted, Attempted,
           Marshals;
      ghost var before := entries;
      RequestsStep(tc, rest);
      SameFate(tc, status, stdout, error);
      RecordTool(tc, status, stdout, error);
      Show(tc, rest, content, before);
    }

    lemma SameFate(tc: ToolCall, status: Status, stdout: string, error: string)
      ensures Marshals(setting.rules.codec, ToolRecord(tc, status, stdout, error)) <==>
                Recordable(setting.rules.codec, tc)
    {
    }

    /** Put the reply to a call in the transcript; the call no longer waits. */
    method Show(tc: ToolCall, ghost rest: seq<ToolCall>, content: string, ghost before: seq<Entry>)
      requires entries == before + [Replied(RequestOf(tc), content)]
      requires Shows(messages, setting.pinned, view, setting.recorded + Spoken(before))
      requires Waiting(before) == Requests([tc] + rest)
      modifies `messages
      ensures Presented() && messages == old(messages) + [ToolMessage(tc.id, tc.name, content)]
      ensures Waiting(entries) == Requests(rest)
    {
      hide Shows, Spoken, Requests, Waiting;
      ghost var x := Replied(RequestOf(tc), content);
      RequestsStep(tc, rest);
      WaitingStep(before, x);
      Say(ToolMessage(tc.id, tc.name, content), before, x);
    }

    lemma RefusalText(tc: ToolCall, status: Status, msg: string)
      requires status == Status.Error || status == Invalid
      ensures ReplyText(ToolRecord(tc, status, "", msg)) == msg
    {
    }

    /** An unknown tool: counted, recorded if that can be done, and reported to the model. */
    method RefuseUnknown(tc: ToolCall, ghost rest: seq<ToolCall>)
      requires Core() && Presented() && Counted() && Dealing([tc] + rest) && Transcribed()
      requires setting.rules.judge(tc) == Unknown
      modifies `toolInvocations, `mark, `entries, `messages, log, log.file
      ensures Core() && Presented() && Counted() && Dealing(rest) && Transcribed()
      ensures toolInvocations == old(toolInvocations) + 1
      ensures var msg := "error: unknown tool " + tc.name;
              && entries == old(entries) + [Replied(RequestOf(tc), msg)]
              && messages == old(messages) + [ToolMessage(tc.id, tc.name, msg)]
              && log.produced == Attempted(setting.rules.codec, old(log.produced),
                                           Event(log.number, ToolRecord(tc, Status.Error, "", msg)))
    {
      hide Core, Presented, Next, Settle, TurnCount, TokenSum, CallSum, ReplyText, Waiting, Requests, Told;
      assert ([tc] + rest)[1..] == rest;
      DealingStep(setting.rules, mark, [tc] + rest, toolInvocations);
      toolInvocations := toolInvocations + 1;
      var msg := "error: unknown tool " + tc.name;
      RefusalText(tc, Status.Error, msg);
      if Recordable(setting.rules.codec, tc) {
        NextUnknown(setting.rules, mark, [tc] + rest, toolInvocations - 1, ToolRecord(tc, Status.Error, "", msg));
      }
      Conclude(tc, rest, Status.Error, "", msg, msg);
    }

    /** Arguments that fail validation: counted, noted, recorded if that can be done, and reported. */
    method RefuseInvalid(tc: ToolCall, ghost rest: seq<ToolCall>) returns (ghost msg: string)
      requires Core() && Presented() && Counted() && Dealing([tc] + rest) && Transcribed()
      requires setting.rules.judge(tc) == Rejected
      modifies `toolInvocations, `mark, `entries, `messages, log, log.file
      ensures Core() && Presented() && Counted() && Dealing(rest) && Transcribed()
      ensures toolInvocations == old(toolInvocations) + 1
      ensures "invalid arguments: " <= msg
      ensures entries == old(entries) + [Replied(RequestOf(tc), msg)]
      ensures messages == old(messages) + [ToolMessage(tc.id, tc.name, msg)]
      ensures log.produced == Attempted(setting.rules.codec, old(log.produced) + [Event(log.number - 1, Log(Warning))],
                                        Event(log.number, ToolRecord(tc, Invalid, "", msg)))
    {
      hide Core, Presented, Next, Settle, TurnCount, TokenSum, CallSum, ReplyText, Waiting, Requests, Told;
      assert ([tc] + rest)[1..] == rest;
      NextRejected(setting.rules, mark, [tc] + rest, toolInvocations);
      toolInvocations := toolInvocations + 1;
      var wording: string := *;
      var text := "invalid arguments: " + wording;
      msg := text;
      var _ := EmitQuiet(Log(Warning));
      RefusalText(tc, Invalid, text);
      if Recordable(setting.rules.codec, tc) {
        NextWarned(setting.rules, mark, ToolRecord(tc, Invalid, "", text));
      }
      Conclude(tc, rest, Invalid, "", text, text);
    }

    /** finish's `Invoke`, on whatever unmarshalling its arguments gave. */
    method InvokeFinish(given: FinishArguments) returns (content: string, isErr: bool)
      modifies `finishSet, `finishOutput, `finishInvalid
      ensures isErr <==> !Takes(tools.configured, given)
      ensures Takes(tools.configured, given) ==>
        && finishSet && finishInvalid == old(finishInvalid)
        && finishOutput == (if given.Given? then given.output else None)
        && content == "finished"
      ensures !Takes(tools.configured, given) ==> finishSet == old(finishSet) && finishOutput == old(finishOutput)
      ensures given.Unreadable? ==> finishInvalid == old(finishInvalid)
      ensures !given.Unreadable? && isErr ==>
        exists errs | errs != [] :: finishInvalid == old(finishInvalid) + [errs]
    {
      if given.Unreadable? {
        return "error: invalid arguments", true;
      }
      var output := if given.Given? then given.output else None;
      if tools.configured.Some? {
        var errs := ValidateRaw(tools.configured, output);
        if |errs| > 0 {
          finishInvalid := finishInvalid + [errs];
          return "output does not match schema", true;
        }
      }
      finishOutput := output;
      finishSet := true;
      return "finished", false;
    }

    /**
     `tool.Invoke`: finish validates its output, the other tools may do and answer anything.
     It may only be called at a noted moment.
     */
    method Invoke(tc: ToolCall) returns (content: string, isErr: bool)
      requires Noted(Invoking(Now(), tc))
      requires Judge(tools, tc) == Runnable
      modifies `finishSet, `finishOutput, `finishInvalid, `heard
      ensures heard == old(heard) + [FromTool(RequestOf(tc), content, isErr)]
      ensures finishInvalid == old(finishInvalid)
      ensures tc.name != "finish" ==> finishSet == old(finishSet)
      ensures tc.name == "finish" ==>
        && finishSet && !isErr && content == "finished" && finishOutput.Some?
        && Accepts(OutputSchema(tools.configured), finishOutput.value)
        && CarriesOutput(tools.codec, tc.arguments, finishOutput.value)
    {
      hide Judge, Accepts;
      if tc.name == "finish" {
        FinishRunsOnAcceptedOutput(tools, tc);
        var decoded := tools.codec.Decode(tc.arguments);
        content, isErr := InvokeFinish(Unmarshalled(decoded.value));
      } else {
        content, isErr := *, *;
      }
      heard := heard + [FromTool(RequestOf(tc), content, isErr)];
    }

    lemma HasWritten()
      requires Core() && !mark.phase.Opening? && !mark.phase.Head?
      ensures |log.produced| > 1
    {
      TwoRecordsByThen(setting.rules, setting.start.turn, log.produced);
    }

    /** Note the log at the moment a tool is about to run. */
    method NoteInvoking(tc: ToolCall)
      requires Core() && Calm()
      requires Waiting(entries) != [] && Waiting(entries)[0] == RequestOf(tc)
      requires var p := log.produced[|log.produced| - 1].payload;
               IsIntent(p) && p.callId == tc.id && p.name == tc.name && p.args == tc.arguments
      modifies `moments, `floors
      ensures Core() && Noted(Invoking(Now(), tc))
    {
      hide Shows, InOrder, Caught, MomentsOk, Prompt, Tracks, CountsUp, Waiting, Complete;
      NowIsCaught();
      InvokingIsOk(setting, Now(), tc, moments);
      moments, floors := moments + [Invoking(Now(), tc)], floors + [log.file.synced];
    }

    /** Before a call runs its intent has to be in the log, durably. */
    method RecordIntent(tc: ToolCall, ghost rest: seq<ToolCall>) returns (ok: bool)
      requires Core() && Counted() && Presented() && Dealing([tc] + rest) && Transcribed()
      requires setting.rules.judge(tc) == Runnable && Recordable(setting.rules.codec, tc)
      modifies `mark, `entries, `moments, `floors, log, log.file
      ensures Core() && Counted() && Presented() && entries == old(entries) && Transcribed()
      ensures mark == old(mark).(phase := Running(tc, rest), attempts := toolInvocations + 1)
      ensures log.produced == old(log.produced) + [Event(log.number, ToolRecord(tc, Intent, "", ""))]
      ensures ok ==> Noted(Invoking(Now(), tc))
    {
      hide Core, Presented, Next, Settle, TurnCount, TokenSum, CallSum, Waiting, Requests, Told;
      assert ([tc] + rest)[1..] == rest;
      RequestsStep(tc, rest);
      ghost var p := Tool(tc.id, Key(runId, tc.id, toolInvocations), tc.name, tc.arguments, Intent, "", "", "");
      NextRunnable(setting.rules, mark, [tc] + rest, toolInvocations, p);
      ok := EmitQuiet(Tool(tc.id, Key(runId, tc.id, toolInvocations), tc.name, tc.arguments, Intent, "", "", ""));
      if ok {
        NoteInvoking(tc);
      }
    }

    /** The output of a finish call is recorded before the run ends on it. */
    method RecordOutput() returns (ok: bool)
      requires Core() && Counted() && Warranted()
      requires mark.phase.Running? && mark.phase.call.name == setting.rules.finish
      requires finishOutput.Some?
      requires CarriesOutput(setting.rules.codec, mark.phase.call.arguments, finishOutput.value)
      requires ToTell(FromTool(RequestOf(mark.phase.call), "finished", false))
      modifies `mark, `entries, log, log.file
      ensures Core() && Counted() && Transcribed() && mark == old(mark).(phase := Closing(Finished))
      ensures log.produced == old(log.produced) + [Event(log.number, Payload.Finish(Decoded(finishOutput.value)))]
    {
      hide Core, Next, TurnCount, TokenSum, CallSum, Told;
      NextOutput(setting.rules, mark, finishOutput.value);
      ok := EmitQuiet(Payload.Finish(Decoded(finishOutput.value)));
    }

    /** The result of a call that ran, and its reply. */
    method RecordResult(tc: ToolCall, ghost rest: seq<ToolCall>, isErr: bool, content: string)
      requires Core() && Presented() && Counted() && Warranted()
      requires mark.phase == Running(tc, rest) && mark.attempts == toolInvocations
      requires Recordable(setting.rules.codec, tc) && Waiting(entries) == Requests([tc] + rest)
      requires ToTell(FromTool(RequestOf(tc), content, isErr))
      modifies `mark, `entries, `messages, log, log.file
      ensures Core() && Presented() && Counted() && Dealing(rest) && Transcribed()
      ensures entries == old(entries) + [Replied(RequestOf(tc), content)]
      ensures messages == old(messages) + [ToolMessage(tc.id, tc.name, content)]
      ensures log.produced == old(log.produced) +
              [Event(log.number, ToolRecord(tc, if isErr then Status.Error else Ok, content, ""))]
    {
      hide Core, Presented, Next, Settle, TurnCount, TokenSum, CallSum, Waiting, Requests, Told;
      var status := if isErr then Status.Error else Ok;
      NextResult(setting.rules, mark, ToolRecord(tc, status, content, ""));
      Conclude(tc, rest, status, content, "", content);
    }

    /** Why `dispatchToolCalls` returns with the run finished: an accepted output, and its record. */
    ghost predicate OutputRecorded()
      reads `mark, `finishOutput, `toolInvocations, log`produced
    {
      && mark.phase == Closing(Finished) && mark.attempts == toolInvocations
      && finishOutput.Some? && Accepts(OutputSchema(tools.configured), finishOutput.value)
      && log.produced != [] && log.produced[|log.produced| - 1].payload == Payload.Finish(Decoded(finishOutput.value))
    }

    lemma HeadIsNoted()
      requires mark.phase.Head? && Noted(AtHead(Now(), log.number, turnNumber))
      ensures Warranted()
    {
      assert moments[|moments| - 1] in moments;
    }

    lemma RequestIsNoted()
      requires mark.phase.Thinking? && Noted(Asking(Now()))
      ensures Warranted()
    {
      assert moments[|moments| - 1] in moments;
    }

    lemma CallIsNoted(tc: ToolCall)
      requires mark.phase.Running? && Noted(Invoking(Now(), tc))
      ensures Warranted()
    {
      assert moments[|moments| - 1] in moments;
    }

    /** With the intent recorded: the effect, then its result or the output. */
    method Execute(tc: ToolCall, ghost rest: seq<ToolCall>) returns (stopped: bool, ok: bool)
      requires Core() && Presented() && Counted() && Noted(Invoking(Now(), tc))
      requires mark.phase == Running(tc, rest) && mark.attempts == toolInvocations + 1
      requires Judge(tools, tc) == Runnable && Recordable(setting.rules.codec, tc)
      requires Waiting(entries) == Requests([tc] + rest)
      requires tools.codec == setting.rules.codec && setting.rules.finish == "finish"
      requires setting.rules.judge(tc) == Runnable && Transcribed()
      requires !finishSet && finishInvalid == []
      modifies `mark, `entries, `messages, `toolInvocations, `finishSet, `finishOutput, `finishInvalid, `heard,
               log, log.file
      ensures Core() && Counted() && finishInvalid == [] && Transcribed()
      ensures stopped ==> ok && OutputRecorded()
      ensures ok && !stopped ==> Presented() && Dealing(rest) && !finishSet
      ensures ok && !stopped ==> Gained(setting.rules, old(Held()), Held(), [tc])
    {
      hide Core, Presented, Counted, Dealing, Judge, Accepts, CarriesOutput, Waiting, Requests, Told, Gained;
      ghost var before := Held();
      CallIsNoted(tc);
      toolInvocations := toolInvocations + 1;
      var content, isErr := Invoke(tc);
      if finishSet {
        ok := RecordOutput();
        return ok, ok;
      }
      RecordResult(tc, rest, isErr, content);
      OneGained(setting.rules, before, tc, Replied(RequestOf(tc), content), [FromTool(RequestOf(tc), content, isErr)]);
      return false, true;
    }

    /** A call that passed validation: intent first, then the effect, then its result or the output. */
    method RunCall(tc: ToolCall, ghost rest: seq<ToolCall>) returns (stopped: bool, ok: bool)
      requires Core() && Presented() && Counted() && Dealing([tc] + rest) && Transcribed()
      requires Grounded() && setting.rules.judge(tc) == Runnable && Recordable(setting.rules.codec, tc)
      requires !finishSet && finishInvalid == []
      modifies `mark, `entries, `moments, `floors, `messages, `toolInvocations,
               `finishSet, `finishOutput, `finishInvalid, `heard, log, log.file
      ensures Core() && Counted() && finishInvalid == [] && Transcribed()
      ensures stopped ==> ok && OutputRecorded()
      ensures ok && !stopped ==> Presented() && Dealing(rest) && !finishSet
      ensures ok && !stopped ==> Gained(setting.rules, old(Held()), Held(), [tc])
    {
      hide Core, Presented, Counted, Dealing, Grounded, Now, Noted, Judge, OutputRecorded, Waiting, Requests,
           Gained, Held, Transcribed;
      GroundedSetting();
      JudgedByValidation(tc);
      WaitsFor([tc] + rest);
      ok := RecordIntent(tc, rest);
      if !ok {
        return false, false;
      }
      stopped, ok := Execute(tc, rest);
    }

    lemma WaitsFor(rest: seq<ToolCall>)
      requires Dealing(rest)
      ensures Waiting(entries) == Requests(rest)
    {
    }

    lemma JudgedByValidation(tc: ToolCall)
      requires Grounded()
      ensures setting.rules.judge(tc) == Judge(tools, tc)
      ensures Judge(tools, tc) == Runnable ==> Recordable(setting.rules.codec, tc)
      ensures Judge(tools, tc) == match Find(tools.Tools(), tc.name)
              case None => Unknown
              case Some(tool) =>
                if Passes(Some(tool.parameters), tools.codec.Decode(tc.arguments)) then Runnable else Rejected
    {
    }

    lemma DealingFromReply(calls: seq<ToolCall>)
      requires mark.phase == Calls(calls) && mark.attempts == toolInvocations
      requires Waiting(entries) == Requests(calls)
      ensures Dealing(calls)
    {
    }

    /** One call: refused if the tool is unknown or its arguments fail validation, run otherwise. */
    method DealWith(tc: ToolCall, ghost rest: seq<ToolCall>) returns (stopped: bool, ok: bool)
      requires Core() && Presented() && Counted() && Grounded() && Dealing([tc] + rest) && Transcribed()
      requires !finishSet && finishInvalid == []
      modifies `mark, `entries, `moments, `floors, `messages, `toolInvocations,
               `finishSet, `finishOutput, `finishInvalid, `heard, log, log.file
      ensures Core() && Counted() && finishInvalid == [] && Transcribed()
      ensures stopped ==> ok && OutputRecorded()
      ensures ok && !stopped ==> Presented() && Dealing(rest) && !finishSet
      ensures ok && !stopped ==> Gained(setting.rules, old(Held()), Held(), [tc])
    {
      hide Core, Presented, Counted, Dealing, Grounded, OutputRecorded, Judge, Passes, BuiltinTools, Find, Gained, Told;
      ghost var before := Held();
      JudgedByValidation(tc);
      var tool := FindTool(tools.Tools(), tc.name);
      if tool.None? {
        RefuseUnknown(tc, rest);
        OneGained(setting.rules, before, tc, Replied(RequestOf(tc), "error: unknown tool " + tc.name), []);
        assert heard + [] == heard;
        return false, true;
      }
      var errs := ValidateRaw(Some(tool.value.parameters), tools.codec.Decode(tc.arguments));
      if |errs| > 0 {
        ghost var msg := RefuseInvalid(tc, rest);
        OneGained(setting.rules, before, tc, Replied(RequestOf(tc), msg), []);
        assert heard + [] == heard;
        return false, true;
      }
      stopped, ok := RunCall(tc, rest);
    }

    /** `dispatchToolCalls`: each call in turn is refused or run; a finish call ends the run. */
    method DispatchToolCalls(calls: seq<ToolCall>) returns (stopped: bool, ok: bool)
      requires Core() && Presented() && Counted() && Grounded() && Transcribed()
      requires mark.phase == Calls(calls) && mark.attempts == toolInvocations
      requires Waiting(entries) == Requests(calls)
      requires !finishSet && finishInvalid == []
      modifies `mark, `entries, `moments, `floors, `messages, `toolInvocations,
               `finishSet, `finishOutput, `finishInvalid, `heard, log, log.file
      ensures Core() && Counted() && finishInvalid == [] && Transcribed()
      ensures stopped ==> ok && OutputRecorded()
      ensures ok && !stopped ==> Presented() && Dealing([]) && !finishSet
      ensures ok && !stopped ==> Gained(setting.rules, old(Held()), Held(), calls)
    {
      hide Core, Presented, Counted, Dealing, Grounded, OutputRecorded, Waiting, Requests, Gained, Held,
           Transcribed;
      DealingFromReply(calls);
      NothingGained(setting.rules, Held());
      assert calls[0..] == calls;
      for i := 0 to |calls|
        invariant Core() && Presented() && Counted() && Dealing(calls[i..])
        invariant Gained(setting.rules, old(Held()), Held(), calls[..i])
        invariant !finishSet && finishInvalid == [] && Transcribed()
      {
        assert calls[i..] == [calls[i]] + calls[i + 1..];
        assert calls[..i + 1] == calls[..i] + [calls[i]];
        ghost var now := Held();
        stopped, ok := DealWith(calls[i], calls[i + 1..]);
        if stopped || !ok {
          return;
        }
        OneMoreGained(setting.rules, old(Held()), now, Held(), calls[..i], calls[i]);
      }
      assert calls[|calls|..] == [] && calls[..|calls|] == calls;
      return false, true;
    }

    // ----- Run -----

    /** At the head of the loop nothing is pending, in the log or in memory. */
    ghost predicate AtLoopHead()
      reads `mark, `entries, `moments, `floors, `messages, `view, `runId, `turnNumber, `turnsThisRun,
            `totalTokens, `toolInvocations, `finishSet, `finishInvalid, `heard, log, log.file
    {
      && Core() && Presented() && Counted() && Calm() && Transcribed()
      && mark.phase.Head? && mark.attempts == toolInvocations
      && Waiting(entries) == []
      && log.produced[|log.produced| - 1].number == log.number
      && !finishSet && finishInvalid == []
    }

    lemma DealtWith()
      requires Core() && (mark.phase.Head? || mark.phase.Thinking? || mark.phase.Answering?)
      ensures mark.attempts == CallSum(log.produced)
    {
      AllDealtWith(setting.rules, setting.start.turn, setting.limits, log.produced, mark, entries);
    }

    /** The turn record comes before anything else of the turn. */
    method BeginTurn() returns (ok: bool)
      requires AtLoopHead() && Noted(AtHead(Now(), log.number, turnNumber))
      requires turnsThisRun < cfg.limits.maxTurns
      requires 0 < cfg.limits.maxTokens ==> totalTokens <= cfg.limits.maxTokens
      requires 0 < cfg.limits.maxInvocations ==> toolInvocations <= cfg.limits.maxInvocations
      modifies `turnsThisRun, `turnNumber, `mark, `entries, log, log.file
      ensures Core() && Presented() && Counted() && entries == old(entries) && Transcribed()
      ensures mark.phase.Thinking? && mark.attempts == toolInvocations
      ensures turnsThisRun == old(turnsThisRun) + 1 && turnNumber == old(turnNumber) + 1
      ensures log.produced == old(log.produced) + [Event(log.number, Turn(turnNumber))]
      ensures ok ==> Calm()
    {
      hide Core, Presented, TurnCount, TokenSum, CallSum, Waiting, Told;
      DealtWith();
      SameLimits();
      HeadIsNoted();
      turnsThisRun := turnsThisRun + 1;
      turnNumber := turnNumber + 1;
      ok := Emit(Turn(turnNumber));
      assert entries == old(entries);
    }

    lemma SameLimits()
      requires Core()
      ensures setting.limits == cfg.limits
    {
    }

    /** The reply goes into the transcript and, whatever the calls in it, into the log. */
    method RecordReply(reply: Reply) returns (ok: bool)
      requires Core() && Presented() && Counted()
      requires mark.phase.Thinking? && Waiting(entries) == [] && Warranted()
      requires ToTell(FromModel(reply.message, reply.tokens))
      modifies `messages, `totalTokens, `mark, `entries, log, log.file
      ensures Core() && Presented() && Transcribed()
      ensures mark == old(mark).(phase := if reply.message.toolCalls == [] then Answering(reply.message.content)
                                          else Calls(reply.message.toolCalls))
      ensures entries == old(entries) + [Said(reply.message)]
      ensures Waiting(entries) == Requests(reply.message.toolCalls)
      ensures messages == old(messages) + [reply.message]
      ensures log.produced == old(log.produced) + [Event(log.number, Llm(turnNumber, reply.message, reply.tokens))]
      ensures ok ==> Counted() && totalTokens == old(totalTokens) + reply.tokens
    {
      hide Core, Next, TurnCount, TokenSum, CallSum, Shows, Spoken, Waiting, Requests, Told;
      ghost var before := entries;
      NextReply(setting.rules, mark, Llm(turnNumber, reply.message, reply.tokens));
      ok := Emit(Llm(turnNumber, reply.message, reply.tokens));
      assert entries == before + [Said(reply.message)];
      WaitingStep(before, Said(reply.message));
      Say(reply.message, before, Said(reply.message));
      if ok {
        totalTokens := totalTokens + reply.tokens;
      }
    }

    /** An answer without tool calls is recorded as the output. */
    method RecordAnswer(text: string) returns (ok: bool)
      requires Core() && Counted() && mark.phase == Answering(text) && Transcribed()
      modifies `mark, `entries, log, log.file
      ensures Core() && Transcribed() && CallSum(log.produced) == old(CallSum(log.produced))
      ensures ok ==> Counted() && mark == old(mark).(phase := Closing(Answered))
      ensures ok ==>
        log.produced != [] && log.produced[|log.produced| - 1].payload == Payload.Finish(Quoted(text))
    {
      hide Core, TurnCount, TokenSum, CallSum, Told;
      ok := EmitQuiet(Payload.Finish(Quoted(text)));
    }

    /** A failed request is noted; whether that note is written does not matter. */
    method RecordFailure()
      requires Core() && Counted() && mark.phase.Thinking? && Warranted() && ToTell(NoReply)
      modifies `mark, `entries, log, log.file
      ensures Core() && Counted() && Transcribed() && mark == old(mark).(phase := Failed)
      ensures CallSum(log.produced) == old(CallSum(log.produced))
    {
      hide Core, TurnCount, TokenSum, CallSum, Told;
      var _ := EmitQuiet(Log(Failure));
    }

    /** The marker that closes a turn carries the number that opened it. */
    method EndTurn() returns (ok: bool)
      requires Core() && Presented() && Counted() && Dealing([]) && Transcribed()
      requires !finishSet && finishInvalid == []
      modifies `mark, `entries, log, log.file
      ensures Core() && Transcribed()
      ensures log.produced == old(log.produced) + [Event(log.number, TurnEnd(turnNumber))]
      ensures ok ==> AtLoopHead()
    {
      hide Core, Presented, Next, Settle, TurnCount, TokenSum, CallSum, Waiting, Told;
      NextAfterCalls(setting.rules, mark, toolInvocations);
      ok := EmitQuiet(TurnEnd(turnNumber));
    }

    /** `terminate`: run_end is attempted, whatever becomes of it. */
    method Terminate(reason: Reason, output: string) returns (final: Final)
      requires Core() && Counted() && Warranted() && Transcribed()
      requires || (mark.phase.Head? && OfLimit(reason))
               || (mark.phase.Failed? && reason == LlmError)
               || mark.phase == Closing(reason)
      requires log.produced != [] && (reason == Finished ==> finishOutput.Some?)
      modifies `mark, `entries, log, log.file
      ensures Core() && Counted() && Transcribed() && mark == old(mark).(phase := Closed)
      ensures log.produced == old(log.produced) + [Event(log.number, RunEnd(reason))]
      ensures CallSum(log.produced) == old(CallSum(log.produced))
      ensures final == if output != "" then Text(output) else match reason
                       case Finished => Value(finishOutput.value)
                       case Answered => Text("")
                       case _ => Stopped(reason)
    {
      hide Core, Next, TurnCount, TokenSum, CallSum, Told;
      NextEnd(setting.rules, mark, reason);
      var _ := EmitQuiet(RunEnd(reason));
      if output == "" {
        match reason {
          case Finished => return Value(finishOutput.value);
          case Answered => return Text("");
          case _ => return Stopped(reason);
        }
      }
      return Text(output);
    }

    /** The state a run leaves: its segment with what it spoke, its records, its moments. */
    ghost predicate RunOk(exit: Exit)
      reads `mark, `entries, `moments, `floors, `heard, log, log.file
    {
      && log.Valid() && Grounded() && NotedSoFar()
      && SegmentFrom(setting.start, Session(tools, log.own, entries))
      && WithinLimits(cfg.limits, log.produced)
      && Complete(moments, log.produced) && Transcribed()
      && Accounts(tools.codec, log.produced, entries)
      && Trace(RulesOf(tools), Start(setting.start.turn), log.produced).Some?
      && (exit == BootstrapError ==> log.produced == [])
      && (exit != BootstrapError ==> Trace(RulesOf(tools), Start(setting.start.turn), log.produced) == Some(mark))
    }

    lemma SegmentWritten(exit: Exit)
      requires Core() && Transcribed() && Grounded() && exit != BootstrapError
      ensures RunOk(exit)
    {
      hide SegmentFrom, NotedSoFar, Readable, TailOf, Replay, LastStart, WithinLimits, Accounts, Complete;
      SegmentOfRun(tools, setting.start, log.own, log.produced, entries, log.broken, log.number);
    }

    lemma NothingWrittenYet()
      requires log.Valid() && Grounded() && Untouched()
      ensures RunOk(BootstrapError)
    {
      hide Readable, TailOf, Replay, LastStart, CountsUp;
      assert log.own == [] by {
        assert |EventsOf(log.own)| == 0;
      }
      NothingWritten(setting.rules, setting.start.turn, setting.limits);
    }

    lemma NothingConcluded(exit: Exit)
      requires !exit.Ended?
      ensures Concluded(exit, Nothing)
    {
    }

    /** The model could not be asked. */
    method StopOnFailure() returns (exit: Exit, final: Final)
      requires Core() && Counted() && mark.phase.Thinking? && mark.attempts == toolInvocations && Warranted()
      requires ToTell(NoReply)
      modifies `mark, `entries, log, log.file
      ensures Core() && Transcribed() && exit != BootstrapError && Concluded(exit, final)
    {
      hide Core, TurnCount, TokenSum, CallSum, Accepts, Transcribed;
      HasWritten();
      DealtWith();
      RecordFailure();
      HasWritten();
      var _ := Terminate(LlmError, "");
      return Ended(LlmError), Nothing;
    }

    /** The model answered without calling a tool. */
    method StopOnAnswer(text: string) returns (exit: Exit, final: Final)
      requires Core() && Counted() && mark.phase == Answering(text) && mark.attempts == toolInvocations && Transcribed()
      modifies `mark, `entries, log, log.file
      ensures Core() && Transcribed() && exit != BootstrapError && Concluded(exit, final)
    {
      hide Core, TurnCount, TokenSum, CallSum, Accepts, Transcribed;
      DealtWith();
      var ok := RecordAnswer(text);
      if !ok {
        return LogError, Nothing;
      }
      final := Terminate(Answered, text);
      return Ended(Answered), final;
    }

    /** finish was called, and its output validated and recorded. */
    method StopOnFinish() returns (exit: Exit, final: Final)
      requires Core() && Counted() && OutputRecorded() && Transcribed()
      modifies `mark, `entries, log, log.file
      ensures Core() && Transcribed() && exit != BootstrapError && Concluded(exit, final)
    {
      hide Core, TurnCount, TokenSum, CallSum, Accepts, Transcribed;
      final := Terminate(Finished, "");
      return Ended(Finished), final;
    }

    /** One turn, once its record is written: one of the ways it can end the run, or the next loop head. */
    method TakeTurn() returns (exit: Option<Exit>, final: Final)
      requires Core() && Presented() && Counted() && Grounded() && Calm() && Transcribed()
      requires mark.phase.Thinking? && mark.attempts == toolInvocations && Waiting(entries) == []
      requires log.produced[|log.produced| - 1].payload.Turn?
      requires !finishSet && finishInvalid == []
      modifies `messages, `view, `moments, `floors, `totalTokens, `toolInvocations, `mark, `entries,
               `finishSet, `finishOutput, `finishInvalid, `heard, log, log.file
      ensures Core() && Transcribed() && finishInvalid == []
      ensures exit.None? ==> AtLoopHead()
      ensures exit.Some? ==> exit.value != BootstrapError && Concluded(exit.value, final)
    {
      hide Core, Presented, Grounded, TurnCount, TokenSum, CallSum, Settle, Accepts, Concluded, Waiting, Requests;
      var reply := Ask();
      RequestIsNoted();
      if reply.None? {
        var failed;
        failed, final := StopOnFailure();
        return Some(failed), final;
      }
      var ok := RecordReply(reply.value);
      if !ok {
        NothingConcluded(LogError);
        return Some(LogError), Nothing;
      }
      if |reply.value.message.toolCalls| == 0 {
        var answered;
        answered, final := StopOnAnswer(reply.value.message.content);
        return Some(answered), final;
      }
      var stopped;
      stopped, ok := DispatchToolCalls(reply.value.message.toolCalls);
      if !ok {
        NothingConcluded(DispatchError);
        return Some(DispatchError), Nothing;
      }
      if stopped {
        var finished;
        finished, final := StopOnFinish();
        return Some(finished), final;
      }
      ok := EndTurn();
      if !ok {
        NothingConcluded(LogError);
        return Some(LogError), Nothing;
      }
      return None, Nothing;
    }

    /** What is true of the log and of what is returned at each way a run can end. */
    ghost predicate Concluded(exit: Exit, final: Final)
      reads `mark, `runId, `turnNumber, `turnsThisRun, `totalTokens, `toolInvocations, `finishOutput, log`produced
    {
      && (exit.Ended? ==>
            && Counted() && mark.phase.Closed? && toolInvocations == mark.attempts
            && (exit.reason != Finished ==> toolInvocations == CallSum(log.produced))
            && |log.produced| > 1 && log.produced[|log.produced| - 1].payload == RunEnd(exit.reason))
      && (exit.Ended? && OfLimit(exit.reason) ==> final == Stopped(exit.reason))
      && (exit == Ended(MaxTurns) ==> turnsThisRun == if 0 < cfg.limits.maxTurns then cfg.limits.maxTurns else 0)
      && (exit == Ended(MaxTotalTokens) ==> 0 < cfg.limits.maxTokens < totalTokens)
      && (exit == Ended(MaxToolInvocations) ==> 0 < cfg.limits.maxInvocations < toolInvocations)
      && (exit == Ended(Finished) ==>
            && finishOutput.Some? && final == Value(finishOutput.value)
            && Accepts(OutputSchema(tools.configured), finishOutput.value)
            && log.produced[|log.produced| - 2].payload == Payload.Finish(Decoded(finishOutput.value)))
      && (exit == Ended(Answered) ==>
            && final.Text?
            && log.produced[|log.produced| - 2].payload == Payload.Finish(Quoted(final.text)))
      && (!exit.Ended? || exit.reason == LlmError ==> final == Nothing)
    }

    /** run_start is written before the first turn. */
    method OpenRun() returns (ok: bool)
      requires Core() && Presented() && mark == Start(turnNumber)
      requires Untouched()
      modifies `mark, `entries, log, log.file
      ensures Core() && Transcribed() && log.produced == [Event(log.number, RunStart(runId, cfg.goal, cfg.model))]
      ensures ok ==> AtLoopHead()
    {
      NothingWritten(setting.rules, turnNumber, setting.limits);
      hide Core, Presented, TurnCount, TokenSum, CallSum, Waiting;
      assert Told([]) == [];
      ok := EmitQuiet(RunStart(runId, cfg.goal, cfg.model));
    }

    /** A run ended at the head of its loop. */
    method StopAtHead(reason: Reason) returns (final: Final)
      requires AtLoopHead() && Noted(AtHead(Now(), log.number, turnNumber)) && OfLimit(reason)
      requires reason == MaxTurns ==> turnsThisRun == if 0 < cfg.limits.maxTurns then cfg.limits.maxTurns else 0
      requires reason == MaxTotalTokens ==> 0 < cfg.limits.maxTokens < totalTokens
      requires reason == MaxToolInvocations ==> 0 < cfg.limits.maxInvocations < toolInvocations
      modifies `mark, `entries, log, log.file
      ensures Core() && Transcribed() && finishInvalid == [] && Concluded(Ended(reason), final)
    {
      hide Core, Presented, TurnCount, TokenSum, CallSum, Waiting;
      DealtWith();
      HeadIsNoted();
      final := Terminate(reason, "");
    }

    /** The limits, in the order the loop looks at them; the clock may have run out at any time. */
    method OverLimit() returns (reason: Option<Reason>)
      ensures reason.Some? ==> OfLimit(reason.value) && reason.value != MaxTurns
      ensures reason == Some(MaxTotalTokens) ==> 0 < cfg.limits.maxTokens < totalTokens
      ensures reason == Some(MaxToolInvocations) ==>
        && 0 < cfg.limits.maxInvocations < toolInvocations
        && (0 < cfg.limits.maxTokens ==> totalTokens <= cfg.limits.maxTokens)
      ensures reason.None? ==>
        && (0 < cfg.limits.maxTokens ==> totalTokens <= cfg.limits.maxTokens)
        && (0 < cfg.limits.maxInvocations ==> toolInvocations <= cfg.limits.maxInvocations)
    {
      if * {
        return Some(MaxWallClock);
      }
      if cfg.limits.maxTokens > 0 && totalTokens > cfg.limits.maxTokens {
        return Some(MaxTotalTokens);
      }
      if cfg.limits.maxInvocations > 0 && toolInvocations > cfg.limits.maxInvocations {
        return Some(MaxToolInvocations);
      }
      return None;
    }

    /** The loop of `Run`. */
    method TakeTurns() returns (exit: Exit, final: Final)
      requires AtLoopHead() && Grounded() && turnsThisRun == 0
      modifies this, log, log.file
      ensures Core() && Transcribed() && finishInvalid == [] && exit != BootstrapError && Concluded(exit, final)
    {
      hide Core, Presented, Grounded, TurnCount, TokenSum, CallSum, Accepts, Concluded, Waiting, Now;
      while turnsThisRun < cfg.limits.maxTurns
        invariant AtLoopHead()
        invariant turnsThisRun <= if 0 < cfg.limits.maxTurns then cfg.limits.maxTurns else 0
        decreases cfg.limits.maxTurns - turnsThisRun
      {
        NoteHead();
        var over := OverLimit();
        if over.Some? {
          final := StopAtHead(over.value);
          return Ended(over.value), final;
        }
        var ok := BeginTurn();
        if !ok {
          NothingConcluded(LogError);
          return LogError, Nothing;
        }
        var stop;
        stop, final := TakeTurn();
        if stop.Some? {
          return stop.value, final;
        }
      }
      NoteHead();
      final := StopAtHead(MaxTurns);
      return Ended(MaxTurns), final;
    }

    /** `Run`: turn after turn until a limit, an answer, a finish call or an error. */
    method Run() returns (exit: Exit, final: Final)
      requires Grounded() && Untouched() && turnNumber == 0 && log.origin == log.number == 0
      modifies this, log, log.file
      ensures RunOk(exit)
      ensures finishInvalid == [] && Concluded(exit, final)
    {
      hide Core, Presented, Grounded, TurnCount, TokenSum, CallSum, Concluded, RunOk;
      var ok := Bootstrap();
      if !ok {
        NothingWrittenYet();
        NothingConcluded(BootstrapError);
        return BootstrapError, Nothing;
      }
      ok := OpenRun();
      if !ok {
        SegmentWritten(LogError);
        NothingConcluded(LogError);
        return LogError, Nothing;
      }
      exit, final := TakeTurns();
      SegmentWritten(exit);
    }
  }
}
