/**
 What one run may write, record by record: an automaton over payloads, and what follows
 for every word it accepts.  `agent.go` never states this order; its loop follows it.
 */
module Grammar {
  import opened Wrappers
  import opened JsonValues
  import opened Messages
  import opened Events
  /** What becomes of a call: no such tool, arguments that fail validation, or it runs. */
  datatype Verdict = Unknown | Rejected | Runnable

  /** What the order of records depends on: the verdict on each call, how texts decode, the finishing tool. */
  datatype Rules = Rules(judge: ToolCall -> Verdict, codec: Codec, finish: string)

  /** Whether a record carrying the call's arguments can be written at all. */
  predicate Recordable(codec: Codec, tc: ToolCall) {
    Writable(codec, tc.arguments)
  }

  /** Where a run is between two records. */
  datatype Phase =
    | Opening                                        // run_start comes next
    | Head                                           // at the head of the loop
    | Thinking                                       // the model is being asked
    | Failed                                         // asking failed, and the failure is noted
    | Answering(text: string)                        // a reply without tool calls
    | Calls(pending: seq<ToolCall>)                  // a reply with calls still to be dealt with
    | Warned(call: ToolCall, rest: seq<ToolCall>)    // the rejection of `call` is noted
    | Running(call: ToolCall, rest: seq<ToolCall>)   // the intent of `call` is recorded
    | Closing(reason: Reason)                        // the output is recorded
    | Closed

  /** The phase, the current turn, the tool calls dealt with, and the run's name. */
  datatype Mark = Mark(phase: Phase, turn: nat, attempts: nat, run: string)

  function Start(turn: nat): Mark {
    Mark(Opening, turn, 0, "")
  }

  /** A call that leaves no record: no such tool, and arguments that no record can carry. */
  ghost predicate Silent(rules: Rules, tc: ToolCall) {
    rules.judge(tc) == Unknown && !Recordable(rules.codec, tc)
  }

  /** The calls left once those at the front that leave no record are skipped. */
  ghost function Skip(rules: Rules, pending: seq<ToolCall>): (rest: seq<ToolCall>)
    ensures |rest| <= |pending|
  {
    if pending != [] && Silent(rules, pending[0]) then Skip(rules, pending[1..]) else pending
  }

  ghost function Settle(rules: Rules, m: Mark): Mark {
    if m.phase.Calls? then
      var rest := Skip(rules, m.phase.pending);
      m.(phase := Calls(rest), attempts := m.attempts + |m.phase.pending| - |rest|)
    else m
  }

  /** A record of `tc` with the idempotency key of the given attempt. */
  predicate RecordOf(p: Payload, tc: ToolCall, status: Status, run: string, attempt: nat) {
    && p.Tool?
    && p.callId == tc.id && p.name == tc.name && p.args == tc.arguments
    && p.status == status
    && p.key == Key(run, tc.id, attempt)
  }

  /** The record of a call that was refused: its text is the error alone. */
  predicate Refusal(p: Payload, tc: ToolCall, status: Status, run: string, attempt: nat) {
    RecordOf(p, tc, status, run, attempt) && p.stdout == "" && p.stderr == ""
  }

  /** The record of a call that ran: its text is the output alone. */
  predicate Result(p: Payload, tc: ToolCall, run: string, attempt: nat) {
    && (RecordOf(p, tc, Ok, run, attempt) || RecordOf(p, tc, Error, run, attempt))
    && p.stderr == "" && p.error == ""
  }

  /** The output a finish call carries. */
  ghost predicate CarriesOutput(codec: Codec, arguments: string, v: Json) {
    exists members :: codec.parse(arguments) == Parsed(Obj(members)) && "output" in members && v == members["output"]
  }

  /** The reasons a run ends with at the head of its loop. */
  predicate OfLimit(reason: Reason) {
    reason.MaxWallClock? || reason.MaxTotalTokens? || reason.MaxToolInvocations? || reason.MaxTurns?
  }

  /** One record, from a settled mark. */
  ghost function Advance(rules: Rules, m: Mark, p: Payload): Option<Mark> {
    match m.phase
    case Opening =>
      if p.RunStart? then Some(m.(phase := Head, run := p.runId)) else None
    case Head =>
      if p.Turn? && p.turn == m.turn + 1 then Some(m.(phase := Thinking, turn := m.turn + 1))
      else if p.RunEnd? && OfLimit(p.reason) then Some(m.(phase := Closed))
      else None
    case Thinking =>
      if p.Llm? && p.turn == m.turn then
        if p.message.toolCalls == [] then Some(m.(phase := Answering(p.message.content)))
        else Some(m.(phase := Calls(p.message.toolCalls)))
      else if p == Log(Failure) then Some(m.(phase := Failed))
      else None
    case Failed =>
      if p == RunEnd(LlmError) then Some(m.(phase := Closed)) else None
    case Answering(text) =>
      if p == Finish(Quoted(text)) then Some(m.(phase := Closing(Answered))) else None
    case Calls(pending) =>
      if pending == [] then
        if p.TurnEnd? && p.turn == m.turn then Some(m.(phase := Head)) else None
      else
        var tc, rest := pending[0], pending[1..];
        var dealt := m.(attempts := m.attempts + 1);
        (match rules.judge(tc)
         case Unknown =>
           if Refusal(p, tc, Error, m.run, m.attempts + 1) then Some(dealt.(phase := Calls(rest))) else None
         case Rejected =>
           if p == Log(Warning) then
             Some(dealt.(phase := if Recordable(rules.codec, tc) then Warned(tc, rest) else Calls(rest)))
           else None
         case Runnable =>
           if RecordOf(p, tc, Intent, m.run, m.attempts) then Some(dealt.(phase := Running(tc, rest))) else None)
    case Warned(tc, rest) =>
      if Refusal(p, tc, Invalid, m.run, m.attempts) then Some(m.(phase := Calls(rest))) else None
    case Running(tc, rest) =>
      if Result(p, tc, m.run, m.attempts) then Some(m.(phase := Calls(rest)))
      else if tc.name == rules.finish && p.Finish? && p.output.Decoded?
              && CarriesOutput(rules.codec, tc.arguments, p.output.value)
      then Some(m.(phase := Closing(Finished)))
      else None
    case Closing(reason) =>
      if p == RunEnd(reason) then Some(m.(phase := Closed)) else None
    case Closed => None
  }

  ghost function Next(rules: Rules, m: Mark, p: Payload): Option<Mark> {
    Advance(rules, Settle(rules, m), p)
  }

  /** The mark after some records, if the automaton accepts them. */
  ghost function Trace(rules: Rules, m: Mark, es: seq<Event>): Option<Mark> {
    if es == [] then Some(m) else
      match Trace(rules, m, es[..|es| - 1])
      case None => None
      case Some(before) => Next(rules, before, es[|es| - 1].payload)
  }

  lemma TraceStep(rules: Rules, m: Mark, es: seq<Event>, e: Event)
    ensures Trace(rules, m, es + [e]) ==
            match Trace(rules, m, es) case None => None case Some(before) => Next(rules, before, e.payload)
  {
    assert (es + [e])[..|es + [e]| - 1] == es;
  }

  predicate InTurn(ph: Phase) {
    ph.Thinking? || ph.Calls? || ph.Warned? || ph.Running? || ph.Answering?
  }

  /** One step's effect on the turn: only a turn record moves it, and it names every other record. */
  lemma StepTurns(rules: Rules, m: Mark, p: Payload)
    requires Next(rules, m, p).Some?
    ensures var m' := Next(rules, m, p).value;
            && m'.turn == m.turn + (if p.Turn? then 1 else 0)
            && TurnIn(p) <= m'.turn
            && (p.Turn? || p.Llm? || p.TurnEnd? ==> TurnIn(p) == m'.turn)
            && (p.Llm? || p.TurnEnd? ==> InTurn(m.phase))
            && (InTurn(m'.phase) ==> p.Turn? || InTurn(m.phase))
  {
  }

  lemma StepOpens(rules: Rules, m: Mark, p: Payload)
    requires Next(rules, m, p).Some?
    ensures m.phase.Opening? <==> p.RunStart?
    ensures !Next(rules, m, p).value.phase.Opening?
  {
  }

  /** Whatever prefix a crash leaves of an accepted word is accepted. */
  lemma {:induction false} TracePrefix(rules: Rules, m: Mark, es: seq<Event>, k: nat)
    requires k <= |es| && Trace(rules, m, es).Some?
    ensures Trace(rules, m, es[..k]).Some?
    decreases |es|
  {
    if k == |es| {
      assert es[..k] == es;
    } else {
      var shorter := es[..|es| - 1];
      TracePrefix(rules, m, shorter, k);
      assert shorter[..k] == es[..k];
    }
  }

  // ----- turns -----

  /** The turn records increase strictly, starting above `low`. */
  ghost predicate TurnsRising(es: seq<Event>, low: nat) {
    && (forall i | 0 <= i < |es| :: es[i].payload.Turn? ==> low < es[i].payload.turn)
    && (forall i, j | 0 <= i < j < |es| ::
          es[i].payload.Turn? && es[j].payload.Turn? ==> es[i].payload.turn < es[j].payload.turn)
  }

  function TurnCount(es: seq<Event>): nat {
    if es == [] then 0 else TurnCount(es[..|es| - 1]) + if es[|es| - 1].payload.Turn? then 1 else 0
  }

  /** The turn record nearest before the end. */
  function LatestTurn(es: seq<Event>): Option<nat> {
    if es == [] then None
    else if es[|es| - 1].payload.Turn? then Some(es[|es| - 1].payload.turn)
    else LatestTurn(es[..|es| - 1])
  }

  /** Every reply and every end of turn carries the number of the nearest turn record before it. */
  ghost predicate NamesItsTurn(es: seq<Event>) {
    forall i | 0 <= i < |es| ::
      es[i].payload.Llm? || es[i].payload.TurnEnd? ==> LatestTurn(es[..i]) == Some(TurnIn(es[i].payload))
  }

  lemma TurnsRisingStep(es: seq<Event>, low: nat, high: nat, e: Event)
    requires TurnsRising(es, low)
    requires forall i | 0 <= i < |es| :: TurnIn(es[i].payload) <= high
    requires e.payload.Turn? ==> low <= high < e.payload.turn
    ensures TurnsRising(es + [e], low)
  {
  }

  lemma NamesItsTurnStep(es: seq<Event>, e: Event)
    requires NamesItsTurn(es)
    requires e.payload.Llm? || e.payload.TurnEnd? ==> LatestTurn(es) == Some(TurnIn(e.payload))
    ensures NamesItsTurn(es + [e])
  {
    var all := es + [e];
    forall i | 0 <= i < |all| && (all[i].payload.Llm? || all[i].payload.TurnEnd?)
      ensures LatestTurn(all[..i]) == Some(TurnIn(all[i].payload))
    {
      if i < |es| {
        assert all[..i] == es[..i];
      } else {
        assert all[..i] == es;
      }
    }
  }

  /** A run numbers its turns upwards from where it started, without gaps, and uses each number for one turn. */
  lemma {:induction false} TraceNumbersTurns(rules: Rules, turn: nat, es: seq<Event>)
    requires Trace(rules, Start(turn), es).Some?
    ensures var m := Trace(rules, Start(turn), es).value;
            && m.turn == turn + TurnCount(es)
            && (forall i | 0 <= i < |es| :: TurnIn(es[i].payload) <= m.turn)
            && (TurnCount(es) > 0 ==> TailOf(es).turn == m.turn && LatestTurn(es) == Some(m.turn))
            && (m.phase.Thinking? || m.phase.Calls? || m.phase.Warned? || m.phase.Running? ==> TurnCount(es) > 0)
    ensures TurnCount(es) == 0 ==> TailOf(es).turn == 0
    ensures TurnsRising(es, turn) && NamesItsTurn(es)
  {
    if es == [] {
    } else {
      var shorter, e := es[..|es| - 1], es[|es| - 1];
      TraceNumbersTurns(rules, turn, shorter);
      var before := Trace(rules, Start(turn), shorter).value;
      StepTurns(rules, before, e.payload);
      hide Next, NamesItsTurn, TurnsRising;
      assert es == shorter + [e];
      TurnsRisingStep(shorter, turn, before.turn, e);
      NamesItsTurnStep(shorter, e);
    }
  }

  /** Until the run_start is written nothing else is. */
  lemma {:induction false} TraceOpens(rules: Rules, turn: nat, es: seq<Event>)
    requires Trace(rules, Start(turn), es).Some?
    ensures es != [] ==> es[0].payload.RunStart?
    ensures Trace(rules, Start(turn), es).value.phase.Opening? <==> es == []
    ensures forall i | 0 < i < |es| :: !es[i].payload.RunStart?
  {
    if es == [] {
    } else {
      var shorter := es[..|es| - 1];
      TraceOpens(rules, turn, shorter);
      StepOpens(rules, Trace(rules, Start(turn), shorter).value, es[|es| - 1].payload);
    }
  }

  /** A record that comes at the head of the loop: a turn begins, or a limit ends the run. */
  predicate FollowsHead(p: Payload) {
    p.Turn? || (p.RunEnd? && OfLimit(p.reason))
  }

  /** A record that comes of asking the model: its reply, or that it failed. */
  predicate FollowsRequest(p: Payload) {
    p.Llm? || p == Log(Failure)
  }

  lemma StepCloses(rules: Rules, m: Mark, p: Payload)
    requires Next(rules, m, p).Some?
    requires m.phase.Closing? ==> !OfLimit(m.phase.reason)
    ensures var ph := Next(rules, m, p).value.phase; ph.Closing? ==> !OfLimit(ph.reason)
    ensures FollowsHead(p) ==> m.phase.Head?
    ensures FollowsRequest(p) ==> m.phase.Thinking?
  {
  }

  lemma {:induction false} TraceCloses(rules: Rules, turn: nat, es: seq<Event>)
    requires Trace(rules, Start(turn), es).Some?
    ensures var ph := Trace(rules, Start(turn), es).value.phase; ph.Closing? ==> !OfLimit(ph.reason)
  {
    if es == [] {
    } else {
      var shorter := es[..|es| - 1];
      TraceCloses(rules, turn, shorter);
      StepCloses(rules, Trace(rules, Start(turn), shorter).value, es[|es| - 1].payload);
      hide Next;
    }
  }

  // ----- intents -----

  ghost predicate IsIntent(p: Payload) {
    p.Tool? && p.status == Intent
  }

  /**
   The record answering an intent: the result of the same call, under the key of the NEXT attempt
   (the intent's key is taken before the counter moves, the result's after), or the run's output.
   */
  ghost predicate Answers(rules: Rules, intent: Payload, p: Payload)
    requires intent.Tool?
  {
    || (&& p.Tool? && (p.status == Ok || p.status == Error)
        && p.callId == intent.callId && p.name == intent.name && p.args == intent.args
        && p.key == intent.key.(attempt := intent.key.attempt + 1))
    || (&& p.Finish? && p.output.Decoded? && intent.name == rules.finish
        && CarriesOutput(rules.codec, intent.args, p.output.value))
  }

  lemma {:induction false} RunningAfterIntent(rules: Rules, turn: nat, es: seq<Event>)
    requires Trace(rules, Start(turn), es).Some?
    ensures var m := Trace(rules, Start(turn), es).value;
            m.phase.Running? <==> es != [] && IsIntent(es[|es| - 1].payload)
    ensures var m := Trace(rules, Start(turn), es).value;
            m.phase.Running? ==>
              RecordOf(es[|es| - 1].payload, m.phase.call, Intent, m.run, m.attempts - 1) && m.attempts > 0
  {
  }

  /** While a call runs, the only record that can come next answers its intent. */
  lemma AnswerComesNext(rules: Rules, m: Mark, intent: Payload, p: Payload)
    requires m.phase.Running? && m.attempts > 0
    requires RecordOf(intent, m.phase.call, Intent, m.run, m.attempts - 1)
    requires Next(rules, m, p).Some?
    ensures Answers(rules, intent, p)
  {
  }

  /** The marks before and after a record of an accepted word. */
  lemma TraceAt(rules: Rules, turn: nat, es: seq<Event>, i: nat)
    requires Trace(rules, Start(turn), es).Some? && i < |es|
    ensures Trace(rules, Start(turn), es[..i]).Some?
    ensures Next(rules, Trace(rules, Start(turn), es[..i]).value, es[i].payload).Some?
  {
    hide Trace, Next;
    TracePrefix(rules, Start(turn), es, i);
    TracePrefix(rules, Start(turn), es, i + 1);
    assert es[..i + 1] == es[..i] + [es[i]];
    TraceStep(rules, Start(turn), es[..i], es[i]);
  }

  /** An intent is answered by the very next record, unless it is the last record of its run. */
  lemma {:induction false} IntentsAreAnswered(rules: Rules, turn: nat, es: seq<Event>, i: nat)
    requires Trace(rules, Start(turn), es).Some?
    requires i < |es| && IsIntent(es[i].payload)
    ensures i + 1 < |es| ==> Answers(rules, es[i].payload, es[i + 1].payload)
  {
    hide Trace, Next, Answers, RecordOf;
    if i + 1 < |es| {
      TraceAt(rules, turn, es, i + 1);
      RunningAfterIntent(rules, turn, es[..i + 1]);
      AnswerComesNext(rules, Trace(rules, Start(turn), es[..i + 1]).value, es[i].payload, es[i + 1].payload);
    }
  }

  /** So an intent and its result never share their idempotency key, whatever the call. */
  lemma IntentAndResultKeysDiffer(rules: Rules, turn: nat, es: seq<Event>, i: nat)
    requires Trace(rules, Start(turn), es).Some?
    requires i + 1 < |es| && IsIntent(es[i].payload) && es[i + 1].payload.Tool?
    ensures es[i].payload.callId == es[i + 1].payload.callId
    ensures es[i].payload.key != es[i + 1].payload.key
  {
    IntentsAreAnswered(rules, turn, es, i);
  }

  // ----- budgets -----

  /** The tokens of the replies recorded, and the tool calls they asked for. */
  function TokenSum(es: seq<Event>): int {
    if es == [] then 0 else
      TokenSum(es[..|es| - 1]) + if es[|es| - 1].payload.Llm? then es[|es| - 1].payload.tokens else 0
  }

  function CallSum(es: seq<Event>): nat {
    if es == [] then 0 else
      CallSum(es[..|es| - 1]) +
      if es[|es| - 1].payload.Llm? then |es[|es| - 1].payload.message.toolCalls| else 0
  }

  /** What is counted grows by each record's share and nothing else: a turn, or a reply's tokens and calls. */
  lemma {:induction false} BudgetsAdd(a: seq<Event>, e: Event, b: seq<Event>)
    ensures var es := a + [e] + b;
            && TurnCount(es) == TurnCount(a) + TurnCount(b) + (if e.payload.Turn? then 1 else 0)
            && TokenSum(es) == TokenSum(a) + TokenSum(b) + (if e.payload.Llm? then e.payload.tokens else 0)
            && CallSum(es) == CallSum(a) + CallSum(b) +
                              (if e.payload.Llm? then |e.payload.message.toolCalls| else 0)
  {
    if b == [] {
      assert a + [e] + b == a + [e] && (a + [e])[..|a|] == a;
    } else {
      var shorter := b[..|b| - 1];
      assert (a + [e] + b)[..|a + [e] + b| - 1] == a + [e] + shorter;
      BudgetsAdd(a, e, shorter);
    }
  }

  /** The calls a mark still has ahead of it. */
  function Ahead(m: Mark): nat {
    match m.phase
    case Calls(pending) => |pending|
    case Warned(_, rest) => |rest|
    case Running(_, rest) => |rest|
    case _ => 0
  }

  predicate Over(ph: Phase) {
    ph.Closing? || ph.Closed?
  }

  /** One step deals with calls that are ahead, or adds those a reply asks for. */
  lemma StepCounts(rules: Rules, m: Mark, p: Payload)
    requires Next(rules, m, p).Some?
    ensures var m' := Next(rules, m, p).value;
            && (Over(m.phase) ==> Over(m'.phase) && m'.attempts == m.attempts)
            && m'.attempts <= m.attempts + Ahead(m)
            && (!Over(m'.phase) ==>
                  m'.attempts + Ahead(m') == m.attempts + Ahead(m) + if p.Llm? then |p.message.toolCalls| else 0)
  {
  }

  /** Every call asked for is either dealt with or still ahead; at the head of the loop none is left. */
  lemma {:induction false} TraceCountsCalls(rules: Rules, turn: nat, es: seq<Event>)
    requires Trace(rules, Start(turn), es).Some?
    ensures var m := Trace(rules, Start(turn), es).value;
            !Over(m.phase) ==> m.attempts + Ahead(m) == CallSum(es)
    ensures var m := Trace(rules, Start(turn), es).value; m.attempts <= CallSum(es)
  {
    if es == [] {
    } else {
      var shorter := es[..|es| - 1];
      TraceCountsCalls(rules, turn, shorter);
      StepCounts(rules, Trace(rules, Start(turn), shorter).value, es[|es| - 1].payload);
      hide Next;
    }
  }

  /** The usage limits of a run; 0 or less means unlimited for the last two. */
  datatype Limits = Limits(maxTurns: int, maxTokens: int, maxInvocations: int)

  /** After these records another turn may start. */
  ghost predicate MayStartTurn(limits: Limits, es: seq<Event>) {
    && TurnCount(es) < limits.maxTurns
    && (0 < limits.maxTokens ==> TokenSum(es) <= limits.maxTokens)
    && (0 < limits.maxInvocations ==> CallSum(es) <= limits.maxInvocations)
  }

  /** No turn was started over a limit. */
  ghost predicate WithinLimits(limits: Limits, es: seq<Event>) {
    es == [] ||
    var before := es[..|es| - 1];
    WithinLimits(limits, before) && (es[|es| - 1].payload.Turn? ==> MayStartTurn(limits, before))
  }

  lemma WithinLimitsStep(limits: Limits, es: seq<Event>, e: Event)
    requires WithinLimits(limits, es)
    requires e.payload.Turn? ==> MayStartTurn(limits, es)
    ensures WithinLimits(limits, es + [e])
  {
    assert (es + [e])[..|es + [e]| - 1] == es;
  }

  /** The last reply recorded: its tokens, and the number of calls it asked for. */
  function LastReply(es: seq<Event>): (int, nat) {
    if es == [] then (0, 0)
    else if es[|es| - 1].payload.Llm? then (es[|es| - 1].payload.tokens, |es[|es| - 1].payload.message.toolCalls|)
    else LastReply(es[..|es| - 1])
  }

  /** Replies alternate with turn records, so the last reply alone can take a run over a limit. */
  lemma {:induction false} OvershootIsOneReply(rules: Rules, turn: nat, es: seq<Event>, limits: Limits)
    requires Trace(rules, Start(turn), es).Some?
    requires WithinLimits(limits, es)
    ensures TurnCount(es) <= if 0 < limits.maxTurns then limits.maxTurns else 0
    ensures 0 < limits.maxTokens ==>
              TokenSum(es) <= limits.maxTokens || TokenSum(es) - LastReply(es).0 <= limits.maxTokens
    ensures 0 < limits.maxInvocations ==> CallSum(es) - LastReply(es).1 <= limits.maxInvocations
    ensures Trace(rules, Start(turn), es).value.phase.Thinking? ==>
              && (0 < limits.maxTokens ==> TokenSum(es) <= limits.maxTokens)
              && (0 < limits.maxInvocations ==> CallSum(es) <= limits.maxInvocations)
  {
    if es == [] {
    } else {
      var shorter := es[..|es| - 1];
      OvershootIsOneReply(rules, turn, shorter, limits);
    }
  }
}
