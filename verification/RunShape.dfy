/**
 The shape of a run's records as a grammar: `run_start (turn llm call* turn_end)* closing`,
 given by trees and the words they spell, independently of the automaton.
 */
module RunShape {
  import opened Messages
  import opened Events
  import opened Grammar

  datatype Symbol =
    | SRunStart | STurn | SLlm | SLog | SFinish | STurnEnd | SRunEnd
    | SIntent(id: string)
    | STerminal(id: string)

  function SymbolOf(p: Payload): Symbol {
    match p
    case RunStart(_, _, _) => SRunStart
    case Turn(_) => STurn
    case Llm(_, _, _) => SLlm
    case Tool(id, _, _, _, status, _, _, _) => if status == Intent then SIntent(id) else STerminal(id)
    case Finish(_) => SFinish
    case TurnEnd(_) => STurnEnd
    case RunEnd(_) => SRunEnd
    case Log(_) => SLog
  }

  function Word(es: seq<Event>): seq<Symbol> {
    seq(|es|, i requires 0 <= i < |es| => SymbolOf(es[i].payload))
  }

  /** A call that ran, one that was refused (noted or not), or a refusal whose record cannot be written. */
  datatype Call = Ran(id: string) | Refused(noted: bool, id: string) | OnlyNoted

  function CallWord(c: Call): seq<Symbol> {
    match c
    case Ran(id) => [SIntent(id), STerminal(id)]
    case Refused(noted, id) => (if noted then [SLog] else []) + [STerminal(id)]
    case OnlyNoted => [SLog]
  }

  function CallsWord(cs: seq<Call>): seq<Symbol> {
    if cs == [] then [] else CallsWord(cs[..|cs| - 1]) + CallWord(cs[|cs| - 1])
  }

  /** A turn up to the end of some of its calls. */
  function Begun(cs: seq<Call>): seq<Symbol> {
    [STurn, SLlm] + CallsWord(cs)
  }

  function TurnWord(cs: seq<Call>): seq<Symbol> {
    Begun(cs) + [STurnEnd]
  }

  function TurnsWord(ts: seq<seq<Call>>): seq<Symbol> {
    if ts == [] then [] else TurnsWord(ts[..|ts| - 1]) + TurnWord(ts[|ts| - 1])
  }

  datatype Ending =
    | OverLimit
    | NoReply
    | Answer
    | ByFinish(calls: seq<Call>, id: string)

  /** An ending without its run_end. */
  function EndingWord(e: Ending): seq<Symbol> {
    match e
    case OverLimit => []
    case NoReply => [STurn, SLog]
    case Answer => [STurn, SLlm, SFinish]
    case ByFinish(calls, id) => Begun(calls) + [SIntent(id), SFinish]
  }

  function RunWord(ts: seq<seq<Call>>, e: Ending): seq<Symbol> {
    [SRunStart] + TurnsWord(ts) + EndingWord(e) + [SRunEnd]
  }

  /** The part of a turn that has been written, as the phase after it tells. */
  ghost function Unfinished(ph: Phase, cs: seq<Call>, e: Ending): seq<Symbol> {
    match ph
    case Thinking => [STurn]
    case Failed => [STurn, SLog]
    case Answering(_) => [STurn, SLlm]
    case Calls(_) => Begun(cs)
    case Warned(_, _) => Begun(cs) + [SLog]
    case Running(tc, _) => Begun(cs) + [SIntent(tc.id)]
    case Closing(_) => EndingWord(e)
    case Closed => EndingWord(e) + [SRunEnd]
    case _ => []
  }

  ghost function Written(ph: Phase, ts: seq<seq<Call>>, cs: seq<Call>, e: Ending): seq<Symbol> {
    if ph.Opening? then [] else [SRunStart] + TurnsWord(ts) + Unfinished(ph, cs, e)
  }

  /** Every call the replies ask for can be recorded, so no refusal is only noted. */
  ghost predicate AllRecordable(rules: Rules, es: seq<Event>) {
    forall i, j | 0 <= i < |es| && es[i].payload.Llm? && 0 <= j < |es[i].payload.message.toolCalls| ::
      Recordable(rules.codec, es[i].payload.message.toolCalls[j])
  }

  predicate FullyRecorded(cs: seq<Call>) {
    OnlyNoted !in cs
  }

  datatype Tree = Tree(turns: seq<seq<Call>>, calls: seq<Call>, ending: Ending)

  ghost function Spelled(ph: Phase, t: Tree): seq<Symbol> {
    Written(ph, t.turns, t.calls, t.ending)
  }

  /** How one record extends the tree, from a settled mark. */
  ghost function Grown(rules: Rules, m: Mark, p: Payload, t: Tree): Tree {
    match m.phase
    case Opening => Tree([], [], OverLimit)
    case Head => Tree(t.turns, [], OverLimit)
    case Thinking => Tree(t.turns, [], NoReply)
    case Failed => t.(ending := NoReply)
    case Answering(_) => t.(ending := Answer)
    case Calls(pending) =>
      if pending == [] then Tree(t.turns + [t.calls], [], OverLimit)
      else if p.Tool? && p.status != Intent then t.(calls := t.calls + [Refused(false, pending[0].id)])
      else if p.Log? && !Recordable(rules.codec, pending[0]) then t.(calls := t.calls + [OnlyNoted])
      else t
    case Warned(tc, _) => t.(calls := t.calls + [Refused(true, tc.id)])
    case Running(tc, _) =>
      if p.Tool? then t.(calls := t.calls + [Ran(tc.id)]) else t.(ending := ByFinish(t.calls, tc.id))
    case _ => t
  }

  lemma CallsWordStep(cs: seq<Call>, c: Call)
    ensures CallsWord(cs + [c]) == CallsWord(cs) + CallWord(c)
  {
    assert (cs + [c])[..|cs|] == cs;
  }

  lemma TurnsWordStep(ts: seq<seq<Call>>, cs: seq<Call>)
    ensures TurnsWord(ts + [cs]) == TurnsWord(ts) + TurnWord(cs)
  {
    assert (ts + [cs])[..|ts|] == ts;
  }

  lemma Associates(a: seq<Symbol>, b: seq<Symbol>, c: seq<Symbol>)
    ensures a + b + c == a + (b + c)
  {
  }

  lemma BegunStep(cs: seq<Call>, c: Call)
    ensures Begun(cs + [c]) == Begun(cs) + CallWord(c)
  {
    CallsWordStep(cs, c);
    Associates([STurn, SLlm], CallsWord(cs), CallWord(c));
  }

  lemma CallsGrow(rules: Rules, m: Mark, p: Payload, t: Tree)
    requires m.phase.Calls? && m.phase.pending != [] && Advance(rules, m, p).Some?
    ensures var t' := Grown(rules, m, p, t);
            && t'.turns == t.turns
            && Unfinished(Advance(rules, m, p).value.phase, t'.calls, t'.ending)
               == Begun(t.calls) + [SymbolOf(p)]
  {
    var tc := m.phase.pending[0];
    var ph' := Advance(rules, m, p).value.phase;
    match rules.judge(tc) {
      case Unknown =>
        assert ph' == Calls(m.phase.pending[1..]);
        BegunStep(t.calls, Refused(false, tc.id));
      case Rejected =>
        if !Recordable(rules.codec, tc) {
          BegunStep(t.calls, OnlyNoted);
        }
      case Runnable =>
        assert ph' == Running(tc, m.phase.pending[1..]);
    }
  }

  lemma WarnedGrows(rules: Rules, m: Mark, p: Payload, t: Tree)
    requires m.phase.Warned? && Advance(rules, m, p).Some?
    ensures var t' := Grown(rules, m, p, t);
            && t'.turns == t.turns
            && Unfinished(Advance(rules, m, p).value.phase, t'.calls, t'.ending)
               == Begun(t.calls) + [SLog] + [SymbolOf(p)]
  {
    BegunStep(t.calls, Refused(true, m.phase.call.id));
    assert SymbolOf(p) == STerminal(m.phase.call.id);
    Associates(Begun(t.calls), [SLog], [SymbolOf(p)]);
  }

  lemma RanWord(cs: seq<Call>, id: string)
    ensures Begun(cs + [Ran(id)]) == Begun(cs) + [SIntent(id)] + [STerminal(id)]
    ensures EndingWord(ByFinish(cs, id)) == Begun(cs) + [SIntent(id)] + [SFinish]
  {
    BegunStep(cs, Ran(id));
    assert CallWord(Ran(id)) == [SIntent(id)] + [STerminal(id)];
    assert [SIntent(id), SFinish] == [SIntent(id)] + [SFinish];
  }

  lemma RunningGrows(rules: Rules, m: Mark, p: Payload, t: Tree)
    requires m.phase.Running? && Advance(rules, m, p).Some?
    ensures var t' := Grown(rules, m, p, t);
            && t'.turns == t.turns
            && Unfinished(Advance(rules, m, p).value.phase, t'.calls, t'.ending)
               == Begun(t.calls) + [SIntent(m.phase.call.id)] + [SymbolOf(p)]
  {
    RanWord(t.calls, m.phase.call.id);
    assert SymbolOf(p) == if p.Tool? then STerminal(m.phase.call.id) else SFinish;
  }

  lemma QuietGrows(rules: Rules, m: Mark, p: Payload, t: Tree)
    requires Advance(rules, m, p).Some?
    requires m.phase.Head? || m.phase.Thinking? || m.phase.Failed? || m.phase.Answering? || m.phase.Closing?
    ensures var t' := Grown(rules, m, p, t);
            && t'.turns == t.turns
            && Unfinished(Advance(rules, m, p).value.phase, t'.calls, t'.ending)
               == Unfinished(m.phase, t.calls, t.ending) + [SymbolOf(p)]
  {
  }

  /** Each record adds its symbol to what is spelled. */
  lemma GrowingSpells(rules: Rules, m: Mark, p: Payload, t: Tree)
    requires Advance(rules, m, p).Some?
    ensures var t' := Grown(rules, m, p, t);
            Spelled(Advance(rules, m, p).value.phase, t') == Spelled(m.phase, t) + [SymbolOf(p)]
  {
    var written := [SRunStart] + TurnsWord(t.turns);
    match m.phase {
      case Opening => OpeningSpells(rules, m, p, t);
      case Calls(pending) =>
        if pending == [] {
          TurnSpells(rules, m, p, t);
        } else {
          CallsGrow(rules, m, p, t);
          Associates(written, Begun(t.calls), [SymbolOf(p)]);
        }
      case Warned(tc, _) =>
        WarnedGrows(rules, m, p, t);
        Associates(written, Begun(t.calls) + [SLog], [SymbolOf(p)]);
      case Running(tc, _) =>
        RunningGrows(rules, m, p, t);
        Associates(written, Begun(t.calls) + [SIntent(tc.id)], [SymbolOf(p)]);
      case _ =>
        QuietGrows(rules, m, p, t);
        Associates(written, Unfinished(m.phase, t.calls, t.ending), [SymbolOf(p)]);
    }
  }

  lemma OpeningSpells(rules: Rules, m: Mark, p: Payload, t: Tree)
    requires m.phase.Opening? && Advance(rules, m, p).Some?
    ensures Spelled(Advance(rules, m, p).value.phase, Grown(rules, m, p, t)) == [SymbolOf(p)]
  {
    assert TurnsWord([]) == [];
  }

  lemma TurnSpells(rules: Rules, m: Mark, p: Payload, t: Tree)
    requires m.phase == Calls([]) && Advance(rules, m, p).Some?
    ensures Spelled(Advance(rules, m, p).value.phase, Grown(rules, m, p, t)) == Spelled(m.phase, t) + [SymbolOf(p)]
  {
    TurnsWordStep(t.turns, t.calls);
    Associates([SRunStart], TurnsWord(t.turns), TurnWord(t.calls));
    Associates([SRunStart] + TurnsWord(t.turns), Begun(t.calls), [STurnEnd]);
  }

  /** The calls a mark still has ahead, with the one at hand. */
  ghost function AtHand(ph: Phase): seq<ToolCall> {
    match ph
    case Calls(pending) => pending
    case Warned(tc, rest) => [tc] + rest
    case Running(tc, rest) => [tc] + rest
    case _ => []
  }

  ghost predicate StaysRecorded(rules: Rules, ph: Phase, t: Tree) {
    && (forall tc | tc in AtHand(ph) :: Recordable(rules.codec, tc))
    && (forall cs | cs in t.turns :: FullyRecorded(cs))
    && FullyRecorded(t.calls)
    && (t.ending.ByFinish? ==> FullyRecorded(t.ending.calls))
  }

  /** Dealing with the first of some calls keeps their records: it leaves the others at hand. */
  lemma CallsStayRecorded(rules: Rules, m: Mark, p: Payload, t: Tree)
    requires m.phase.Calls? && m.phase.pending != [] && Advance(rules, m, p).Some?
    requires StaysRecorded(rules, m.phase, t)
    ensures StaysRecorded(rules, Advance(rules, m, p).value.phase, Grown(rules, m, p, t))
  {
    hide Refusal, RecordOf;
    assert m.phase.pending[0] in m.phase.pending;
    assert forall tc | tc in m.phase.pending[1..] :: tc in m.phase.pending;
    assert m.phase.pending == [m.phase.pending[0]] + m.phase.pending[1..];
  }

  lemma GrowingStaysRecorded(rules: Rules, m: Mark, p: Payload, t: Tree)
    requires Advance(rules, m, p).Some?
    requires StaysRecorded(rules, m.phase, t)
    requires p.Llm? ==> forall tc | tc in p.message.toolCalls :: Recordable(rules.codec, tc)
    ensures StaysRecorded(rules, Advance(rules, m, p).value.phase, Grown(rules, m, p, t))
  {
    if m.phase.Calls? && m.phase.pending != [] {
      hide Advance, Grown, StaysRecorded;
      CallsStayRecorded(rules, m, p, t);
    } else {
      hide Advance, Grown, StaysRecorded;
      OthersStayRecorded(rules, m, p, t);
    }
  }

  lemma OthersStayRecorded(rules: Rules, m: Mark, p: Payload, t: Tree)
    requires !(m.phase.Calls? && m.phase.pending != []) && Advance(rules, m, p).Some?
    requires StaysRecorded(rules, m.phase, t)
    requires p.Llm? ==> forall tc | tc in p.message.toolCalls :: Recordable(rules.codec, tc)
    ensures StaysRecorded(rules, Advance(rules, m, p).value.phase, Grown(rules, m, p, t))
  {
    hide Refusal, RecordOf, Result, CarriesOutput;
  }

  lemma {:induction false} SkipKeeps(rules: Rules, pending: seq<ToolCall>, tc: ToolCall)
    requires tc in Skip(rules, pending)
    ensures tc in pending
  {
    if pending != [] && Silent(rules, pending[0]) {
      SkipKeeps(rules, pending[1..], tc);
    }
  }

  lemma SettlingSpells(rules: Rules, before: Mark, t: Tree)
    ensures Spelled(Settle(rules, before).phase, t) == Spelled(before.phase, t)
    ensures StaysRecorded(rules, before.phase, t) ==> StaysRecorded(rules, Settle(rules, before).phase, t)
  {
    if before.phase.Calls? {
      forall tc | tc in Skip(rules, before.phase.pending) ensures tc in before.phase.pending {
        SkipKeeps(rules, before.phase.pending, tc);
      }
    }
  }

  lemma WordStep(es: seq<Event>, e: Event)
    ensures Word(es + [e]) == Word(es) + [SymbolOf(e.payload)]
  {
  }

  lemma AllRecordablePrefix(rules: Rules, es: seq<Event>, e: Event)
    requires AllRecordable(rules, es + [e])
    ensures AllRecordable(rules, es)
    ensures e.payload.Llm? ==> forall tc | tc in e.payload.message.toolCalls :: Recordable(rules.codec, tc)
  {
    var all := es + [e];
    assert all[|es|] == e;
    forall i, j | 0 <= i < |es| && es[i].payload.Llm? && 0 <= j < |es[i].payload.message.toolCalls|
      ensures Recordable(rules.codec, es[i].payload.message.toolCalls[j])
    {
      assert all[i] == es[i];
    }
  }

  /** Every accepted sequence of records is spelled by a tree. */
  lemma {:induction false} Parse(rules: Rules, turn: nat, es: seq<Event>) returns (t: Tree)
    requires Trace(rules, Start(turn), es).Some?
    ensures Word(es) == Spelled(Trace(rules, Start(turn), es).value.phase, t)
    ensures AllRecordable(rules, es) ==> StaysRecorded(rules, Trace(rules, Start(turn), es).value.phase, t)
  {
    if es == [] {
      t := Tree([], [], OverLimit);
    } else {
      var shorter, e := es[..|es| - 1], es[|es| - 1];
      assert es == shorter + [e];
      var before := Trace(rules, Start(turn), shorter).value;
      var m := Settle(rules, before);
      var t0 := Parse(rules, turn, shorter);
      t := Grown(rules, m, e.payload, t0);
      SettlingSpells(rules, before, t0);
      GrowingSpells(rules, m, e.payload, t0);
      WordStep(shorter, e);
      if AllRecordable(rules, es) {
        AllRecordablePrefix(rules, shorter, e);
        GrowingStaysRecorded(rules, m, e.payload, t0);
      }
    }
  }

  /** The word of a whole run that a tree in some phase is on its way to. */
  ghost function Completion(ph: Phase, t: Tree): (seq<seq<Call>>, Ending) {
    match ph
    case Thinking => (t.turns, NoReply)
    case Failed => (t.turns, NoReply)
    case Answering(_) => (t.turns, Answer)
    case Calls(_) => (t.turns + [t.calls], OverLimit)
    case Warned(tc, _) => (t.turns + [t.calls + [Refused(true, tc.id)]], OverLimit)
    case Running(tc, _) => (t.turns + [t.calls + [Ran(tc.id)]], OverLimit)
    case Closing(_) => (t.turns, t.ending)
    case Closed => (t.turns, t.ending)
    case Opening => ([], OverLimit)
    case Head => (t.turns, OverLimit)
  }

  /** Finishing the current turn's call, and then the turn, completes a list of turns. */
  lemma TurnCompletes(ts: seq<seq<Call>>, cs: seq<Call>, written: seq<Symbol>, more: seq<Symbol>)
    requires Begun(cs) == written + more
    ensures [SRunStart] + TurnsWord(ts) + written <= RunWord(ts + [cs], OverLimit)
  {
    hide TurnsWord, CallsWord, Begun;
    var before := [SRunStart] + TurnsWord(ts);
    TurnsWordStep(ts, cs);
    Associates([SRunStart], TurnsWord(ts), TurnWord(cs));
    Associates(before, written + more, [STurnEnd]);
    assert RunWord(ts + [cs], OverLimit) == before + (written + more + [STurnEnd]) + [SRunEnd];
    assert RunWord(ts + [cs], OverLimit) == before + written + (more + [STurnEnd, SRunEnd]);
  }

  lemma CompletionExtends(ph: Phase, t: Tree)
    ensures var (ts, e) := Completion(ph, t); Spelled(ph, t) <= RunWord(ts, e)
    ensures ph.Closed? ==> var (ts, e) := Completion(ph, t); Spelled(ph, t) == RunWord(ts, e)
  {
    match ph {
      case Calls(_) => TurnCompletes(t.turns, t.calls, Begun(t.calls), []);
      case Warned(tc, _) =>
        BegunStep(t.calls, Refused(true, tc.id));
        assert CallWord(Refused(true, tc.id)) == [SLog] + [STerminal(tc.id)];
        TurnCompletes(t.turns, t.calls + [Refused(true, tc.id)], Begun(t.calls) + [SLog], [STerminal(tc.id)]);
      case Running(tc, _) =>
        BegunStep(t.calls, Ran(tc.id));
        assert CallWord(Ran(tc.id)) == [SIntent(tc.id)] + [STerminal(tc.id)];
        TurnCompletes(t.turns, t.calls + [Ran(tc.id)], Begun(t.calls) + [SIntent(tc.id)], [STerminal(tc.id)]);
      case _ => QuietCompletes(ph, t);
    }
  }

  lemma QuietCompletes(ph: Phase, t: Tree)
    requires !ph.Calls? && !ph.Warned? && !ph.Running?
    ensures var (ts, e) := Completion(ph, t); Spelled(ph, t) <= RunWord(ts, e)
    ensures ph.Closed? ==> var (ts, e) := Completion(ph, t); Spelled(ph, t) == RunWord(ts, e)
  {
    var (ts, e) := Completion(ph, t);
    assert !ph.Opening? ==> ts == t.turns;
    var written := [SRunStart] + TurnsWord(ts);
    assert Unfinished(ph, t.calls, t.ending) <= EndingWord(e) + [SRunEnd];
    assert RunWord(ts, e) == written + (EndingWord(e) + [SRunEnd]);
  }

  predicate RunFullyRecorded(ts: seq<seq<Call>>, e: Ending) {
    (forall cs | cs in ts :: FullyRecorded(cs)) && (e.ByFinish? ==> FullyRecorded(e.calls))
  }

  /**
   The records of a run, at any moment, are the beginning of a word of the grammar, and all of one
   once run_end is written; no refusal lacks its record when every call can be recorded.
   */
  lemma RunsFollowTheGrammar(rules: Rules, turn: nat, es: seq<Event>) returns (ts: seq<seq<Call>>, e: Ending)
    requires Trace(rules, Start(turn), es).Some?
    ensures Word(es) <= RunWord(ts, e)
    ensures Trace(rules, Start(turn), es).value.phase.Closed? ==> Word(es) == RunWord(ts, e)
    ensures AllRecordable(rules, es) ==> RunFullyRecorded(ts, e)
  {
    var ph := Trace(rules, Start(turn), es).value.phase;
    var t := Parse(rules, turn, es);
    CompletionExtends(ph, t);
    var (ts', e') := Completion(ph, t);
    ts, e := ts', e';
  }
}
