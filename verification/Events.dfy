/** `events.go`: the records, the file they end up in, and the append-only log over it. */
module Events {
  import opened Wrappers
  import opened JsonValues
  import opened Messages

  // ----- records -----

  /** A text as JSON: not JSON at all, JSON with a number too large to decode, or a value. */
  datatype Parse = Malformed | OutOfRange | Parsed(value: Json)

  /** What the text level decides for us: what a text is as JSON, and which `%q` renderings are JSON. */
  datatype Codec = Codec(parse: string -> Parse, quotable: string -> bool) {
    predicate Valid(text: string) {
      !parse(text).Malformed?
    }

    function Decode(text: string): Option<Json> {
      match parse(text)
      case Parsed(v) => Some(v)
      case _ => None
    }
  }

  /** Raw arguments a record can carry: they are omitted when empty and rejected when they are not JSON. */
  predicate Writable(codec: Codec, arguments: string) {
    arguments == "" || codec.Valid(arguments)
  }

  datatype Status = Intent | Ok | Error | Invalid | Denied

  /** An idempotency key, as the injective function of its inputs that a digest stands for. */
  datatype Key = Key(run: string, call: string, attempt: nat)

  datatype Output = Quoted(text: string) | Decoded(value: Json)

  /** Why a run ended, as its run_end names it. */
  datatype Reason =
    | MaxWallClock | MaxTotalTokens | MaxToolInvocations | MaxTurns
    | LlmError | Answered | Finished

  datatype Level = Failure | Warning

  datatype Payload =
    | RunStart(runId: string, goal: string, model: string)
    | Turn(turn: nat)
    | Llm(turn: nat, message: Message, tokens: int)
    | Tool(callId: string, key: Key, name: string, args: string, status: Status,
           stdout: string, stderr: string, error: string)
    | Finish(output: Output)
    | TurnEnd(turn: nat)
    | RunEnd(reason: Reason)
    | Log(level: Level)

  datatype Event = Event(number: nat, payload: Payload)

  /** Which records can be encoded: raw arguments may spoil it, and a quotation that is not JSON. */
  predicate Marshals(codec: Codec, p: Payload) {
    match p
    case Tool(_, _, _, args, _, _, _, _) => Writable(codec, args)
    case Finish(Quoted(text)) => codec.quotable(text)
    case _ => true
  }

  /** Nothing but malformed arguments of a call and an answer whose quotation is not JSON spoils a record. */
  lemma OnlyTextsSpoilRecords(codec: Codec, p: Payload)
    ensures !Marshals(codec, p) <==>
              || (p.Tool? && p.args != "" && codec.parse(p.args) == Malformed)
              || exists text :: p == Finish(Quoted(text)) && !codec.quotable(text)
  {
    if p.Finish? && p.output.Quoted? {
      assert p == Finish(Quoted(p.output.text));
    }
  }

  // ----- the file -----

  /** How much of a record's line reached the file: a proper piece, all but its newline, or all. */
  datatype Extent = Torn | Unterminated | Whole

  datatype Chunk = Chunk(event: Event, extent: Extent)

  /** A line as the scanner sees it: one that decodes as a record, or one that does not. */
  datatype Line = Record(event: Event) | Garbage

  /** The file ends at a line boundary. */
  predicate Clean(cs: seq<Chunk>) {
    cs == [] || cs[|cs| - 1].extent.Whole?
  }

  function LineOf(before: seq<Chunk>, c: Chunk): Line {
    if Clean(before) && !c.extent.Torn? then Record(c.event) else Garbage
  }

  /** The lines that have their newline; a record glued onto an open line cannot be decoded. */
  function Terminated(cs: seq<Chunk>): seq<Line> {
    if cs == [] then [] else
      var before, c := cs[..|cs| - 1], cs[|cs| - 1];
      Terminated(before) + if c.extent.Whole? then [LineOf(before, c)] else []
  }

  /** All lines a scanner yields: a last line without its newline counts too. */
  function Lines(cs: seq<Chunk>): seq<Line> {
    Terminated(cs) + if Clean(cs) then [] else [LineOf(cs[..|cs| - 1], cs[|cs| - 1])]
  }

  function Records(lines: seq<Line>): seq<Event> {
    if lines == [] then [] else
      var line := lines[|lines| - 1];
      Records(lines[..|lines| - 1]) + if line.Record? then [line.event] else []
  }

  /** The records a reader of the file finds. */
  function Readable(cs: seq<Chunk>): seq<Event> {
    Records(Lines(cs))
  }

  /** The records that stay readable whatever is appended next. */
  function Settled(cs: seq<Chunk>): seq<Event> {
    Records(Terminated(cs))
  }

  function EventsOf(cs: seq<Chunk>): seq<Event> {
    seq(|cs|, i requires 0 <= i < |cs| => cs[i].event)
  }

  lemma EventsOfStep(cs: seq<Chunk>, c: Chunk)
    ensures EventsOf(cs + [c]) == EventsOf(cs) + [c.event]
  {
  }

  lemma {:induction false} RecordsAdd(a: seq<Line>, b: seq<Line>)
    ensures Records(a + b) == Records(a) + Records(b)
  {
    if b == [] {
      assert a + b == a;
    } else {
      var shorter := b[..|b| - 1];
      assert (a + b)[..|a + b| - 1] == a + shorter;
      RecordsAdd(a, shorter);
    }
  }

  lemma RecordsStep(lines: seq<Line>, i: nat)
    requires i < |lines|
    ensures Records(lines[..i + 1]) ==
            if lines[i].Record? then Records(lines[..i]) + [lines[i].event] else Records(lines[..i])
  {
    assert lines[..i + 1][..i] == lines[..i];
  }

  lemma ReadableIsSettledPlus(cs: seq<Chunk>)
    ensures Clean(cs) ==> Readable(cs) == Settled(cs)
    ensures !Clean(cs) ==>
      var before, c := cs[..|cs| - 1], cs[|cs| - 1];
      Readable(cs) == Settled(cs) + if LineOf(before, c).Record? then [c.event] else []
  {
    if !Clean(cs) {
      var line := LineOf(cs[..|cs| - 1], cs[|cs| - 1]);
      RecordsAdd(Terminated(cs), [line]);
      assert Records([]) == [];
      assert [line][..0] == [];
      assert Records([line]) == if line.Record? then [line.event] else [];
    } else {
      assert Lines(cs) == Terminated(cs);
    }
  }

  lemma SettledStep(cs: seq<Chunk>, c: Chunk)
    ensures c.extent.Whole? && Clean(cs) ==> Settled(cs + [c]) == Settled(cs) + [c.event]
    ensures !(c.extent.Whole? && Clean(cs)) ==> Settled(cs + [c]) == Settled(cs)
  {
    var all := cs + [c];
    assert all[..|all| - 1] == cs;
    var extra := if c.extent.Whole? then [LineOf(cs, c)] else [];
    assert Terminated(all) == Terminated(cs) + extra;
    RecordsAdd(Terminated(cs), extra);
    assert Records([]) == [];
    if extra != [] {
      assert extra[..0] == [];
      assert Records(extra) == if extra[0].Record? then [extra[0].event] else [];
    }
  }

  lemma SettledOfNothing()
    ensures Settled([]) == []
  {
  }

  /** A segment written by one process: only its last line can be unfinished. */
  ghost predicate OneWriter(own: seq<Chunk>) {
    forall i | 0 <= i < |own| - 1 :: own[i].extent.Whole?
  }

  /** The events of a segment that a reader finds once it follows `base`. */
  ghost function Surviving(base: seq<Chunk>, own: seq<Chunk>): seq<Event> {
    if own == [] then []
    else
      var es := if own[|own| - 1].extent.Torn? then EventsOf(own[..|own| - 1]) else EventsOf(own);
      if Clean(base) || es == [] then es else es[1..]
  }

  /** Whole records on top of a file settle, except that the first is lost to an unfinished line. */
  lemma {:induction false} SettledAfterWhole(base: seq<Chunk>, own: seq<Chunk>)
    requires forall i | 0 <= i < |own| :: own[i].extent.Whole?
    ensures own != [] ==> Clean(base + own)
    ensures var es := EventsOf(own);
            Settled(base + own) == Settled(base) + if Clean(base) || es == [] then es else es[1..]
  {
    hide Settled;
    if own == [] {
      assert base + own == base;
    } else {
      var shorter, c := own[..|own| - 1], own[|own| - 1];
      SettledAfterWhole(base, shorter);
      SettledStep(base + shorter, c);
      assert base + own == (base + shorter) + [c];
      assert own == shorter + [c];
      EventsOfStep(shorter, c);
      if shorter == [] {
        assert base + shorter == base;
      }
    }
  }

  lemma ReadableStep(cs: seq<Chunk>, c: Chunk)
    ensures Readable(cs + [c]) == Settled(cs) + if Clean(cs) && !c.extent.Torn? then [c.event] else []
  {
    SettledStep(cs, c);
    ReadableIsSettledPlus(cs + [c]);
    assert (cs + [c])[..|cs + [c]| - 1] == cs;
  }

  /** Reading a file that one writer extended: what had settled, then what survives of the segment. */
  lemma ReadableAfterSegment(base: seq<Chunk>, own: seq<Chunk>)
    requires OneWriter(own) && own != []
    ensures Readable(base + own) == Settled(base) + Surviving(base, own)
  {
    hide Readable, Settled;
    var shorter, c := own[..|own| - 1], own[|own| - 1];
    SettledAfterWhole(base, shorter);
    assert base + own == (base + shorter) + [c];
    ReadableStep(base + shorter, c);
    assert own == shorter + [c];
    EventsOfStep(shorter, c);
    if shorter == [] {
      assert base + shorter == base;
    }
  }

  // ----- what a torn line costs -----

  /** The record at an index can be read back, said without going through lines. */
  predicate Legible(cs: seq<Chunk>, i: nat)
    requires i < |cs|
  {
    && (i == 0 || cs[i - 1].extent.Whole?)
    && (cs[i].extent.Whole? || (cs[i].extent.Unterminated? && i == |cs| - 1))
  }

  /** How many of the first n records are torn, and how many cannot be read back. */
  function TornCount(cs: seq<Chunk>, n: nat): nat
    requires n <= |cs|
  {
    if n == 0 then 0 else TornCount(cs, n - 1) + if cs[n - 1].extent.Whole? then 0 else 1
  }

  function LostCount(cs: seq<Chunk>, n: nat): nat
    requires n <= |cs|
  {
    if n == 0 then 0 else LostCount(cs, n - 1) + if Legible(cs, n - 1) then 0 else 1
  }

  function LegibleEvents(cs: seq<Chunk>, n: nat): seq<Event>
    requires n <= |cs|
  {
    if n == 0 then [] else LegibleEvents(cs, n - 1) + if Legible(cs, n - 1) then [cs[n - 1].event] else []
  }

  /** A line is open when its last record is unfinished, said about a prefix of a file. */
  lemma CleanPrefix(cs: seq<Chunk>, n: nat)
    requires n <= |cs|
    ensures Clean(cs[..n]) <==> n == 0 || cs[n - 1].extent.Whole?
  {
  }

  lemma {:induction false} SettledIsLegible(cs: seq<Chunk>, n: nat)
    requires n <= |cs| && (n < |cs| || Clean(cs))
    ensures Settled(cs[..n]) == LegibleEvents(cs, n)
    decreases n
  {
    hide Settled, Clean;
    if n == 0 {
      SettledOfNothing();
      assert cs[..n] == [];
    } else {
      var before, c := cs[..n - 1], cs[n - 1];
      assert cs[..n] == before + [c];
      SettledStep(before, c);
      SettledIsLegible(cs, n - 1);
      CleanPrefix(cs, n - 1);
      if n == |cs| {
        CleanPrefix(cs, n);
        assert cs[..n] == cs;
      }
    }
  }

  lemma OpenLineIsLegible(cs: seq<Chunk>)
    requires !Clean(cs)
    ensures LineOf(cs[..|cs| - 1], cs[|cs| - 1]).Record? <==> Legible(cs, |cs| - 1)
  {
    var before := cs[..|cs| - 1];
    assert before != [] ==> before[|before| - 1] == cs[|cs| - 2];
  }

  lemma OpenFileIsLegible(cs: seq<Chunk>)
    requires !Clean(cs)
    ensures Settled(cs) == LegibleEvents(cs, |cs| - 1)
  {
    var before, c := cs[..|cs| - 1], cs[|cs| - 1];
    SettledIsLegible(cs, |cs| - 1);
    assert cs == before + [c];
    SettledStep(before, c);
  }

  /** The reader finds exactly the legible records, in order. */
  lemma ReadableIsLegible(cs: seq<Chunk>)
    ensures Readable(cs) == LegibleEvents(cs, |cs|)
  {
    ReadableIsSettledPlus(cs);
    if Clean(cs) {
      SettledIsLegible(cs, |cs|);
      assert cs[..|cs|] == cs;
    } else {
      OpenFileIsLegible(cs);
      OpenLineIsLegible(cs);
    }
  }

  lemma {:induction false} LegibleIsFound(cs: seq<Chunk>, n: nat, i: nat)
    requires i < n <= |cs| && Legible(cs, i)
    ensures cs[i].event in LegibleEvents(cs, n)
    decreases n
  {
    if i < n - 1 {
      LegibleIsFound(cs, n - 1, i);
    }
  }

  /** A record no reader finds was itself left unfinished, or directly follows an unfinished one. */
  lemma LostIsTornOrGlued(cs: seq<Chunk>, i: nat)
    requires i < |cs| && cs[i].event !in Readable(cs)
    ensures !cs[i].extent.Whole? || (i > 0 && !cs[i - 1].extent.Whole?)
  {
    ReadableIsLegible(cs);
    if Legible(cs, i) {
      LegibleIsFound(cs, |cs|, i);
    }
  }

  /** So a torn tail costs at most its own record and the one appended after it. */
  lemma {:induction false} TornTailsCostTwo(cs: seq<Chunk>, n: nat)
    requires n <= |cs|
    ensures LostCount(cs, n) <= 2 * TornCount(cs, n) - if n > 0 && !cs[n - 1].extent.Whole? then 1 else 0
    ensures |LegibleEvents(cs, n)| + LostCount(cs, n) == n
    decreases n
  {
    if n == 0 {
    } else {
      TornTailsCostTwo(cs, n - 1);
    }
  }

  // ----- crashes -----

  predicate AtMost(small: Extent, large: Extent) {
    small.Torn? || large.Whole? || small == large
  }

  /** What a crash leaves: a prefix of the records, and possibly less of the next one. */
  predicate CutOf(cut: seq<Chunk>, cs: seq<Chunk>) {
    || cut <= cs
    || (&& 0 < |cut| <= |cs|
        && cut[..|cut| - 1] == cs[..|cut| - 1]
        && cut[|cut| - 1].event == cs[|cut| - 1].event
        && AtMost(cut[|cut| - 1].extent, cs[|cut| - 1].extent))
  }

  /** The log file; the first `synced` records are known to be durable. */
  class LogFile {
    var chunks: seq<Chunk>
    var synced: nat

    predicate Valid()
      reads this
    {
      synced <= |chunks|
    }

    constructor ()
      ensures Valid() && chunks == [] && synced == 0
    {
      chunks, synced := [], 0;
    }

    /**
     A crash at some moment since the first `floor` records were durable.  The file has only grown
     since, so whatever that moment left on disk is a cut of what would be there now.
     */
    method Crash(floor: nat, keep: nat, rest: Option<Extent>)
      requires Valid()
      requires floor <= keep <= |chunks|
      requires rest.Some? ==> keep < |chunks| && AtMost(rest.value, chunks[keep].extent)
      modifies this
      ensures Valid()
      ensures CutOf(chunks, old(chunks)) && old(chunks)[..floor] <= chunks
      ensures floor <= old(synced) ==> floor <= synced
    {
      ghost var was := chunks;
      chunks := chunks[..keep] + if rest.Some? then [chunks[keep].(extent := rest.value)] else [];
      synced := if keep < synced then keep else synced;
      if rest.Some? {
        assert chunks[..|chunks| - 1] == was[..keep];
      }
    }
  }

  // ----- numbering -----

  /** What the log says about where to continue. */
  datatype LogTail = LogTail(number: nat, turn: nat)

  function Max(a: nat, b: nat): nat {
    if a < b then b else a
  }

  function TurnIn(p: Payload): nat {
    match p
    case Turn(n) => n
    case Llm(n, _, _) => n
    case TurnEnd(n) => n
    case _ => 0
  }

  /** The highest record and turn numbers among some records. */
  function TailOf(es: seq<Event>): LogTail {
    if es == [] then LogTail(0, 0) else
      var t, e := TailOf(es[..|es| - 1]), es[|es| - 1];
      LogTail(Max(t.number, e.number), Max(t.turn, TurnIn(e.payload)))
  }

  lemma TailOfStep(es: seq<Event>, e: Event)
    ensures TailOf([]) == LogTail(0, 0) && Records([]) == []
    ensures TailOf(es + [e]) ==
            LogTail(Max(TailOf(es).number, e.number), Max(TailOf(es).turn, TurnIn(e.payload)))
  {
    assert (es + [e])[..|es + [e]| - 1] == es;
  }

  lemma {:induction false} TailOfAdd(a: seq<Event>, b: seq<Event>)
    ensures TailOf(a + b) == LogTail(Max(TailOf(a).number, TailOf(b).number), Max(TailOf(a).turn, TailOf(b).turn))
  {
    if b == [] {
      assert a + b == a;
    } else {
      var shorter := b[..|b| - 1];
      assert (a + b)[..|a + b| - 1] == a + shorter;
      TailOfAdd(a, shorter);
    }
  }

  /** The tail really is the highest number: reached by a record unless there is none, exceeded by none. */
  lemma {:induction false} TailOfIsHighest(es: seq<Event>)
    ensures forall i | 0 <= i < |es| ::
              es[i].number <= TailOf(es).number && TurnIn(es[i].payload) <= TailOf(es).turn
    ensures es != [] ==> exists i | 0 <= i < |es| :: es[i].number == TailOf(es).number
    ensures es != [] ==> exists i | 0 <= i < |es| :: TurnIn(es[i].payload) == TailOf(es).turn
  {
    if es == [] {
    } else {
      var shorter, e := es[..|es| - 1], es[|es| - 1];
      TailOfIsHighest(shorter);
      assert es[|es| - 1] == e;
      assert shorter == [] ==> TailOf(shorter) == LogTail(0, 0);
      if TailOf(es).number != e.number {
        var i :| 0 <= i < |shorter| && shorter[i].number == TailOf(shorter).number;
        assert es[i].number == TailOf(es).number;
      }
      if TailOf(es).turn != TurnIn(e.payload) {
        var i :| 0 <= i < |shorter| && TurnIn(shorter[i].payload) == TailOf(shorter).turn;
        assert TurnIn(es[i].payload) == TailOf(es).turn;
      }
    }
  }

  /** Record numbers increase strictly, starting above `low`; numbers may be skipped. */
  ghost predicate Rising(es: seq<Event>, low: nat) {
    && (forall i | 0 <= i < |es| :: low < es[i].number)
    && (forall i, j | 0 <= i < j < |es| :: es[i].number < es[j].number)
  }

  /** The same from the last record backwards, with the highest number allowed: what a log keeps up. */
  ghost predicate CountsUp(es: seq<Event>, low: nat, high: nat) {
    if es == [] then low <= high
    else
      var n := es[|es| - 1].number;
      0 < n <= high && CountsUp(es[..|es| - 1], low, n - 1)
  }

  lemma {:induction false} CountsUpRises(es: seq<Event>, low: nat, high: nat)
    requires CountsUp(es, low, high)
    ensures Rising(es, low) && low <= high
    ensures forall i | 0 <= i < |es| :: es[i].number <= high
  {
    if es == [] {
    } else {
      CountsUpRises(es[..|es| - 1], low, es[|es| - 1].number - 1);
    }
  }

  // ----- the transcript -----

  /** The conversation rebuilt so far, and the call ids that already have their reply. */
  datatype Convo = Convo(messages: seq<Message>, seen: set<string>)

  const NOTHING := Convo([], {})

  predicate Terminal(s: Status) {
    s == Ok || s == Error || s == Invalid || s == Denied
  }

  /** The text of a tool reply, put together from what its record holds. */
  function ReplyText(p: Payload): string
    requires p.Tool?
  {
    var content := if p.stdout == "" then p.stderr else p.stdout;
    if p.status != Ok && p.error != "" then
      (if content != "" then content + "\n" else content) + p.error
    else content
  }

  /** One record's effect on the rebuilt conversation. */
  function Heard(c: Convo, p: Payload): Convo {
    match p
    case Llm(_, m, _) => c.(messages := c.messages + [m])
    case Tool(id, _, name, _, status, _, _, _) =>
      if Terminal(status) && id !in c.seen then
        Convo(c.messages + [ToolMessage(id, name, ReplyText(p))], c.seen + {id})
      else c
    case _ => c
  }

  function Replay(c: Convo, es: seq<Event>): Convo {
    if es == [] then c else Heard(Replay(c, es[..|es| - 1]), es[|es| - 1].payload)
  }

  lemma {:induction false} ReplayAdd(c: Convo, a: seq<Event>, b: seq<Event>)
    ensures Replay(c, a + b) == Replay(Replay(c, a), b)
  {
    if b == [] {
      assert a + b == a;
    } else {
      var shorter := b[..|b| - 1];
      assert (a + b)[..|a + b| - 1] == a + shorter;
      ReplayAdd(c, a, shorter);
    }
  }

  lemma ReplayStep(c: Convo, es: seq<Event>, e: Event)
    ensures Replay(c, es + [e]) == Heard(Replay(c, es), e.payload)
  {
    assert (es + [e])[..|es + [e]| - 1] == es;
  }

  lemma LastStartStep(es: seq<Event>, e: Event)
    ensures LastStart(es + [e]) == if e.payload.RunStart? then e.payload else LastStart(es)
  {
    assert (es + [e])[..|es + [e]| - 1] == es;
  }

  /** The most recent run_start, if any. */
  function LastStart(es: seq<Event>): Payload
    ensures LastStart(es).RunStart?
  {
    if es == [] then RunStart("", "", "")
    else if es[|es| - 1].payload.RunStart? then es[|es| - 1].payload
    else LastStart(es[..|es| - 1])
  }

  /** The run_start at this position is the last one. */
  predicate LatestStart(es: seq<Event>, i: int) {
    0 <= i < |es| && es[i].payload.RunStart? && forall j | i < j < |es| :: !es[j].payload.RunStart?
  }

  lemma LatestStartStep(es: seq<Event>, e: Event, i: int)
    ensures e.payload.RunStart? ==> (LatestStart(es + [e], i) <==> i == |es|)
    ensures !e.payload.RunStart? ==> (LatestStart(es + [e], i) <==> LatestStart(es, i))
    ensures LatestStart(es + [e], i) ==> (es + [e])[i] == if i == |es| then e else es[i]
  {
    var all := es + [e];
    assert all[|es|] == e && forall j | 0 <= j < |es| :: all[j] == es[j];
    if LatestStart(all, i) && i < |es| {
      forall j | i < j < |es| ensures !es[j].payload.RunStart? {
        assert !all[j].payload.RunStart?;
      }
    }
  }

  /** `LastStart` is the last run_start among the records. */
  lemma {:induction false} LastStartIsLatest(es: seq<Event>, i: int)
    requires LatestStart(es, i)
    ensures LastStart(es) == es[i].payload
  {
    var shorter, e := es[..|es| - 1], es[|es| - 1];
    assert es == shorter + [e];
    LatestStartStep(shorter, e, i);
    if e.payload.RunStart? {
    } else {
      LastStartIsLatest(shorter, i);
    }
  }

  /** Without any it says nothing; with any there is a last one. */
  lemma {:induction false} SomeStartIsLatest(es: seq<Event>) returns (i: int)
    ensures || LatestStart(es, i)
            || (LastStart(es) == RunStart("", "", "") && forall j | 0 <= j < |es| :: !es[j].payload.RunStart?)
  {
    i := -1;
    if es == [] {
    } else {
      var shorter, e := es[..|es| - 1], es[|es| - 1];
      assert es == shorter + [e];
      i := if e.payload.RunStart? then |shorter| else -1;
      if !e.payload.RunStart? {
        i := SomeStartIsLatest(shorter);
        assert forall j | 0 <= j < |shorter| :: shorter[j] == es[j];
      }
      LatestStartStep(shorter, e, i);
      hide LatestStart;
    }
  }

  /** A terminal record is any that does not announce an intent. */
  lemma TerminalIsNotIntent(s: Status)
    ensures Terminal(s) <==> s != Intent
  {
  }

  /** The text of a reply: the output, or the error output if there is none, and then any error on a line of its own. */
  lemma ReplyTextTells(p: Payload)
    requires p.Tool?
    ensures p.stdout != "" && (p.status == Ok || p.error == "") ==> ReplyText(p) == p.stdout
    ensures p.stdout == "" && (p.status == Ok || p.error == "") ==> ReplyText(p) == p.stderr
    ensures p.status != Ok && p.error != "" && p.stdout == "" && p.stderr == "" ==> ReplyText(p) == p.error
    ensures p.status != Ok && p.error != "" && p.stdout != "" ==> ReplyText(p) == p.stdout + "\n" + p.error
    ensures p.status != Ok && p.error != "" && p.stdout == "" && p.stderr != "" ==>
              ReplyText(p) == p.stderr + "\n" + p.error
  {
    assert "" + p.error == p.error;
  }

  /** What a terminal record with a new call id adds: a tool message that names its call. */
  lemma ReplyIsRebuilt(c: Convo, p: Payload)
    requires p.Tool? && p.status != Intent && p.callId !in c.seen
    ensures var after := Heard(c, p);
            && |after.messages| == |c.messages| + 1 && c.messages <= after.messages
            && after.seen == c.seen + {p.callId}
            && var m := after.messages[|c.messages|];
               && m.role == "tool" && m.toolCallId == p.callId && m.name == p.name && m.content == ReplyText(p)
               && m.parts == [] && m.toolCalls == []
  {
  }

  lemma NothingReplayed()
    ensures Records([]) == [] && Replay(NOTHING, []) == NOTHING && LastStart([]) == RunStart("", "", "")
  {
  }

  datatype Loaded = Loaded(runId: string, goal: string, model: string, messages: seq<Message>)

  /** The text that `LoadTranscript` gives a tool reply. */
  method AssembleReply(p: Payload) returns (content: string)
    requires p.Tool?
    ensures content == ReplyText(p)
  {
    content := p.stdout;
    if content == "" {
      content := p.stderr;
    }
    if p.status != Ok && p.error != "" {
      if content != "" {
        content := content + "\n";
      }
      content := content + p.error;
    }
  }

  /** `LoadTranscript`: fails if the file cannot be opened, or reading it breaks off. */
  method LoadTranscript(file: LogFile, openable: bool, breaks: bool) returns (r: Option<Loaded>)
    ensures r.Some? <==> openable && !breaks
    ensures r.Some? ==>
      && r.value.messages == Replay(NOTHING, Readable(file.chunks)).messages
      && var s := LastStart(Readable(file.chunks));
         r.value.runId == s.runId && r.value.goal == s.goal && r.value.model == s.model
  {
    if !openable {
      return None;
    }
    hide Replay, Records, LastStart, Lines, ReplyText;
    NothingReplayed();
    var lt := Loaded("", "", "", []);
    var seen: set<string> := {};
    var lines := Lines(file.chunks);
    for i := 0 to |lines|
      invariant Convo(lt.messages, seen) == Replay(NOTHING, Records(lines[..i]))
      invariant RunStart(lt.runId, lt.goal, lt.model) == LastStart(Records(lines[..i]))
    {
      RecordsStep(lines, i);
      if lines[i].Garbage? {
        continue;
      }
      var p := lines[i].event.payload;
      ReplayStep(NOTHING, Records(lines[..i]), lines[i].event);
      LastStartStep(Records(lines[..i]), lines[i].event);
      match p {
        case RunStart(runId, goal, model) =>
          lt := lt.(runId := runId, goal := goal, model := model);
        case Llm(_, message, _) =>
          lt := lt.(messages := lt.messages + [message]);
        case Tool(callId, _, name, _, status, _, _, _) =>
          if status == Ok || status == Error || status == Invalid || status == Denied {
            if callId in seen {
              continue;
            }
            seen := seen + {callId};
            var content := AssembleReply(p);
            lt := lt.(messages := lt.messages + [ToolMessage(callId, name, content)]);
          }
        case _ =>
      }
    }
    assert lines[..|lines|] == lines;
    if breaks {
      return None;  // the scanner stopped on a read error
    }
    return Some(lt);
  }

  // ----- the log -----

  /** What one writer put in the file against what it was asked to: all of it, or after an error a part. */
  ghost predicate Tracks(own: seq<Chunk>, produced: seq<Event>, broken: bool) {
    && OneWriter(own)
    && EventsOf(own) <= produced
    && (!broken ==> EventsOf(own) == produced && Clean(own))
  }

  /** What the system does with a line: how much of it gets out, and which calls report an error. */
  datatype Fate = Fate(written: Option<Extent>, writeFails: bool, syncFails: bool)

  function PutOut(e: Event, fate: Fate): seq<Chunk> {
    if fate.written.Some? then [Chunk(e, fate.written.value)] else []
  }

  lemma TracksWritten(own: seq<Chunk>, produced: seq<Event>, c: Chunk, broken: bool)
    requires Tracks(own, produced, false)
    requires !broken ==> c.extent.Whole?
    ensures Tracks(own + [c], produced + [c.event], broken)
  {
    EventsOfStep(own, c);
    forall i | 0 <= i < |own + [c]| - 1 ensures (own + [c])[i].extent.Whole? {
      if i == |own| - 1 {
        assert own[|own| - 1].extent.Whole?;
      }
    }
  }

  lemma TracksUnwritten(own: seq<Chunk>, produced: seq<Event>, e: Event, broken: bool)
    requires Tracks(own, produced, broken)
    ensures Tracks(own, produced + [e], true)
  {
    assert produced <= produced + [e];
  }

  /** The records after attempting one more: unchanged if it cannot be marshalled. */
  function Attempted(codec: Codec, es: seq<Event>, e: Event): seq<Event> {
    if Marshals(codec, e.payload) then es + [e] else es
  }

  lemma CountsUpStep(es: seq<Event>, low: nat, high: nat, e: Event)
    requires CountsUp(es, low, high) && e.number == high + 1
    ensures CountsUp(es + [e], low, high + 1)
  {
    assert (es + [e])[..|es + [e]| - 1] == es;
  }

  lemma {:induction false} CountsUpHigher(es: seq<Event>, low: nat, high: nat, higher: nat)
    requires CountsUp(es, low, high) && high <= higher
    ensures CountsUp(es, low, higher)
  {
  }

  /**
   `EventLog`: the file, a buffered writer whose errors stick, the record counter and the cached tail.

   `base` is the file as it was opened, `own` what this log added to it, `produced` every record
   this log was asked to append and could marshal, `origin` the number it counts from, and `found`
   what the file said when it was opened.
   */
  class EventLog {
    const file: LogFile
    const codec: Codec
    const openable: bool  // whether the path can be opened for reading while this log is open
    var number: nat
    var tail: Option<LogTail>
    var broken: bool  // the buffered writer has failed
    ghost const base: seq<Chunk>
    ghost const found: LogTail
    ghost const durable: nat  // how much of the file was durable when it was opened
    ghost var own: seq<Chunk>
    ghost var produced: seq<Event>
    ghost var origin: nat

    ghost predicate Valid()
      reads this, file
    {
      && file.Valid()
      && file.chunks == base + own
      && Tracks(own, produced, broken)
      && CountsUp(produced, origin, number)
      && found == TailOf(Readable(base))
      && (tail.Some? && openable ==> tail.value == found)
      && durable <= file.synced
    }

    /** `OpenEventLog`. */
    constructor (file: LogFile, codec: Codec, openable: bool)
      requires file.Valid()
      ensures Valid()
      ensures this.file == file && this.codec == codec && this.openable == openable
      ensures base == file.chunks && own == [] && produced == []
      ensures durable == file.synced
      ensures number == 0 && origin == 0 && tail == None && !broken
    {
      this.file, this.codec, this.openable := file, codec, openable;
      number, tail, broken := 0, None, false;
      base, own, produced, origin := file.chunks, [], [], 0;
      found, durable := TailOf(Readable(file.chunks)), file.synced;
      new;
      assert file.chunks == base + own;
    }

    /** `scanTail`: one pass over the lines, remembered for the second caller; `breaks` if the pass fails. */
    method ScanTail(breaks: bool) returns (t: Option<LogTail>)
      requires Valid() && produced == []
      modifies `tail
      ensures Valid()
      ensures t.Some? && openable ==> t.value == found
      ensures t.None? <==> old(tail).None? && openable && breaks
      ensures tail == t
      ensures old(tail).Some? ==> t == old(tail)
      ensures !openable && old(tail).None? ==> t == Some(LogTail(0, 0))
    {
      hide TailOf, Records, Lines, CountsUp;
      if tail.Some? {
        return tail;
      }
      if !openable {
        tail := Some(LogTail(0, 0));
        return tail;
      }
      assert file.chunks == base;
      var highest := LogTail(0, 0);
      var lines := Lines(file.chunks);
      TailOfStep([], Event(0, RunEnd(Finished)));
      for i := 0 to |lines|
        invariant tail == None
        invariant highest == TailOf(Records(lines[..i]))
      {
        RecordsStep(lines, i);
        if lines[i].Garbage? {
          continue;
        }
        var e := lines[i].event;
        TailOfStep(Records(lines[..i]), e);
        if e.number > highest.number {
          highest := highest.(number := e.number);
        }
        match e.payload {
          case Turn(n) => if n > highest.turn { highest := highest.(turn := n); }
          case TurnEnd(n) => if n > highest.turn { highest := highest.(turn := n); }
          case Llm(n, _, _) => if n > highest.turn { highest := highest.(turn := n); }
          case _ =>
        }
      }
      assert lines[..|lines|] == lines;
      if breaks {
        return None;  // the scanner stopped on a read error; nothing is remembered
      }
      tail := Some(highest);
      return tail;
    }

    /** `ResumeSeq`: continue numbering after the existing log. */
    method ResumeSeq(breaks: bool) returns (ok: bool)
      requires Valid() && produced == []
      modifies `tail, `number, `origin
      ensures Valid()
      ensures ok && openable ==> number == origin == found.number
      ensures ok <==> old(tail).Some? || !openable || !breaks
      ensures ok ==> tail.Some?
    {
      var t := ScanTail(breaks);
      if t.None? {
        return false;
      }
      number := t.value.number;
      origin := number;
      return true;
    }

    /** `ResumeTurn`: the turn a resumed run continues from. */
    method ResumeTurn(breaks: bool) returns (turn: Option<nat>)
      requires Valid() && produced == []
      modifies `tail
      ensures Valid()
      ensures turn.Some? && openable ==> turn.value == found.turn
      ensures turn.Some? <==> old(tail).Some? || !openable || !breaks
    {
      var t := ScanTail(breaks);
      return if t.Some? then Some(t.value.turn) else None;
    }

    /**
     Write and Flush on the buffered writer: any part of the line may get out before an error, and
     the error sticks.
     */
    method Write(e: Event, fate: Fate) returns (ok: bool)
      requires Valid() && e.number == number && 0 < number && CountsUp(produced, origin, number - 1)
      modifies `broken, `own, `produced, file`chunks
      ensures Valid()
      ensures produced == old(produced) + [e]
      ensures own == old(own) + if old(broken) then [] else PutOut(e, fate)
      ensures ok <==> !broken
      ensures broken <==> old(broken) || fate.writeFails || fate.written != Some(Whole)
    {
      CountsUpStep(produced, origin, number - 1, e);
      TracksUnwritten(own, produced, e, broken);
      hide CountsUp, Tracks;
      produced := produced + [e];
      if broken {
        return false;
      }
      broken := fate.writeFails || fate.written != Some(Whole);
      if fate.written.Some? {
        TracksWritten(own, old(produced), Chunk(e, fate.written.value), broken);
        file.chunks := file.chunks + [Chunk(e, fate.written.value)];
        own := own + [Chunk(e, fate.written.value)];
        assert file.chunks == base + own;
      }
      return !broken;
    }

    /**
     `Append`: number, marshal, write, flush, sync.  It succeeds exactly when nothing goes wrong,
     now or in an earlier write; then the record, and with it everything before it, is durable.
     */
    method Append(p: Payload, fate: Fate) returns (ok: bool)
      requires Valid()
      modifies this, file
      ensures Valid()
      ensures number == old(number) + 1
      ensures origin == old(origin) && tail == old(tail)
      ensures produced == Attempted(codec, old(produced), Event(number, p))
      ensures own == old(own) + if Marshals(codec, p) && !old(broken) then PutOut(Event(number, p), fate) else []
      ensures broken <==>
        old(broken) || (Marshals(codec, p) && (fate.writeFails || fate.written != Some(Whole)))
      ensures ok <==> Marshals(codec, p) && !broken && !fate.syncFails
      ensures file.synced == if ok then |file.chunks| else old(file.synced)
      ensures old(file.synced) <= file.synced
    {
      number := number + 1;
      CountsUpHigher(produced, origin, number - 1, number);
      hide CountsUp, Tracks;
      if !Marshals(codec, p) {
        return false;
      }
      ok := Write(Event(number, p), fate);
      if !ok {
        return;
      }
      if fate.syncFails {
        return false;  // the line is in the file all the same
      }
      file.synced := |file.chunks|;
    }
  }
}
