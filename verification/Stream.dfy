/**
 `llm.go`: reading a streamed reply, and falling back to a plain call.

 Lines follow the event stream format of the WHATWG HTML Living Standard, section 9.2.6, in this
 client's reading: every `data:` line is an event of its own, and other fields are skipped.
 */
module Streaming {
  import opened Wrappers
  import opened Messages
  import opened Compaction

  // ----- what arrives -----

  /** A piece of a tool call; the index says which. */
  datatype Fragment = Fragment(index: int, id: string, kind: string, name: string, arguments: string)

  datatype Choice = Choice(content: string, calls: seq<Fragment>, finishReason: string)

  datatype Usage = Usage(prompt: int, completion: int, total: int)

  datatype StreamChunk = StreamChunk(choices: seq<Choice>, model: string, usage: Option<Usage>)

  /** A line of the body: empty, a comment, some other field, the end marker, or data that decodes or not. */
  datatype Line = Blank | Comment | Foreign | Done | Undecodable | Data(chunk: StreamChunk)

  predicate IsSpace(c: char) {
    c == ' ' || c == '\t' || c == '\n' || c == '\r' || c as int == 11 || c as int == 12
  }

  /** `strings.TrimSpace`, for single-byte white space. */
  function TrimSpace(s: string): (r: string)
    ensures |r| <= |s|
    ensures r != "" ==> !IsSpace(r[0]) && !IsSpace(r[|r| - 1])
    decreases |s|
  {
    if s == "" then s
    else if IsSpace(s[0]) then TrimSpace(s[1..])
    else if IsSpace(s[|s| - 1]) then TrimSpace(s[..|s| - 1])
    else s
  }

  const PREFIX := "data:"
  const END_MARKER := "[DONE]"

  /** What a line of text is; `decode` decodes the JSON of one chunk. */
  function Classify(text: string, decode: string -> Option<StreamChunk>): Line {
    if text == "" then Blank
    else if text[0] == ':' then Comment
    else if !(PREFIX <= text) then Foreign
    else
      var data := TrimSpace(text[|PREFIX|..]);
      if data == END_MARKER then Done
      else match decode(data)
        case Some(chunk) => Data(chunk)
        case None => Undecodable
  }

  function Classified(texts: seq<string>, decode: string -> Option<StreamChunk>): seq<Line> {
    seq(|texts|, i requires 0 <= i < |texts| => Classify(texts[i], decode))
  }

  /** White space around the data does not matter, and the space after the colon may be missing. */
  lemma {:induction false} TrimmingIgnoresSpace(before: string, core: string, after: string)
    requires forall c | c in before :: IsSpace(c)
    requires forall c | c in after :: IsSpace(c)
    requires core != "" && !IsSpace(core[0]) && !IsSpace(core[|core| - 1])
    ensures TrimSpace(before + core + after) == core
    decreases |before| + |after|
  {
    var s := before + core + after;
    if before != "" {
      assert before[0] in before;
      assert s[1..] == before[1..] + core + after;
      TrimmingIgnoresSpace(before[1..], core, after);
    } else if after != "" {
      assert s[0] == core[0];
      assert s[|s| - 1] == after[|after| - 1] && after[|after| - 1] in after;
      assert s[..|s| - 1] == before + core + after[..|after| - 1];
      TrimmingIgnoresSpace(before, core, after[..|after| - 1]);
    } else {
      assert s == core;
    }
  }

  /** So each data line is one event, however it is padded. */
  lemma DataLinesDecode(before: string, core: string, after: string, decode: string -> Option<StreamChunk>)
    requires forall c | c in before :: IsSpace(c)
    requires forall c | c in after :: IsSpace(c)
    requires core != "" && !IsSpace(core[0]) && !IsSpace(core[|core| - 1])
    ensures Classify(PREFIX + (before + core + after), decode) ==
            if core == END_MARKER then Done
            else match decode(core) case Some(chunk) => Data(chunk) case None => Undecodable
  {
    var text := PREFIX + (before + core + after);
    TrimmingIgnoresSpace(before, core, after);
    assert text[|PREFIX|..] == before + core + after;
    assert text[0] == 'd';
  }

  /** The outcome of a call. */
  datatype LlmResult = LlmResult(
    message: Message, finishReason: string, input: int, output: int, total: int, model: string)

  /** The chunks before the end marker, or before the first line that cannot be decoded. */
  function Decoded(lines: seq<Line>): seq<StreamChunk> {
    if lines == [] then []
    else match lines[0]
      case Data(chunk) => [chunk] + Decoded(lines[1..])
      case Done => []
      case Undecodable => []
      case _ => Decoded(lines[1..])
  }

  /** Reading runs into data it cannot decode. */
  predicate Garbled(lines: seq<Line>) {
    lines != [] && !lines[0].Done? && (lines[0].Undecodable? || Garbled(lines[1..]))
  }

  predicate Stops(l: Line) {
    l.Done? || l.Undecodable?
  }

  /** Reading gets through all of these. */
  ghost predicate Unstopped(lines: seq<Line>) {
    forall l | l in lines :: !Stops(l)
  }

  lemma UnstoppedAdd(a: seq<Line>, b: seq<Line>)
    requires Unstopped(a) && Unstopped(b)
    ensures Unstopped(a + b)
  {
  }

  predicate Noise(l: Line) {
    l.Blank? || l.Comment? || l.Foreign?
  }

  lemma {:induction false} DecodedAdd(a: seq<Line>, b: seq<Line>)
    requires Unstopped(a)
    ensures Decoded(a + b) == Decoded(a) + Decoded(b)
    ensures Garbled(a + b) <==> Garbled(b)
    ensures !Garbled(a)
  {
    if a == [] {
      assert a + b == b;
    } else {
      assert a[0] in a;
      assert (a + b)[1..] == a[1..] + b;
      DecodedAdd(a[1..], b);
    }
  }

  // ----- assembling -----

  datatype Frag = Frag(id: string, name: string, arguments: string)

  const NO_FRAG := Frag("", "", "")

  /** A fragment with a type sets the name even when it carries none. */
  function Patch(f: Frag, t: Fragment): Frag {
    Frag(
      if t.id != "" then t.id else f.id,
      if t.name != "" || t.kind != "" then t.name else f.name,
      f.arguments + t.arguments)
  }

  function AddFragment(frags: map<int, Frag>, t: Fragment): map<int, Frag> {
    frags[t.index := Patch(if t.index in frags then frags[t.index] else NO_FRAG, t)]
  }

  function AddFragments(frags: map<int, Frag>, ts: seq<Fragment>): map<int, Frag> {
    if ts == [] then frags else AddFragment(AddFragments(frags, ts[..|ts| - 1]), ts[|ts| - 1])
  }

  datatype Assembly = Assembly(
    content: string, frags: map<int, Frag>, finishReason: string, model: string, usage: Usage)

  const EMPTY := Assembly("", map[], "", "", Usage(0, 0, 0))

  /** Only the first choice of a chunk counts. */
  function ContentOf(chunk: StreamChunk): string {
    if chunk.choices == [] then "" else chunk.choices[0].content
  }

  function FragmentsOf(chunk: StreamChunk): seq<Fragment> {
    if chunk.choices == [] then [] else chunk.choices[0].calls
  }

  function Absorb(a: Assembly, chunk: StreamChunk): Assembly {
    Assembly(
      a.content + ContentOf(chunk),
      AddFragments(a.frags, FragmentsOf(chunk)),
      if chunk.choices != [] && chunk.choices[0].finishReason != "" then chunk.choices[0].finishReason
      else a.finishReason,
      if chunk.model != "" then chunk.model else a.model,
      if chunk.usage.Some? then chunk.usage.value else a.usage)
  }

  function Fold(chunks: seq<StreamChunk>): Assembly {
    if chunks == [] then EMPTY else Absorb(Fold(chunks[..|chunks| - 1]), chunks[|chunks| - 1])
  }

  lemma FoldStep(chunks: seq<StreamChunk>, chunk: StreamChunk)
    ensures Fold(chunks + [chunk]) == Absorb(Fold(chunks), chunk)
  {
    assert (chunks + [chunk])[..|chunks|] == chunks;
  }

  // ----- calls in order -----

  ghost predicate Ascends(s: seq<int>) {
    forall i, j | 0 <= i < j < |s| :: s[i] < s[j]
  }

  /** The keys in ascending order. */
  ghost predicate IsOrder(s: seq<int>, keys: set<int>) {
    Ascends(s) && forall x :: x in s <==> x in keys
  }

  function Insert(x: int, s: seq<int>): seq<int> {
    if s == [] then [x]
    else if x < s[0] then [x] + s
    else [s[0]] + Insert(x, s[1..])
  }

  lemma {:induction false} InsertKeepsOrder(x: int, s: seq<int>)
    requires Ascends(s) && x !in s
    ensures Ascends(Insert(x, s))
    ensures forall y :: y in Insert(x, s) <==> y == x || y in s
  {
    if s == [] {
    } else {
      assert s[0] in s;
      assert s == [s[0]] + s[1..];
      if s[0] < x {
        var rest := Insert(x, s[1..]);
        InsertKeepsOrder(x, s[1..]);
        forall j | 0 <= j < |rest| ensures s[0] < rest[j] {
          assert rest[j] in rest;
        }
      }
    }
  }

  lemma AnyElement<T>(s: set<T>) returns (x: T)
    requires s != {}
    ensures x in s
  {
    x :| x in s;
  }

  lemma {:induction false} OrderIsUnique(s: seq<int>, t: seq<int>)
    requires Ascends(s) && Ascends(t)
    requires forall x :: x in s <==> x in t
    ensures s == t
  {
    assert s != [] ==> s[0] in s;
    assert t != [] ==> t[0] in t;
    if s != [] && t != [] {
      assert s[0] in s && t[0] in t;
      assert s[0] in t && t[0] in s;
      assert s[0] == t[0];
      assert s == [s[0]] + s[1..] && t == [t[0]] + t[1..];
      forall x ensures x in s[1..] <==> x in t[1..] {
        assert x in s[1..] <==> x in s && x != s[0];
        assert x in t[1..] <==> x in t && x != t[0];
      }
      OrderIsUnique(s[1..], t[1..]);
    }
  }

  /** Collect the keys in whatever order the map yields them, and sort them. */
  method SortedKeys(keys: set<int>) returns (indices: seq<int>)
    ensures IsOrder(indices, keys)
    ensures forall i, j | 0 <= i < j < |indices| :: indices[i] < indices[j]
  {
    indices := [];
    var unseen := keys;
    while unseen != {}
      invariant unseen <= keys
      invariant IsOrder(indices, keys - unseen)
    {
      ghost var some := AnyElement(unseen);
      assert some in unseen;
      var k :| k in unseen;
      InsertKeepsOrder(k, indices);
      indices := Insert(k, indices);
      unseen := unseen - {k};
    }
    assert keys - unseen == keys;
  }

  lemma {:induction false} OrderExists(keys: set<int>) returns (s: seq<int>)
    ensures IsOrder(s, keys)
  {
    if keys == {} {
      s := [];
    } else {
      var k := AnyElement(keys);
      var t := OrderExists(keys - {k});
      InsertKeepsOrder(k, t);
      s := Insert(k, t);
    }
  }

  ghost function InOrder(keys: set<int>): (s: seq<int>)
    ensures IsOrder(s, keys)
  {
    assert exists s :: IsOrder(s, keys) by {
      var s := OrderExists(keys);
    }
    var s :| IsOrder(s, keys);
    s
  }

  function CallOf(f: Frag): ToolCall {
    ToolCall(f.id, "function", f.name, f.arguments)
  }

  function CallsAt(frags: map<int, Frag>, indices: seq<int>): seq<ToolCall>
    requires forall k | 0 <= k < |indices| :: indices[k] in frags
  {
    seq(|indices|, k requires 0 <= k < |indices| => CallOf(frags[indices[k]]))
  }

  lemma OrderHits(frags: map<int, Frag>)
    ensures forall k | 0 <= k < |InOrder(frags.Keys)| :: InOrder(frags.Keys)[k] in frags
  {
    forall k | 0 <= k < |InOrder(frags.Keys)| ensures InOrder(frags.Keys)[k] in frags {
      assert InOrder(frags.Keys)[k] in InOrder(frags.Keys);
    }
  }

  /** The message the assembled pieces make up. */
  ghost function MessageOf(a: Assembly): Message {
    OrderHits(a.frags);
    Message("assistant", a.content, [], "", "", CallsAt(a.frags, InOrder(a.frags.Keys)))
  }

  /** The assembled result; without usage the tokens are estimated. */
  ghost function Assembled(a: Assembly, reqModel: string): LlmResult {
    var m := MessageOf(a);
    LlmResult(
      m, a.finishReason, a.usage.prompt,
      if a.usage.total == 0 then Tokens([m]) else a.usage.completion,
      if a.usage.total == 0 then Tokens([m]) else a.usage.total,
      if a.model == "" then reqModel else a.model)
  }

  // ----- the consumer -----

  /** A live consumer of text. */
  class Sink {
    var got: seq<string>

    constructor ()
      ensures got == []
    {
      got := [];
    }

    method Take(text: string)
      modifies this
      ensures got == old(got) + [text]
    {
      got := got + [text];
    }
  }

  function Joined(texts: seq<string>): string {
    if texts == [] then "" else Joined(texts[..|texts| - 1]) + texts[|texts| - 1]
  }

  lemma {:induction false} JoinedAdd(a: seq<string>, b: seq<string>)
    ensures Joined(a + b) == Joined(a) + Joined(b)
  {
    if b == [] {
      assert a + b == a;
    } else {
      var shorter := b[..|b| - 1];
      assert (a + b)[..|a + b| - 1] == a + shorter;
      JoinedAdd(a, shorter);
    }
  }

  /** The texts forwarded while some chunks are read. */
  function Forwarded(chunks: seq<StreamChunk>): seq<string> {
    if chunks == [] then [] else
      var text := ContentOf(chunks[|chunks| - 1]);
      Forwarded(chunks[..|chunks| - 1]) + if text != "" then [text] else []
  }

  lemma ForwardedStep(chunks: seq<StreamChunk>, chunk: StreamChunk)
    ensures Forwarded(chunks + [chunk]) ==
            Forwarded(chunks) + if ContentOf(chunk) != "" then [ContentOf(chunk)] else []
  {
    assert (chunks + [chunk])[..|chunks|] == chunks;
  }

  /** What is forwarded is what is assembled. */
  lemma {:induction false} ForwardedIsContent(chunks: seq<StreamChunk>)
    ensures Joined(Forwarded(chunks)) == Fold(chunks).content
  {
    if chunks == [] {
    } else {
      var shorter, chunk := chunks[..|chunks| - 1], chunks[|chunks| - 1];
      ForwardedIsContent(shorter);
      var last := if ContentOf(chunk) != "" then [ContentOf(chunk)] else [];
      JoinedAdd(Forwarded(shorter), last);
      assert Joined([]) == "";
      if last != [] {
        assert last[..0] == [];
      }
    }
  }

  // ----- readSSE -----

  lemma AddNone(frags: map<int, Frag>)
    ensures AddFragments(frags, []) == frags
  {
  }

  lemma AddStep(frags: map<int, Frag>, ts: seq<Fragment>, i: nat)
    requires i < |ts|
    ensures AddFragments(frags, ts[..i + 1]) == AddFragment(AddFragments(frags, ts[..i]), ts[i])
  {
    assert ts[..i + 1][..i] == ts[..i];
  }

  /** One chunk's fragments, in order. */
  method PatchAll(frags: map<int, Frag>, ts: seq<Fragment>) returns (r: map<int, Frag>)
    ensures r == AddFragments(frags, ts)
  {
    hide AddFragments;
    AddNone(frags);
    r := frags;
    for i := 0 to |ts|
      invariant r == AddFragments(frags, ts[..i])
    {
      AddStep(frags, ts, i);
      var f := if ts[i].index in r then r[ts[i].index] else NO_FRAG;
      if ts[i].id != "" {
        f := f.(id := ts[i].id);
      }
      if ts[i].kind != "" {
        f := f.(name := ts[i].name);
      }
      if ts[i].name != "" {
        f := f.(name := ts[i].name);
      }
      f := f.(arguments := f.arguments + ts[i].arguments);
      r := r[ts[i].index := f];
    }
    assert ts[..|ts|] == ts;
  }

  /**
   `readSSE`.  `cancelAt` is the line at which the context turns out to be cancelled, `readErr`
   whether the body ends in a read error.  `heard` is what had been decoded by the time it returned.
   */
  method ReadSse(texts: seq<string>, decode: string -> Option<StreamChunk>,
                 cancelAt: Option<nat>, readErr: bool, reqModel: string, sink: Sink?)
    returns (res: Option<LlmResult>, started: bool, ghost heard: seq<StreamChunk>)
    modifies sink
    ensures heard <= Decoded(Classified(texts, decode))
    ensures started <==> heard != []
    ensures sink != null ==> sink.got == old(sink.got) + Forwarded(heard)
    ensures res.Some? ==>
      heard == Decoded(Classified(texts, decode)) && !Garbled(Classified(texts, decode)) && !readErr
    ensures res.Some? ==> res.value == Assembled(Fold(heard), reqModel)
    ensures cancelAt.None? && !readErr ==> (res.Some? <==> !Garbled(Classified(texts, decode)))
  {
    started, heard := false, [];
    var content, frags, finishReason, model, usage := "", map[], "", "", Usage(0, 0, 0);
    hide Classify, Decoded, Garbled, Fold, Forwarded, Tokens, AddFragments, Unstopped, MessageOf;
    ghost var lines := Classified(texts, decode);
    ghost var done := false;
    NothingRead(lines);
    var i := 0;
    while i < |texts|
      invariant 0 <= i <= |texts|
      invariant !done
      invariant Unstopped(lines[..i])
      invariant heard == Decoded(lines[..i])
      invariant started <==> heard != []
      invariant Fold(heard) == Assembly(content, frags, finishReason, model, usage)
      invariant sink != null ==> sink.got == old(sink.got) + Forwarded(heard)
    {
      Reading(lines, i);
      if cancelAt == Some(i) {
        return None, started, heard;
      }
      var line := Classify(texts[i], decode);
      assert line == lines[i];
      i := i + 1;
      if line.Blank? || line.Comment? {
        continue;
      }
      if line.Foreign? {
        continue;
      }
      if line.Done? {
        done := true;
        break;
      }
      if line.Undecodable? {
        return None, started, heard;
      }
      var ch := line.chunk;
      FoldStep(heard, ch);
      AddNone(frags);
      ForwardedStep(heard, ch);
      heard := heard + [ch];
      started := true;
      if ch.model != "" {
        model := ch.model;
      }
      if |ch.choices| > 0 {
        var d := ch.choices[0];
        if d.content != "" {
          content := content + d.content;
          if sink != null {
            sink.Take(d.content);
          }
        }
        if |d.calls| > 0 {
          frags := PatchAll(frags, d.calls);
        }
        if d.finishReason != "" {
          finishReason := d.finishReason;
        }
      }
      if ch.usage.Some? {
        usage := ch.usage.value;
      }
    }
    if !done {
      ReadAll(lines);
    }
    assert heard == Decoded(lines) && !Garbled(lines);
    if readErr {
      return None, started, heard;
    }
    var msg := Assemble(content, frags);
    MessageOfParts(Fold(heard));
    var output, total := usage.completion, usage.total;
    if total == 0 {
      var est := EstimateTokens([msg]);
      output, total := est, est;
    }
    res := Some(LlmResult(msg, finishReason, usage.prompt, output, total, if model == "" then reqModel else model));
  }

  lemma NothingRead(lines: seq<Line>)
    ensures Decoded(lines[..0]) == [] && Unstopped(lines[..0])
    ensures Fold([]) == EMPTY && Forwarded([]) == []
  {
  }

  lemma MessageOfParts(a: Assembly)
    ensures MessageOf(EMPTY.(content := a.content, frags := a.frags)) == MessageOf(a)
  {
  }

  lemma DecodedOne(l: Line)
    ensures Decoded([l]) == if l.Data? then [l.chunk] else []
    ensures !Stops(l) ==> Unstopped([l])
  {
    assert [l][1..] == [];
  }

  /** What one line means for what has been decoded so far. */
  lemma Reading(lines: seq<Line>, i: nat)
    requires i < |lines| && Unstopped(lines[..i])
    ensures Decoded(lines[..i]) <= Decoded(lines)
    ensures lines[i].Data? ==> Decoded(lines[..i + 1]) == Decoded(lines[..i]) + [lines[i].chunk]
    ensures Noise(lines[i]) ==> Decoded(lines[..i + 1]) == Decoded(lines[..i])
    ensures lines[i].Done? ==> Decoded(lines) == Decoded(lines[..i]) && !Garbled(lines)
    ensures lines[i].Undecodable? ==> Garbled(lines)
    ensures !Stops(lines[i]) ==> Unstopped(lines[..i + 1])
  {
    hide Decoded, Garbled, Unstopped;
    var a, b, l := lines[..i], lines[i..], lines[i];
    assert lines == a + b && b[0] == l && lines[..i + 1] == a + [l];
    DecodedAdd(a, b);
    StopDecides(b);
    DecodedOne(l);
    DecodedAdd(a, [l]);
    if !Stops(l) {
      UnstoppedAdd(a, [l]);
    }
  }

  lemma StopDecides(b: seq<Line>)
    requires b != []
    ensures b[0].Done? ==> Decoded(b) == [] && !Garbled(b)
    ensures b[0].Undecodable? ==> Garbled(b)
  {
  }

  /** Having read every line without stopping. */
  lemma ReadAll(lines: seq<Line>)
    requires Unstopped(lines[..|lines|])
    ensures lines[..|lines|] == lines && !Garbled(lines)
  {
    assert lines[..|lines|] == lines;
    DecodedAdd(lines, []);
  }

  /** The message, its calls in ascending index order. */
  method Assemble(content: string, frags: map<int, Frag>) returns (msg: Message)
    ensures msg == MessageOf(EMPTY.(content := content, frags := frags))
  {
    OrderHits(frags);
    msg := TextMessage("assistant", content);
    if |frags| > 0 {
      var indices := SortedKeys(frags.Keys);
      OrderIsUnique(indices, InOrder(frags.Keys));
      var tcs := [];
      for k := 0 to |indices|
        invariant tcs == CallsAt(frags, indices[..k])
      {
        assert indices[k] in indices;
        var f := frags[indices[k]];
        tcs := tcs + [ToolCall(f.id, "function", f.name, f.arguments)];
      }
      assert indices[..|indices|] == indices;
      msg := msg.(toolCalls := tcs);
    } else {
      assert frags.Keys == {};
      OrderIsUnique([], InOrder(frags.Keys));
    }
  }

  // ----- CallStream and its fallbacks -----

  /** `degradeToCall`: the plain call's whole text is handed on once. */
  method DegradeToCall(plain: Option<LlmResult>, sink: Sink?) returns (res: Option<LlmResult>)
    modifies sink
    ensures res == plain
    ensures sink != null ==>
      sink.got == old(sink.got) +
        if plain.Some? && plain.value.message.content != "" then [plain.value.message.content] else []
  {
    if plain.Some? && sink != null && plain.value.message.content != "" {
      sink.Take(plain.value.message.content);
    }
    return plain;
  }

  /** What comes of sending the request: it cannot even be built, nothing usable comes back, or a body does. */
  datatype Sending = Unbuilt | Unanswered | Responded

  /**
   `CallStream`.  `sending` says how far the request got, the next four what the body holds, and
   `plain` what a plain call would give.  Every way of succeeding hands the consumer exactly the text
   of the message; the fallback is taken only while it has heard nothing, and not for a request that
   could not be built.
   */
  method CallStream(sending: Sending, texts: seq<string>, decode: string -> Option<StreamChunk>,
                    cancelAt: Option<nat>, readErr: bool,
                    plain: Option<LlmResult>, reqModel: string, sink: Sink?)
    returns (res: Option<LlmResult>, ghost fellBack: bool, ghost heard: seq<StreamChunk>)
    modifies sink
    ensures res.Some? && sink != null ==>
      old(sink.got) <= sink.got && Joined(sink.got[|old(sink.got)|..]) == res.value.message.content
    ensures fellBack ==> heard == [] && res == plain && !sending.Unbuilt?
    ensures !fellBack && res.Some? ==>
      && sending.Responded? && heard == Decoded(Classified(texts, decode)) && !Garbled(Classified(texts, decode))
      && res.value == Assembled(Fold(heard), reqModel)
    ensures !fellBack && res.None? ==> sending.Unbuilt? || (sending.Responded? && heard != [])
    ensures sending.Unbuilt? ==> !fellBack && res.None? && (sink != null ==> sink.got == old(sink.got))
    ensures sending.Unanswered? ==> fellBack
    ensures sending.Responded? && cancelAt.None? && !readErr && !Garbled(Classified(texts, decode)) ==>
      !fellBack && res.Some?
  {
    heard, fellBack := [], true;
    JoinedOne("");
    if sending.Unbuilt? {
      return None, false, [];
    }
    if sending.Unanswered? {
      res := DegradeToCall(plain, sink);
      if res.Some? { JoinedOne(res.value.message.content); }
      return;
    }
    var started;
    res, started, heard := ReadSse(texts, decode, cancelAt, readErr, reqModel, sink);
    if res.None? {
      if !started {
        res := DegradeToCall(plain, sink);
        if res.Some? { JoinedOne(res.value.message.content); }
        return;
      }
      return None, false, heard;
    }
    ForwardedIsContent(heard);
    fellBack := false;
  }

  lemma JoinedOne(text: string)
    ensures Joined([]) == "" && Joined([text]) == text
  {
    assert [text][..0] == [];
  }

  // ----- noise -----

  /** Blank lines, comments and other fields may come anywhere; nothing after the end marker matters. */
  lemma NoiseIsIgnored(a: seq<Line>, noise: Line, b: seq<Line>)
    requires Noise(noise)
    ensures Decoded(a + [noise] + b) == Decoded(a + b)
    ensures Garbled(a + [noise] + b) <==> Garbled(a + b)
    decreases a
  {
    if a == [] {
      assert a + [noise] + b == [noise] + b && a + b == b;
      assert ([noise] + b)[1..] == b;
    } else {
      assert (a + [noise] + b)[1..] == a[1..] + [noise] + b;
      assert (a + b)[1..] == a[1..] + b;
      NoiseIsIgnored(a[1..], noise, b);
    }
  }

  lemma NothingAfterDone(a: seq<Line>, b: seq<Line>)
    ensures Decoded(a + [Done] + b) == Decoded(a)
    ensures Garbled(a + [Done] + b) <==> Garbled(a)
    decreases a
  {
    if a == [] {
      assert a + [Done] + b == [Done] + b;
    } else {
      assert (a + [Done] + b)[1..] == a[1..] + [Done] + b;
      NothingAfterDone(a[1..], b);
    }
  }

  // ----- tool calls by index -----

  /** All fragments of a stream, in order. */
  function AllFragments(chunks: seq<StreamChunk>): seq<Fragment> {
    if chunks == [] then []
    else AllFragments(chunks[..|chunks| - 1]) + FragmentsOf(chunks[|chunks| - 1])
  }

  /** The fragments of one call, in order. */
  function OfIndex(ts: seq<Fragment>, index: int): seq<Fragment> {
    if ts == [] then [] else
      var t := ts[|ts| - 1];
      OfIndex(ts[..|ts| - 1], index) + if t.index == index then [t] else []
  }

  /** One call's fragments put together. */
  function Patched(f: Frag, ts: seq<Fragment>): Frag {
    if ts == [] then f else Patch(Patched(f, ts[..|ts| - 1]), ts[|ts| - 1])
  }

  lemma PatchedStep(f: Frag, ts: seq<Fragment>, t: Fragment)
    ensures Patched(f, ts + [t]) == Patch(Patched(f, ts), t)
    ensures Patched(f, []) == f
  {
    assert (ts + [t])[..|ts|] == ts;
  }

  /** The map of fragments holds, at each index, that call's fragments put together. */
  lemma {:induction false} FragmentsByIndex(ts: seq<Fragment>, index: int)
    ensures var frags := AddFragments(map[], ts);
            && (index in frags <==> OfIndex(ts, index) != [])
            && (index in frags ==> frags[index] == Patched(NO_FRAG, OfIndex(ts, index)))
  {
    if ts == [] {
    } else {
      var shorter, t := ts[..|ts| - 1], ts[|ts| - 1];
      FragmentsByIndex(shorter, index);
      PatchedStep(NO_FRAG, OfIndex(shorter, index), t);
      assert OfIndex(ts, index) ==
             if t.index == index then OfIndex(shorter, index) + [t] else OfIndex(shorter, index);
    }
  }

  lemma {:induction false} AddFragmentsAdd(frags: map<int, Frag>, a: seq<Fragment>, b: seq<Fragment>)
    ensures AddFragments(frags, a + b) == AddFragments(AddFragments(frags, a), b)
  {
    if b == [] {
      assert a + b == a;
    } else {
      var shorter := b[..|b| - 1];
      assert (a + b)[..|a + b| - 1] == a + shorter;
      AddFragmentsAdd(frags, a, shorter);
    }
  }

  lemma {:induction false} FoldCollects(chunks: seq<StreamChunk>)
    ensures Fold(chunks).frags == AddFragments(map[], AllFragments(chunks))
  {
    if chunks == [] {
    } else {
      var shorter, chunk := chunks[..|chunks| - 1], chunks[|chunks| - 1];
      FoldCollects(shorter);
      AddFragmentsAdd(map[], AllFragments(shorter), FragmentsOf(chunk));
    }
  }

  /** Streams that agree call by call assemble the same calls, however the calls are interleaved. */
  lemma InterleavingDoesNotMatter(a: seq<StreamChunk>, b: seq<StreamChunk>)
    requires forall index: int :: OfIndex(AllFragments(a), index) == OfIndex(AllFragments(b), index)
    ensures MessageOf(Fold(a)).toolCalls == MessageOf(Fold(b)).toolCalls
  {
    FoldCollects(a);
    FoldCollects(b);
    var fa, fb := AddFragments(map[], AllFragments(a)), AddFragments(map[], AllFragments(b));
    forall index: int ensures index in fa <==> index in fb
    {
      FragmentsByIndex(AllFragments(a), index);
      FragmentsByIndex(AllFragments(b), index);
      assert OfIndex(AllFragments(a), index) == OfIndex(AllFragments(b), index);
    }
    forall index: int | index in fa ensures fa[index] == fb[index] {
      FragmentsByIndex(AllFragments(a), index);
      FragmentsByIndex(AllFragments(b), index);
      assert OfIndex(AllFragments(a), index) == OfIndex(AllFragments(b), index);
    }
    assert fa == fb;
  }

  // ----- the round trip -----

  function Arguments(ts: seq<Fragment>): string {
    if ts == [] then "" else Arguments(ts[..|ts| - 1]) + ts[|ts| - 1].arguments
  }

  /** Fragments cut a call: the first names it, the rest only continue its arguments. */
  ghost predicate CutsCall(ts: seq<Fragment>, tc: ToolCall) {
    && ts != []
    && ts[0].id == tc.id && ts[0].name == tc.name
    && (forall k | 0 < k < |ts| :: ts[k].id == "" && ts[k].kind == "" && ts[k].name == "")
    && Arguments(ts) == tc.arguments
  }

  function Texts(chunks: seq<StreamChunk>): string {
    if chunks == [] then "" else Texts(chunks[..|chunks| - 1]) + ContentOf(chunks[|chunks| - 1])
  }

  /**
   A stream cuts a message: its text in any pieces, each call's arguments in any pieces, under
   ascending indices `at`, interleaved in any way with each other and with the text.
   */
  ghost predicate CutsMessage(chunks: seq<StreamChunk>, m: Message, at: seq<int>) {
    && m.role == "assistant" && m.parts == [] && m.name == "" && m.toolCallId == ""
    && Texts(chunks) == m.content
    && |at| == |m.toolCalls| && (forall i, j | 0 <= i < j < |at| :: at[i] < at[j])
    && (forall index: int :: OfIndex(AllFragments(chunks), index) != [] <==> index in at)
    && (forall j | 0 <= j < |at| ::
          && m.toolCalls[j].kind == "function"
          && CutsCall(OfIndex(AllFragments(chunks), at[j]), m.toolCalls[j]))
  }

  lemma {:induction false} PatchingCutCall(ts: seq<Fragment>, n: nat)
    requires 0 < n <= |ts|
    requires forall k | 0 < k < |ts| :: ts[k].id == "" && ts[k].kind == "" && ts[k].name == ""
    ensures Patched(NO_FRAG, ts[..n]) == Frag(ts[0].id, ts[0].name, Arguments(ts[..n]))
    decreases n
  {
    assert ts[..n] == ts[..n - 1] + [ts[n - 1]];
    PatchedStep(NO_FRAG, ts[..n - 1], ts[n - 1]);
    assert ts[..n][..n - 1] == ts[..n - 1];
    if n > 1 {
      PatchingCutCall(ts, n - 1);
    } else {
      assert ts[..0] == [];
    }
  }

  lemma {:induction false} FoldJoinsTexts(chunks: seq<StreamChunk>)
    ensures Fold(chunks).content == Texts(chunks)
  {
    if chunks == [] {
    } else {
      FoldJoinsTexts(chunks[..|chunks| - 1]);
    }
  }

  lemma CutCallComesBack(ts: seq<Fragment>, index: int, tc: ToolCall)
    requires CutsCall(OfIndex(ts, index), tc) && tc.kind == "function"
    ensures var frags := AddFragments(map[], ts);
            index in frags && CallOf(frags[index]) == tc
  {
    FragmentsByIndex(ts, index);
    var own := OfIndex(ts, index);
    PatchingCutCall(own, |own|);
    assert own[..|own|] == own;
  }

  lemma CutIndicesComeBack(ts: seq<Fragment>, at: seq<int>)
    requires Ascends(at)
    requires forall index: int :: OfIndex(ts, index) != [] <==> index in at
    ensures InOrder(AddFragments(map[], ts).Keys) == at
  {
    var frags := AddFragments(map[], ts);
    forall index: int ensures index in frags <==> index in at {
      FragmentsByIndex(ts, index);
    }
    OrderIsUnique(at, InOrder(frags.Keys));
  }

  /** Whatever the cutting and the interleaving, the message that was cut comes back. */
  lemma CutMessagesComeBack(chunks: seq<StreamChunk>, m: Message, at: seq<int>)
    requires CutsMessage(chunks, m, at)
    ensures MessageOf(Fold(chunks)) == m
  {
    hide AddFragments, OfIndex, CutsCall, Fold, Texts;
    var ts := AllFragments(chunks);
    var frags := AddFragments(map[], ts);
    FoldJoinsTexts(chunks);
    FoldCollects(chunks);
    CutIndicesComeBack(ts, at);
    forall j | 0 <= j < |at| ensures at[j] in frags && CallOf(frags[at[j]]) == m.toolCalls[j] {
      CutCallComesBack(ts, at[j], m.toolCalls[j]);
    }
    assert CallsAt(frags, at) == m.toolCalls;
  }

  // ----- the token budget -----

  lemma SingleTokens(m: Message)
    ensures Tokens([m]) == MessageTokens(m)
  {
    assert [m][..0] == [];
  }

  lemma {:induction false} CallsCost(calls: seq<ToolCall>, k: nat)
    requires k < |calls| && |calls[k].name| + |calls[k].arguments| > 0
    ensures CallsTokens(calls) > 0
  {
    if k < |calls| - 1 {
      CallsCost(calls[..|calls| - 1], k);
    }
  }

  /** A streamed reply with any text, or any call with a name or arguments, always costs at least one token. */
  lemma StreamedRepliesCost(a: Assembly, reqModel: string)
    requires a.usage.total == 0
    requires a.content != "" || exists k | 0 <= k < |MessageOf(a).toolCalls| ::
      |MessageOf(a).toolCalls[k].name| + |MessageOf(a).toolCalls[k].arguments| > 0
    ensures Assembled(a, reqModel).total >= 1
  {
    var m := MessageOf(a);
    SingleTokens(m);
    if a.content == "" {
      var k :| 0 <= k < |m.toolCalls| && |m.toolCalls[k].name| + |m.toolCalls[k].arguments| > 0;
      CallsCost(m.toolCalls, k);
    }
  }
}
