/**
 A streamed reply from its raw lines to the result: which lines count, and where each part of the
 result comes from.
 */
module RawStream {
  import opened Wrappers
  import opened Messages
  import opened Compaction
  import opened Streaming

  // ----- which lines count -----

  /** White space as far as single bytes go. */
  predicate White(c: char) {
    c as int in {9, 10, 11, 12, 13, 32}
  }

  predicate Blankish(text: string) {
    forall c | c in text :: White(c)
  }

  predicate Trimmed(text: string) {
    text != "" && !White(text[0]) && !White(text[|text| - 1])
  }

  lemma WhiteIsSpace(c: char)
    ensures White(c) <==> IsSpace(c)
  {
  }

  /** A line that does not begin with the field name is skipped: empty, a comment, or another field. */
  lemma OtherLinesAreNoise(t: string, decode: string -> Option<StreamChunk>)
    requires !("data:" <= t)
    ensures Noise(Classify(t, decode))
  {
  }

  lemma ClassifiedAdd(a: seq<string>, b: seq<string>, decode: string -> Option<StreamChunk>)
    ensures Classified(a + b, decode) == Classified(a, decode) + Classified(b, decode)
  {
  }

  /** Such a line may come anywhere and changes nothing, whether the stream can be read or not. */
  lemma OtherLinesAreIgnored(a: seq<string>, t: string, b: seq<string>, decode: string -> Option<StreamChunk>)
    requires !("data:" <= t)
    ensures Decoded(Classified(a + [t] + b, decode)) == Decoded(Classified(a + b, decode))
    ensures Garbled(Classified(a + [t] + b, decode)) <==> Garbled(Classified(a + b, decode))
  {
    hide Classify, Decoded, Garbled;
    ClassifiedAdd(a + [t], b, decode);
    ClassifiedAdd(a, [t], decode);
    ClassifiedAdd(a, b, decode);
    OtherLinesAreNoise(t, decode);
    NoiseIsIgnored(Classified(a, decode), Classify(t, decode), Classified(b, decode));
    assert Classified([t], decode) == [Classify(t, decode)];
  }

  /** A line that carries this chunk: its text, with white space around it or none, decodes to the chunk. */
  ghost predicate CarriesChunk(t: string, before: string, core: string, after: string,
                               decode: string -> Option<StreamChunk>, chunk: StreamChunk) {
    && t == "data:" + (before + core + after)
    && Blankish(before) && Blankish(after) && Trimmed(core)
    && core != "[DONE]" && decode(core) == Some(chunk)
  }

  ghost predicate CarriesOne(t: string, decode: string -> Option<StreamChunk>, chunk: StreamChunk) {
    exists before, core, after :: CarriesChunk(t, before, core, after, decode, chunk)
  }

  /** These lines carry these chunks: one line each, with any lines of other kinds between them. */
  ghost predicate Carry(texts: seq<string>, decode: string -> Option<StreamChunk>, chunks: seq<StreamChunk>) {
    if texts == [] then chunks == []
    else if "data:" <= texts[0] then
      chunks != [] && CarriesOne(texts[0], decode, chunks[0]) && Carry(texts[1..], decode, chunks[1..])
    else Carry(texts[1..], decode, chunks)
  }

  lemma CarriedLineIsData(t: string, decode: string -> Option<StreamChunk>, chunk: StreamChunk)
    requires CarriesOne(t, decode, chunk)
    ensures Classify(t, decode) == Data(chunk)
  {
    var before, core, after :| CarriesChunk(t, before, core, after, decode, chunk);
    forall c: char ensures White(c) <==> IsSpace(c) {
      WhiteIsSpace(c);
    }
    DataLinesDecode(before, core, after, decode);
  }

  lemma EndMarkerEnds(decode: string -> Option<StreamChunk>)
    ensures Classify("data: [DONE]", decode) == Done && Classify("data:[DONE]", decode) == Done
  {
    var core := "[DONE]";
    DataLinesDecode(" ", core, "", decode);
    DataLinesDecode("", core, "", decode);
    assert "data:" + (" " + core + "") == "data: [DONE]" && "data:" + ("" + core + "") == "data:[DONE]";
  }

  /** Read line by line, the chunks carried come back, followed by whatever the rest decodes to. */
  lemma {:induction false} CarriedChunksComeFirst(texts: seq<string>, decode: string -> Option<StreamChunk>,
                                                  chunks: seq<StreamChunk>, rest: seq<Line>)
    requires Carry(texts, decode, chunks)
    ensures Decoded(Classified(texts, decode) + rest) == chunks + Decoded(rest)
    ensures Garbled(Classified(texts, decode) + rest) <==> Garbled(rest)
  {
    var lines := Classified(texts, decode);
    if texts == [] {
      assert lines + rest == rest;
    } else {
      hide Classify, CarriesOne;
      assert (lines + rest)[1..] == Classified(texts[1..], decode) + rest;
      assert (lines + rest)[0] == Classify(texts[0], decode);
      if "data:" <= texts[0] {
        CarriedLineIsData(texts[0], decode, chunks[0]);
        CarriedChunksComeFirst(texts[1..], decode, chunks[1..], rest);
        assert chunks == [chunks[0]] + chunks[1..];
      } else {
        OtherLinesAreNoise(texts[0], decode);
        CarriedChunksComeFirst(texts[1..], decode, chunks, rest);
      }
    }
  }

  /**
   The round trip from raw lines: however a message is cut into chunks and the chunks are spread over
   lines, with blank lines, comments and other fields anywhere, the message comes back, and what
   follows the end marker does not matter.
   */
  lemma RawStreamComesBack(texts: seq<string>, decode: string -> Option<StreamChunk>, after: seq<string>,
                           chunks: seq<StreamChunk>, m: Message, at: seq<int>)
    requires Carry(texts, decode, chunks) && CutsMessage(chunks, m, at)
    ensures var lines := Classified(texts + ["data: [DONE]"] + after, decode);
            Decoded(lines) == chunks && !Garbled(lines) && MessageOf(Fold(Decoded(lines))) == m
    ensures var lines := Classified(texts, decode);
            Decoded(lines) == chunks && !Garbled(lines) && MessageOf(Fold(Decoded(lines))) == m
  {
    hide Classify, Carry, CutsMessage, MessageOf, Fold;
    CutMessagesComeBack(chunks, m, at);
    ClassifiedAdd(texts + ["data: [DONE]"], after, decode);
    ClassifiedAdd(texts, ["data: [DONE]"], decode);
    EndMarkerEnds(decode);
    var head, tail := Classified(texts, decode), [Done] + Classified(after, decode);
    assert Classified(["data: [DONE]"], decode) == [Done];
    assert head + [Done] + Classified(after, decode) == head + tail;
    CarriedChunksComeFirst(texts, decode, chunks, tail);
    CarriedChunksComeFirst(texts, decode, chunks, []);
    assert head + [] == head && chunks + [] == chunks;
  }

  // ----- where the parts of the result come from -----

  /** Of a chunk's choices only the first counts, and a chunk without any adds no text and no calls. */
  lemma FirstChoiceCounts(first: Choice, others: seq<Choice>, model: string, usage: Option<Usage>)
    ensures var chunk := StreamChunk([first] + others, model, usage);
            ContentOf(chunk) == first.content && FragmentsOf(chunk) == first.calls
    ensures var chunk := StreamChunk([], model, usage); ContentOf(chunk) == "" && FragmentsOf(chunk) == []
  {
  }

  function FinishOf(chunk: StreamChunk): string {
    if chunk.choices == [] then "" else chunk.choices[0].finishReason
  }

  /** The model is the last one named; the finish reason the last one given; the usage the last one reported. */
  lemma {:induction false} LastReportCounts(chunks: seq<StreamChunk>, i: nat)
    requires i < |chunks|
    ensures chunks[i].model != "" && (forall j | i < j < |chunks| :: chunks[j].model == "") ==>
              Fold(chunks).model == chunks[i].model
    ensures FinishOf(chunks[i]) != "" && (forall j | i < j < |chunks| :: FinishOf(chunks[j]) == "") ==>
              Fold(chunks).finishReason == FinishOf(chunks[i])
    ensures chunks[i].usage.Some? && (forall j | i < j < |chunks| :: chunks[j].usage.None?) ==>
              Fold(chunks).usage == chunks[i].usage.value
  {
    var shorter := chunks[..|chunks| - 1];
    if i == |chunks| - 1 {
    } else {
      LastReportCounts(shorter, i);
    }
  }

  lemma {:induction false} WithoutReports(chunks: seq<StreamChunk>)
    ensures (forall j | 0 <= j < |chunks| :: chunks[j].model == "") ==> Fold(chunks).model == ""
    ensures (forall j | 0 <= j < |chunks| :: FinishOf(chunks[j]) == "") ==> Fold(chunks).finishReason == ""
    ensures (forall j | 0 <= j < |chunks| :: chunks[j].usage.None?) ==> Fold(chunks).usage == Usage(0, 0, 0)
  {
    if chunks == [] {
    } else {
      WithoutReports(chunks[..|chunks| - 1]);
    }
  }

  /** A reported usage is passed on as it is, unless its total is 0: then reply and total are estimated. */
  lemma ReportedUsageCounts(chunks: seq<StreamChunk>, i: nat, reqModel: string)
    requires i < |chunks| && chunks[i].usage.Some? && forall j | i < j < |chunks| :: chunks[j].usage.None?
    ensures var u, r := chunks[i].usage.value, Assembled(Fold(chunks), reqModel);
            && r.input == u.prompt
            && (u.total != 0 ==> r.output == u.completion && r.total == u.total)
            && (u.total == 0 ==> r.output == r.total == Tokens([r.message]))
  {
    LastReportCounts(chunks, i);
  }

  lemma UnreportedUsageIsEstimated(chunks: seq<StreamChunk>, reqModel: string)
    requires forall j | 0 <= j < |chunks| :: chunks[j].usage.None?
    ensures var r := Assembled(Fold(chunks), reqModel);
            r.input == 0 && r.output == r.total == Tokens([r.message])
  {
    WithoutReports(chunks);
  }

  /** The result names the model the stream names last, or the one asked for if it names none. */
  lemma ModelIsNamed(chunks: seq<StreamChunk>, reqModel: string)
    ensures forall i | 0 <= i < |chunks| && chunks[i].model != "" ::
              (forall j | i < j < |chunks| :: chunks[j].model == "") ==>
                Assembled(Fold(chunks), reqModel).model == chunks[i].model
    ensures (forall j | 0 <= j < |chunks| :: chunks[j].model == "") ==>
              Assembled(Fold(chunks), reqModel).model == reqModel
  {
    WithoutReports(chunks);
    forall i | 0 <= i < |chunks| && chunks[i].model != "" && (forall j | i < j < |chunks| :: chunks[j].model == "")
      ensures Assembled(Fold(chunks), reqModel).model == chunks[i].model
    {
      LastReportCounts(chunks, i);
    }
  }

  // ----- one call from its fragments -----

  /** A fragment that sets the name: one with a name or a type, even if the name it carries is empty. */
  predicate Names(t: Fragment) {
    t.name != "" || t.kind != ""
  }

  /** The id is the last one given, the name that of the last fragment that sets it. */
  lemma {:induction false} LastFragmentNames(ts: seq<Fragment>, i: nat)
    requires i < |ts|
    ensures ts[i].id != "" && (forall j | i < j < |ts| :: ts[j].id == "") ==> Patched(NO_FRAG, ts).id == ts[i].id
    ensures Names(ts[i]) && (forall j | i < j < |ts| :: !Names(ts[j])) ==> Patched(NO_FRAG, ts).name == ts[i].name
  {
    if i == |ts| - 1 {
    } else {
      LastFragmentNames(ts[..|ts| - 1], i);
    }
  }

  /** The arguments are all pieces in the order in which they came. */
  lemma {:induction false} ArgumentsAreJoined(ts: seq<Fragment>)
    ensures Patched(NO_FRAG, ts).arguments == Arguments(ts)
  {
    if ts == [] {
    } else {
      ArgumentsAreJoined(ts[..|ts| - 1]);
    }
  }
}
