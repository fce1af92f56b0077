/**
 The whole life of a log: the segments that successive runs added to it, each possibly cut short
 by a crash, and what a reader of the file finds.
 */
module LogLife {
  import opened Wrappers
  import opened Validate
  import opened Events
  import opened Grammar
  import opened Tools
  import opened Memory
  import opened RunShape

  /** What one run left in the file, and the history it added in memory. */
  datatype Session = Session(tools: Toolbox, chunks: seq<Chunk>, entries: seq<Entry>)

  ghost function Flat(ss: seq<Session>): seq<Chunk> {
    if ss == [] then [] else Flat(ss[..|ss| - 1]) + ss[|ss| - 1].chunks
  }

  /** The first two records of a run have the next two numbers; later ones may leave gaps. */
  ghost predicate StartsAt(es: seq<Event>, low: nat) {
    && (es != [] ==> es[0].number == low + 1)
    && (|es| > 1 ==> es[1].number == low + 2)
  }

  /** A run's segment: in order, counting on from a given tail, and holding what the run spoke up to some point. */
  ghost predicate SegmentFrom(t: LogTail, s: Session) {
    && OneWriter(s.chunks)
    && var es := EventsOf(s.chunks);
    && Trace(RulesOf(s.tools), Start(t.turn), es).Some?
    && Rising(es, t.number) && StartsAt(es, t.number)
    && Orderly(s.entries) && Added(es) <= Kept(s.tools.codec, s.entries)
  }

  /** A run's segment, given the file it was opened on: it counts on from what was readable. */
  ghost predicate SegmentOk(before: seq<Chunk>, s: Session) {
    SegmentFrom(TailOf(Readable(before)), s)
  }

  ghost predicate LifeOk(ss: seq<Session>) {
    forall n | 0 <= n < |ss| :: SegmentOk(Flat(ss[..n]), ss[n])
  }

  lemma LifeGrows(ss: seq<Session>, s: Session)
    requires LifeOk(ss) && SegmentOk(Flat(ss), s)
    ensures LifeOk(ss + [s]) && Flat(ss + [s]) == Flat(ss) + s.chunks
  {
    hide SegmentOk;
    var all := ss + [s];
    assert all[..|ss|] == ss;
    forall n | 0 <= n < |all| ensures SegmentOk(Flat(all[..n]), all[n]) {
      if n < |ss| {
        assert all[..n] == ss[..n] && all[n] == ss[n];
      }
    }
  }

  /** The last run of a life, and the life before it. */
  lemma LifeStep(ss: seq<Session>)
    requires LifeOk(ss) && ss != []
    ensures var shorter, s := ss[..|ss| - 1], ss[|ss| - 1];
            LifeOk(shorter) && SegmentOk(Flat(shorter), s) && Flat(ss) == Flat(shorter) + s.chunks
  {
    hide SegmentOk;
    var shorter := ss[..|ss| - 1];
    forall n | 0 <= n < |shorter| ensures SegmentOk(Flat(shorter[..n]), shorter[n]) {
      assert shorter[..n] == ss[..n];
    }
  }

  // ----- crashes -----

  lemma CutEvents(cut: seq<Chunk>, cs: seq<Chunk>)
    requires CutOf(cut, cs)
    ensures |cut| <= |cs| && EventsOf(cut) == EventsOf(cs)[..|cut|]
    ensures OneWriter(cs) ==> OneWriter(cut)
  {
    assert |cut| <= |cs|;
    forall i | 0 <= i < |cut| ensures cut[i].event == cs[i].event
    {
      if !(cut <= cs) && i < |cut| - 1 {
        assert cut[..|cut| - 1][i] == cs[..|cut| - 1][i];
      }
    }
    if OneWriter(cs) {
      forall i | 0 <= i < |cut| - 1 ensures cut[i].extent.Whole? {
        if !(cut <= cs) {
          assert cut[..|cut| - 1][i] == cs[..|cut| - 1][i];
        }
      }
    }
  }

  lemma SegmentCut(before: seq<Chunk>, s: Session, cut: seq<Chunk>)
    requires SegmentOk(before, s) && CutOf(cut, s.chunks)
    ensures SegmentOk(before, s.(chunks := cut))
  {
    hide Rising, Trace, Added, Kept, Orderly, OneWriter, CutOf, TailOf, Readable;
    CutEvents(cut, s.chunks);
    AddedPrefix(EventsOf(s.chunks), |cut|);
    TracePrefix(RulesOf(s.tools), Start(TailOf(Readable(before)).turn), EventsOf(s.chunks), |cut|);
    RisingPrefix(EventsOf(s.chunks), TailOf(Readable(before)).number, |cut|);
  }

  /** A cut of two pieces put together is a cut of the first, or the first and a cut of the second. */
  lemma CutOfSum(cut: seq<Chunk>, base: seq<Chunk>, own: seq<Chunk>)
    requires CutOf(cut, base + own)
    ensures |cut| <= |base| ==> CutOf(cut, base)
    ensures |base| < |cut| ==> cut == base + cut[|base|..] && CutOf(cut[|base|..], own)
  {
    var all := base + own;
    if cut <= all {
      if |base| < |cut| {
        assert cut == base + cut[|base|..];
        assert cut[|base|..] <= own;
      }
    } else {
      var k := |cut| - 1;
      assert cut[..k] == all[..k];
      if |cut| <= |base| {
        assert all[..k] == base[..k];
      } else {
        assert all[..k] == base + own[..k - |base|];
        assert cut == cut[..k] + [cut[k]];
        assert cut[|base|..] == own[..k - |base|] + [cut[k]];
        assert cut == base + cut[|base|..];
        assert cut[|base|..][..k - |base|] == own[..k - |base|];
      }
    }
  }

  /** The same runs, with no more than a cut of each segment left. */
  ghost predicate Remains(left: seq<Session>, ss: seq<Session>) {
    && |left| == |ss|
    && forall n | 0 <= n < |ss| ::
         left[n].tools == ss[n].tools && left[n].entries == ss[n].entries && CutOf(left[n].chunks, ss[n].chunks)
  }

  /** What each run found when it was opened has been cut too. */
  ghost predicate Shrinks(left: seq<Session>, ss: seq<Session>) {
    |left| == |ss| && forall n | 0 <= n <= |ss| :: CutOf(Flat(left[..n]), Flat(ss[..n]))
  }

  lemma ShrinksGrows(left: seq<Session>, ss: seq<Session>, l: Session, s: Session)
    requires Shrinks(left, ss) && CutOf(Flat(left + [l]), Flat(ss + [s]))
    ensures Shrinks(left + [l], ss + [s])
  {
    hide CutOf, Flat;
    var after, all := left + [l], ss + [s];
    forall n | 0 <= n <= |all| ensures CutOf(Flat(after[..n]), Flat(all[..n])) {
      if n < |all| {
        assert after[..n] == left[..n] && all[..n] == ss[..n];
      } else {
        assert after[..n] == after && all[..n] == all;
      }
    }
  }

  lemma ShrinksBefore(left: seq<Session>, ss: seq<Session>, s: Session)
    requires Shrinks(left, ss + [s])
    ensures |left| == |ss| + 1 && Shrinks(left[..|ss|], ss)
    ensures CutOf(Flat(left[..|ss|]), Flat(ss))
  {
    hide CutOf, Flat;
    var all := ss + [s];
    assert all[..|ss|] == ss;
    forall n | 0 <= n <= |ss| ensures CutOf(Flat(left[..|ss|][..n]), Flat(ss[..n])) {
      assert left[..|ss|][..n] == left[..n] && all[..n] == ss[..n];
    }
  }

  lemma CutOfCut(a: seq<Chunk>, b: seq<Chunk>, c: seq<Chunk>)
    requires CutOf(a, b) && CutOf(b, c)
    ensures CutOf(a, c)
  {
    if !(a <= c) {
      assert a[..|a| - 1] == b[..|a| - 1] == c[..|a| - 1];
    }
  }

  lemma RemainsGrows(left: seq<Session>, ss: seq<Session>, l: Session, s: Session)
    requires Remains(left, ss)
    requires l.tools == s.tools && l.entries == s.entries && CutOf(l.chunks, s.chunks)
    ensures Remains(left + [l], ss + [s])
  {
  }

  lemma RemainsBefore(left: seq<Session>, ss: seq<Session>, s: Session)
    requires Remains(left, ss + [s])
    ensures |left| == |ss| + 1 && Remains(left[..|ss|], ss)
    ensures var l := left[|ss|]; l.tools == s.tools && l.entries == s.entries && CutOf(l.chunks, s.chunks)
  {
    hide CutOf;
    var all := ss + [s];
    assert all[|ss|] == s;
    forall n | 0 <= n < |ss|
      ensures left[n].tools == ss[n].tools && left[n].entries == ss[n].entries && CutOf(left[n].chunks, ss[n].chunks)
    {
      assert all[n] == ss[n];
    }
  }

  lemma RemainsIsAsLong(left: seq<Session>, ss: seq<Session>)
    requires Remains(left, ss)
    ensures |left| == |ss|
  {
  }

  lemma AllRemains(ss: seq<Session>)
    ensures Remains(ss, ss) && Shrinks(ss, ss)
  {
  }

  /**
   Whatever a crash leaves of a life is a life of the same runs: cut anywhere, even inside an earlier
   run's records, and then the later ones have nothing left.
   */
  lemma {:induction false} LifeSurvivesCrash(ss: seq<Session>, cut: seq<Chunk>) returns (left: seq<Session>)
    requires LifeOk(ss) && CutOf(cut, Flat(ss))
    ensures LifeOk(left) && Flat(left) == cut
    ensures Remains(left, ss) && Shrinks(left, ss)
  {
    hide SegmentOk, CutOf, Remains, Shrinks, LifeOk, Flat;
    if ss == [] {
      left := [];
      NothingToCut(cut);
    } else {
      LifeStep(ss);
      var shorter, s := ss[..|ss| - 1], ss[|ss| - 1];
      assert ss == shorter + [s];
      var base := Flat(shorter);
      CutOfSum(cut, base, s.chunks);
      if |cut| <= |base| {
        var before := LifeSurvivesCrash(shorter, cut);
        left := WithSegment(before, shorter, s, base, []);
        assert left == before + [left[|shorter|]] && cut + [] == cut;
        ShrinksGrows(before, shorter, left[|shorter|], s);
      } else {
        AllRemains(shorter);
        left := WithSegment(shorter, shorter, s, base, cut[|base|..]);
        assert left == shorter + [left[|shorter|]];
        assert base + cut[|base|..] == cut;
        ShrinksGrows(shorter, shorter, left[|shorter|], s);
      }
    }
  }

  lemma NothingToCut(cut: seq<Chunk>)
    requires CutOf(cut, Flat([]))
    ensures LifeOk([]) && Flat([]) == cut && Remains([], []) && Shrinks([], [])
  {
  }

  /** Of the last run, a cut on top of what is left of the others. */
  lemma WithSegment(before: seq<Session>, shorter: seq<Session>, s: Session, base: seq<Chunk>, own: seq<Chunk>)
    returns (left: seq<Session>)
    requires LifeOk(before) && Remains(before, shorter)
    requires SegmentOk(base, s)
    requires own == [] || (Flat(before) == base && CutOf(own, s.chunks))
    ensures LifeOk(left) && Flat(left) == Flat(before) + own
    ensures Remains(left, shorter + [s]) && left == before + [s.(chunks := own)] && |before| == |shorter|
  {
    RemainsIsAsLong(before, shorter);
    hide LifeOk, Flat, Remains;
    if own == [] {
      EmptySegment(base, Flat(before), s);
    } else {
      SegmentCut(base, s, own);
    }
    assert CutOf(own, s.chunks);
    hide SegmentOk, CutOf;
    LifeGrows(before, s.(chunks := own));
    RemainsGrows(before, shorter, s.(chunks := own), s);
    left := before + [s.(chunks := own)];
  }

  /** A run that left nothing fits on any file. */
  lemma EmptySegment(before: seq<Chunk>, base: seq<Chunk>, s: Session)
    requires SegmentOk(before, s)
    ensures SegmentOk(base, s.(chunks := []))
  {
  }

  // ----- what a reader finds -----

  lemma SettledIsPrefix(cs: seq<Chunk>)
    ensures Settled(cs) <= Readable(cs) && |Readable(cs)| <= |Settled(cs)| + 1
  {
    ReadableIsSettledPlus(cs);
  }

  lemma RisingPrefix(es: seq<Event>, low: nat, k: nat)
    requires Rising(es, low) && k <= |es|
    ensures Rising(es[..k], low)
  {
  }

  lemma RisingAdd(a: seq<Event>, b: seq<Event>, low: nat, mid: nat)
    requires Rising(a, low) && Rising(b, mid) && low <= mid
    requires forall i | 0 <= i < |a| :: a[i].number <= mid
    ensures Rising(a + b, low)
  {
  }

  lemma TurnsRisingAdd(a: seq<Event>, b: seq<Event>, low: nat, mid: nat)
    requires TurnsRising(a, low) && TurnsRising(b, mid) && low <= mid
    requires forall i | 0 <= i < |a| :: TurnIn(a[i].payload) <= mid
    ensures TurnsRising(a + b, low)
  {
  }

  lemma {:induction false} LatestTurnAdd(a: seq<Event>, b: seq<Event>)
    ensures LatestTurn(b).Some? ==> LatestTurn(a + b) == LatestTurn(b)
  {
    if b == [] {
    } else {
      var shorter := b[..|b| - 1];
      assert (a + b)[..|a + b| - 1] == a + shorter;
      LatestTurnAdd(a, shorter);
    }
  }

  lemma NamesItsTurnAdd(a: seq<Event>, b: seq<Event>)
    requires NamesItsTurn(a) && NamesItsTurn(b)
    ensures NamesItsTurn(a + b)
  {
    var all := a + b;
    forall i | 0 <= i < |all| && (all[i].payload.Llm? || all[i].payload.TurnEnd?)
      ensures LatestTurn(all[..i]) == Some(TurnIn(all[i].payload))
    {
      if i < |a| {
        assert all[..i] == a[..i];
      } else {
        assert all[..i] == a + b[..i - |a|];
        LatestTurnAdd(a, b[..i - |a|]);
      }
    }
  }

  /** Losing the run_start to a torn tail does not change which turn a record belongs to. */
  lemma NamesItsTurnWithoutFirst(es: seq<Event>)
    requires es != [] && NamesItsTurn(es) && !es[0].payload.Turn?
    ensures NamesItsTurn(es[1..])
  {
    forall i | 0 <= i < |es| - 1 && (es[1..][i].payload.Llm? || es[1..][i].payload.TurnEnd?)
      ensures LatestTurn(es[1..][..i]) == Some(TurnIn(es[1..][i].payload))
    {
      assert es[..i + 1] == [es[0]] + es[1..][..i];
      LatestTurnWithoutFirst(es[0], es[1..][..i]);
    }
  }

  lemma {:induction false} LatestTurnWithoutFirst(e: Event, es: seq<Event>)
    requires !e.payload.Turn?
    ensures LatestTurn([e] + es) == LatestTurn(es)
  {
    if es != [] {
      var shorter := es[..|es| - 1];
      assert ([e] + es)[..|[e] + es| - 1] == [e] + shorter;
      LatestTurnWithoutFirst(e, shorter);
    } else {
      assert [e] + es == [e] && [e][..0] == [];
    }
  }

  /** What a reader finds is well numbered: record numbers, turn numbers, and each record's own turn. */
  ghost predicate WellNumbered(es: seq<Event>) {
    Rising(es, 0) && TurnsRising(es, 0) && NamesItsTurn(es)
  }

  lemma WellNumberedPrefix(es: seq<Event>, k: nat)
    requires WellNumbered(es) && k <= |es|
    ensures WellNumbered(es[..k])
  {
    forall i | 0 <= i < k ensures es[..k][..i] == es[..i] {
    }
  }

  ghost predicate NumberedAbove(es: seq<Event>, t: LogTail) {
    Rising(es, t.number) && TurnsRising(es, t.turn) && NamesItsTurn(es)
  }

  lemma RunNumbers(rules: Rules, t: LogTail, es: seq<Event>)
    requires Trace(rules, Start(t.turn), es).Some? && Rising(es, t.number)
    ensures NumberedAbove(es, t)
    ensures es != [] ==> NumberedAbove(es[1..], t)
  {
    TraceNumbersTurns(rules, t.turn, es);
    TraceOpens(rules, t.turn, es);
    if es != [] {
      NamesItsTurnWithoutFirst(es);
    }
  }

  lemma SurvivingIsPrefix(before: seq<Chunk>, own: seq<Chunk>) returns (k: nat)
    requires own != []
    ensures k <= |own|
    ensures var es := EventsOf(own)[..k];
            Surviving(before, own) == if Clean(before) || es == [] then es else es[1..]
  {
    k := if own[|own| - 1].extent.Torn? then |own| - 1 else |own|;
    assert EventsOf(own)[..k] == EventsOf(own[..k]);
    assert own[..|own|] == own;
  }

  lemma SegmentPrefix(t: LogTail, s: Session, k: nat)
    requires SegmentFrom(t, s) && k <= |s.chunks|
    ensures Trace(RulesOf(s.tools), Start(t.turn), EventsOf(s.chunks)[..k]).Some?
    ensures Rising(EventsOf(s.chunks)[..k], t.number)
  {
    TracePrefix(RulesOf(s.tools), Start(t.turn), EventsOf(s.chunks), k);
    RisingPrefix(EventsOf(s.chunks), t.number, k);
  }

  /** A run's surviving records are well numbered above the tail it started from. */
  lemma SegmentNumbers(before: seq<Chunk>, t: LogTail, s: Session)
    requires SegmentFrom(t, s) && s.chunks != []
    ensures NumberedAbove(Surviving(before, s.chunks), t)
  {
    hide SegmentFrom, Surviving, Rising, Trace, NamesItsTurn, TurnsRising, RulesOf;
    var k := SurvivingIsPrefix(before, s.chunks);
    SegmentPrefix(t, s, k);
    RunNumbers(RulesOf(s.tools), t, EventsOf(s.chunks)[..k]);
  }

  lemma TailBounds(es: seq<Event>, k: nat)
    requires k <= |es|
    ensures forall i | 0 <= i < k ::
              es[..k][i].number <= TailOf(es).number && TurnIn(es[..k][i].payload) <= TailOf(es).turn
  {
    TailOfIsHighest(es);
  }

  lemma SegmentHasOneWriter(before: seq<Chunk>, s: Session)
    requires SegmentOk(before, s)
    ensures OneWriter(s.chunks)
  {
  }

  /** One more run keeps a log well numbered. */
  lemma SegmentKeepsNumbers(base: seq<Chunk>, s: Session)
    requires WellNumbered(Readable(base)) && SegmentOk(base, s) && s.chunks != []
    ensures WellNumbered(Readable(base + s.chunks))
  {
    var found, kept, t := Readable(base), Settled(base), TailOf(Readable(base));
    SegmentNumbers(base, t, s);
    SegmentHasOneWriter(base, s);
    hide SegmentOk, Readable, Settled, Surviving;
    SettledIsPrefix(base);
    assert kept == found[..|kept|];
    WellNumberedPrefix(found, |kept|);
    TailBounds(found, |kept|);
    var es := Surviving(base, s.chunks);
    RisingAdd(kept, es, 0, t.number);
    TurnsRisingAdd(kept, es, 0, t.turn);
    NamesItsTurnAdd(kept, es);
    ReadableAfterSegment(base, s.chunks);
  }

  /**
   However many runs, resumes, failed writes and crashes a log has been through, the records that
   can be read back keep strictly increasing numbers and strictly increasing turn numbers from 1,
   and every reply and end of turn carries the number of the nearest turn record before it.
   */
  lemma {:induction false} LivesAreWellNumbered(ss: seq<Session>)
    requires LifeOk(ss)
    ensures WellNumbered(Readable(Flat(ss)))
  {
    if ss == [] {
      assert Readable([]) == [];
    } else {
      hide SegmentOk, WellNumbered, Readable;
      LifeStep(ss);
      var shorter, s := ss[..|ss| - 1], ss[|ss| - 1];
      LivesAreWellNumbered(shorter);
      if s.chunks == [] {
        assert Flat(ss) == Flat(shorter);
      } else {
        SegmentKeepsNumbers(Flat(shorter), s);
      }
    }
  }

  /** Over a life, each run leaves at most one torn record, so it costs at most two. */
  lemma {:induction false} LivesLoseLittle(ss: seq<Session>)
    requires LifeOk(ss)
    ensures TornCount(Flat(ss), |Flat(ss)|) <= |ss|
    ensures |Flat(ss)| <= |Readable(Flat(ss))| + 2 * |ss|
  {
    LivesTear(ss);
    TornTailsCostTwo(Flat(ss), |Flat(ss)|);
    ReadableIsLegible(Flat(ss));
  }

  lemma {:induction false} TornCountAdd(a: seq<Chunk>, b: seq<Chunk>, n: nat)
    requires n <= |b|
    ensures TornCount(a + b, |a| + n) == TornCount(a, |a|) + TornCount(b, n)
    decreases n
  {
    if n == 0 {
      TornCountPrefix(a, b, |a|);
    } else {
      TornCountAdd(a, b, n - 1);
    }
  }

  lemma {:induction false} TornCountPrefix(a: seq<Chunk>, b: seq<Chunk>, n: nat)
    requires n <= |a|
    ensures TornCount(a + b, n) == TornCount(a, n)
  {
    if n == 0 {
    } else {
      TornCountPrefix(a, b, n - 1);
    }
  }

  lemma {:induction false} OneWriterTearsOnce(own: seq<Chunk>, n: nat)
    requires OneWriter(own) && n <= |own|
    ensures TornCount(own, n) <= if n == |own| then 1 else 0
  {
    if n == 0 {
    } else {
      OneWriterTearsOnce(own, n - 1);
    }
  }

  lemma {:induction false} LivesTear(ss: seq<Session>)
    requires LifeOk(ss)
    ensures TornCount(Flat(ss), |Flat(ss)|) <= |ss|
  {
    if ss == [] {
    } else {
      LifeStep(ss);
      LivesTear(ss[..|ss| - 1]);
      SegmentHasOneWriter(Flat(ss[..|ss| - 1]), ss[|ss| - 1]);
      hide *;
      SegmentTears(Flat(ss[..|ss| - 1]), ss[|ss| - 1].chunks);
    }
  }

  lemma SegmentTears(base: seq<Chunk>, own: seq<Chunk>)
    requires OneWriter(own)
    ensures TornCount(base + own, |base + own|) <= TornCount(base, |base|) + 1
  {
    TornCountAdd(base, own, |own|);
    OneWriterTearsOnce(own, |own|);
  }

  /** The chunks of `own` lie in the file from a position on. */
  ghost predicate LiesAt(cs: seq<Chunk>, start: nat, own: seq<Chunk>) {
    start + |own| <= |cs| && forall k | 0 <= k < |own| :: cs[start + k] == own[k]
  }

  /** The n-th segment in the file. */
  lemma {:induction false} FlatAt(ss: seq<Session>, n: nat)
    requires n < |ss|
    ensures LiesAt(Flat(ss), |Flat(ss[..n])|, ss[n].chunks)
    ensures Flat(ss[..n + 1]) == Flat(ss[..n]) + ss[n].chunks
  {
    assert ss[..n + 1][..n] == ss[..n];
    if n == |ss| - 1 {
      assert ss[..n + 1] == ss;
    } else {
      var shorter := ss[..|ss| - 1];
      FlatAt(shorter, n);
      assert shorter[..n] == ss[..n];
      assert shorter[..n + 1] == ss[..n + 1];
    }
  }

  lemma SegmentAnswersIntents(before: seq<Chunk>, s: Session, i: nat)
    requires SegmentOk(before, s) && i + 1 < |s.chunks| && IsIntent(s.chunks[i].event.payload)
    ensures Answers(RulesOf(s.tools), s.chunks[i].event.payload, s.chunks[i + 1].event.payload)
  {
    var turn, es := TailOf(Readable(before)).turn, EventsOf(s.chunks);
    hide Trace, Answers, Rising, Orderly, Added, Kept, TailOf, Readable, OneWriter;
    IntentsAreAnswered(RulesOf(s.tools), turn, es, i);
  }

  /** In every run's segment an intent is answered by the next record, or it is the last thing written. */
  lemma LivesAnswerIntents(ss: seq<Session>, n: nat, i: nat)
    requires LifeOk(ss) && n < |ss|
    requires i < |ss[n].chunks| && IsIntent(ss[n].chunks[i].event.payload)
    ensures i + 1 < |ss[n].chunks| ==>
              Answers(RulesOf(ss[n].tools), ss[n].chunks[i].event.payload, ss[n].chunks[i + 1].event.payload)
  {
    hide SegmentOk, Answers, RulesOf;
    assert SegmentOk(Flat(ss[..n]), ss[n]);
    if i + 1 < |ss[n].chunks| {
      SegmentAnswersIntents(Flat(ss[..n]), ss[n], i);
    }
  }

  /** A reader of the file finds the record at this position. */
  predicate Seen(cs: seq<Chunk>, i: nat) {
    i < |cs| && Legible(cs, i)
  }

  /** A reader of the file sees this intent of a segment, and no answer to it. */
  ghost predicate Unanswered(rules: Rules, cs: seq<Chunk>, start: nat, own: seq<Chunk>, i: nat) {
    && i < |own| && IsIntent(own[i].event.payload) && Seen(cs, start + i)
    && !(&& i + 1 < |own| && Seen(cs, start + i + 1)
         && Answers(rules, own[i].event.payload, own[i + 1].event.payload))
  }

  ghost predicate SeenUnanswered(ss: seq<Session>, n: nat, i: nat)
    requires n < |ss|
  {
    Unanswered(RulesOf(ss[n].tools), Flat(ss), |Flat(ss[..n])|, ss[n].chunks, i)
  }

  /** So a reader finds at most one unanswered intent for each run. */
  lemma LivesLeaveOneUnanswered(ss: seq<Session>, n: nat, i: nat, j: nat)
    requires LifeOk(ss) && n < |ss|
    requires SeenUnanswered(ss, n, i) && SeenUnanswered(ss, n, j)
    ensures i == j
  {
    if i < j {
      UnansweredIsNearTheEnd(ss, n, i, j);
    } else if j < i {
      UnansweredIsNearTheEnd(ss, n, j, i);
    }
  }

  lemma UnansweredIsNearTheEnd(ss: seq<Session>, n: nat, i: nat, j: nat)
    requires LifeOk(ss) && n < |ss|
    requires SeenUnanswered(ss, n, i) && i < j
    ensures !SeenUnanswered(ss, n, j)
  {
    if j < |ss[n].chunks| {
      FlatAt(ss, n);
      assert SegmentOk(Flat(ss[..n]), ss[n]);
      LivesAnswerIntents(ss, n, i);
      SegmentHasOneWriter(Flat(ss[..n]), ss[n]);
      hide LifeOk, SegmentOk, Flat, LiesAt, OneWriter, Unanswered, RulesOf;
      NoneAfterUnanswered(RulesOf(ss[n].tools), Flat(ss), |Flat(ss[..n])|, ss[n].chunks, i, j);
    }
  }

  lemma NoneAfterUnanswered(rules: Rules, cs: seq<Chunk>, start: nat, own: seq<Chunk>, i: nat, j: nat)
    requires LiesAt(cs, start, own) && OneWriter(own) && i < j < |own|
    requires Unanswered(rules, cs, start, own, i)
    requires Answers(rules, own[i].event.payload, own[i + 1].event.payload)
    ensures !Unanswered(rules, cs, start, own, j)
  {
    AnswersAreNoIntents(rules, own[i].event.payload, own[i + 1].event.payload);
  }

  lemma InnerIsSeen(cs: seq<Chunk>, start: nat, own: seq<Chunk>, n: nat)
    requires LiesAt(cs, start, own) && OneWriter(own) && 0 < n < |own| - 1
    ensures Seen(cs, start + n)
  {
    assert cs[start + (n - 1)] == own[n - 1] && cs[start + n] == own[n];
  }

  lemma AnswersAreNoIntents(rules: Rules, intent: Payload, p: Payload)
    requires intent.Tool? && Answers(rules, intent, p)
    ensures !IsIntent(p)
  {
  }

  /** Every run's segment begins a word of the grammar. */
  lemma LivesFollowTheGrammar(ss: seq<Session>, n: nat) returns (ts: seq<seq<Call>>, e: Ending)
    requires LifeOk(ss) && n < |ss|
    ensures Word(EventsOf(ss[n].chunks)) <= RunWord(ts, e)
    ensures AllRecordable(RulesOf(ss[n].tools), EventsOf(ss[n].chunks)) ==> RunFullyRecorded(ts, e)
  {
    assert SegmentOk(Flat(ss[..n]), ss[n]);
    ts, e := RunsFollowTheGrammar(RulesOf(ss[n].tools), TailOf(Readable(Flat(ss[..n]))).turn, EventsOf(ss[n].chunks));
  }

  // ----- what a resume remembers of the runs before it -----

  /** The records of n chunks from a position on that a reader of the file finds. */
  function Found(cs: seq<Chunk>, start: nat, n: nat): seq<Event> {
    if n == 0 then []
    else Found(cs, start, n - 1) + if Seen(cs, start + n - 1) then [cs[start + n - 1].event] else []
  }

  lemma {:induction false} FoundAdd(cs: seq<Chunk>, start: nat, n: nat)
    requires start + n <= |cs|
    ensures LegibleEvents(cs, start + n) == LegibleEvents(cs, start) + Found(cs, start, n)
    decreases n
  {
    if n == 0 {
    } else {
      FoundAdd(cs, start, n - 1);
    }
  }

  lemma FoundStep(cs: seq<Chunk>, start: nat, own: seq<Chunk>, n: nat)
    requires LiesAt(cs, start, own) && n < |own|
    requires Added(Found(cs, start, n)) == Added(EventsOf(own)[..n])
    ensures Added(Found(cs, start, n + 1)) <= Added(EventsOf(own)[..n + 1])
    ensures Seen(cs, start + n) || Adds(own[n].event.payload) == [] ==>
              Added(Found(cs, start, n + 1)) == Added(EventsOf(own)[..n + 1])
  {
    var e, es := own[n].event, EventsOf(own);
    assert cs[start + n] == own[n];
    assert es[..n + 1] == es[..n] + [e];
    FoundGrows(cs, start, n);
    hide Added, Found, Adds, Seen;
    AddedGrows(es[..n], e);
    AddedGrows(Found(cs, start, n), e);
  }

  lemma FoundGrows(cs: seq<Chunk>, start: nat, n: nat)
    ensures Seen(cs, start + n) ==> Found(cs, start, n + 1) == Found(cs, start, n) + [cs[start + n].event]
    ensures !Seen(cs, start + n) ==> Found(cs, start, n + 1) == Found(cs, start, n)
  {
  }

  /** A run_start carries no message, so of a segment only a last record can be missed. */
  lemma {:induction false} FoundAdds(cs: seq<Chunk>, start: nat, own: seq<Chunk>, n: nat)
    requires n <= |own| && LiesAt(cs, start, own) && OneWriter(own)
    requires own != [] ==> Adds(own[0].event.payload) == []
    ensures n < |own| ==> Added(Found(cs, start, n)) == Added(EventsOf(own)[..n])
    ensures Added(Found(cs, start, n)) <= Added(EventsOf(own)[..n])
    decreases n
  {
    hide Added, Found, Seen, OneWriter, LiesAt, Adds;
    if n == 0 {
      NothingFound(cs, start, own);
    } else {
      FoundAdds(cs, start, own, n - 1);
      FoundStep(cs, start, own, n - 1);
      if 1 < n < |own| {
        InnerIsSeen(cs, start, own, n - 1);
      }
    }
  }

  lemma NothingFound(cs: seq<Chunk>, start: nat, own: seq<Chunk>)
    ensures Added(Found(cs, start, 0)) == [] == Added(EventsOf(own)[..0])
  {
  }

  /** What of a history has its record among the first k: the history up to some point. */
  lemma {:induction false} KeptCut(codec: Codec, h: seq<Entry>, k: nat) returns (cut: nat)
    requires k <= |Kept(codec, h)|
    ensures cut <= |h| && Kept(codec, h[..cut]) == Kept(codec, h)[..k]
  {
    if k == |Kept(codec, h)| {
      cut := |h|;
      assert h[..cut] == h;
    } else {
      var shorter := h[..|h| - 1];
      cut := KeptCut(codec, shorter, k);
      assert shorter[..cut] == h[..cut];
    }
  }

  /** What rebuilding makes of the pasts of all runs, one after the other. */
  ghost function LifeRecalled(ss: seq<Session>, pasts: seq<seq<Entry>>): Convo
    requires |pasts| == |ss|
  {
    if ss == [] then NOTHING
    else
      var n := |ss| - 1;
      Recalled(ss[n].tools.codec, LifeRecalled(ss[..n], pasts[..n]), pasts[n])
  }

  /** The history of a run up to the point where just those of its records had been written. */
  ghost predicate PastOf(past: seq<Entry>, s: Session, found: seq<Event>) {
    past <= s.entries && Kept(s.tools.codec, past) == Added(found)
  }

  ghost function FoundOf(ss: seq<Session>, n: nat): seq<Event>
    requires n < |ss|
  {
    Found(Flat(ss), |Flat(ss[..n])|, |ss[n].chunks|)
  }

  lemma SegmentSpeaks(before: seq<Chunk>, s: Session)
    requires SegmentOk(before, s)
    ensures OneWriter(s.chunks)
    ensures s.chunks != [] ==> Adds(s.chunks[0].event.payload) == []
    ensures Added(EventsOf(s.chunks)) <= Kept(s.tools.codec, s.entries)
  {
    TraceOpens(RulesOf(s.tools), TailOf(Readable(before)).turn, EventsOf(s.chunks));
    assert s.chunks != [] ==> EventsOf(s.chunks)[0] == s.chunks[0].event;
  }

  /** One run of a life: its records that are found, as a part of its history. */
  lemma SessionRecalled(ss: seq<Session>, n: nat, c: Convo) returns (past: seq<Entry>)
    requires LifeOk(ss) && n < |ss|
    ensures PastOf(past, ss[n], FoundOf(ss, n))
    ensures Replay(c, FoundOf(ss, n)) == Recalled(ss[n].tools.codec, c, past)
  {
    assert SegmentOk(Flat(ss[..n]), ss[n]);
    FlatAt(ss, n);
    hide LifeOk, SegmentOk, LiesAt, Added, Kept, Recalled, Found, OneWriter, Adds, Replay, Flat;
    SegmentSpeaks(Flat(ss[..n]), ss[n]);
    past := FoundRecalled(Flat(ss), |Flat(ss[..n])|, ss[n], c);
  }

  lemma FoundRecalled(cs: seq<Chunk>, start: nat, s: Session, c: Convo) returns (past: seq<Entry>)
    requires LiesAt(cs, start, s.chunks) && OneWriter(s.chunks)
    requires s.chunks != [] ==> Adds(s.chunks[0].event.payload) == []
    requires Added(EventsOf(s.chunks)) <= Kept(s.tools.codec, s.entries)
    ensures PastOf(past, s, Found(cs, start, |s.chunks|))
    ensures Replay(c, Found(cs, start, |s.chunks|)) == Recalled(s.tools.codec, c, past)
  {
    hide OneWriter, Adds, Added, Kept, Recalled, Replay, Found, Lasting, LiesAt;
    var found := Found(cs, start, |s.chunks|);
    FoundAdds(cs, start, s.chunks, |s.chunks|);
    assert EventsOf(s.chunks)[..|s.chunks|] == EventsOf(s.chunks);
    var cut := KeptCut(s.tools.codec, s.entries, |Added(found)|);
    past := s.entries[..cut];
    KeptLasts(s.tools.codec, past);
    ReplayIsRecalled(s.tools.codec, c, found);
    RecalledKept(s.tools.codec, c, past);
  }

  /**
   What a resume loads is what survives of everything the earlier runs spoke: of each run the
   history up to where its records were cut, without what could not be encoded and without second
   replies to a call id.
   */
  lemma LivesRemember(ss: seq<Session>) returns (pasts: seq<seq<Entry>>)
    requires LifeOk(ss)
    ensures |pasts| == |ss| && forall n | 0 <= n < |ss| :: PastOf(pasts[n], ss[n], FoundOf(ss, n))
    ensures Replay(NOTHING, Readable(Flat(ss))) == LifeRecalled(ss, pasts)
  {
    hide LifeOk, Flat, LifeRecalled, LegibleEvents, Replay, Readable, PastOf, FoundOf;
    pasts := RunsRemember(ss, |ss|);
    assert ss[..|ss|] == ss;
    ReadableIsLegible(Flat(ss));
  }

  lemma {:induction false} RunsRemember(ss: seq<Session>, n: nat) returns (pasts: seq<seq<Entry>>)
    requires LifeOk(ss) && n <= |ss|
    ensures |pasts| == n && forall i | 0 <= i < n :: PastOf(pasts[i], ss[i], FoundOf(ss, i))
    ensures |Flat(ss[..n])| <= |Flat(ss)|
    ensures Replay(NOTHING, LegibleEvents(Flat(ss), |Flat(ss[..n])|)) == LifeRecalled(ss[..n], pasts)
    decreases n
  {
    if n == 0 {
      pasts := [];
      assert ss[..0] == [];
    } else {
      hide *;
      pasts := RunsRemember(ss, n - 1);
      pasts := OneMoreRemembered(ss, n - 1, pasts);
    }
  }

  lemma OneMoreRemembered(ss: seq<Session>, n: nat, before: seq<seq<Entry>>) returns (pasts: seq<seq<Entry>>)
    requires LifeOk(ss) && n < |ss|
    requires |before| == n && forall i | 0 <= i < n :: PastOf(before[i], ss[i], FoundOf(ss, i))
    requires |Flat(ss[..n])| <= |Flat(ss)|
    requires Replay(NOTHING, LegibleEvents(Flat(ss), |Flat(ss[..n])|)) == LifeRecalled(ss[..n], before)
    ensures |pasts| == n + 1 && forall i | 0 <= i < n + 1 :: PastOf(pasts[i], ss[i], FoundOf(ss, i))
    ensures |Flat(ss[..n + 1])| <= |Flat(ss)|
    ensures Replay(NOTHING, LegibleEvents(Flat(ss), |Flat(ss[..n + 1])|)) == LifeRecalled(ss[..n + 1], pasts)
  {
    hide LifeOk, Replay, Found, LegibleEvents, Flat, Recalled, PastOf;
    FlatAt(ss, n);
    var start, own := |Flat(ss[..n])|, ss[n].chunks;
    var past := SessionRecalled(ss, n, LifeRecalled(ss[..n], before));
    FoundAdd(Flat(ss), start, |own|);
    ReplayAdd(NOTHING, LegibleEvents(Flat(ss), start), Found(Flat(ss), start, |own|));
    pasts := before + [past];
    assert ss[..n + 1][..n] == ss[..n] && pasts[..n] == before;
  }

  // ----- a run on a log it does not count on from -----

  lemma RisingTail(es: seq<Event>, low: nat, mid: nat)
    requires Rising(es, low) && (es != [] ==> mid < es[0].number)
    ensures Rising(es, mid)
  {
  }

  /** Record numbers go on rising iff the first record that survives is above what had settled. */
  lemma NumbersRiseIff(base: seq<Chunk>, t: LogTail, s: Session)
    requires WellNumbered(Settled(base)) && SegmentFrom(t, s) && s.chunks != []
    ensures var rest := Surviving(base, s.chunks);
            Rising(Readable(base + s.chunks), 0) <==> rest == [] || TailOf(Settled(base)).number < rest[0].number
  {
    var kept, rest := Settled(base), Surviving(base, s.chunks);
    var all := kept + rest;
    ReadableAfterSegment(base, s.chunks);
    TailOfIsHighest(kept);
    if rest != [] && TailOf(kept).number < rest[0].number {
      SegmentNumbers(base, t, s);
      RisingTail(rest, t.number, TailOf(kept).number);
      RisingAdd(kept, rest, 0, TailOf(kept).number);
    } else if rest != [] {
      assert all[|kept|] == rest[0];
      if kept != [] {
        var i :| 0 <= i < |kept| && kept[i].number == TailOf(kept).number;
        assert all[i] == kept[i];
      }
    } else {
      assert all == kept;
    }
  }

  /** The first turn of a run has the number after the one it starts from. */
  lemma {:induction false} FirstTurn(rules: Rules, turn: nat, es: seq<Event>) returns (i: nat)
    requires Trace(rules, Start(turn), es).Some? && TurnCount(es) > 0
    ensures 0 < i < |es| && es[i].payload == Turn(turn + 1)
  {
    var shorter := es[..|es| - 1];
    TraceNumbersTurns(rules, turn, shorter);
    TraceOpens(rules, turn, es);
    if TurnCount(shorter) > 0 {
      i := FirstTurn(rules, turn, shorter);
    } else {
      i := |es| - 1;
    }
  }

  /** In a well numbered log the highest turn has its turn record. */
  lemma HighestTurnIsRecorded(es: seq<Event>)
    requires NamesItsTurn(es) && TailOf(es).turn > 0
    ensures exists i | 0 <= i < |es| :: es[i].payload == Turn(TailOf(es).turn)
  {
    TailOfIsHighest(es);
    assert es != [];
    var j :| 0 <= j < |es| && TurnIn(es[j].payload) == TailOf(es).turn;
    if !es[j].payload.Turn? {
      var i := LatestTurnAt(es[..j]);
      assert es[i].payload == Turn(TailOf(es).turn);
    }
  }

  lemma {:induction false} LatestTurnAt(es: seq<Event>) returns (i: nat)
    requires LatestTurn(es).Some?
    ensures i < |es| && es[i].payload == Turn(LatestTurn(es).value)
  {
    if es[|es| - 1].payload.Turn? {
      i := |es| - 1;
    } else {
      i := LatestTurnAt(es[..|es| - 1]);
    }
  }

  lemma {:induction false} TurnCountIsSome(es: seq<Event>)
    ensures TurnCount(es) > 0 <==> exists i | 0 <= i < |es| :: es[i].payload.Turn?
  {
    if es == [] {
    } else {
      TurnCountIsSome(es[..|es| - 1]);
    }
  }

  lemma TurnsRiseOnTop(kept: seq<Event>, rest: seq<Event>, turn: nat)
    requires TurnsRising(kept, 0) && NamesItsTurn(kept) && TurnsRising(rest, turn)
    requires TurnCount(rest) > 0 ==> exists j | 0 <= j < |rest| :: rest[j].payload == Turn(turn + 1)
    ensures TurnsRising(kept + rest, 0) <==> TurnCount(rest) == 0 || TailOf(kept).turn <= turn
  {
    TailOfIsHighest(kept);
    TurnCountIsSome(rest);
    if TailOf(kept).turn <= turn {
      TurnsRisingAdd(kept, rest, 0, turn);
    } else if TurnCount(rest) == 0 {
      assert forall i | 0 <= i < |rest| :: !rest[i].payload.Turn?;
    } else {
      HighestTurnIsRecorded(kept);
      var i :| 0 <= i < |kept| && kept[i].payload == Turn(TailOf(kept).turn);
      var j :| 0 <= j < |rest| && rest[j].payload == Turn(turn + 1);
      assert (kept + rest)[i] == kept[i] && (kept + rest)[|kept| + j] == rest[j];
    }
  }

  /** The surviving turns of a run rise above where it started, from the next number on. */
  lemma SurvivingTurns(base: seq<Chunk>, t: LogTail, s: Session)
    requires SegmentFrom(t, s) && s.chunks != []
    ensures var rest := Surviving(base, s.chunks);
            && TurnsRising(rest, t.turn)
            && (TurnCount(rest) > 0 ==> exists j | 0 <= j < |rest| :: rest[j].payload == Turn(t.turn + 1))
  {
    hide SegmentFrom, Surviving, Rising, Trace, NamesItsTurn, TurnsRising, TurnCount, RulesOf;
    var k := SurvivingIsPrefix(base, s.chunks);
    var es := EventsOf(s.chunks)[..k];
    SegmentPrefix(t, s, k);
    RunNumbers(RulesOf(s.tools), t, es);
    FirstTurnStays(RulesOf(s.tools), t.turn, es);
  }

  /** Losing the run_start does not lose a turn. */
  lemma FirstTurnStays(rules: Rules, turn: nat, es: seq<Event>)
    requires Trace(rules, Start(turn), es).Some?
    ensures TurnCount(es) > 0 ==> exists j | 0 <= j < |es| :: es[j].payload == Turn(turn + 1)
    ensures es != [] && TurnCount(es[1..]) > 0 ==> exists j | 0 <= j < |es| - 1 :: es[1..][j].payload == Turn(turn + 1)
  {
    if TurnCount(es) > 0 {
      var i := FirstTurn(rules, turn, es);
      assert es[1..][i - 1] == es[i];
    } else if es != [] {
      TurnCountIsSome(es);
      TurnCountIsSome(es[1..]);
      assert forall j | 0 <= j < |es| - 1 :: es[1..][j] == es[j + 1];
    }
  }

  /** Turn numbers go on rising iff no turn record survives or the run starts from the highest turn settled. */
  lemma TurnsRiseIff(base: seq<Chunk>, t: LogTail, s: Session)
    requires WellNumbered(Settled(base)) && SegmentFrom(t, s) && s.chunks != []
    ensures TurnsRising(Readable(base + s.chunks), 0) <==>
              TurnCount(Surviving(base, s.chunks)) == 0 || TailOf(Settled(base)).turn <= t.turn
  {
    hide SegmentFrom, Surviving, Settled, Readable, TurnCount, TurnsRising, NamesItsTurn, Rising, OneWriter, TailOf;
    SegmentIsOneWriters(t, s);
    ReadableAfterSegment(base, s.chunks);
    SurvivingTurns(base, t, s);
    TurnsRiseOnTop(Settled(base), Surviving(base, s.chunks), t.turn);
  }

  lemma SegmentIsOneWriters(t: LogTail, s: Session)
    requires SegmentFrom(t, s)
    ensures OneWriter(s.chunks)
  {
  }

  /**
   A run that does not resume counts from 1 again.  Records keep rising iff nothing of it survives,
   or nothing had settled, or the file was torn and only a record with number 1 had settled; turns
   keep rising iff no turn record of it survives, or none had settled.
   */
  lemma FreshRunsRiseIff(base: seq<Chunk>, s: Session)
    requires WellNumbered(Settled(base)) && SegmentFrom(LogTail(0, 0), s) && s.chunks != []
    ensures var kept, rest := Settled(base), Surviving(base, s.chunks);
            && (Clean(base) ==> (Rising(Readable(base + s.chunks), 0) <==> rest == [] || kept == []))
            && (!Clean(base) ==>
                  (Rising(Readable(base + s.chunks), 0) <==> rest == [] || TailOf(kept).number <= 1))
            && (TurnsRising(Readable(base + s.chunks), 0) <==> TurnCount(rest) == 0 || TailOf(kept).turn == 0)
  {
    hide WellNumbered, SegmentFrom, Surviving, TailOf, TurnsRising, Trace, Readable, Settled, TurnCount, Rising;
    NumbersRiseIff(base, LogTail(0, 0), s);
    TurnsRiseIff(base, LogTail(0, 0), s);
    FirstSurvivor(base, LogTail(0, 0), s);
    TailOfSettled(Settled(base));
  }

  lemma TailOfSettled(kept: seq<Event>)
    requires WellNumbered(kept)
    ensures if kept == [] then TailOf(kept) == LogTail(0, 0) else 0 < TailOf(kept).number
  {
    EmptyTail();
    TailOfIsHighest(kept);
  }

  lemma EmptyTail()
    ensures TailOf([]) == LogTail(0, 0)
  {
  }

  /** The first record of a run that survives is its first or, glued to an unfinished line, its second. */
  lemma FirstSurvivor(base: seq<Chunk>, t: LogTail, s: Session)
    requires SegmentFrom(t, s) && s.chunks != []
    ensures var rest := Surviving(base, s.chunks);
            rest != [] ==> rest[0].number == if Clean(base) then t.number + 1 else t.number + 2
  {
    var k := SurvivingIsPrefix(base, s.chunks);
    var es := EventsOf(s.chunks);
    assert k > 0 ==> es[..k][0] == es[0];
    assert k > 1 ==> es[..k][1..][0] == es[1];
  }

  // ----- the typed finish, as the log records it -----

  ghost predicate TypedOutputs(tools: Toolbox, es: seq<Event>) {
    forall i | 0 <= i < |es| && es[i].payload.Finish? && es[i].payload.output.Decoded? ::
      Accepts(OutputSchema(tools.configured), es[i].payload.output.value)
  }

  /** A call at hand has passed validation if it is running. */
  lemma {:induction false} RunningIsRunnable(rules: Rules, turn: nat, es: seq<Event>)
    requires Trace(rules, Start(turn), es).Some?
    ensures var ph := Trace(rules, Start(turn), es).value.phase;
            ph.Running? ==> rules.judge(ph.call) == Runnable
  {
  }

  /** Every typed output in the log is one the output schema of its run accepts. */
  lemma {:induction false} OutputsAreTyped(tools: Toolbox, turn: nat, es: seq<Event>)
    requires Trace(RulesOf(tools), Start(turn), es).Some?
    ensures TypedOutputs(tools, es)
  {
    if es == [] {
    } else {
      var shorter, p := es[..|es| - 1], es[|es| - 1].payload;
      OutputsAreTyped(tools, turn, shorter);
      RunningIsRunnable(RulesOf(tools), turn, shorter);
      var m := Trace(RulesOf(tools), Start(turn), shorter).value;
      if p.Finish? && p.output.Decoded? {
        OutputIsTyped(tools, m, p);
      }
      forall i | 0 <= i < |es| && es[i].payload.Finish? && es[i].payload.output.Decoded?
        ensures Accepts(OutputSchema(tools.configured), es[i].payload.output.value)
      {
        if i < |shorter| {
          assert es[i] == shorter[i];
        }
      }
    }
  }

  /** Over a life: whatever was passed to finish and recorded, the schema of that run accepts. */
  lemma LivesRecordTypedOutputs(ss: seq<Session>, n: nat)
    requires LifeOk(ss) && n < |ss|
    ensures TypedOutputs(ss[n].tools, EventsOf(ss[n].chunks))
  {
    assert SegmentOk(Flat(ss[..n]), ss[n]);
    OutputsAreTyped(ss[n].tools, TailOf(Readable(Flat(ss[..n]))).turn, EventsOf(ss[n].chunks));
  }

  lemma OutputIsTyped(tools: Toolbox, m: Mark, p: Payload)
    requires Next(RulesOf(tools), m, p).Some?
    requires m.phase.Running? ==> Judge(tools, m.phase.call) == Runnable
    requires p.Finish? && p.output.Decoded?
    ensures Accepts(OutputSchema(tools.configured), p.output.value)
  {
    assert m.phase.Running? && m.phase.call.name == "finish";
    FinishRunsOnAcceptedOutput(tools, m.phase.call);
  }
}
