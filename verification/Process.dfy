/** `main.go`: one process opens the log, runs an agent and is gone; a life is many of those. */
module Processes {
  import opened Wrappers
  import opened Events
  import opened Grammar
  import opened Tools
  import opened LogLife
  import opened Memory
  import opened Moments
  import opened AgentLoop

  /**
   What one process is started with and what befalls it: whether the log can be read back, and, if
   it is to crash, after how many of its moments.
   */
  datatype Plan = Plan(cfg: Config, tools: Toolbox, openable: bool, crash: Option<nat>)

  /** The file a process found, the records its run produced, and the moments of that run. */
  datatype Past = Past(base: seq<Chunk>, produced: seq<Event>, moments: seq<Moment>)

  /** The process got as far as its i-th moment. */
  predicate Reached(plan: Plan, i: nat) {
    plan.crash.Some? ==> i < plan.crash.value
  }

  /** What one process was to run on this file. */
  ghost function SettingFor(plan: Plan, past: Past): Setting {
    SettingOf(plan.cfg, plan.tools, past.base)
  }

  /** The records are those of a run of this plan, and none of its moments is missing or other than it should be. */
  ghost predicate Truthful(plan: Plan, past: Past) {
    && Trace(RulesOf(plan.tools), Start(SettingFor(plan, past).start.turn), past.produced).Some?
    && Complete(past.moments, past.produced)
    && forall i | 0 <= i < |past.moments| :: MomentOk(SettingFor(plan, past), past.moments[i])
  }

  /** The moments this process reached are in the durable part of the file. */
  ghost predicate Lasts(plan: Plan, past: Past, chunks: seq<Chunk>, synced: nat) {
    forall i | 0 <= i < |past.moments| && Reached(plan, i) ::
      past.moments[i].snap.chunks <= chunks && |past.moments[i].snap.chunks| <= synced
  }

  /** This is what is left of the run: records it produced, with its history, on a cut of what it found. */
  ghost predicate LeftBy(plan: Plan, past: Past, before: seq<Chunk>, s: Session) {
    && s.tools == plan.tools
    && Accounts(plan.tools.codec, past.produced, s.entries)
    && EventsOf(s.chunks) <= past.produced
    && CutOf(before, past.base)
  }

  lemma LastingGoesOn(plan: Plan, past: Past, chunks: seq<Chunk>, synced: nat, more: seq<Chunk>, higher: nat)
    requires Lasts(plan, past, chunks, synced)
    requires synced <= |chunks| && chunks[..synced] <= more && synced <= higher
    ensures Lasts(plan, past, more, higher)
  {
    forall i | 0 <= i < |past.moments| && Reached(plan, i) ensures past.moments[i].snap.chunks <= more {
      assert past.moments[i].snap.chunks <= chunks[..synced];
    }
  }

  lemma LeftByCut(plan: Plan, past: Past, before: seq<Chunk>, s: Session, cut: seq<Chunk>, l: Session)
    requires LeftBy(plan, past, before, s) && CutOf(cut, before)
    requires l.tools == s.tools && l.entries == s.entries && CutOf(l.chunks, s.chunks)
    ensures LeftBy(plan, past, cut, l)
  {
    CutOfCut(cut, before, past.base);
    CutEvents(l.chunks, s.chunks);
  }

  /** The moments a process reached outlive whatever comes later. */
  lemma ReachedMomentsOutlive(plan: Plan, past: Past, chunks: seq<Chunk>, synced: nat)
    requires Truthful(plan, past) && Lasts(plan, past, chunks, synced)
    ensures forall i | 0 <= i < |past.moments| && Reached(plan, i) :: Outlives(past.moments[i], chunks)
  {
    hide MomentOk, Outlives, SettingOf, Complete, Trace;
    forall i | 0 <= i < |past.moments| && Reached(plan, i) ensures Outlives(past.moments[i], chunks) {
      var x := past.moments[i];
      SyncedIsAll(SettingFor(plan, past), x);
      MomentOutlives(SettingFor(plan, past), x, chunks);
    }
  }

  /**
   The same, told from the records: whenever a record follows an intent, the tool was started at some
   moment, and if the process got that far, the intent is in the log for good.
   */
  lemma StartedToolsAreOnRecord(plan: Plan, past: Past, chunks: seq<Chunk>, synced: nat, k: nat) returns (i: nat)
    requires Truthful(plan, past) && Lasts(plan, past, chunks, synced)
    requires k + 1 < |past.produced| && IsIntent(past.produced[k].payload)
    ensures i < |past.moments| && past.moments[i].Invoking? && past.moments[i].snap.produced == past.produced[..k + 1]
    ensures Reached(plan, i) ==> past.produced[k] in Readable(chunks)
  {
    hide MomentOk, SettingOf, Trace, Lasts, Readable;
    assert SawCall(past.moments, past.produced[..k + 1]) by {
      assert 0 <= k + 1 < |past.produced| && IsIntent(past.produced[k + 1 - 1].payload);
      assert FollowsHead(past.produced[k + 1].payload) || !FollowsHead(past.produced[k + 1].payload);
    }
    var x :| x in past.moments && x.Invoking? && x.snap.produced == past.produced[..k + 1];
    i :| 0 <= i < |past.moments| && past.moments[i] == x;
    ReachedMomentsOutlive(plan, past, chunks, synced);
  }

  lemma SyncedIsAll(g: Setting, x: Moment)
    requires MomentOk(g, x)
    ensures x.snap.synced == |x.snap.chunks| && x.snap.chunks[..x.snap.synced] == x.snap.chunks
  {
  }

  /** Moments are safe from a crash that keeps what was durable at each of them. */
  lemma CrashLeavesMoments(plan: Plan, past: Past, chunks: seq<Chunk>, synced: nat,
                           floor: nat, left: seq<Chunk>, kept: nat)
    requires MomentsOk(SettingFor(plan, past), past.moments, chunks, synced)
    requires floor <= |chunks| && chunks[..floor] <= left && floor <= kept
    requires forall i | 0 <= i < |past.moments| && Reached(plan, i) :: past.moments[i].snap.synced <= floor
    ensures Lasts(plan, past, left, kept)
  {
    hide MomentOk, SettingOf;
    forall i | 0 <= i < |past.moments| && Reached(plan, i)
      ensures past.moments[i].snap.chunks <= left && |past.moments[i].snap.chunks| <= kept
    {
      SyncedIsAll(SettingFor(plan, past), past.moments[i]);
      assert past.moments[i].snap.chunks <= chunks[..floor];
    }
  }

  /** What a crash may not undo: what was durable at the start, and at the last moment it comes after. */
  method FloorOf(plan: Plan, atStart: nat, floors: seq<nat>) returns (floor: nat)
    requires forall i, j | 0 <= i < j < |floors| :: floors[i] <= floors[j]
    ensures atStart <= floor && (floor == atStart || floor in floors)
    ensures forall i | 0 <= i < |floors| && Reached(plan, i) :: floors[i] <= floor
  {
    var n := if plan.crash.Some? && plan.crash.value < |floors| then plan.crash.value else |floors|;
    return if 0 < n && atStart < floors[n - 1] then floors[n - 1] else atStart;
  }

  /** What a finished run leaves, before any crash. */
  lemma RunLeaves(plan: Plan, past: Past, ss: seq<Session>, s: Session, chunks: seq<Chunk>, synced: nat)
    requires LifeOk(ss) && Flat(ss) == past.base && SegmentOk(past.base, s) && s.tools == plan.tools
    requires MomentsOk(SettingFor(plan, past), past.moments, chunks, synced) && Complete(past.moments, past.produced)
    requires Trace(RulesOf(plan.tools), Start(SettingFor(plan, past).start.turn), past.produced).Some?
    requires Accounts(plan.tools.codec, past.produced, s.entries) && EventsOf(s.chunks) <= past.produced
    ensures Truthful(plan, past)
    ensures LifeOk(ss + [s]) && Flat(ss + [s]) == Flat(ss) + s.chunks
    ensures LeftBy(plan, past, Flat(ss), s)
    ensures Remains((ss + [s])[..|ss|], ss) && Shrinks((ss + [s])[..|ss|], ss)
  {
    hide MomentOk, SettingOf, Complete, Trace, LifeOk, SegmentOk, Flat, Accounts, Remains, Shrinks;
    LifeGrows(ss, s);
    AllRemains(ss);
    assert (ss + [s])[..|ss|] == ss;
  }

  /** The same after a crash. */
  lemma CrashLeaves(plan: Plan, past: Past, ss: seq<Session>, s: Session, left: seq<Session>)
    requires LeftBy(plan, past, Flat(ss), s)
    requires Remains(left, ss + [s]) && Shrinks(left, ss + [s])
    ensures |left| == |ss| + 1 && LeftBy(plan, past, Flat(left[..|ss|]), left[|ss|])
    ensures Remains(left[..|ss|], ss) && Shrinks(left[..|ss|], ss)
  {
    hide Remains, Shrinks, CutOf, Flat, LeftBy;
    RemainsBefore(left, ss, s);
    ShrinksBefore(left, ss, s);
    LeftByCut(plan, past, Flat(ss), s, Flat(left[..|ss|]), left[|ss|]);
  }

  /**
   One process: open the log and run.  If it crashes, it does so after some of its moments, and then
   the file keeps at least what was durable at the last of them; of the rest anything may be lost.
   */
  method Process(file: LogFile, plan: Plan, ghost ss: seq<Session>)
    returns (ghost left: seq<Session>, ghost past: Past)
    requires file.Valid()
    requires LifeOk(ss) && Flat(ss) == file.chunks
    requires plan.cfg.resume || Readable(file.chunks) == []
    modifies file
    ensures file.Valid()
    ensures LifeOk(left) && Flat(left) == file.chunks
    ensures |left| == |ss| + 1 && Remains(left[..|ss|], ss) && Shrinks(left[..|ss|], ss)
    ensures past.base == old(file.chunks) && Truthful(plan, past)
    ensures LeftBy(plan, past, Flat(left[..|ss|]), left[|ss|])
    ensures old(file.synced) <= file.synced && old(file.chunks)[..old(file.synced)] <= file.chunks
    ensures Lasts(plan, past, file.chunks, file.synced)
  {
    hide TailOf, Readable, Replay, LastStart, MomentsOk, Lasts, Truthful, LeftBy, MomentOk, LifeOk, Flat, SegmentFrom,
         Tracks, CountsUp, Complete, Accounts, Remains, Shrinks, Trace, WithinLimits;
    var atStart := file.synced;
    var log := new EventLog(file, plan.tools.codec, plan.openable);
    var agent := new Agent(plan.cfg, plan.tools, log);
    var _, _ := agent.Run();
    ghost var all, synced := file.chunks, file.synced;
    ghost var s := Session(plan.tools, log.own, agent.entries);
    past := Past(log.base, log.produced, agent.moments);
    WrittenIsProduced(log.own, log.produced, log.broken);
    StartsFromTail(plan.cfg, plan.tools, log.base);
    RunLeaves(plan, past, ss, s, all, synced);
    left := ss + [s];
    FloorsRise(agent.setting, agent.moments, all, synced);
    var floor := FloorOf(plan, atStart, agent.floors);
    if plan.crash.Some? {
      var keep :| floor <= keep <= |file.chunks|;
      var rest: Option<Extent> := *;
      if !rest.Some? || (keep < |file.chunks| && AtMost(rest.value, file.chunks[keep].extent)) {
        file.Crash(floor, keep, rest);
        left := LifeSurvivesCrash(left, file.chunks);
        CrashLeaves(plan, past, ss, s, left);
      }
    }
    CrashLeavesMoments(plan, past, all, synced, floor, file.chunks, file.synced);
  }

  lemma WrittenIsProduced(own: seq<Chunk>, produced: seq<Event>, broken: bool)
    requires Tracks(own, produced, broken)
    ensures EventsOf(own) <= produced
  {
  }

  /** A run that resumes, or finds nothing to read, counts on from the log. */
  lemma StartsFromTail(cfg: Config, tools: Toolbox, base: seq<Chunk>)
    requires cfg.resume || Readable(base) == []
    ensures SettingOf(cfg, tools, base).start == TailOf(Readable(base))
  {
  }

  lemma FloorsRise(g: Setting, xs: seq<Moment>, chunks: seq<Chunk>, synced: nat)
    requires MomentsOk(g, xs, chunks, synced)
    ensures forall i, j | 0 <= i < j < |xs| :: xs[i].snap.synced <= xs[j].snap.synced
    ensures forall i | 0 <= i < |xs| :: xs[i].snap.synced <= synced
  {
  }

  /** What is known of the first processes of a life. */
  ghost predicate Chronicle(plans: seq<Plan>, pasts: seq<Past>, ss: seq<Session>, chunks: seq<Chunk>, synced: nat) {
    && |ss| == |pasts| <= |plans|
    && forall n | 0 <= n < |pasts| ::
         && Truthful(plans[n], pasts[n])
         && LeftBy(plans[n], pasts[n], Flat(ss[..n]), ss[n])
         && Lasts(plans[n], pasts[n], chunks, synced)
  }

  lemma ChronicleGrows(plans: seq<Plan>, pasts: seq<Past>, ss: seq<Session>, chunks: seq<Chunk>, synced: nat,
                       past: Past, left: seq<Session>, more: seq<Chunk>, higher: nat)
    requires Chronicle(plans, pasts, ss, chunks, synced) && |pasts| < |plans|
    requires |left| == |ss| + 1 && Remains(left[..|ss|], ss) && Shrinks(left[..|ss|], ss)
    requires Truthful(plans[|pasts|], past) && LeftBy(plans[|pasts|], past, Flat(left[..|ss|]), left[|ss|])
    requires Lasts(plans[|pasts|], past, more, higher)
    requires synced <= |chunks| && chunks[..synced] <= more && synced <= higher
    ensures Chronicle(plans, pasts + [past], left, more, higher)
  {
    hide Truthful, LeftBy, Lasts, CutOf, Flat;
    var all, before := pasts + [past], left[..|ss|];
    forall n | 0 <= n < |all|
      ensures Truthful(plans[n], all[n])
      ensures LeftBy(plans[n], all[n], Flat(left[..n]), left[n])
      ensures Lasts(plans[n], all[n], more, higher)
    {
      if n < |pasts| {
        assert all[n] == pasts[n] && before[n] == left[n] && before[..n] == left[..n];
        LastingGoesOn(plans[n], pasts[n], chunks, synced, more, higher);
        LeftByCut(plans[n], pasts[n], Flat(ss[..n]), ss[n], Flat(before[..n]), before[n]);
      }
    }
  }

  /**
   A whole life of a log: any number of processes over one file, all but the first resuming, with
   every reply, tool result, I/O error and crash left open.  Each process leaves its own session.
   What can be read back at the end is well numbered, and no process costs it more than two records.
   And whatever the crashes, of every moment that any process reached the records are still there:
   the intent of every tool that was started can be read back, and a resume loads every message that
   could have been loaded then.
   */
  method Live(file: LogFile, plans: seq<Plan>) returns (ghost ss: seq<Session>, ghost pasts: seq<Past>)
    requires file.Valid() && file.chunks == []
    requires forall i | 0 < i < |plans| :: plans[i].cfg.resume
    modifies file
    ensures |ss| == |pasts| == |plans|
    ensures LifeOk(ss) && Flat(ss) == file.chunks
    ensures WellNumbered(Readable(file.chunks))
    ensures |file.chunks| <= |Readable(file.chunks)| + 2 * |plans|
    ensures forall n | 0 <= n < |plans| ::
              Truthful(plans[n], pasts[n]) && LeftBy(plans[n], pasts[n], Flat(ss[..n]), ss[n])
    ensures forall n, i | 0 <= n < |plans| && 0 <= i < |pasts[n].moments| && Reached(plans[n], i) ::
              Outlives(pasts[n].moments[i], file.chunks)
  {
    hide LifeOk, Flat, WellNumbered, Lasts, Truthful, LeftBy, Outlives, Remains, Shrinks, Readable;
    ss, pasts := NoLife(), [];
    EmptyFileIsSilent();
    for k := 0 to |plans|
      invariant file.Valid()
      invariant LifeOk(ss) && Flat(ss) == file.chunks
      invariant k == 0 ==> file.chunks == []
      invariant |pasts| == k && Chronicle(plans, pasts, ss, file.chunks, file.synced)
    {
      ghost var chunks, synced, before := file.chunks, file.synced, ss;
      ghost var past: Past;
      ss, past := Process(file, plans[k], before);
      ChronicleGrows(plans, pasts, before, chunks, synced, past, ss, file.chunks, file.synced);
      pasts := pasts + [past];
    }
    LivesAreWellNumbered(ss);
    LivesLoseLittle(ss);
    forall n | 0 <= n < |plans|
      ensures forall i | 0 <= i < |pasts[n].moments| && Reached(plans[n], i) ::
                Outlives(pasts[n].moments[i], file.chunks)
    {
      ReachedMomentsOutlive(plans[n], pasts[n], file.chunks, file.synced);
    }
  }

  ghost function NoLife(): (ss: seq<Session>)
    ensures LifeOk(ss) && Flat(ss) == []
  {
    []
  }

  lemma EmptyFileIsSilent()
    ensures Readable([]) == []
  {
  }

  // ----- where the guarantees end -----

  /** A log cut just before a newline: the reply is read back on resume, and gone once run_start is glued to it. */
  lemma UnterminatedReplyIsForgotten(reply: Event, start: Event)
    requires reply.payload.Llm?
    ensures var base := [Chunk(reply, Unterminated)];
            && Replay(NOTHING, Readable(base)).messages == [reply.payload.message]
            && Replay(NOTHING, Readable(base + [Chunk(start, Whole)])).messages == []
            && ForgetsTail(base)
  {
    var u, c := Chunk(reply, Unterminated), Chunk(start, Whole);
    assert [] + [u] == [u] && [u][..0] == [] && [reply][..0] == [];
    SettledStep([], u);
    ReadableIsSettledPlus([u]);
    assert Readable([u]) == [reply];
    SettledStep([u], c);
    ReadableIsSettledPlus([u] + [c]);
  }
}
