/**
 The conversation in memory against the one the log rebuilds: `agent.go` keeps the first,
 `LoadTranscript` computes the second, and this says exactly where they differ.
 */
module Memory {
  import opened Messages
  import opened Events
  import opened Grammar

  // ----- the history a run adds -----

  /** What a record says of a requested call. */
  datatype Request = Request(id: string, name: string, arguments: string)

  function RequestOf(tc: ToolCall): Request {
    Request(tc.id, tc.name, tc.arguments)
  }

  function Requests(calls: seq<ToolCall>): seq<Request> {
    seq(|calls|, i requires 0 <= i < |calls| => RequestOf(calls[i]))
  }

  /** A message a run adds to its history: a reply of the model, or the reply to one of its calls. */
  datatype Entry = Said(message: Message) | Replied(call: Request, text: string)

  function MessageOf(x: Entry): Message {
    match x
    case Said(m) => m
    case Replied(call, text) => ToolMessage(call.id, call.name, text)
  }

  /** The history as memory holds it. */
  function Spoken(h: seq<Entry>): seq<Message> {
    if h == [] then [] else Spoken(h[..|h| - 1]) + [MessageOf(h[|h| - 1])]
  }

  /** The calls of the last reply of the model that have no reply of their own yet. */
  function Waiting(h: seq<Entry>): seq<Request> {
    if h == [] then []
    else match h[|h| - 1]
      case Said(m) => Requests(m.toolCalls)
      case Replied(_, _) => var before := Waiting(h[..|h| - 1]); if before == [] then [] else before[1..]
  }

  /** The model speaks when no call waits; a reply goes to the call that has waited longest. */
  predicate Fits(h: seq<Entry>, x: Entry) {
    match x
    case Said(_) => Waiting(h) == []
    case Replied(call, _) => Waiting(h) != [] && Waiting(h)[0] == call
  }

  predicate Orderly(h: seq<Entry>) {
    h == [] || (Orderly(h[..|h| - 1]) && Fits(h[..|h| - 1], h[|h| - 1]))
  }

  lemma WaitingStep(h: seq<Entry>, x: Entry)
    ensures x.Said? ==> Waiting(h + [x]) == Requests(x.message.toolCalls)
    ensures x.Replied? ==> Waiting(h + [x]) == if Waiting(h) == [] then [] else Waiting(h)[1..]
    ensures Spoken(h + [x]) == Spoken(h) + [MessageOf(x)]
    ensures Orderly(h) && Fits(h, x) ==> Orderly(h + [x])
  {
    assert (h + [x])[..|h + [x]| - 1] == h;
  }

  /** The calls that have their reply, and the calls the model asked for. */
  function RepliedTo(h: seq<Entry>): seq<Request> {
    if h == [] then [] else RepliedTo(h[..|h| - 1]) + match h[|h| - 1] case Said(_) => [] case Replied(call, _) => [call]
  }

  function AskedIn(h: seq<Entry>): seq<Request> {
    if h == [] then []
    else AskedIn(h[..|h| - 1]) + match h[|h| - 1] case Said(m) => Requests(m.toolCalls) case Replied(_, _) => []
  }

  lemma AnswerStep(h: seq<Entry>, x: Entry)
    requires Fits(h, x)
    ensures RepliedTo(h) + Waiting(h) == AskedIn(h) ==> RepliedTo(h + [x]) + Waiting(h + [x]) == AskedIn(h + [x])
  {
    hide Requests;
    assert (h + [x])[..|h|] == h;
    if x.Replied? {
      assert Waiting(h) == [x.call] + Waiting(h + [x]);
    }
  }

  /** Calls are answered one by one in the order in which they were asked for. */
  lemma {:induction false} AnsweredInOrder(h: seq<Entry>)
    requires Orderly(h)
    ensures RepliedTo(h) + Waiting(h) == AskedIn(h)
  {
    if h == [] {
    } else {
      var shorter, x := h[..|h| - 1], h[|h| - 1];
      assert Orderly(shorter) && Fits(shorter, x);
      AnsweredInOrder(shorter);
      AnswerStep(shorter, x);
      hide RepliedTo, Waiting, AskedIn, Orderly, Fits;
      assert h == shorter + [x];
    }
  }

  // ----- the same history in the records -----

  /** What a record adds to the history. */
  function Adds(p: Payload): seq<Entry> {
    match p
    case Llm(_, m, _) => [Said(m)]
    case Tool(id, _, name, args, status, _, _, _) =>
      if Terminal(status) then [Replied(Request(id, name, args), ReplyText(p))] else []
    case _ => []
  }

  function Added(es: seq<Event>): seq<Entry> {
    if es == [] then [] else Added(es[..|es| - 1]) + Adds(es[|es| - 1].payload)
  }

  /** The calls asked for in the replies recorded. */
  function Asked(es: seq<Event>): seq<Request> {
    if es == [] then []
    else
      var p := es[|es| - 1].payload;
      Asked(es[..|es| - 1]) + if p.Llm? then Requests(p.message.toolCalls) else []
  }

  /** A message whose record can be encoded. */
  predicate Lasting(codec: Codec, x: Entry) {
    x.Replied? ==> Writable(codec, x.call.arguments)
  }

  function Kept(codec: Codec, h: seq<Entry>): seq<Entry> {
    if h == [] then []
    else Kept(codec, h[..|h| - 1]) + if Lasting(codec, h[|h| - 1]) then [h[|h| - 1]] else []
  }

  /**
   The records account for a history: it is one reply of the model for each llm record and one reply
   for each call dealt with, in turn, and all of them that can be encoded are in the records.
   */
  ghost predicate Accounts(codec: Codec, es: seq<Event>, h: seq<Entry>) {
    Orderly(h) && Kept(codec, h) == Added(es)
  }

  lemma AccountsStep(codec: Codec, es: seq<Event>, h: seq<Entry>, e: Event)
    requires Accounts(codec, es, h)
    requires forall x | x in Adds(e.payload) :: Fits(h, x)
    ensures Marshals(codec, e.payload) ==> Accounts(codec, es + [e], h + Adds(e.payload))
    ensures !Marshals(codec, e.payload) ==> Accounts(codec, es, h + Adds(e.payload))
  {
    var added := Adds(e.payload);
    AddsAtMostOne(codec, e.payload);
    hide Adds, Added, Kept, Orderly, Fits, Lasting, Marshals;
    AddedGrows(es, e);
    KeptGrows(codec, h, added);
    if added == [] {
      assert h + added == h;
    } else {
      assert added == [added[0]] && added[0] in added;
      WaitingStep(h, added[0]);
    }
  }

  /** A record adds one entry or none, and what it adds lasts iff the record can be encoded. */
  lemma AddsAtMostOne(codec: Codec, p: Payload)
    ensures |Adds(p)| <= 1
    ensures Adds(p) != [] ==> (Lasting(codec, Adds(p)[0]) <==> Marshals(codec, p))
  {
  }

  lemma AddedGrows(es: seq<Event>, e: Event)
    ensures Added(es + [e]) == Added(es) + Adds(e.payload)
  {
    assert (es + [e])[..|es + [e]| - 1] == es;
  }

  lemma {:induction false} AddedPrefix(es: seq<Event>, k: nat)
    requires k <= |es|
    ensures Added(es[..k]) <= Added(es)
    decreases |es|
  {
    if k == |es| {
      assert es[..k] == es;
    } else {
      var shorter := es[..|es| - 1];
      AddedPrefix(shorter, k);
      assert shorter[..k] == es[..k];
    }
  }

  lemma KeptGrows(codec: Codec, h: seq<Entry>, added: seq<Entry>)
    requires |added| <= 1
    ensures Kept(codec, h + added) == Kept(codec, h) + if added != [] && Lasting(codec, added[0]) then added else []
  {
    if added == [] {
      assert h + added == h;
    } else {
      assert (h + added)[..|h + added| - 1] == h;
    }
  }

  lemma AskedInStep(h: seq<Entry>, added: seq<Entry>)
    requires |added| <= 1
    ensures AskedIn(h + added) == AskedIn(h) + AskedIn(added)
  {
    if added == [] {
      assert h + added == h;
    } else {
      assert (h + added)[..|h + added| - 1] == h;
      AskedInOne(added[0]);
      assert added == [added[0]];
    }
  }

  lemma AskedInOne(x: Entry)
    ensures AskedIn([x]) == if x.Said? then Requests(x.message.toolCalls) else []
  {
    assert [x][..0] == [];
  }

  lemma {:induction false} AskedInKept(codec: Codec, h: seq<Entry>)
    ensures AskedIn(Kept(codec, h)) == AskedIn(h)
  {
    if h == [] {
    } else {
      var shorter, x := h[..|h| - 1], h[|h| - 1];
      AskedInKept(codec, shorter);
      AskedInStep(Kept(codec, shorter), if Lasting(codec, x) then [x] else []);
      AskedInOne(x);
    }
  }

  lemma {:induction false} AskedInAdded(es: seq<Event>)
    ensures AskedIn(Added(es)) == Asked(es)
  {
    if es == [] {
    } else {
      var shorter := es[..|es| - 1];
      AskedInAdded(shorter);
      var added := Adds(es[|es| - 1].payload);
      AskedInStep(Added(shorter), added);
      if added != [] {
        assert added == [added[0]];
        AskedInOne(added[0]);
      }
    }
  }

  /** So the calls with a reply in memory are those the records ask for, up to the ones still waiting. */
  lemma AnsweredAreAsked(codec: Codec, es: seq<Event>, h: seq<Entry>)
    requires Accounts(codec, es, h)
    ensures RepliedTo(h) + Waiting(h) == Asked(es)
  {
    AnsweredInOrder(h);
    AskedInKept(codec, h);
    AskedInAdded(es);
  }

  // ----- what the log gives back -----

  function Recall(codec: Codec, c: Convo, x: Entry): Convo {
    match x
    case Said(m) => c.(messages := c.messages + [m])
    case Replied(call, _) =>
      if Lasting(codec, x) && call.id !in c.seen then Convo(c.messages + [MessageOf(x)], c.seen + {call.id}) else c
  }

  /** The history as the log gives it back. */
  function Recalled(codec: Codec, c: Convo, h: seq<Entry>): Convo {
    if h == [] then c else Recall(codec, Recalled(codec, c, h[..|h| - 1]), h[|h| - 1])
  }

  lemma RecalledStep(codec: Codec, c: Convo, h: seq<Entry>, added: seq<Entry>)
    requires |added| <= 1
    ensures Recalled(codec, c, h + added) ==
            if added == [] then Recalled(codec, c, h) else Recall(codec, Recalled(codec, c, h), added[0])
  {
    if added == [] {
      assert h + added == h;
    } else {
      assert (h + added)[..|h + added| - 1] == h;
    }
  }

  lemma {:induction false} RecalledKept(codec: Codec, c: Convo, h: seq<Entry>)
    ensures Recalled(codec, c, Kept(codec, h)) == Recalled(codec, c, h)
  {
    if h == [] {
    } else {
      var shorter, x := h[..|h| - 1], h[|h| - 1];
      RecalledKept(codec, c, shorter);
      RecalledStep(codec, c, Kept(codec, shorter), if Lasting(codec, x) then [x] else []);
    }
  }

  lemma {:induction false} KeptLasts(codec: Codec, h: seq<Entry>)
    ensures forall x | x in Kept(codec, h) :: Lasting(codec, x)
  {
    if h == [] {
    } else {
      KeptLasts(codec, h[..|h| - 1]);
    }
  }

  lemma {:induction false} ReplayIsRecalled(codec: Codec, c: Convo, es: seq<Event>)
    requires forall x | x in Added(es) :: Lasting(codec, x)
    ensures Replay(c, es) == Recalled(codec, c, Added(es))
  {
    if es == [] {
    } else {
      var shorter, p := es[..|es| - 1], es[|es| - 1].payload;
      assert forall x | x in Added(shorter) :: x in Added(es);
      ReplayIsRecalled(codec, c, shorter);
      var added := Adds(p);
      RecalledStep(codec, c, Added(shorter), added);
      if added != [] {
        assert added[0] in Added(es);
      }
    }
  }

  /** Replaying the records gives back of a history what can be encoded and is not a second reply. */
  lemma ReplayAccounts(codec: Codec, c: Convo, es: seq<Event>, h: seq<Entry>)
    requires Accounts(codec, es, h)
    ensures Replay(c, es) == Recalled(codec, c, h)
  {
    KeptLasts(codec, h);
    ReplayIsRecalled(codec, c, es);
    RecalledKept(codec, c, h);
  }

  /** The i-th message is lost to the log: its record cannot be encoded, or its call id had a reply already. */
  ghost predicate Dropped(codec: Codec, c: Convo, h: seq<Entry>, i: nat)
    requires i < |h|
  {
    && h[i].Replied?
    && (|| !Writable(codec, h[i].call.arguments)
        || h[i].call.id in c.seen
        || exists j | 0 <= j < i ::
             h[j].Replied? && Writable(codec, h[j].call.arguments) && h[j].call.id == h[i].call.id)
  }

  /** The messages that are not lost, in order. */
  ghost function Survivors(codec: Codec, c: Convo, h: seq<Entry>, n: nat): seq<Message>
    requires n <= |h|
  {
    if n == 0 then []
    else Survivors(codec, c, h, n - 1) + if Dropped(codec, c, h, n - 1) then [] else [MessageOf(h[n - 1])]
  }

  lemma {:induction false} RecalledPrefix(codec: Codec, c: Convo, h: seq<Entry>, n: nat)
    requires n <= |h|
    ensures Recalled(codec, c, h[..n]).messages == c.messages + Survivors(codec, c, h, n)
    ensures forall id :: id in Recalled(codec, c, h[..n]).seen <==>
              || id in c.seen
              || exists j | 0 <= j < n :: h[j].Replied? && Writable(codec, h[j].call.arguments) && h[j].call.id == id
    decreases n
  {
    if n == 0 {
    } else {
      RecalledPrefix(codec, c, h, n - 1);
      assert h[..n][..n - 1] == h[..n - 1];
      var before := Recalled(codec, c, h[..n - 1]);
      assert Recalled(codec, c, h[..n]) == Recall(codec, before, h[n - 1]);
      if h[n - 1].Replied? {
        assert Dropped(codec, c, h, n - 1) <==>
               !Writable(codec, h[n - 1].call.arguments) || h[n - 1].call.id in before.seen;
      }
    }
  }

  /** The log gives back exactly the messages that are not lost: a subsequence of the history. */
  lemma RecallsSurvivors(codec: Codec, c: Convo, h: seq<Entry>)
    ensures Recalled(codec, c, h).messages == c.messages + Survivors(codec, c, h, |h|)
  {
    RecalledPrefix(codec, c, h, |h|);
    assert h[..|h|] == h;
  }

  ghost predicate NoneDropped(codec: Codec, c: Convo, h: seq<Entry>) {
    forall i | 0 <= i < |h| :: !Dropped(codec, c, h, i)
  }

  lemma {:induction false} SurvivorsAreFewer(codec: Codec, c: Convo, h: seq<Entry>, n: nat)
    requires n <= |h|
    ensures |Survivors(codec, c, h, n)| <= n == |Spoken(h[..n])|
    ensures |Survivors(codec, c, h, n)| == n <==> forall i | 0 <= i < n :: !Dropped(codec, c, h, i)
    ensures |Survivors(codec, c, h, n)| == n ==> Survivors(codec, c, h, n) == Spoken(h[..n])
    decreases n
  {
    if n == 0 {
    } else {
      SurvivorsAreFewer(codec, c, h, n - 1);
      assert h[..n][..n - 1] == h[..n - 1];
    }
  }

  /** So log and memory agree on what a run added iff no message was lost. */
  lemma RecalledIsSpokenIff(codec: Codec, c: Convo, h: seq<Entry>)
    ensures |Recalled(codec, c, h).messages| <= |c.messages| + |Spoken(h)|
    ensures |Recalled(codec, c, h).messages| == |c.messages| + |Spoken(h)| <==> NoneDropped(codec, c, h)
    ensures NoneDropped(codec, c, h) ==> Recalled(codec, c, h).messages == c.messages + Spoken(h)
  {
    RecallsSurvivors(codec, c, h);
    SurvivorsAreFewer(codec, c, h, |h|);
    assert h[..|h|] == h;
  }

  // ----- replies that ask for calls -----

  /** How many of these messages ask for tool calls. */
  function Askers(ms: seq<Message>): nat {
    if ms == [] then 0 else Askers(ms[..|ms| - 1]) + if ms[|ms| - 1].toolCalls != [] then 1 else 0
  }

  lemma {:induction false} AskersAdd(a: seq<Message>, b: seq<Message>)
    ensures Askers(a + b) == Askers(a) + Askers(b)
  {
    if b == [] {
      assert a + b == a;
    } else {
      var shorter := b[..|b| - 1];
      assert (a + b)[..|a + b| - 1] == a + shorter;
      AskersAdd(a, shorter);
    }
  }

  lemma {:induction false} AskersAt(ms: seq<Message>, i: nat)
    requires i < |ms| && ms[i].toolCalls != []
    ensures Askers(ms) > 0
  {
    if i == |ms| - 1 {
    } else {
      AskersAt(ms[..|ms| - 1], i);
    }
  }

  /** A message without its record is a reply to a call, so all that ask for calls survive. */
  lemma {:induction false} AskersSurvive(codec: Codec, c: Convo, h: seq<Entry>, n: nat)
    requires n <= |h|
    ensures Askers(Survivors(codec, c, h, n)) == Askers(Spoken(h[..n]))
    decreases n
  {
    hide Dropped, Askers, Spoken, Survivors, MessageOf;
    if n == 0 {
      NoAskers(codec, c, h);
    } else {
      AskersSurvive(codec, c, h, n - 1);
      var shorter, x := h[..n - 1], h[n - 1];
      assert h[..n] == shorter + [x];
      SpokenStep(shorter, x);
      SurvivorsStep(codec, c, h, n - 1);
      AskersAdd(Spoken(shorter), [MessageOf(x)]);
      AskersAdd(Survivors(codec, c, h, n - 1), [MessageOf(x)]);
      if Dropped(codec, c, h, n - 1) {
        DroppedAsksNothing(codec, c, h, n - 1);
      }
    }
  }

  lemma NoAskers(codec: Codec, c: Convo, h: seq<Entry>)
    ensures Askers(Survivors(codec, c, h, 0)) == 0 == Askers(Spoken(h[..0]))
  {
  }

  lemma SpokenStep(h: seq<Entry>, x: Entry)
    ensures Spoken(h + [x]) == Spoken(h) + [MessageOf(x)]
  {
    WaitingStep(h, x);
  }

  lemma SurvivorsStep(codec: Codec, c: Convo, h: seq<Entry>, n: nat)
    requires n < |h|
    ensures Dropped(codec, c, h, n) ==> Survivors(codec, c, h, n + 1) == Survivors(codec, c, h, n)
    ensures !Dropped(codec, c, h, n) ==>
              Survivors(codec, c, h, n + 1) == Survivors(codec, c, h, n) + [MessageOf(h[n])]
  {
  }

  lemma DroppedAsksNothing(codec: Codec, c: Convo, h: seq<Entry>, n: nat)
    requires n < |h| && Dropped(codec, c, h, n)
    ensures Askers([MessageOf(h[n])]) == 0
  {
    assert [MessageOf(h[n])][..0] == [];
  }

  /** Every reply of the model in this history asks for calls. */
  ghost predicate AllAsk(h: seq<Entry>) {
    forall x | x in h && x.Said? :: x.message.toolCalls != []
  }

  lemma {:induction false} SaidIsKept(codec: Codec, h: seq<Entry>, x: Entry)
    requires x in h && x.Said?
    ensures x in Kept(codec, h)
  {
    if h[|h| - 1] == x {
    } else {
      SaidIsKept(codec, h[..|h| - 1], x);
    }
  }

  lemma {:induction false} SaidIsRecorded(es: seq<Event>, x: Entry)
    requires x in Added(es) && x.Said?
    ensures exists i | 0 <= i < |es| :: es[i].payload.Llm? && es[i].payload.message == x.message
  {
    if x in Adds(es[|es| - 1].payload) {
      assert es[|es| - 1].payload.Llm?;
    } else {
      var shorter := es[..|es| - 1];
      SaidIsRecorded(shorter, x);
      var i :| 0 <= i < |shorter| && shorter[i].payload.Llm? && shorter[i].payload.message == x.message;
      assert es[i] == shorter[i];
    }
  }

  /** While a run goes on, every reply it recorded asks for calls, since one that does not ends it. */
  lemma {:induction false} RecordedRepliesAsk(rules: Rules, turn: nat, es: seq<Event>)
    requires Trace(rules, Start(turn), es).Some?
    requires var ph := Trace(rules, Start(turn), es).value.phase; !ph.Answering? && !Over(ph)
    ensures forall i | 0 <= i < |es| && es[i].payload.Llm? :: es[i].payload.message.toolCalls != []
  {
    if es == [] {
    } else {
      var shorter, p := es[..|es| - 1], es[|es| - 1].payload;
      var before := Trace(rules, Start(turn), shorter).value;
      StepGoesOn(rules, before, p);
      RecordedRepliesAsk(rules, turn, shorter);
      hide Next, Trace;
      forall i | 0 <= i < |es| && es[i].payload.Llm? ensures es[i].payload.message.toolCalls != [] {
        if i < |shorter| {
          assert es[i] == shorter[i];
        }
      }
    }
  }

  lemma StepGoesOn(rules: Rules, m: Mark, p: Payload)
    requires Next(rules, m, p).Some?
    requires var ph := Next(rules, m, p).value.phase; !ph.Answering? && !Over(ph)
    ensures !m.phase.Answering? && !Over(m.phase)
    ensures p.Llm? ==> p.message.toolCalls != []
  {
  }

  lemma RunningHistoriesAsk(rules: Rules, turn: nat, es: seq<Event>, h: seq<Entry>)
    requires Trace(rules, Start(turn), es).Some? && Accounts(rules.codec, es, h)
    requires var ph := Trace(rules, Start(turn), es).value.phase; !ph.Answering? && !Over(ph)
    ensures AllAsk(h)
  {
    RecordedRepliesAsk(rules, turn, es);
    forall x | x in h && x.Said? ensures x.message.toolCalls != [] {
      SaidIsKept(rules.codec, h, x);
      SaidIsRecorded(es, x);
    }
  }

  /** A history that has a message begins with a reply of the model. */
  lemma {:induction false} OrderlyBegins(h: seq<Entry>)
    requires Orderly(h) && h != []
    ensures h[0].Said? && Spoken(h) != [] && Spoken(h)[0] == h[0].message
  {
    if |h| == 1 {
      assert h[..0] == [];
    } else {
      OrderlyBegins(h[..|h| - 1]);
    }
  }

  /**
   Messages in front of such a history are never made up for by messages lost from it: what survives
   still has all replies that ask for calls, so those in front ask for none, yet the history begins
   with one that does.
   */
  lemma NothingInFront(codec: Codec, c: Convo, h: seq<Entry>)
    requires Orderly(h) && AllAsk(h)
    requires c.messages + Survivors(codec, c, h, |h|) == Spoken(h)
    ensures c.messages == []
  {
    var kept, all := Survivors(codec, c, h, |h|), Spoken(h);
    AskersSurvive(codec, c, h, |h|);
    assert h[..|h|] == h;
    AskersAdd(c.messages, kept);
    if c.messages != [] && h != [] {
      OrderlyBegins(h);
      assert h[0] in h;
      assert c.messages[0] == (c.messages + kept)[0] == all[0];
      AskersAt(c.messages, 0);
    }
  }

  // ----- when nothing is lost -----

  /** Every call's arguments are JSON or empty, and no call id is used twice or has a reply already. */
  ghost predicate Unambiguous(codec: Codec, seen: set<string>, calls: seq<Request>) {
    && (forall r | r in calls :: Writable(codec, r.arguments) && r.id !in seen)
    && (forall i, j | 0 <= i < j < |calls| :: calls[i].id != calls[j].id)
  }

  lemma UnambiguousStep(codec: Codec, seen: set<string>, calls: seq<Request>, r: Request)
    ensures Unambiguous(codec, seen, calls + [r]) <==>
              && Unambiguous(codec, seen, calls)
              && Writable(codec, r.arguments) && r.id !in seen && forall q | q in calls :: q.id != r.id
  {
    var all := calls + [r];
    assert all[|calls|] == r;
    if Unambiguous(codec, seen, all) {
      assert forall q | q in calls :: q in all;
      forall i, j | 0 <= i < j < |calls| ensures calls[i].id != calls[j].id {
        assert all[i].id != all[j].id;
      }
      forall q | q in calls ensures q.id != r.id {
        var i :| 0 <= i < |calls| && calls[i] == q;
        assert all[i].id != all[|calls|].id;
      }
    }
  }

  lemma {:induction false} RepliedToAt(h: seq<Entry>, n: nat)
    requires n <= |h|
    ensures forall r :: r in RepliedTo(h[..n]) <==> exists j | 0 <= j < n :: h[j].Replied? && h[j].call == r
    decreases n
  {
    if n == 0 {
    } else {
      RepliedToAt(h, n - 1);
      assert h[..n][..n - 1] == h[..n - 1];
    }
  }

  lemma RepliedToStep(h: seq<Entry>, n: nat)
    requires n < |h|
    ensures RepliedTo(h[..n + 1]) == RepliedTo(h[..n]) + if h[n].Replied? then [h[n].call] else []
  {
    assert h[..n + 1][..n] == h[..n];
  }

  lemma NoneDroppedStep(codec: Codec, c: Convo, h: seq<Entry>, n: nat)
    requires n < |h|
    ensures Unambiguous(codec, c.seen, RepliedTo(h[..n + 1])) <==>
              Unambiguous(codec, c.seen, RepliedTo(h[..n])) && !Dropped(codec, c, h, n)
  {
    hide Unambiguous, Dropped, RepliedTo, Writable;
    RepliedToStep(h, n);
    var before := RepliedTo(h[..n]);
    if h[n].Replied? {
      UnambiguousStep(codec, c.seen, before, h[n].call);
      if Unambiguous(codec, c.seen, before) {
        UnambiguousIsWritable(codec, c.seen, before);
        DroppedOnTop(codec, c, h, n);
      }
    } else {
      assert before + [] == before;
      SaidIsNotDropped(codec, c, h, n);
    }
  }

  lemma {:induction false} NoneDroppedPrefix(codec: Codec, c: Convo, h: seq<Entry>, n: nat)
    requires n <= |h|
    ensures (forall i | 0 <= i < n :: !Dropped(codec, c, h, i)) <==> Unambiguous(codec, c.seen, RepliedTo(h[..n]))
    decreases n
  {
    if n == 0 {
    } else {
      hide Unambiguous, Dropped, RepliedTo;
      NoneDroppedPrefix(codec, c, h, n - 1);
      NoneDroppedStep(codec, c, h, n - 1);
    }
  }

  lemma UnambiguousIsWritable(codec: Codec, seen: set<string>, calls: seq<Request>)
    requires Unambiguous(codec, seen, calls)
    ensures forall r | r in calls :: Writable(codec, r.arguments)
  {
  }

  lemma SaidIsNotDropped(codec: Codec, c: Convo, h: seq<Entry>, n: nat)
    requires n < |h| && h[n].Said?
    ensures !Dropped(codec, c, h, n)
  {
  }

  /** On top of replies that can all be encoded, one is lost iff it cannot be, or its id occurred before. */
  lemma DroppedOnTop(codec: Codec, c: Convo, h: seq<Entry>, n: nat)
    requires n < |h| && h[n].Replied?
    requires forall r | r in RepliedTo(h[..n]) :: Writable(codec, r.arguments)
    ensures !Dropped(codec, c, h, n) <==>
              && Writable(codec, h[n].call.arguments) && h[n].call.id !in c.seen
              && forall r | r in RepliedTo(h[..n]) :: r.id != h[n].call.id
  {
    RepliedToAt(h, n);
    forall j | 0 <= j < n && h[j].Replied? ensures h[j].call in RepliedTo(h[..n]) {
    }
  }

  /** Nothing is lost exactly when the calls that have their reply are unambiguous. */
  lemma NoneDroppedIff(codec: Codec, c: Convo, h: seq<Entry>)
    ensures NoneDropped(codec, c, h) <==> Unambiguous(codec, c.seen, RepliedTo(h))
  {
    NoneDroppedPrefix(codec, c, h, |h|);
    assert h[..|h|] == h;
  }

  /** Rebuilding gives `recorded` and then the whole history iff that is what had settled, and nothing is lost. */
  lemma RecalledIsHistoryIff(codec: Codec, c: Convo, h: seq<Entry>, recorded: seq<Message>)
    requires Orderly(h) && AllAsk(h)
    requires recorded == [] || |c.messages| <= |recorded|
    ensures Recalled(codec, c, h).messages == recorded + Spoken(h) <==> c.messages == recorded && NoneDropped(codec, c, h)
  {
    hide Orderly, AllAsk, NoneDropped, Recalled, Spoken, Survivors;
    RecalledIsSpokenIff(codec, c, h);
    RecallsSurvivors(codec, c, h);
    var got, said := Recalled(codec, c, h).messages, Spoken(h);
    if got == recorded + said {
      if recorded == [] {
        NothingInFront(codec, c, h);
      }
      assert |c.messages| == |recorded|;
      assert got[..|recorded|] == recorded && (c.messages + said)[..|recorded|] == c.messages;
    }
  }

  /** The ids that have a reply after some records: those they had, and those of the terminal records. */
  lemma {:induction false} SeenIds(c: Convo, es: seq<Event>)
    ensures forall id :: id in Replay(c, es).seen <==>
              || id in c.seen
              || exists i | 0 <= i < |es| ::
                   es[i].payload.Tool? && Terminal(es[i].payload.status) && es[i].payload.callId == id
  {
    if es == [] {
    } else {
      var shorter := es[..|es| - 1];
      SeenIds(c, shorter);
      assert forall i | 0 <= i < |shorter| :: shorter[i] == es[i];
    }
  }

  // ----- a last line without its newline -----

  predicate AddsMessage(c: Convo, p: Payload) {
    p.Llm? || (p.Tool? && Terminal(p.status) && p.callId !in c.seen)
  }

  /**
   The file ends in a record without its newline, and that record holds a message: it can be read
   when a run resumes, but not once the run has glued its run_start to it.
   */
  ghost predicate ForgetsTail(base: seq<Chunk>) {
    && !Clean(base)
    && LineOf(base[..|base| - 1], base[|base| - 1]).Record?
    && AddsMessage(Replay(NOTHING, Settled(base)), base[|base| - 1].event.payload)
  }

  /** Exactly then does a resumed run start from a message the log is about to lose. */
  lemma ForgetsTailIff(base: seq<Chunk>)
    ensures var before, after := Replay(NOTHING, Readable(base)).messages, Replay(NOTHING, Settled(base)).messages;
            |after| <= |before| && (before == after <==> !ForgetsTail(base))
  {
    ReadableIsSettledPlus(base);
    if Readable(base) != Settled(base) {
      var c := base[|base| - 1];
      ReplayAdd(NOTHING, Settled(base), [c.event]);
      assert [c.event][..0] == [];
      assert Replay(Replay(NOTHING, Settled(base)), [c.event]) == Heard(Replay(NOTHING, Settled(base)), c.event.payload);
    }
  }

  // ----- what a rescan finds -----

  lemma {:induction false} ReplayIgnoresStart(c: Convo, es: seq<Event>)
    requires es != [] && es[0].payload.RunStart?
    ensures Replay(c, es[1..]) == Replay(c, es)
  {
    assert es == [es[0]] + es[1..];
    ReplayAdd(c, [es[0]], es[1..]);
    assert [es[0]][..0] == [];
    assert Replay(c, [es[0]]) == c;
  }

  /** A run whose records are all in the file, and that counts on from `t`. */
  ghost predicate AllWritten(rules: Rules, t: LogTail, own: seq<Chunk>, es: seq<Event>) {
    && OneWriter(own) && Clean(own) && EventsOf(own) == es
    && es != []
    && Trace(rules, Start(t.turn), es).Some?
    && Rising(es, t.number)
  }

  lemma SurvivingWhole(rules: Rules, t: LogTail, base: seq<Chunk>, own: seq<Chunk>, es: seq<Event>)
    requires AllWritten(rules, t, own, es)
    ensures es[0].payload.RunStart?
    ensures Readable(base + own) == Settled(base) + if Clean(base) then es else es[1..]
  {
    TraceOpens(rules, t.turn, es);
    assert |own| == |es|;
    ReadableAfterSegment(base, own);
  }

  lemma {:induction false} LastStartIs(before: seq<Event>, es: seq<Event>)
    requires es != [] && es[0].payload.RunStart?
    requires forall i | 0 < i < |es| :: !es[i].payload.RunStart?
    ensures LastStart(before + es) == es[0].payload
  {
    var shorter, e := es[..|es| - 1], es[|es| - 1];
    assert before + es == (before + shorter) + [e];
    LastStartStep(before + shorter, e);
    if shorter == [] {
    } else {
      LastStartIs(before, shorter);
    }
  }

  /**
   What the next resume takes for the goal is what this run wrote, even if that is empty; on a torn
   file this run's run_start is lost, and an older goal stays in force.
   */
  lemma NextResumeReadsThisStart(rules: Rules, t: LogTail, base: seq<Chunk>, own: seq<Chunk>, es: seq<Event>)
    requires AllWritten(rules, t, own, es)
    ensures Clean(base) ==> LastStart(Readable(base + own)) == es[0].payload
    ensures !Clean(base) ==> LastStart(Readable(base + own)) == LastStart(Settled(base))
  {
    SurvivingWhole(rules, t, base, own, es);
    TraceOpens(rules, t.turn, es);
    if Clean(base) {
      LastStartIs(Settled(base), es);
    } else {
      LastStartUnmoved(Settled(base), es[1..]);
    }
  }

  lemma {:induction false} LastStartUnmoved(before: seq<Event>, es: seq<Event>)
    requires forall i | 0 <= i < |es| :: !es[i].payload.RunStart?
    ensures LastStart(before + es) == LastStart(before)
  {
    if es == [] {
      assert before + es == before;
    } else {
      var shorter, e := es[..|es| - 1], es[|es| - 1];
      assert before + es == (before + shorter) + [e];
      LastStartStep(before + shorter, e);
      LastStartUnmoved(before, shorter);
    }
  }

  /** Rebuilding from such a file continues from what had settled before the run. */
  lemma RebuiltAfterRun(rules: Rules, t: LogTail, base: seq<Chunk>, own: seq<Chunk>, es: seq<Event>)
    requires AllWritten(rules, t, own, es)
    ensures Replay(NOTHING, Readable(base + own)) == Replay(Replay(NOTHING, Settled(base)), es)
  {
    SurvivingWhole(rules, t, base, own, es);
    ReplayIgnoresStart(Replay(NOTHING, Settled(base)), es);
    ReplayAdd(NOTHING, Settled(base), if Clean(base) then es else es[1..]);
  }

  lemma {:induction false} TailOfRising(es: seq<Event>, low: nat)
    requires Rising(es, low) && es != []
    ensures TailOf(es).number == es[|es| - 1].number
  {
    if |es| > 1 {
      TailOfRising(es[..|es| - 1], low);
    } else {
      assert es[..0] == [];
    }
  }

  lemma SettledTail(base: seq<Chunk>)
    ensures TailOf(Settled(base)).number <= TailOf(Readable(base)).number
    ensures TailOf(Settled(base)).turn <= TailOf(Readable(base)).turn
  {
    ReadableIsSettledPlus(base);
    if !Clean(base) {
      var before, c := base[..|base| - 1], base[|base| - 1];
      TailOfAdd(Settled(base), if LineOf(before, c).Record? then [c.event] else []);
    }
  }

  lemma TailWithoutStart(es: seq<Event>)
    requires es != [] && es[0].payload.RunStart?
    ensures TailOf(es).turn == TailOf(es[1..]).turn
  {
    assert es == [es[0]] + es[1..];
    TailOfAdd([es[0]], es[1..]);
    assert [es[0]][..0] == [];
  }

  lemma RescanOnCleanFile(rules: Rules, t: LogTail, base: seq<Chunk>, own: seq<Chunk>, es: seq<Event>)
    requires AllWritten(rules, t, own, es) && t == TailOf(Readable(base)) && Clean(base)
    ensures var m := Trace(rules, Start(t.turn), es).value;
            TailOf(Readable(base + own)) == LogTail(es[|es| - 1].number, m.turn)
  {
    SurvivingWhole(rules, t, base, own, es);
    TraceNumbersTurns(rules, t.turn, es);
    TailOfRising(es, t.number);
    ReadableIsSettledPlus(base);
    hide Trace, TailOf, Readable, Settled, TurnCount, LatestTurn;
    TailOfAdd(Settled(base), es);
  }

  lemma TurnsFollowTheStart(es: seq<Event>)
    requires es != [] && es[0].payload.RunStart? && TurnCount(es) > 0
    ensures |es| > 1
  {
    assert es[..0] == [];
  }

  lemma RescanAfterFirstTurn(rules: Rules, t: LogTail, base: seq<Chunk>, own: seq<Chunk>, es: seq<Event>)
    requires AllWritten(rules, t, own, es) && t == TailOf(Readable(base))
    requires !Clean(base) && TurnCount(es) > 0
    ensures var m := Trace(rules, Start(t.turn), es).value;
            TailOf(Readable(base + own)) == LogTail(es[|es| - 1].number, m.turn)
  {
    hide Trace, TailOf, Readable, Settled, LatestTurn, TurnCount;
    var rest := es[1..];
    SurvivingWhole(rules, t, base, own, es);
    TurnsFollowTheStart(es);
    TraceNumbersTurns(rules, t.turn, es);
    TailWithoutStart(es);
    SettledTail(base);
    TailOfRising(rest, t.number);
    TailOfAdd(Settled(base), rest);
  }

  /** On a torn file the run_start is lost, and with nothing after it a rescan finds only older numbers. */
  lemma RescanMissesTheStart(rules: Rules, t: LogTail, base: seq<Chunk>, own: seq<Chunk>, es: seq<Event>)
    requires AllWritten(rules, t, own, es) && t == TailOf(Readable(base))
    requires !Clean(base) && |es| == 1
    ensures TailOf(Readable(base + own)).number < es[0].number
  {
    SurvivingWhole(rules, t, base, own, es);
    assert Readable(base + own) == Settled(base);
    SettledTail(base);
  }

  /**
   At a loop head a rescan of the file finds the counters the run holds, the number of its last
   record and its current turn, exactly if the file was clean when the run was opened or the run
   has taken a turn.
   */
  lemma RescanFindsCountersIff(rules: Rules, t: LogTail, base: seq<Chunk>, own: seq<Chunk>, es: seq<Event>)
    requires AllWritten(rules, t, own, es) && t == TailOf(Readable(base))
    requires Trace(rules, Start(t.turn), es).value.phase.Head?
    ensures TailOf(Readable(base + own)) == LogTail(es[|es| - 1].number, Trace(rules, Start(t.turn), es).value.turn)
            <==> Clean(base) || TurnCount(es) > 0
  {
    if Clean(base) {
      RescanOnCleanFile(rules, t, base, own, es);
    } else if TurnCount(es) > 0 {
      RescanAfterFirstTurn(rules, t, base, own, es);
    } else {
      NoTurnIsTheStart(rules, t.turn, es);
      RescanMissesTheStart(rules, t, base, own, es);
    }
  }

  /** The tail of what survives of a run's records, with or without its run_start. */
  lemma SurvivingTail(rules: Rules, t: LogTail, own: seq<Chunk>, es: seq<Event>, clean: bool)
    requires AllWritten(rules, t, own, es) && (clean || TurnCount(es) > 0)
    ensures TailOf(if clean then es else es[1..])
            == LogTail(es[|es| - 1].number, if TurnCount(es) > 0 then Trace(rules, Start(t.turn), es).value.turn else 0)
  {
    TraceOpens(rules, t.turn, es);
    TraceNumbersTurns(rules, t.turn, es);
    hide Trace, TailOf, LatestTurn, TurnCount;
    TailOfRising(es, t.number);
    if !clean {
      TurnsFollowTheStart(es);
      TailWithoutStart(es);
      TailOfRising(es[1..], t.number);
    }
  }

  /**
   A run that does not count on from the log holds the counters a rescan finds iff those that had
   settled do not exceed them; with its run_start lost, and nothing after it, iff they are the same.
   */
  lemma FreshRescanFindsCountersIff(rules: Rules, base: seq<Chunk>, own: seq<Chunk>, es: seq<Event>)
    requires AllWritten(rules, LogTail(0, 0), own, es)
    requires Trace(rules, Start(0), es).value.phase.Head?
    ensures var settled, number := TailOf(Settled(base)), es[|es| - 1].number;
            var turn := Trace(rules, Start(0), es).value.turn;
            TailOf(Readable(base + own)) == LogTail(number, turn) <==>
              if Clean(base) || TurnCount(es) > 0 then settled.number <= number && settled.turn <= turn
              else settled == LogTail(number, turn)
  {
    SurvivingWhole(rules, LogTail(0, 0), base, own, es);
    TraceNumbersTurns(rules, 0, es);
    hide Trace, TailOf, Readable, Settled, LatestTurn, AllWritten;
    if Clean(base) || TurnCount(es) > 0 {
      SurvivingTail(rules, LogTail(0, 0), own, es, Clean(base));
      TailOfAdd(Settled(base), if Clean(base) then es else es[1..]);
    } else {
      NoTurnIsTheStart(rules, 0, es);
      assert Settled(base) + es[1..] == Settled(base);
    }
  }

  /** A torn run_start cannot be read, and the one glued to it cannot either: a rescan finds an empty log. */
  lemma TornFileHidesTheStart(torn: Event, start: Event)
    requires start.payload.RunStart? && start.number > 0
    ensures var base, own := [Chunk(torn, Torn)], [Chunk(start, Whole)];
            && TailOf(Readable(base)) == TailOf(Readable(base + own)) == LogTail(0, 0)
            && TailOf([start]).number == start.number
  {
    var t, c := Chunk(torn, Torn), Chunk(start, Whole);
    assert [] + [t] == [t] && [start][..0] == [];
    ReadableStep([], t);
    SettledStep([], t);
    ReadableStep([t], c);
    SettledOfNothing();
  }

  /** A run that has only its run_start, or has left the head of its loop behind. */
  lemma {:induction false} NoTurnIsTheStart(rules: Rules, turn: nat, es: seq<Event>)
    requires Trace(rules, Start(turn), es).Some? && es != [] && TurnCount(es) == 0
    ensures var ph := Trace(rules, Start(turn), es).value.phase; ph.Closed? || (ph.Head? && |es| == 1)
  {
    var shorter := es[..|es| - 1];
    if shorter == [] {
    } else {
      NoTurnIsTheStart(rules, turn, shorter);
    }
  }
}
