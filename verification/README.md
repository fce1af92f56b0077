# Latigo, modelled and verified in Dafny

Latigo is an agent harness: it asks a language model what to do, runs the tools the model calls, and
keeps everything in an append-only event log from which an interrupted run can be resumed. This project
models that log, the loop that writes it, the resume path, the compaction of the transcript, the
assembly of streamed replies, the schema validator with the typed finish, and the command-line check.

What is proved, in the system's own terms:

- **The log over its whole life.** Any number of processes, with any replies, tool results, write
  errors, failed syncs and crashes at any point inside a record, leave a file whose readable records have
  strictly increasing numbers, strictly increasing turn numbers from 1, and name the right turn.
  Every process writes the beginning of a word of
  `run_start (turn llm call* turn_end)* closing`. A torn tail costs at most two records.
- **Write-ahead, across crashes.** A tool runs only while its intent is the last record of the file and
  durable; the model is asked only while every record produced so far is durable. Crash any process after
  any of its moments, resume, crash again: at the end the intent of every tool that was started can be
  read back, and a resume loads every message that could have been loaded at any of those moments. No
  moment is missing from the account: the records of each run tell of them all.
- **Resume.** At every loop head and every request, of any run on any log, the log gives back the
  conversation in memory exactly if what had settled in the log is what the run started with, and the
  calls this run's records ask for have JSON or empty arguments and ids that are distinct and new to the
  log; otherwise what it drops is named message by message. For a resumed run the first condition means
  that it was not resumed from an unterminated message; for one that does not resume, that no message had
  settled. Over a whole life, what a resume loads is what survives of everything the earlier runs spoke.
  When a fresh scan finds the counters in memory is said exactly as well.
- **Compaction, budgets, finish.** What the model is shown is always the system prompt, the goal, at most
  one summary and a suffix of the history; limits are overshot by one reply at most; a finished run's
  output is accepted by the output schema.
- **What is heard is told.** Every reply of the model and every answer of a tool is recorded as it was
  given, in order, and the reply a call gets in the transcript is the very text its tool answered.
- **Streams, validator, `jsonEqual`, shell check.** Each loop is proved against a declarative
  specification, and the specification is pinned from outside: a stream from its raw lines to the
  message, each keyword of a schema by what it takes away, a command line by what its first word spells.

## How it is built

| file | models |
|---|---|
| `JsonValues.dfy` | decoded JSON and `jsonEqual` |
| `Validate.dfy`, `Keywords.dfy`, `Tools.dfy` | `validate.go`, what its keywords mean, `tools.go` |
| `Messages.dfy`, `Compaction.dfy` | `openai.go`, `compaction.go` |
| `Events.dfy` | `events.go`: records, the file, `EventLog`, `LoadTranscript` |
| `Grammar.dfy`, `RunShape.dfy` | the order in which the loop writes records: an automaton, and a grammar it is proved against |
| `LogLife.dfy` | a file as the segments of successive runs |
| `Memory.dfy` | the conversation in memory against the one the log rebuilds |
| `Moments.dfy` | what is true at each loop head, request and tool call, and what follows |
| `Partings.dfy` | two runs after which log and memory differ |
| `Agent.dfy` | `agent.go`: `Run` and everything it calls |
| `Process.dfy` | `main.go`'s `run`, repeated over one file |
| `Stream.dfy`, `RawStream.dfy` | `readSSE`, `CallStream`; raw lines to the result |
| `Shell.dfy` | `verify`, `callName`, `literalWord` |

The file is a sequence of chunks, each a record and how much of its line got out: a piece, all but the
newline, or all of it. Lines are derived: a record glued onto an open line cannot be decoded, and a last
line without its newline can. A crash is a cut of that sequence. The file only grows while a process
runs, so a crash after a given moment of a run is a cut of what the run would have left, at or above what
was durable at that moment.

Replies, tool results, clocks and the fate of every line and scan are arbitrary choices in the agent's methods, so each
contract speaks about all of them. The agent notes moments as it goes — loop heads, requests to the model,
tool calls — and the methods that stand for those effects require their moment to have been noted;
`MomentOk` says what is true at each, of this log, prompt and goal. The agent's `entries` are its history
as if nothing had been compacted: `Accounts` ties them, one by one, to the replies recorded and the calls
those replies ask for.

A log's `produced` holds every record it was asked to append and could marshal. The order of records is
proved about `produced`; the file holds a prefix of it, complete until a write fails. That is how the
same argument covers runs with and without I/O errors.

## Where the code and its documentation differ

The model follows the code.

- README.md:140 says a result shares the key of its intent. The intent's key is computed before the
  invocation counter moves (agent.go:324) and the result's after (agent.go:331, agent.go:362):
  `Grammar.IntentAndResultKeysDiffer`.
- `jsonEqual` is not symmetric: a null member on the left matches a missing one on the right
  (validate.go:233-234). `JsonValues.StructuralIffNullMemberFree` gives its exact reach and
  `JsonValues.NullMemberBreaksSymmetry` an instance.
- A log whose last record lacks only its newline is read back on resume, and that record is lost as soon
  as the resumed run writes: `Memory.ForgetsTailIff`, `Processes.UnterminatedReplyIsForgotten`.
- A run that does not resume numbers from 1 whatever the log holds (agent.go:265-269), so numbers and
  turns of a log need not increase (README.md:129, README.md:146-149): `LogLife.FreshRunsRiseIff` says
  exactly when they still do, on clean and on torn logs.
- A run that does not resume appends to the log it finds and ignores what is in it (agent.go:265-269). If
  any message had settled there, the log never again gives back the conversation in memory, at any loop
  head or request of that run: `Moments.FreshRunsDisagree`.
- A log with an unfinished last line swallows the run_start glued to it, so until the first turn of that
  run a scan finds older numbers than the run holds: `Memory.RescanFindsCountersIff`, and
  `Memory.TornFileHidesTheStart` for an instance.
- The log does not always rebuild the conversation (agent.go:9-11). A call id used twice loses its second
  reply (events.go:319-323), and a refusal whose arguments are not JSON is not recorded, its error being
  dropped (agent.go:360): `Partings.RepeatedIdIsLost`, `Partings.UnencodableReplyIsLost`.
- The goal of a resumed run is what the last readable run_start holds, even when that run wrote an empty
  one (agent.go:135-137): `Memory.NextResumeReadsThisStart`.
- The summarising request is neither logged nor counted (compaction.go:88-100), although
  compaction.go:65-68 says it is; its text is arbitrary here.
- README.md:143 lists `dispatch_error` among run_end reasons; that exit writes no run_end (agent.go:210-213),
  and nor do `log_error` and `bootstrap_error`.
- allowlist.go:72-77 announces 15 built-in names; the table has 14 more (allowlist.go:78-85):
  `ShellCheck.BuiltInNames`.
- shell.go:68-69 announces a rejection of arithmetic that the walk does not make, and bare assignments are
  rejected (shell.go:116-118).

## Model

| member | source | states |
|---|---|---|
| JsonValues.CompareJson | validate.go:226-253 | the recursive comparison, with its early exits and any order of members, decides the relation `JsonEqual` |
| JsonValues.EqualIsStructural | validate.go:226-253 | on a left operand without null members the comparison is structural equality |
| JsonValues.EqualIsEquivalence | validate.go:226-253 | hence symmetric and transitive on values without null members |
| JsonValues.StructuralIffNullMemberFree | validate.go:226-253 | it agrees with structural equality for every right operand iff the left one has no null member |
| JsonValues.NullMemberBreaksSymmetry | validate.go:233-234 | two concrete objects it equates in one direction only |
| Validate.ValidateValue | validate.go:50-89 | no errors exactly when the declarative relation `Accepts` holds; const and enum errors exactly when those fail; every error returned is true of the value |
| Validate.ValidateType | validate.go:92-176 | no error exactly when the keywords of the type hold, for every order of visiting members; the recursion through values terminates |
| Validate.ValidateObject | validate.go:94-122 | required, closed objects and sub-schemas, the first violation truthfully reported |
| Validate.CheckBounds | validate.go:178-190 | no error exactly for what is no number or is within the bounds, and which bound is violated |
| Validate.ValidateRaw | validate.go:50-61 | without a schema everything passes; otherwise the text must decode and be accepted |
| Validate.AcceptsIsStrict | validate.go:62-82 | for values without null members const and enum mean structural equality at every depth |
| Validate.ConstIsStructuralIffNullMemberFree | validate.go:62-68 | a const accepts only itself, for all consts, iff the value has no null member |
| Keywords.PlainTypes | validate.go:92-176 | a schema with nothing but a type accepts exactly the values of that type, and everything without a known one |
| Keywords.IntegersAreWhole | validate.go:192-201 | an integer schema accepts exactly the values that are some whole number |
| Keywords.IntegersBetween | validate.go:152-155 | with bounds, exactly the whole numbers between them |
| Keywords.MinimumIsExact | validate.go:183-185 | adding a minimum takes away exactly the numbers below it |
| Keywords.MaximumIsExact | validate.go:186-188 | adding a maximum takes away exactly the numbers above it |
| Keywords.LengthsAreExact | validate.go:141-151 | lengths in bytes; an upper limit of 0 or less is none |
| Keywords.SizesAreExact | validate.go:123-133 | the same for the number of items |
| Keywords.ItemsIsExact | validate.go:134-140 | an item schema applies to every item |
| Keywords.RequiredIsExact | validate.go:99-103 | requiring a name takes away exactly the objects without it |
| Keywords.PropertyIsExact | validate.go:116-122 | a property's schema applies to the member of that name, if there is one, and a nil one to none |
| Keywords.AdditionalIsExact | validate.go:104-115 | only the literal false closes an object, and then to the declared properties |
| Keywords.ConstIsExact | validate.go:62-68 | const takes away what `jsonEqual` does not equate with it |
| Keywords.EnumIsExact | validate.go:69-82 | enum takes away what `jsonEqual` equates with no choice |
| Keywords.OthersAreInert | validate.go:83-87 | keywords of other types do nothing, and none but const and enum without a known type |
| Tools.FinishSchemaAccepts | tools.go:49-69 | the wrapper accepts exactly the objects whose single member `output` the inner schema accepts |
| Tools.FinishRunsOnAcceptedOutput | tools.go:131-149 | a finish call passes validation before dispatch iff its output passes the second check |
| Tools.FindTool | tools.go:175-182 | the first tool of the name, or none has it |
| Tools.UnknownTools | tools.go:175-182 | a call is to an unknown tool iff its name is none of the three |
| Tools.ShellRunsOnCommands | tools.go:40-48 | a shell call runs iff its arguments are an object with just a command string |
| Tools.ToolListRunsOnObjects | tools.go:109-112 | a tool_list call runs iff its arguments are an object |
| Compaction.EstimateTokens | compaction.go:16-32 | the nested loops compute the estimate defined message by message |
| Compaction.TokensAdd | compaction.go:16-32 | the estimate of two transcripts put together is the sum |
| Compaction.TokensBounds | compaction.go:12-15 | without images, at least a quarter of the counted bytes and at most that plus three quarters a piece |
| Compaction.PiecesCost | compaction.go:16-32 | the exact cost a text, a call, a text part and an image add |
| Compaction.WindowSummary | compaction.go:56-63 | the placeholder with the counts of elided messages and tool calls |
| Compaction.PlaceholderTells | compaction.go:56-63 | a system message in which the numbers of elided messages and calls can be read back |
| Compaction.SummaryTells | compaction.go:69-86 | the briefing under its heading, or else the placeholder for exactly the middle |
| Compaction.DefaultCompact | compaction.go:38-51 | the transcript folded around the placeholder for exactly its middle |
| Compaction.LlmCompact | compaction.go:69-86 | the same folding around the briefing, or the placeholder when asking for one failed |
| Compaction.FoldingSplits | compaction.go:38-51 | folding leaves up to six messages alone; from longer ones it keeps two in front and four behind, and only the middle is replaced |
| Compaction.FoldingNarrows | compaction.go:38-51 | folding what shows a history still shows it: never two summaries, never fewer than four recent messages, at most seven messages |
| Events.EventLog.constructor | events.go:110-116 | an opened log holds nothing of its own and counts from 0 |
| Events.EventLog.ScanTail | events.go:72-107 | the highest record and turn number among the readable lines, the same at both uses; zero when the file cannot be opened |
| Events.EventLog.ResumeSeq | events.go:134-141 | numbering continues from the highest readable number, and when it fails |
| Events.EventLog.ResumeTurn | events.go:147-149 | the highest readable turn number, and when it fails |
| Events.EventLog.Write | events.go:172-180 | any part of a line may get out before an error, and after one nothing more does; success iff no error yet |
| Events.OnlyTextsSpoilRecords | events.go:157-170 | a record cannot be encoded iff its call's arguments are not JSON or it quotes an answer in a way JSON lacks |
| Events.EventLog.Append | events.go:153-185 | for each fate of the line: every attempt takes a number; it succeeds iff the record marshals, no write has failed so far and the sync succeeds, and then the record and all before it are durable |
| Events.LoadTranscript | events.go:285-345 | messages, goal, model and run of the readable records, replies deduplicated by call id over the whole log |
| Events.AssembleReply | events.go:322-331 | the text put together for a reply |
| Events.ReplyTextTells | events.go:322-331 | that text, case by case: output, or error output, and then an error on its own line |
| Events.ReplyIsRebuilt | events.go:314-337 | a terminal record with a new call id adds one tool message that names its call |
| Events.LastStartIsLatest | events.go:302-308 | goal, model and run come from the last run_start |
| Events.SomeStartIsLatest | events.go:302-308 | there is a last run_start, or nothing is known of goal, model and run |
| Events.LogFile.Crash | events.go:151-152 | a crash leaves a cut of the file that keeps what was durable |
| Events.TailOfIsHighest | events.go:64-107 | the tail is reached by a readable record and exceeded by none |
| Events.ReadableIsLegible | events.go:83-89 | the lines a scanner decodes are exactly the records that are whole, or last without newline, and do not follow an unfinished one |
| Events.LostIsTornOrGlued | events.go:151-185 | a record no reader finds was left unfinished or directly follows one that was |
| Events.TornTailsCostTwo | events.go:151-185 | lost records are at most twice the torn ones |
| Events.ReadableAfterSegment | events.go:83-101 | reading a file one process extended: what had settled, then its records, without the first if it was glued |
| Grammar.TracePrefix | agent.go:130-228 | every prefix of a run's records, as a crash leaves it, is in order |
| Grammar.TraceNumbersTurns | agent.go:160-168 | a run's turns count upwards without gaps from where it started, and replies and ends of turn carry the nearest turn record's number |
| Grammar.IntentsAreAnswered | agent.go:323-349 | an intent is followed at once by the result of the same call or the output, unless it is the run's last record |
| Grammar.IntentAndResultKeysDiffer | agent.go:324-362 | the intent and the result of a call never share their idempotency key |
| Grammar.TraceCountsCalls | agent.go:294-356 | every call a reply asks for is counted once; at a loop head none is pending |
| Grammar.BudgetsAdd | agent.go:163-195 | each turn counts one, and each reply its tokens and its calls, wherever among the records it is |
| Grammar.OvershootIsOneReply | agent.go:150-165 | turns stay within `max_turns`; tokens and calls exceed their limits by the last reply at most |
| RunShape.RunsFollowTheGrammar | agent.go:130-228 | a run's records begin a word of the grammar, and are a whole word once run_end is written; with recordable arguments every refusal has its record |
| LogLife.LifeSurvivesCrash | events.go:151-152 | a log cut anywhere is again the log of the same runs, of each of which a cut is left |
| LogLife.LivesAreWellNumbered | README.md:129-153 | after any runs, resumes, write errors and crashes, readable numbers and turns increase strictly and every record names its turn |
| LogLife.LivesLoseLittle | events.go:151-185 | over a life, at most two records are unreadable for each process |
| LogLife.LivesAnswerIntents | agent.go:323-354 | in every run of a life an unanswered intent is the last thing that run wrote |
| LogLife.LivesLeaveOneUnanswered | agent.go:323-354 | a reader of the log finds at most one unanswered intent for each run, torn answers included |
| LogLife.LivesRemember | events.go:285-345 | what a resume loads is, run by run, the survivors of the history each earlier run spoke up to where its records were cut |
| LogLife.NumbersRiseIff | events.go:153-160 | after any run, resumed or not, on any log, record numbers still increase iff its first surviving record is above what had settled |
| LogLife.TurnsRiseIff | agent.go:160-168 | turn numbers still increase iff no turn record of the run survives or it started from the highest turn settled |
| LogLife.FreshRunsRiseIff | agent.go:265-269 | for a run that does not resume: the exact guards for record and turn numbers, on clean and on torn logs |
| LogLife.LivesFollowTheGrammar | agent.go:130-228 | every run of a life wrote the beginning of a word of the grammar |
| LogLife.LivesRecordTypedOutputs | agent.go:340-348 | every finish output recorded in a life is accepted by the output schema of its run |
| Memory.AnsweredAreAsked | agent.go:294-371 | the calls with a reply in memory are those the records ask for, in order, up to the ones still waiting |
| Memory.ReplayAccounts | events.go:285-345 | replaying a run's records gives back of its history what can be encoded and is not a second reply |
| Memory.RecallsSurvivors | events.go:291-340 | the log gives back exactly the messages whose record can be encoded and whose call id was new, in order |
| Memory.RecalledIsSpokenIff | events.go:285-345 | memory and log agree on what a run added iff no message was dropped |
| Memory.NoneDroppedIff | events.go:319-323 | no message is dropped iff the calls replied to have JSON or empty arguments and ids distinct and new to the log |
| Memory.RunningHistoriesAsk | agent.go:197-208 | while a run goes on every reply of the model in its history asks for calls |
| Memory.NothingInFront | agent.go:265-269 | messages that had settled in front of such a history are never made up for by messages dropped from it |
| Memory.RecalledIsHistoryIff | events.go:285-345 | rebuilding gives what the run started with and then its history iff the former is what had settled and nothing is dropped |
| Memory.SeenIds | events.go:291-323 | the ids that count as replied to are those of the terminal tool records |
| Memory.ForgetsTailIff | events.go:83-89 | a resume starts from a message the log will lose iff the file ends in a message record without its newline |
| Memory.RescanFindsCountersIff | events.go:53-59 | at a loop head a fresh scan finds the run's record and turn counters iff the file was clean or a turn was taken |
| Memory.FreshRescanFindsCountersIff | events.go:72-107 | for a run that does not resume: iff the settled numbers and turns do not exceed them, or, with only a lost run_start, are the same |
| Memory.TornFileHidesTheStart | events.go:83-89 | a torn record and the run_start glued to it: a scan finds an empty log |
| Memory.NextResumeReadsThisStart | agent.go:135-137 | the next resume reads the goal this run wrote, or on a torn file an older one |
| AgentLoop.Agent.Rebuild | agent.go:234-251 | the transcript is a system message with the prompt, a user message with the goal of the last run_start unless that is empty, and what the log rebuilds; the run keeps its recorded name |
| AgentLoop.Agent.TakeUpNumbers | agent.go:252-262 | both counters continue from the log's tail |
| AgentLoop.Agent.Bootstrap | agent.go:232-270 | either way the run stands before its first record with memory showing the prompt, the goal it is to have, and exactly the rebuilt history |
| AgentLoop.Agent.OpenRun | agent.go:135-148 | the first record is run_start with the configured goal and model |
| AgentLoop.Agent.ShouldCompact | agent.go:97-104 | the trigger: the estimate against eight tenths of a token budget, or more than 40 messages |
| AgentLoop.Agent.Compact | agent.go:169-171 | which folding is used, and that the folded transcript still shows the same history |
| AgentLoop.Agent.CompactIfDue | agent.go:169-171 | whatever the length before, at most 40 messages without a token budget; with one, an estimate within eight tenths of it or at most seven messages |
| AgentLoop.Agent.CallLlm | agent.go:173 | any answer may come back, and it is what is heard |
| AgentLoop.Agent.Ask | agent.go:169-181 | compaction, then the request, at a noted moment right after the turn record became durable: all records are durable, and what is shown is prompt, goal and a view of the history within its bounds |
| AgentLoop.Agent.BeginTurn | agent.go:160-168 | a turn starts only within all limits and with its own number |
| AgentLoop.Agent.RecordReply | agent.go:182-195 | this reply enters transcript, history and log, its calls are the ones waiting, and its tokens are counted |
| AgentLoop.Agent.RecordTool | agent.go:359-371 | the terminal record of a call, with its key, and the fate of that record in the history |
| AgentLoop.Agent.RefuseUnknown | agent.go:298-306 | the call is counted, its error message enters transcript and history, and its record the log iff its arguments can be encoded |
| AgentLoop.Agent.RefuseInvalid | agent.go:309-321 | the same for rejected arguments, after a warning in the log |
| AgentLoop.Agent.RecordIntent | agent.go:323-329 | success leaves the intent as the last record, durable |
| AgentLoop.Agent.Invoke | agent.go:333 | a tool runs only at a noted moment; finish's own check never fails there |
| AgentLoop.Agent.InvokeFinish | tools.go:131-149 | for whatever unmarshalling the arguments gave: the output is set iff it is taken, otherwise the errors are kept, and nothing for unreadable arguments |
| AgentLoop.Agent.RunCall | agent.go:323-353 | intent, effect, then the result and a reply with the very text the tool answered, or the recorded output |
| AgentLoop.Agent.DispatchToolCalls | agent.go:294-356 | transcript and history gain one reply for each call, in order: an error for those refused, what the tool answered for those that ran; or the run stops on an accepted, recorded output |
| AgentLoop.Agent.EndTurn | agent.go:217-225 | the marker carries the turn's number and brings the run back to a loop head |
| AgentLoop.Agent.Terminate | agent.go:374-389 | run_end is attempted last, and what is returned for each reason |
| AgentLoop.Agent.Run | agent.go:130-228 | for every environment and any old log, resumed or not: the segment written is in order and numbered on and accounts for the history, the records tell of exactly what was heard from model and tools, every moment is as `MomentOk` says of this log, prompt and goal, no loop head, request or tool call the records tell of is missing among the moments, limits hold, counters equal those of the records, and what each exit returns |
| AgentLoop.RepliesAreToolMessages | agent.go:351-353 | a reply is shown as a tool message that names its call |
| Moments.RebuildAgreesIff | agent.go:9-11 | at every loop head and request of any run on any log, the log gives back the whole history iff what had settled is what the run started with and the calls its records ask for are unambiguous |
| Moments.ResumeAgreesIff | agent.go:232-263 | for a resumed run the first condition is that it did not resume from a message the log then lost |
| Moments.FreshRunsDisagree | agent.go:265-269 | a run that does not resume, on a log with a settled message, never agrees with its log |
| Moments.LogMissesTheDropped | events.go:285-345 | at every moment what the log misses of what this run added is exactly the replies `Dropped` names; of what it resumed from, it misses an unterminated last message |
| Moments.LogAtMoment | events.go:285-345 | at every moment the log rebuilds what had settled before the run and what lasts of its history |
| Moments.RescanAgreesIff | events.go:53-59 | at every loop head, when a fresh scan finds the counters in memory: for runs that count on from the log, and for runs that do not resume |
| Moments.CompleteStep | agent.go:150-173 | a record that tells of a loop head, a request or a call may come only after its moment was noted |
| Moments.TranscriptsBeginRight | agent.go:236-245 | every transcript shown begins with the prompt and the goal, said without the code's own choice of it |
| Moments.GoalIsTold | agent.go:240-244 | the goal is that of the last run_start if the run resumes and it is not empty, else the configured one |
| Moments.AnswersAreReplied | agent.go:333-353 | the result of the k-th record is what the tool answered, an error iff it said so, and the reply in the history has that text |
| Moments.MomentOutlives | agent.go:323-333 | whatever keeps what was durable at a moment keeps its intent readable and its messages loadable |
| Partings.RepeatedIdIsLost | events.go:319-323 | a run whose model uses a call id twice: memory has both replies, the log gives back one |
| Partings.UnencodableReplyIsLost | agent.go:359-371 | a run with an unknown tool and arguments that are not JSON: memory has the refusal, the log nothing of it |
| Processes.Process | main.go:37-69 | opening, running and possibly crashing after any moment adds one session, of this plan's tools and this run's history, to a life and cuts the earlier ones at most; no moment of the run is missing, and those reached stay in the durable part of the file; for a run that resumes or finds nothing to read |
| Processes.Live | README.md:146-153 | over any sequence of processes, all but the first resuming: one session for each, the readable log well numbered and at most two records short for each, no moment missing, and every moment reached outlives all later crashes |
| Processes.ReachedMomentsOutlive | agent.go:323-333 | the intents of all tools started can be read back, and all messages loadable at a moment reached are loaded |
| Processes.StartedToolsAreOnRecord | agent.go:323-354 | whenever a record follows an intent, the call's moment is there, and if it was reached the intent can be read back |
| Processes.UnterminatedReplyIsForgotten | events.go:83-89 | a concrete log that rebuilds to a message before run_start is appended, and to none after |
| Streaming.ReadSse | llm.go:229-350 | on the raw lines: the result is that of the chunks before the end marker or an error; the consumer has received exactly the text of the chunks read |
| Streaming.DataLinesDecode | llm.go:255-265 | a data line stands for its trimmed text, with or without white space around it |
| Streaming.SortedKeys | llm.go:321-325 | the indices in ascending order, whatever order the map yields them in |
| Streaming.Assemble | llm.go:318-332 | the message with its calls in ascending index order |
| Streaming.CallStream | llm.go:161-206 | on every success the consumer received exactly the message's text; the fallback is taken only while it has received nothing, and never for a request that could not be built |
| RawStream.OtherLinesAreIgnored | llm.go:257-262 | a raw line that does not begin with the field name may come anywhere and changes nothing |
| RawStream.RawStreamComesBack | llm.go:251-332 | a message cut into chunks and spread over raw lines, with any other lines between, comes back; what follows the end marker does not matter |
| RawStream.LastReportCounts | llm.go:271-316 | model, finish reason and usage are the last ones given |
| RawStream.ReportedUsageCounts | llm.go:338-347 | a reported usage is passed on, and estimated if its total is 0 |
| RawStream.UnreportedUsageIsEstimated | llm.go:343-347 | without one both reply and total are estimated |
| RawStream.ModelIsNamed | llm.go:334-348 | the model named last, or the one asked for |
| RawStream.FirstChoiceCounts | llm.go:274-303 | of a chunk's choices only the first counts |
| RawStream.LastFragmentNames | llm.go:289-298 | a call's id is the last one given, its name that of the last fragment with a name or a type |
| RawStream.ArgumentsAreJoined | llm.go:299 | a call's arguments are all pieces in order |
| Streaming.DegradeToCall | llm.go:211-223 | the plain call's text is handed on once |
| Streaming.ForwardedIsContent | llm.go:274-281 | what is forwarded, joined, is what is assembled |
| Streaming.NoiseIsIgnored | llm.go:256-261 | blank lines, comments and other fields change nothing wherever they are |
| Streaming.NothingAfterDone | llm.go:263-265 | nothing after the end marker matters |
| Streaming.FragmentsByIndex | llm.go:282-300 | the fragment map holds, at each index, that call's own fragments put together |
| Streaming.InterleavingDoesNotMatter | llm.go:282-332 | streams that agree call by call assemble the same tool calls |
| Streaming.CutMessagesComeBack | llm.go:239-332 | every way of cutting a message into fragments and interleaving them gives that message back |
| Streaming.StreamedRepliesCost | llm.go:343-347 | a reply without usage but with any text or named call costs at least one token |
| ShellCheck.LiteralWord | shell.go:126-151 | the text exactly when every part is fixed |
| ShellCheck.WordSpells | shell.go:126-151 | the text of a word is the one its parts spell one after the other, if they spell any |
| ShellCheck.CallName | shell.go:115-120 | the name that the first word after the assignments spells, if it spells one |
| ShellCheck.FirstOffenceIsFirst | shell.go:76-110 | no offence iff every node is admissible, otherwise that of a node with none before it |
| ShellCheck.OffenceIsDeserved | shell.go:82-106 | a node offends iff it is not admissible, and the reason says what is wrong with it |
| ShellCheck.PreorderIsNested | shell.go:78-108 | a node comes before what is inside it, its children's nodes in the children's order |
| ShellCheck.OneCallIsAdmittedIff | shell.go:76-120 | one call of harmless words is admitted iff its first word spells a built-in or listed name other than eval, whatever the others are |
| ShellCheck.BuiltInNames | allowlist.go:78-89 | which names are built in |
| ShellCheck.EvalIsNotBuiltIn | allowlist.go:72-77 | neither eval nor its like |
| ShellCheck.PreorderIsEverything | shell.go:78-108 | preorder visits exactly the nodes inside the tree |
| ShellCheck.Verifier.Visit | shell.go:78-107 | one node's reason is captured unless there is one already, and decides whether to descend |
| ShellCheck.Verifier.Walk | shell.go:78-108 | the pruned walk captures the first offence of the whole preorder |
| ShellCheck.Verify | shell.go:76-110 | no reason exactly when every node at any depth is admissible, else one that the first offending node deserves |
| ShellCheck.AdmittedIffAllInsideAdmissible | shell.go:62-75 | admission said of the tree: nothing anywhere inside it offends |

## Left out

- JSON text: decoding and the validity of a `%q` rendering are functions the model is given; what a JSON round trip does to invalid UTF-8 is not modelled, nor that a scanner stops at lines over 8 MB other than as an arbitrary read error.
- `Streaming.ReadSse`: decoding the JSON of one chunk is a function the model is given, trimming knows single-byte white space only, and a line over the scanner's limit is an arbitrary read error.
- `AgentLoop.Agent.Invoke`: what shell and tool_list do and answer is arbitrary; the tools' effects on the workspace are not modelled.
- `AgentLoop.Agent.Bootstrap`: a path that opens for reading once is taken to open again a moment later in the same process; the model restored from the log is not kept, since requests use the configured one.
- `Events.EventLog.Append`: record numbers are unbounded, timestamps and the harness stamp are omitted, and the mutex is not modelled.
- `Grammar.IntentAndResultKeysDiffer`: the digest of the idempotency key stands for its inputs.
- `Validate.ValidateValue`: numbers are reals, so rounding and integers beyond 64 bits are not modelled; error wording is replaced by its kind and path.
- `Processes.Process`: a run that does not resume on a log with readable records is covered by `AgentLoop.Agent.Run` and `LogLife.FreshRunsRiseIff` but is no part of a life, since its numbers start again; a crash between two moments may lose anything that was not durable at the first of them, which includes every crash that can happen and more.
- `Tools.Unmarshalled`: member names are matched exactly, while struct decoding also takes a name that differs in case; arguments that pass validation have the exact name only.
- HTTP, headers, retries, latency and wall-clock time; an expired clock is an arbitrary choice.
- The interpreter and parser of mvdan/sh: a tree of nodes with ordered children stands for its syntax.
- Configuration, prompts' wording, the allow-list file and the tool_list output.
