/** The agent loop (`src/agent_loop/loop_runner.rs`) over whole runs: model iterations, tool phases with
    their stores (`src/agent_loop/turn/persistence.rs`), corrective retries and loop-level compaction. */
module LoopRunner {
  import opened Text
  import opened Numbers
  import opened Conversation
  import opened MessageFormat
  import opened ModelStep
  import Compaction
  import opened CompactionTarget
  import Session
  import PhaseStore
  import Thinking
  import ToolExecution

  const MAX_TOOL_ITERATIONS: nat := 50
  const FINAL_RESPONSE_WARNING_ITERATION: nat := MAX_TOOL_ITERATIONS - 2

  /** The corrections and warnings that only requests carry; their wording is a parameter. */
  datatype Guard = FinalResponseWarning | FinalResponse | DenialsReached | OnlyDeclared | NoValidCall

  // ---------------------------------------------------------------- what a run is given, and what it leaves

  /** Fixed for one turn. `isDeclarative` is the heuristic for replies that only announce work. */
  datatype Setup = Setup(
    turn: string,
    systemPrompt: string,
    toolsJson: Option<string>,
    channelContext: Option<Message>,
    isDeclarative: string -> bool,
    wording: Guard -> string)

  datatype StoragePoint =
    BeginModel | CompleteModel | BeginTools | PersistCall | PersistResults | CompleteTools | StagedMessages

  /** What one iteration meets: the clock, the provider, the tools, the follow-ups staged meanwhile (as
      printed for the model), the compaction attempt (`None` when it fails), and which storage calls work. */
  datatype Surroundings = Surroundings(
    clock: nat,
    provider: nat -> Behaviour,
    pauses: nat -> Pause,
    tools: ToolExecution.Env,
    staged: seq<string>,
    compaction: Option<CompactionInput>,
    storageOk: StoragePoint -> bool)

  datatype RunError = ModelFailed(error: LlmError) | EmptyAnswer(message: string) | StorageFailed | TooManyIterations

  datatype LoopAction = Retry(messages: seq<Message>) | Done(content: string, reasoning: Option<string>)

  datatype LoopResult = LoopResult(content: string, reasoning: Option<string>, finalMessageId: string, iteration: nat)

  /** One request that went out: the iteration and its number there, when, how many tool phases were behind
      it, how many denials were counted, what the iteration set out with, and what this request carries. */
  datatype Request = Request(
    iteration: nat, number: nat, at: nat, phases: nat, denials: nat, full: seq<Message>, messages: seq<Message>,
    offersTools: bool)

  /** One finished tool phase with the compaction attempt after it, and the denials counted before it. */
  datatype Phase = Phase(
    iteration: nat, denials: nat, assistant: Message, results: seq<Message>, staged: seq<Message>,
    compaction: Option<CompactionInput>)

  datatype LoopEvent = Streamed(id: string) | Discarded(id: string) | PhasePersisted(id: string)

  // ---------------------------------------------------------------- message ids

  /** `assistant_message_id`. */
  function MessageId(turn: string, iteration: nat): string {
    "turn:" + turn + ":assistant:" + Decimal(iteration)
  }

  lemma MessageIdIs(turn: string, iteration: nat)
    ensures MessageId(turn, iteration) == "turn:" + turn + ":assistant:" + Decimal(iteration)
  {
  }

  /** Iterations of one turn never share a message id. */
  lemma MessageIdsDiffer(turn: string, i: nat, j: nat)
    requires MessageId(turn, i) == MessageId(turn, j)
    ensures i == j
  {
    var prefix := "turn:" + turn + ":assistant:";
    assert MessageId(turn, i)[|prefix|..] == Decimal(i) && MessageId(turn, j)[|prefix|..] == Decimal(j);
    DecimalInjective(i, j);
  }

  // ---------------------------------------------------------------- requests

  function GuardMessage(setup: Setup, guard: Guard): Message {
    TextMessage(User, setup.wording(guard))
  }

  function IterationGuard(setup: Setup, iteration: nat): seq<Message> {
    if iteration == FINAL_RESPONSE_WARNING_ITERATION then [GuardMessage(setup, FinalResponseWarning)]
    else if iteration > FINAL_RESPONSE_WARNING_ITERATION then [GuardMessage(setup, FinalResponse)]
    else []
  }

  function DenialWrap(setup: Setup, denials: nat): seq<Message> {
    if denials >= ToolExecution.GUARD_DENIAL_LIMIT then [GuardMessage(setup, DenialsReached)] else []
  }

  function Context(setup: Setup, iteration: nat): seq<Message> {
    if iteration == 1 && setup.channelContext.Some? then [setup.channelContext.value] else []
  }

  function FullRequest(setup: Setup, base: seq<Message>, iteration: nat, denials: nat): seq<Message> {
    Context(setup, iteration) + base + IterationGuard(setup, iteration) + DenialWrap(setup, denials)
  }

  /** The loop's messages with a rejected answer and its correction. */
  function Rejection(setup: Setup, history: seq<Message>, text: string, reasoning: Option<string>, guard: Guard)
    : seq<Message>
  {
    history + [Message(Assistant, Plain(text), reasoning, [], None),
               Message(User, Plain(setup.wording(guard)), None, [], None)]
  }

  /** A request builds on the loop's messages, or on them with one rejected answer and its correction. */
  ghost predicate IsBase(setup: Setup, history: seq<Message>, base: seq<Message>) {
    base == history ||
    exists text, reasoning, guard: Guard ::
      (guard.OnlyDeclared? || guard.NoValidCall?) && base == Rejection(setup, history, text, reasoning, guard)
  }

  /** What an iteration sets out with, around its base: the channel context first in the first iteration, the
      warning in iteration 48 and the demand for a final answer in 49 and 50, and the wrap-up last. */
  ghost predicate IsFull(setup: Setup, base: seq<Message>, iteration: nat, denials: nat, full: seq<Message>) {
    full ==
      (if iteration == 1 && setup.channelContext.Some? then [setup.channelContext.value] else []) + base +
      (if iteration == 48 then [Message(User, Plain(setup.wording(FinalResponseWarning)), None, [], None)]
       else if iteration > 48 then [Message(User, Plain(setup.wording(FinalResponse)), None, [], None)]
       else []) +
      (if denials >= 3 then [Message(User, Plain(setup.wording(DenialsReached)), None, [], None)] else [])
  }

  lemma FullRequestIsFull(setup: Setup, base: seq<Message>, iteration: nat, denials: nat)
    ensures IsFull(setup, base, iteration, denials, FullRequest(setup, base, iteration, denials))
  {
  }

  /** Every request is the full request of its iteration, or that with the empty-reply correction. */
  ghost predicate IsRequest(setup: Setup, history: seq<Message>, q: Request) {
    q.iteration <= 50 && (q.offersTools <==> q.denials < 3) &&
    (q.messages == q.full || IsGuarded(q.full, q.messages)) &&
    exists base :: IsBase(setup, history, base) && IsFull(setup, base, q.iteration, q.denials, q.full)
  }

  predicate AreTexts(ms: seq<Message>) {
    forall k :: 0 <= k < |ms| ==> !ms[k].role.Tool? && ms[k].toolCalls == []
  }

  /** The channel context is a plain text message. */
  predicate ContextOk(setup: Setup) {
    setup.channelContext.Some? ==> AreTexts([setup.channelContext.value])
  }

  lemma {:induction false} TextsAreComplete(ms: seq<Message>)
    requires AreTexts(ms)
    ensures ToolComplete(ms)
  {
    hide ToolComplete;
    if |ms| > 0 {
      assert ms == [ms[0]] + ms[1..];
      TextsAreComplete(ms[1..]);
      ToolCompleteSingle(ms[0]);
      ToolCompleteConcat([ms[0]], ms[1..]);
    } else {
      ToolCompleteIff(ms);
    }
  }

  lemma AppendTexts(ms: seq<Message>, texts: seq<Message>)
    requires ToolComplete(ms) && AreTexts(texts)
    ensures ToolComplete(ms + texts)
  {
    TextsAreComplete(texts);
    ToolCompleteConcat(ms, texts);
  }

  lemma RejectionComplete(ms: seq<Message>, text: string, reasoning: Option<string>, guard: string)
    requires ToolComplete(ms)
    ensures ToolComplete(ms + [Message(Assistant, Plain(text), reasoning, [], None),
                               Message(User, Plain(guard), None, [], None)])
  {
    AppendTexts(ms, [Message(Assistant, Plain(text), reasoning, [], None),
                     Message(User, Plain(guard), None, [], None)]);
  }

  lemma RejectedComplete(setup: Setup, ms: seq<Message>, text: string, reasoning: Option<string>, guard: Guard)
    requires ToolComplete(ms)
    ensures ToolComplete(Rejection(setup, ms, text, reasoning, guard))
  {
    hide ToolComplete;
    RejectionComplete(ms, text, reasoning, setup.wording(guard));
  }

  lemma FullRequestComplete(setup: Setup, base: seq<Message>, iteration: nat, denials: nat)
    requires ToolComplete(base) && ContextOk(setup)
    ensures ToolComplete(FullRequest(setup, base, iteration, denials))
  {
    hide ToolComplete;
    var context := Context(setup, iteration);
    TextsAreComplete(context);
    ToolCompleteStart(base);
    ToolCompleteConcat(context, base);
    AppendTexts(context + base, IterationGuard(setup, iteration));
    AppendTexts(context + base + IterationGuard(setup, iteration), DenialWrap(setup, denials));
  }

  lemma FullComplete(setup: Setup, base: seq<Message>, iteration: nat, denials: nat, full: seq<Message>)
    requires ToolComplete(base) && ContextOk(setup) && IsFull(setup, base, iteration, denials, full)
    ensures ToolComplete(full)
  {
    hide ToolComplete, FullRequest;
    FullRequestComplete(setup, base, iteration, denials);
    FullRequestIsFull(setup, base, iteration, denials);
  }

  /** Whatever the loop adds to a request, a tool-complete history is sent tool-complete. */
  lemma RequestToolComplete(setup: Setup, history: seq<Message>, q: Request)
    requires ToolComplete(history) && ContextOk(setup) && IsRequest(setup, history, q)
    ensures ToolComplete(q.messages)
  {
    hide ToolComplete, IsFull, EMPTY_REPLY_RUNTIME_GUARD;
    var base :| IsBase(setup, history, base) && IsFull(setup, base, q.iteration, q.denials, q.full);
    if base != history {
      var text, reasoning, guard: Guard :| base == Rejection(setup, history, text, reasoning, guard);
      RejectedComplete(setup, history, text, reasoning, guard);
    }
    FullComplete(setup, base, q.iteration, q.denials, q.full);
    if q.messages != q.full {
      var text, reasoning :| q.messages == Corrected(q.full, text, reasoning);
      RejectionComplete(q.full, text, reasoning, EMPTY_REPLY_RUNTIME_GUARD);
    }
  }

  // ---------------------------------------------------------------- phases

  /** Result `k` answers call `k`, and the calls have distinct, non-blank ids. */
  predicate PhaseOk(phase: Phase) {
    phase.assistant.role.Assistant? && |phase.assistant.toolCalls| > 0 && DistinctIds(phase.assistant.toolCalls) &&
    |phase.results| == |phase.assistant.toolCalls| &&
    (forall k :: 0 <= k < |phase.results| ==>
      IsValidCall(phase.assistant.toolCalls[k]) &&
      phase.results[k].role.Tool? && phase.results[k].toolCallId == Some(phase.assistant.toolCalls[k].id)) &&
    AreTexts(phase.staged)
  }

  lemma BlockComplete(phase: Phase)
    requires PhaseOk(phase)
    ensures ToolComplete([phase.assistant] + phase.results)
  {
    var block := [phase.assistant] + phase.results;
    forall i, id | 0 <= i < |block| && HoldsCall(block[i], id) ensures AnsweredAt(block, i, id) {
      var c :| c in phase.assistant.toolCalls && c.id == id;
      var k :| 0 <= k < |phase.assistant.toolCalls| && phase.assistant.toolCalls[k] == c;
      assert block[k + 1] == phase.results[k] && IsToolRun(block, 1, k + 2);
    }
    forall k | 0 <= k < |block| && block[k].role.Tool? ensures AnswersHead(block, k) {
      assert block[k] == phase.results[k - 1] && phase.assistant.toolCalls[k - 1] in phase.assistant.toolCalls;
      assert HoldsCall(block[0], block[k].toolCallId.value);
      assert IsToolRun(block, 1, k + 1);
    }
  }

  function Called(ms: seq<Message>, phase: Phase): seq<Message> {
    ms + [phase.assistant]
  }

  function Executed(ms: seq<Message>, phase: Phase): seq<Message> {
    Called(ms, phase) + phase.results
  }

  /** The loop's messages after one tool phase. */
  function AfterPhase(setup: Setup, ms: seq<Message>, phase: Phase): seq<Message> {
    var all := Executed(ms, phase) + phase.staged;
    if phase.compaction.None? then all
    else MaybeCompact(setup.systemPrompt, setup.toolsJson, all, phase.compaction.value)
  }

  /** What a phase leaves behind: its call, results and follow-ups, and an attempt to compact the list when the
      whole prompt is at the threshold. */
  lemma AfterPhaseLeaves(setup: Setup, ms: seq<Message>, phase: Phase)
    requires phase.compaction.Some? ==> phase.compaction.value.factor >= 0.0
    ensures var all := ms + [phase.assistant] + phase.results + phase.staged;
      if phase.compaction.None? then AfterPhase(setup, ms, phase) == all
      else CompactsAtThreshold(
        setup.systemPrompt, setup.toolsJson, all, phase.compaction.value, AfterPhase(setup, ms, phase))
  {
    hide MaybeCompact, CompactsAtThreshold;
    if phase.compaction.Some? {
      MaybeCompactIs(setup.systemPrompt, setup.toolsJson, ms + [phase.assistant] + phase.results + phase.staged,
        phase.compaction.value);
    }
  }

  /** A list that a crash may leave behind: loading it gives a tool-complete list. */
  ghost predicate Loadable(ms: seq<Message>) {
    ToolComplete(Session.Repair(ms))
  }

  lemma CompleteIsLoadable(ms: seq<Message>)
    requires ToolComplete(ms)
    ensures Loadable(ms)
  {
    Session.RepairIdentityIff(ms);
  }

  /** Calls whose results are not stored yet. */
  lemma CalledIsLoadable(ms: seq<Message>, phase: Phase)
    requires ToolComplete(ms) && PhaseOk(phase)
    ensures Loadable(Called(ms, phase))
  {
    hide Session.Repair;
    var all := Called(ms, phase);
    Session.RepairCompleteIff(all);
    ToolCompleteIff(ms);
    NoStrayConcat(None, ms, [phase.assistant]);
    assert NoStray(Some(phase.assistant), [phase.assistant][1..]);
    NoStrayPrefix(all, |all|);
    assert all[..|all|] == all;
  }

  /** A tool phase keeps tool-completeness: after its results, after the staged follow-ups, and after
      compaction; and what is stored on the way can be loaded. */
  lemma PhaseKeepsToolComplete(setup: Setup, ms: seq<Message>, phase: Phase)
    requires ToolComplete(ms) && PhaseOk(phase)
    ensures Loadable(Called(ms, phase))
    ensures ToolComplete(Executed(ms, phase)) && ToolComplete(Executed(ms, phase) + phase.staged)
    ensures ToolComplete(AfterPhase(setup, ms, phase))
  {
    hide ToolComplete, MaybeCompact, SafeCompact, Loadable;
    CalledIsLoadable(ms, phase);
    BlockComplete(phase);
    ToolCompleteConcat(ms, [phase.assistant] + phase.results);
    assert ms + ([phase.assistant] + phase.results) == Executed(ms, phase);
    AppendTexts(Executed(ms, phase), phase.staged);
    if phase.compaction.Some? {
      MaybeCompactComplete(setup, Executed(ms, phase) + phase.staged, phase.compaction.value);
    }
  }

  lemma MaybeCompactComplete(setup: Setup, ms: seq<Message>, input: CompactionInput)
    requires ToolComplete(ms)
    ensures ToolComplete(MaybeCompact(setup.systemPrompt, setup.toolsJson, ms, input))
  {
    hide ToolComplete, SafeCompact, CalibratedEstimate, Estimate, ShouldCompact;
    CompactionKeepsToolComplete(ms, input);
  }

  predicate PhasesOk(phases: seq<Phase>) {
    forall k :: 0 <= k < |phases| ==> PhaseOk(phases[k])
  }

  /** The loop's messages as a function of the history it started from and the first `n` tool phases:
      no guard, no corrective retry and no channel context takes part. */
  function MessagesAfter(setup: Setup, initial: seq<Message>, phases: seq<Phase>, n: nat): seq<Message>
    requires n <= |phases|
  {
    if n == 0 then initial else AfterPhase(setup, MessagesAfter(setup, initial, phases, n - 1), phases[n - 1])
  }

  /** What the first `n` phases add: each its call, the results and the follow-ups. */
  function AddedBy(phases: seq<Phase>, n: nat): seq<Message>
    requires n <= |phases|
  {
    if n == 0 then []
    else AddedBy(phases, n - 1) + [phases[n - 1].assistant] + phases[n - 1].results + phases[n - 1].staged
  }

  /** Where nothing is compacted, nothing else is ever added and nothing is taken away. */
  lemma {:induction false} MessagesUncompacted(setup: Setup, initial: seq<Message>, phases: seq<Phase>, n: nat)
    requires n <= |phases| && forall k :: 0 <= k < n ==> phases[k].compaction.None?
    ensures MessagesAfter(setup, initial, phases, n) == initial + AddedBy(phases, n)
  {
    if n > 0 { MessagesUncompacted(setup, initial, phases, n - 1); }
  }

  lemma {:induction false} MessagesAfterComplete(setup: Setup, initial: seq<Message>, phases: seq<Phase>, n: nat)
    requires ToolComplete(initial) && PhasesOk(phases) && n <= |phases|
    ensures ToolComplete(MessagesAfter(setup, initial, phases, n))
  {
    hide ToolComplete, AfterPhase, PhaseOk;
    if n > 0 {
      MessagesAfterComplete(setup, initial, phases, n - 1);
      PhaseKeepsToolComplete(setup, MessagesAfter(setup, initial, phases, n - 1), phases[n - 1]);
    }
  }

  lemma {:induction false} MessagesAfterPrefix(
      setup: Setup, initial: seq<Message>, phases: seq<Phase>, phase: Phase, n: nat)
    requires n <= |phases|
    ensures MessagesAfter(setup, initial, phases + [phase], n) == MessagesAfter(setup, initial, phases, n)
  {
    hide AfterPhase;
    if n > 0 { MessagesAfterPrefix(setup, initial, phases, phase, n - 1); }
  }

  ghost predicate RequestsOk(setup: Setup, initial: seq<Message>, phases: seq<Phase>, requests: seq<Request>) {
    forall k :: 0 <= k < |requests| ==>
      requests[k].phases <= |phases| &&
      IsRequest(setup, MessagesAfter(setup, initial, phases, requests[k].phases), requests[k])
  }

  /** Over a whole run: every request that went out was tool-complete. */
  lemma RequestsToolComplete(setup: Setup, initial: seq<Message>, phases: seq<Phase>, requests: seq<Request>)
    requires ToolComplete(initial) && ContextOk(setup) && PhasesOk(phases) &&
      RequestsOk(setup, initial, phases, requests)
    ensures forall k :: 0 <= k < |requests| ==> ToolComplete(requests[k].messages)
  {
    hide ToolComplete, IsRequest, PhasesOk, ContextOk;
    forall k | 0 <= k < |requests| ensures ToolComplete(requests[k].messages) {
      MessagesAfterComplete(setup, initial, phases, requests[k].phases);
      RequestToolComplete(setup, MessagesAfter(setup, initial, phases, requests[k].phases), requests[k]);
    }
  }

  lemma RequestsGrow(
    setup: Setup, initial: seq<Message>, phases: seq<Phase>, requests: seq<Request>, more: seq<Request>)
    requires RequestsOk(setup, initial, phases, requests)
    requires forall k :: 0 <= k < |more| ==>
      more[k].phases == |phases| && IsRequest(setup, MessagesAfter(setup, initial, phases, |phases|), more[k])
    ensures RequestsOk(setup, initial, phases, requests + more)
  {
    hide IsRequest, MessagesAfter;
  }

  lemma PhasesGrow(setup: Setup, initial: seq<Message>, phases: seq<Phase>, requests: seq<Request>, phase: Phase)
    requires RequestsOk(setup, initial, phases, requests) && PhasesOk(phases) && PhaseOk(phase)
    ensures RequestsOk(setup, initial, phases + [phase], requests) && PhasesOk(phases + [phase])
    ensures MessagesAfter(setup, initial, phases + [phase], |phases| + 1) ==
      AfterPhase(setup, MessagesAfter(setup, initial, phases, |phases|), phase)
  {
    hide IsRequest, AfterPhase, PhaseOk;
    forall k | 0 <= k < |requests|
      ensures MessagesAfter(setup, initial, phases + [phase], requests[k].phases) ==
        MessagesAfter(setup, initial, phases, requests[k].phases)
    {
      MessagesAfterPrefix(setup, initial, phases, phase, requests[k].phases);
    }
    MessagesAfterPrefix(setup, initial, phases, phase, |phases|);
  }

  // ---------------------------------------------------------------- streamed messages

  function Times(events: seq<LoopEvent>, e: LoopEvent): nat { multiset(events)[e] }

  function Endings(events: seq<LoopEvent>, id: string): nat {
    Times(events, Discarded(id)) + Times(events, PhasePersisted(id))
  }

  /** A message that was streamed has ended exactly once, and nothing is discarded that was not shown. */
  predicate EndedOnce(events: seq<LoopEvent>, id: string) {
    Times(events, Streamed(id)) <= 1 && Times(events, Discarded(id)) <= Times(events, Streamed(id)) &&
    Endings(events, id) <= 1 && (Times(events, Streamed(id)) == 1 ==> Endings(events, id) == 1)
  }

  predicate Untouched(events: seq<LoopEvent>, id: string) {
    Times(events, Streamed(id)) == 0 && Endings(events, id) == 0
  }

  /** Iterations before `next` are settled, later ones have not started. */
  ghost predicate Settled(turn: string, next: nat, events: seq<LoopEvent>) {
    (forall i: nat :: i < next ==> EndedOnce(events, MessageId(turn, i))) &&
    (forall i: nat :: i >= next ==> Untouched(events, MessageId(turn, i)))
  }

  /** As `Settled`, with the message of iteration `last` shown at most once and left to be stored. */
  ghost predicate SettledBut(turn: string, last: nat, events: seq<LoopEvent>) {
    (forall i: nat :: i < last ==> EndedOnce(events, MessageId(turn, i))) &&
    Times(events, Streamed(MessageId(turn, last))) <= 1 && Endings(events, MessageId(turn, last)) == 0 &&
    (forall i: nat :: i > last ==> Untouched(events, MessageId(turn, i)))
  }

  predicate OnlyAbout(events: seq<LoopEvent>, id: string) {
    forall k :: 0 <= k < |events| ==> events[k].id == id
  }

  lemma OtherIdsUnchanged(events: seq<LoopEvent>, more: seq<LoopEvent>, id: string, other: string)
    requires OnlyAbout(more, id) && other != id
    ensures Times(events + more, Streamed(other)) == Times(events, Streamed(other))
    ensures Times(events + more, Discarded(other)) == Times(events, Discarded(other))
    ensures Endings(events + more, other) == Endings(events, other)
  {
    forall e: LoopEvent | e.id == other ensures Times(events + more, e) == Times(events, e) {
      assert e !in more;
    }
  }

  lemma OthersStaySettled(turn: string, next: nat, events: seq<LoopEvent>, more: seq<LoopEvent>)
    requires Settled(turn, next, events) && OnlyAbout(more, MessageId(turn, next))
    ensures forall i: nat :: i < next ==> EndedOnce(events + more, MessageId(turn, i))
    ensures forall i: nat :: i > next ==> Untouched(events + more, MessageId(turn, i))
  {
    hide MessageId, Times, Endings, OnlyAbout;
    forall i: nat | i != next
      ensures i < next ==> EndedOnce(events + more, MessageId(turn, i))
      ensures i > next ==> Untouched(events + more, MessageId(turn, i))
    {
      if MessageId(turn, i) == MessageId(turn, next) { MessageIdsDiffer(turn, i, next); }
      OtherIdsUnchanged(events, more, MessageId(turn, next), MessageId(turn, i));
    }
  }

  function Shown(streamed: bool, id: string): seq<LoopEvent> {
    if streamed then [Streamed(id)] else []
  }

  lemma ShownStep(turn: string, next: nat, events: seq<LoopEvent>, streamed: bool)
    requires Settled(turn, next, events)
    ensures SettledBut(turn, next, events + Shown(streamed, MessageId(turn, next)))
  {
    hide MessageId;
    OthersStaySettled(turn, next, events, Shown(streamed, MessageId(turn, next)));
    assert Untouched(events, MessageId(turn, next));
  }

  lemma EndedHere(events: seq<LoopEvent>, more: seq<LoopEvent>, id: string, streamed: bool)
    requires Untouched(events, id)
    requires more == [PhasePersisted(id)] || more == [Streamed(id), PhasePersisted(id)] ||
      more == [Streamed(id), Discarded(id)] || more == []
    ensures EndedOnce(events + more, id)
  {
  }

  /** A retried iteration drops what it streamed. */
  lemma RetryStep(turn: string, next: nat, events: seq<LoopEvent>, streamed: bool)
    requires Settled(turn, next, events)
    ensures var id := MessageId(turn, next);
      Settled(turn, next + 1, events + Shown(streamed, id) + (if streamed then [Discarded(id)] else []))
  {
    hide MessageId, EndedOnce, Untouched;
    var id := MessageId(turn, next);
    var more := if streamed then [Streamed(id), Discarded(id)] else [];
    assert events + Shown(streamed, id) + (if streamed then [Discarded(id)] else []) == events + more;
    OthersStaySettled(turn, next, events, more);
    EndedHere(events, more, id, streamed);
  }

  /** A tool phase stores its assistant message under the id it streamed under. */
  lemma PhaseStep(turn: string, next: nat, events: seq<LoopEvent>, streamed: bool)
    requires Settled(turn, next, events)
    ensures var id := MessageId(turn, next);
      Settled(turn, next + 1, events + Shown(streamed, id) + [PhasePersisted(id)])
  {
    hide MessageId, EndedOnce, Untouched;
    var id := MessageId(turn, next);
    var more := if streamed then [Streamed(id), PhasePersisted(id)] else [PhasePersisted(id)];
    assert events + Shown(streamed, id) + [PhasePersisted(id)] == events + more;
    OthersStaySettled(turn, next, events, more);
    EndedHere(events, more, id, streamed);
  }

  // ---------------------------------------------------------------- steps of a reply

  /** What a tool phase starts from: the assistant message carries exactly the kept calls. */
  ghost predicate IsToolStep(step: Step) {
    step.ToolPhase? && step.assistant.role.Assistant? && step.assistant.toolCalls == step.toolCalls &&
    |step.toolCalls| > 0 && DistinctIds(step.toolCalls) &&
    forall k :: 0 <= k < |step.toolCalls| ==> IsValidCall(step.toolCalls[k])
  }

  /** The retry loop of one iteration: text is streamed, no limit is set on a wait. */
  function IterationOf(s: Surroundings, full: seq<Message>): Iteration {
    Iteration(full, true, None, s.clock, s.provider, s.pauses)
  }

  function AsSent(q: Request): Sent { Sent(q.messages, q.at, false) }

  /** What the last request of an iteration brings: its step, or its own error. */
  ghost predicate Brings(s: Surroundings, q: Request, r: Result<Step, RunError>) {
    match r
    case Ok(step) => Reports(IterationOf(s, q.full), q.number, AsSent(q), Ok(step))
    case Err(ModelFailed(error)) =>
      Reports(IterationOf(s, q.full), q.number, AsSent(q), Err(IterationError(error, s.provider(q.number).streams)))
    case Err(_) => false
  }

  /** The requests of one iteration: numbered, and each but the first follows for cause from the one before. */
  ghost predicate IsChain(t: Iteration, i: nat, sent: seq<Request>) {
    (forall k :: 0 <= k < |sent| ==> sent[k].iteration == i && sent[k].number == k && sent[k].full == t.ms) &&
    (|sent| > 0 ==> sent[0].messages == t.ms && sent[0].at == t.started) &&
    forall k :: 0 <= k < |sent| - 1 ==> Continues(t, k, AsSent(sent[k]), AsSent(sent[k + 1]))
  }

  /** The requests as the retry loop counts them make a chain. */
  lemma ChainedRequests(t: Iteration, i: nat, sends: seq<Sent>, sent: seq<Request>)
    requires Chained(t, sends) && |sends| == |sent|
    requires forall k :: 0 <= k < |sent| ==>
      sent[k].iteration == i && sent[k].number == k && sent[k].full == t.ms &&
      sent[k].messages == sends[k].messages && sent[k].at == sends[k].at
    ensures IsChain(t, i, sent)
    ensures forall k :: 0 <= k < |sent| ==>
      AsSent(sent[k]) == sends[k] && (sent[k].messages == t.ms || IsGuarded(t.ms, sent[k].messages))
  {
    hide Continues, IsGuarded;
    forall k | 0 <= k < |sent|
      ensures AsSent(sent[k]) == sends[k] && (sent[k].messages == t.ms || IsGuarded(t.ms, sent[k].messages))
    {
      ChainCarries(t, sends, k);
    }
    forall k | 0 <= k < |sent| - 1 ensures Continues(t, k, AsSent(sent[k]), AsSent(sent[k + 1])) {
      assert Continues(t, k, sends[k], sends[k + 1]);
    }
  }

  lemma ReportedFlag(t: Iteration, i: nat, sent: Sent, error: IterationError)
    requires Reports(t, i, sent, Err(error))
    ensures error == IterationError(error.error, t.publish && t.provider(i).streams)
  {
    hide SaysNothing, CanWait, EMPTY_AFTER_OUTPUT, EMPTY_AFTER_RETRY;
  }

  lemma AnsweredStep(s: Surroundings, q: Request, step: Step)
    requires Brings(s, q, Ok(step))
    ensures IsReply(s.provider, step)
    ensures step.Final? ==> !Blank(step.content)
    ensures step.ToolPhase? ==> IsToolStep(step)
  {
    hide VisibleText, KeptCalls, PreviewOf, Names, CanWait, EMPTY_AFTER_OUTPUT, EMPTY_AFTER_RETRY;
    if step.ToolPhase? { KeptAreValid(s.provider(q.number).answer.value.toolCalls, step.toolCalls); }
  }

  lemma KeptAreValid(calls: seq<ToolCall>, kept: seq<ToolCall>)
    requires KeptCalls(calls, kept)
    ensures DistinctIds(kept) && forall k :: 0 <= k < |kept| ==> IsValidCall(kept[k])
  {
    hide IsBlank, AppearsFirst;
    forall k | 0 <= k < |kept| ensures IsValidCall(kept[k]) { assert IsLatest(calls, kept[k]); }
  }

  lemma CalledStepLoadable(ms: seq<Message>, step: Step)
    requires ToolComplete(ms) && IsToolStep(step)
    ensures Loadable(ms + [step.assistant])
  {
    hide Loadable, ToolComplete;
    var results := seq(|step.toolCalls|, k requires 0 <= k < |step.toolCalls| =>
      Message(Tool, Plain(""), None, [], Some(step.toolCalls[k].id)));
    CalledIsLoadable(ms, Phase(0, 0, step.assistant, results, [], None));
  }

  /** The result messages of one executed phase. */
  function ResultsOf(tools: ToolExecution.Env, calls: seq<ToolCall>, denials: nat): (results: seq<Message>)
    ensures |results| == |calls|
  {
    seq(|calls|, k requires 0 <= k < |calls| => ToolExecution.OutcomeOf(tools, calls, denials, k).message)
  }

  lemma ResultsAnswer(tools: ToolExecution.Env, step: Step, denials: nat, phase: Phase)
    requires IsToolStep(step) && AreTexts(phase.staged)
    requires phase.assistant == step.assistant && phase.results == ResultsOf(tools, step.toolCalls, denials)
    ensures PhaseOk(phase)
  {
    hide ToolExecution.OutcomeOf;
    forall i: nat | i < |step.toolCalls|
      ensures ToolExecution.AnswersCall(ToolExecution.OutcomeOf(tools, step.toolCalls, denials, i), step.toolCalls[i])
    {
      ToolExecution.OutcomeAnswersCall(tools, step.toolCalls, denials, i);
    }
  }

  ghost predicate IsReply(provider: nat -> Behaviour, step: Step) {
    exists n: nat :: provider(n).answer.Ok? && StepIs(provider(n).answer.value, step)
  }

  /** The result messages of one phase are what the executor returned for its calls, and its refusals are
      the ones counted afterwards. */
  ghost predicate ResultsTold(
      tools: ToolExecution.Env, calls: seq<ToolCall>, before: nat, results: seq<Message>, after: nat)
  {
    exists outs: seq<ToolExecution.Executed>, happened ::
      ToolExecution.AllTold(tools, calls, before, outs, happened) && |results| == |outs| &&
      (forall k :: 0 <= k < |results| ==> results[k] == outs[k].message) &&
      if !tools.tracked then after == before
      else
        var told := before + ToolExecution.DeniedAmong(outs);
        after == told || (after >= 3 && told >= 3)
  }

  /** Everything a phase adds comes from where it should: the assistant message from a reply of its
      iteration, the results from the executor, the follow-ups from the staged ones. */
  ghost predicate PhaseFrom(world: nat -> Surroundings, phase: Phase) {
    var s := world(phase.iteration);
    (exists step :: IsReply(s.provider, step) && step.ToolPhase? && step.assistant == phase.assistant) &&
    phase.results == ResultsOf(s.tools, phase.assistant.toolCalls, phase.denials) &&
    ResultsTold(s.tools, phase.assistant.toolCalls, phase.denials, phase.results,
                DenialsIn(s.tools, phase.assistant.toolCalls, phase.denials)) &&
    phase.staged == StagedMessagesOf(s.staged) && phase.compaction == s.compaction
  }

  /** Denials counted by the run's one tracker after the first `n` phases. */
  function DenialsAfter(world: nat -> Surroundings, phases: seq<Phase>, n: nat): nat
    requires n <= |phases|
  {
    if n == 0 then 0
    else
      var phase := phases[n - 1];
      DenialsIn(world(phase.iteration).tools, phase.assistant.toolCalls, DenialsAfter(world, phases, n - 1))
  }

  function DenialsIn(tools: ToolExecution.Env, calls: seq<ToolCall>, before: nat): nat {
    ToolExecution.Denials(tools, calls, before, |calls|)
  }

  ghost predicate PhasesFrom(world: nat -> Surroundings, phases: seq<Phase>) {
    forall k :: 0 <= k < |phases| ==> PhaseFrom(world, phases[k]) && phases[k].denials == DenialsAfter(world, phases, k)
  }

  /** Phases belong to rising iterations. */
  predicate Rising(start: nat, phases: seq<Phase>) {
    forall k :: 0 <= k < |phases| ==>
      start <= phases[k].iteration && (k > 0 ==> phases[k - 1].iteration < phases[k].iteration)
  }

  /** Each request knows how many denials were counted when it was built. */
  ghost predicate RequestsCounted(world: nat -> Surroundings, phases: seq<Phase>, requests: seq<Request>) {
    forall k :: 0 <= k < |requests| ==>
      requests[k].phases <= |phases| && requests[k].denials == DenialsAfter(world, phases, requests[k].phases)
  }

  lemma {:induction false} DenialsAfterPrefix(world: nat -> Surroundings, phases: seq<Phase>, phase: Phase, n: nat)
    requires n <= |phases|
    ensures DenialsAfter(world, phases + [phase], n) == DenialsAfter(world, phases, n)
  {
    hide DenialsIn;
    if n > 0 { DenialsAfterPrefix(world, phases, phase, n - 1); }
  }

  lemma PhaseIsFrom(world: nat -> Surroundings, step: Step, phase: Phase)
    requires step.ToolPhase? && IsToolStep(step)
    requires var s := world(phase.iteration);
      IsReply(s.provider, step) && phase == Phase(phase.iteration, phase.denials, step.assistant,
        ResultsOf(s.tools, step.toolCalls, phase.denials), StagedMessagesOf(s.staged), s.compaction) &&
      ResultsTold(s.tools, step.toolCalls, phase.denials, phase.results,
                  DenialsIn(s.tools, step.toolCalls, phase.denials))
    ensures PhaseFrom(world, phase) && phase.assistant.toolCalls == step.toolCalls
  {
    hide IsReply, ResultsOf, StagedMessagesOf, ResultsTold, DenialsIn;
  }

  lemma DenialsAfterNext(world: nat -> Surroundings, phases: seq<Phase>, phase: Phase)
    ensures DenialsAfter(world, phases + [phase], |phases| + 1) ==
      DenialsIn(world(phase.iteration).tools, phase.assistant.toolCalls, DenialsAfter(world, phases, |phases|))
  {
    hide DenialsIn;
    DenialsAfterPrefix(world, phases, phase, |phases|);
  }

  lemma CountsKept(world: nat -> Surroundings, phases: seq<Phase>, requests: seq<Request>, phase: Phase)
    requires RequestsCounted(world, phases, requests)
    ensures RequestsCounted(world, phases + [phase], requests)
  {
    hide DenialsAfter;
    forall k | 0 <= k < |requests|
      ensures requests[k].denials == DenialsAfter(world, phases + [phase], requests[k].phases)
    {
      DenialsAfterPrefix(world, phases, phase, requests[k].phases);
    }
  }

  lemma PhasesFromGrow(world: nat -> Surroundings, phases: seq<Phase>, phase: Phase)
    requires PhasesFrom(world, phases) && PhaseFrom(world, phase) &&
      phase.denials == DenialsAfter(world, phases, |phases|)
    ensures PhasesFrom(world, phases + [phase])
  {
    hide PhaseFrom, DenialsAfter;
    var all := phases + [phase];
    forall k | 0 <= k < |all| ensures PhaseFrom(world, all[k]) && all[k].denials == DenialsAfter(world, all, k) {
      DenialsAfterPrefix(world, phases, phase, k);
      if k < |phases| { assert all[k] == phases[k]; }
    }
  }

  function StagedMessagesOf(staged: seq<string>): (ms: seq<Message>)
    ensures AreTexts(ms) && |ms| == |staged|
    ensures forall k :: 0 <= k < |ms| ==> ms[k] == Message(User, Plain(staged[k]), None, [], None)
  {
    seq(|staged|, k requires 0 <= k < |staged| => TextMessage(User, staged[k]))
  }

  // ---------------------------------------------------------------- the loop

  predicate Blank(content: string) { IsBlank(VisibleText(content)) }

  lemma TrimTwice(s: string)
    ensures Trim(Trim(s)) == Trim(s)
  {
    assert IsTrimmed(Trim(s));
    TrimOfTrimmed(Trim(s));
  }

  /** The visible text is what the reply shows. */
  lemma ShownText(content: string)
    ensures forall shown :: Thinking.Shows(content, shown) ==>
      VisibleText(content) == Trim(shown) && Trim(VisibleText(content)) == Trim(shown) &&
      (Blank(content) <==> IsBlank(shown))
  {
    hide Thinking.Shows, VisibleText, Trim, IsBlank;
    forall shown | Thinking.Shows(content, shown)
      ensures VisibleText(content) == Trim(shown) && Trim(VisibleText(content)) == Trim(shown)
      ensures Blank(content) <==> IsBlank(shown)
    {
      Thinking.VisibleTextShows(content, shown);
      TrimTwice(shown);
    }
  }

  ghost predicate CommitsOk(commits: seq<seq<Message>>) {
    forall k :: 0 <= k < |commits| ==> Loadable(commits[k])
  }

  /** The loop's state and trace as a value. */
  datatype View = View(
    messages: seq<Message>, retryMessages: Option<seq<Message>>, retryAttempted: bool, denials: nat,
    phases: seq<Phase>, requests: seq<Request>, events: seq<LoopEvent>)

  /** One run: who it is for, what it meets, what it started from. */
  datatype Course = Course(setup: Setup, world: nat -> Surroundings, history: seq<Message>, start: nat)

  ghost predicate WorldOk(s: Surroundings) {
    ToolExecution.Scheduled(s.tools) && (s.compaction.Some? ==> s.compaction.value.factor >= 0.0)
  }

  ghost predicate CourseOk(c: Course) {
    ToolComplete(c.history) && ContextOk(c.setup) && forall i: nat :: WorldOk(c.world(i))
  }

  /** Where the requests come from and what the phases are made of. */
  ghost predicate RecordOk(c: Course, phases: seq<Phase>, requests: seq<Request>) {
    PhasesOk(phases) && PhasesFrom(c.world, phases) && Rising(c.start, phases) &&
    RequestsOk(c.setup, c.history, phases, requests) && RequestsCounted(c.world, phases, requests) &&
    Linked(c.world, requests) && SetOut(c, phases, requests)
  }

  // ---- how an iteration ends

  /** The tool phase of one iteration, given the step it starts from. */
  function PhaseOf(iteration: nat, denials: nat, step: Step, s: Surroundings): Phase
    requires step.ToolPhase?
  {
    Phase(iteration, denials, step.assistant, ResultsOf(s.tools, step.toolCalls, denials), StagedMessagesOf(s.staged),
          s.compaction)
  }

  /** A tool phase is given up exactly when a storage call on its way fails, in the executor or around it. */
  ghost predicate PhaseFails(s: Surroundings, calls: seq<ToolCall>, denials: nat) {
    !s.storageOk(CompleteModel) || !s.storageOk(BeginTools) || !s.storageOk(PersistCall) ||
    ToolExecution.ExecutionFails(s.tools, calls, denials) || !s.storageOk(PersistResults) ||
    !s.storageOk(CompleteTools) || !s.storageOk(StagedMessages)
  }

  /** The snapshots a phase stores: its calls, its results, its follow-ups if there are any. */
  function PhaseStores(ms: seq<Message>, phase: Phase): seq<seq<Message>> {
    [Called(ms, phase), Executed(ms, phase)] +
    if |phase.staged| > 0 then [Executed(ms, phase) + phase.staged] else []
  }

  /** How many of them it gets to. */
  ghost function StoresMade(s: Surroundings, calls: seq<ToolCall>, denials: nat): nat {
    if !s.storageOk(CompleteModel) || !s.storageOk(BeginTools) || !s.storageOk(PersistCall) then 0
    else if ToolExecution.ExecutionFails(s.tools, calls, denials) || !s.storageOk(PersistResults) then 1
    else if !s.storageOk(CompleteTools) || !s.storageOk(StagedMessages) || |s.staged| == 0 then 2
    else 3
  }

  ghost predicate IsLastRequest(requests: seq<Request>, q: Request) {
    q in requests && forall p :: p in requests && p.iteration == q.iteration ==> p.number <= q.number
  }

  /** The last request of iteration `i` brought `r`. */
  ghost predicate Brought(c: Course, requests: seq<Request>, i: nat, r: Result<Step, RunError>) {
    exists q :: IsLastRequest(requests, q) && q.iteration == i && Brings(c.world(i), q, r)
  }

  predicate PhaseAt(phases: seq<Phase>, i: nat) {
    exists k :: 0 <= k < |phases| && phases[k].iteration == i
  }

  /** Whether iteration `i` is itself a corrective retry: the one before it ended without a tool phase. */
  predicate IsRetry(c: Course, phases: seq<Phase>, i: nat) {
    c.start < i && !PhaseAt(phases, i - 1)
  }

  /** A reply that only announces work, with text to show. */
  predicate Announces(setup: Setup, step: Step) {
    !step.ToolPhase? && !Blank(step.content) && setup.isDeclarative(VisibleText(step.content))
  }

  /** It is the text the reply shows that is looked at. */
  lemma AnnouncesShown(setup: Setup, step: Step, shown: string)
    requires !step.ToolPhase? && Thinking.Shows(step.content, shown)
    ensures Announces(setup, step) <==> !IsBlank(shown) && setup.isDeclarative(Trim(shown))
  {
    hide Thinking.Shows, VisibleText, Trim, IsBlank;
    ShownText(step.content);
  }

  /** The loop goes on after iteration `i` only for a finished tool phase, or to correct an announcement once. */
  ghost predicate GoesOn(c: Course, phases: seq<Phase>, requests: seq<Request>, i: nat) {
    var s := c.world(i);
    exists step ::
      Brought(c, requests, i, Ok(step)) &&
      if step.ToolPhase? then
        exists k :: 0 <= k < |phases| && phases[k].iteration == i &&
          phases[k] == PhaseOf(i, phases[k].denials, step, s) &&
          !PhaseFails(s, step.toolCalls, phases[k].denials)
      else
        Announces(c.setup, step) && s.storageOk(CompleteModel) && !IsRetry(c, phases, i) && !PhaseAt(phases, i)
  }

  /** The answer is the visible text of what iteration `i` brought, and the loop had no reason to go on. */
  ghost predicate Answered(c: Course, phases: seq<Phase>, requests: seq<Request>, i: nat, answer: LoopResult) {
    exists step ::
      Brought(c, requests, i, Ok(step)) && Speaks(step, answer) && c.world(i).storageOk(CompleteModel) &&
      (Announces(c.setup, step) ==> IsRetry(c, phases, i))
  }

  /** Every error has its cause in iteration `i`. */
  ghost predicate Failed(c: Course, phases: seq<Phase>, requests: seq<Request>, i: nat, error: RunError) {
    var s := c.world(i);
    match error
    case ModelFailed(_) => s.storageOk(BeginModel) && Brought(c, requests, i, Err(error))
    case StorageFailed =>
      !s.storageOk(BeginModel) ||
      exists step ::
        Brought(c, requests, i, Ok(step)) &&
        if step.ToolPhase? then PhaseFails(s, step.toolCalls, DenialsAfter(c.world, phases, |phases|))
        else !s.storageOk(CompleteModel)
    case EmptyAnswer(message) =>
      exists step ::
        Brought(c, requests, i, Ok(step)) && step.MalformedToolCalls? && Blank(step.content) &&
        (forall shown :: Thinking.Shows(step.content, shown) ==> IsBlank(shown)) &&
        s.storageOk(CompleteModel) && message == ALL_CALLS_MALFORMED
    case TooManyIterations => false
  }

  /** The run came as far as iteration `next`. */
  ghost predicate WentOn(c: Course, phases: seq<Phase>, requests: seq<Request>, next: nat) {
    (forall i: nat :: c.start <= i < next ==> GoesOn(c, phases, requests, i)) &&
    (forall q :: q in requests ==> q.iteration < next) && (forall k :: 0 <= k < |phases| ==> phases[k].iteration < next)
  }

  /** The run ended in iteration `last` with `r`, and no iteration before it could have ended it. */
  ghost predicate Ends(
      c: Course, phases: seq<Phase>, requests: seq<Request>, last: nat, r: Result<LoopResult, RunError>)
  {
    c.start <= last <= 50 &&
    (forall i: nat :: c.start <= i < last ==> GoesOn(c, phases, requests, i)) &&
    match r
    case Ok(answer) => Answered(c, phases, requests, last, answer)
    case Err(error) => Failed(c, phases, requests, last, error)
  }

  /** A run that gives no answer failed in its last iteration, or used up every iteration there is. */
  ghost predicate Stopped(c: Course, phases: seq<Phase>, requests: seq<Request>, error: RunError) {
    if error.TooManyIterations? then
      WentOn(c, phases, requests, 51) || c.start > 50
    else exists last: nat :: Ends(c, phases, requests, last, Err(error))
  }

  lemma BroughtNow(
      c: Course, phases: seq<Phase>, requests: seq<Request>, next: nat, sent: seq<Request>, r: Result<Step, RunError>)
    requires WentOn(c, phases, requests, next) && IterationSent(c.world(next), next, sent, r)
    ensures Brought(c, requests + sent, next, r)
  {
    hide GoesOn, Brings;
    assert IsLastRequest(requests + sent, sent[|sent| - 1]);
  }

  /** The requests of one iteration, and what they led to. */
  ghost predicate IterationSent(s: Surroundings, i: nat, sent: seq<Request>, r: Result<Step, RunError>) {
    |sent| > 0 && (forall k :: 0 <= k < |sent| ==> sent[k].iteration == i && sent[k].number == k) &&
    Brings(s, sent[|sent| - 1], r)
  }

  lemma BroughtKept(c: Course, requests: seq<Request>, sent: seq<Request>, next: nat, i: nat, r: Result<Step, RunError>)
    requires Brought(c, requests, i, r) && i < next && forall q :: q in sent ==> q.iteration == next
    ensures Brought(c, requests + sent, i, r)
  {
    hide Brings;
    var q :| IsLastRequest(requests, q) && q.iteration == i && Brings(c.world(i), q, r);
    assert IsLastRequest(requests + sent, q);
  }

  /** Request `k` opens its iteration, or follows for cause from the request before it. */
  ghost predicate LinkedAt(world: nat -> Surroundings, requests: seq<Request>, k: nat)
    requires k < |requests|
  {
    var q := requests[k];
    if q.number == 0 then
      q.messages == q.full && q.at == world(q.iteration).clock && (k > 0 ==> requests[k - 1].iteration < q.iteration)
    else
      k > 0 &&
      var p := requests[k - 1];
      p.iteration == q.iteration && p.number + 1 == q.number && p.full == q.full &&
      Continues(IterationOf(world(q.iteration), q.full), p.number, AsSent(p), AsSent(q))
  }

  ghost predicate Linked(world: nat -> Surroundings, requests: seq<Request>) {
    forall k: nat :: k < |requests| ==> LinkedAt(world, requests, k)
  }

  lemma LinkedGrow(
      world: nat -> Surroundings, requests: seq<Request>, next: nat, full: seq<Message>, sent: seq<Request>)
    requires Linked(world, requests) && IsChain(IterationOf(world(next), full), next, sent)
    requires forall q :: q in requests ==> q.iteration < next
    ensures Linked(world, requests + sent)
  {
    hide Continues;
    var all := requests + sent;
    forall k: nat | k < |all| ensures LinkedAt(world, all, k) {
      if k < |requests| {
        assert LinkedAt(world, requests, k);
        assert all[k] == requests[k] && (k > 0 ==> all[k - 1] == requests[k - 1]);
      } else {
        var j := k - |requests|;
        assert all[k] == sent[j] && (j > 0 ==> all[k - 1] == sent[j - 1]);
        if j > 0 {
          assert Continues(IterationOf(world(next), full), j - 1, AsSent(sent[j - 1]), AsSent(sent[j]));
        } else if k > 0 {
          assert all[k - 1] in requests;
        }
      }
    }
  }

  /** The loop's messages with the reply rejected: announced only, or with calls none of which is valid. */
  function Rejected(setup: Setup, ms: seq<Message>, step: Step): seq<Message>
    requires !step.ToolPhase?
  {
    Rejection(setup, ms, step.content, step.reasoning, if step.Final? then OnlyDeclared else NoValidCall)
  }

  /** `retry` corrects the reply of the iteration before `next`. */
  ghost predicate Corrects(c: Course, requests: seq<Request>, next: nat, ms: seq<Message>, retry: seq<Message>) {
    next > 0 &&
    exists step ::
      Brought(c, requests, next - 1, Ok(step)) && !step.ToolPhase? && retry == Rejected(c.setup, ms, step)
  }

  lemma CorrectsIsBase(c: Course, requests: seq<Request>, next: nat, ms: seq<Message>, retry: seq<Message>)
    requires Corrects(c, requests, next, ms, retry)
    ensures IsBase(c.setup, ms, retry)
  {
    hide Brought, Rejection;
    var step :| Brought(c, requests, next - 1, Ok(step)) && !step.ToolPhase? && retry == Rejected(c.setup, ms, step);
    var guard := if step.Final? then OnlyDeclared else NoValidCall;
    assert retry == Rejection(c.setup, ms, step.content, step.reasoning, guard);
  }

  lemma CorrectsKept(
      c: Course, requests: seq<Request>, sent: seq<Request>, next: nat, i: nat, ms: seq<Message>, retry: seq<Message>)
    requires Corrects(c, requests, i, ms, retry) && i <= next && forall q :: q in sent ==> q.iteration == next
    ensures Corrects(c, requests + sent, i, ms, retry)
  {
    hide Brought, Rejected;
    var step :| Brought(c, requests, i - 1, Ok(step)) && !step.ToolPhase? && retry == Rejected(c.setup, ms, step);
    BroughtKept(c, requests, sent, next, i - 1, Ok(step));
  }

  /** What the iteration of `q` set out with: a corrective retry with the rejected reply of the iteration
      before it, any other one with the history and the phases behind it, and nothing else. */
  ghost predicate SetOutAt(c: Course, phases: seq<Phase>, requests: seq<Request>, q: Request) {
    q.phases <= |phases| &&
    var ms := MessagesAfter(c.setup, c.history, phases, q.phases);
    exists base ::
      IsFull(c.setup, base, q.iteration, q.denials, q.full) &&
      if IsRetry(c, phases, q.iteration) then Corrects(c, requests, q.iteration, ms, base) else base == ms
  }

  ghost predicate SetOut(c: Course, phases: seq<Phase>, requests: seq<Request>) {
    forall q :: q in requests ==> SetOutAt(c, phases, requests, q)
  }

  /** Later requests change nothing about it, ... */
  lemma SetOutSends(
      c: Course, phases: seq<Phase>, requests: seq<Request>, next: nat, sent: seq<Request>, q: Request)
    requires SetOutAt(c, phases, requests, q) && q.iteration <= next && forall p :: p in sent ==> p.iteration == next
    ensures SetOutAt(c, phases, requests + sent, q)
  {
    hide MessagesAfter, IsFull, Corrects, IsRetry;
    var ms := MessagesAfter(c.setup, c.history, phases, q.phases);
    var base :| IsFull(c.setup, base, q.iteration, q.denials, q.full) &&
      if IsRetry(c, phases, q.iteration) then Corrects(c, requests, q.iteration, ms, base) else base == ms;
    if IsRetry(c, phases, q.iteration) { CorrectsKept(c, requests, sent, next, q.iteration, ms, base); }
  }

  /** ... and neither does the phase of its own or of a later iteration. */
  lemma SetOutPhase(
      c: Course, phases: seq<Phase>, requests: seq<Request>, next: nat, phase: Phase, q: Request)
    requires SetOutAt(c, phases, requests, q) && q.iteration <= next && phase.iteration == next
    ensures SetOutAt(c, phases + [phase], requests, q)
  {
    hide MessagesAfter, IsFull, Corrects, PhaseAt;
    MessagesAfterPrefix(c.setup, c.history, phases, phase, q.phases);
    if c.start < q.iteration { PhaseAtKept(phases, [phase], next, q.iteration - 1); }
    assert IsRetry(c, phases + [phase], q.iteration) <==> IsRetry(c, phases, q.iteration);
  }

  lemma SetOutSent(c: Course, phases: seq<Phase>, requests: seq<Request>, next: nat, sent: seq<Request>)
    requires SetOut(c, phases, requests) && (forall q :: q in requests ==> q.iteration < next)
    requires forall q :: q in sent ==> q.iteration == next && SetOutAt(c, phases, requests, q)
    ensures SetOut(c, phases, requests + sent)
  {
    hide SetOutAt;
    forall q | q in requests + sent ensures SetOutAt(c, phases, requests + sent, q) {
      SetOutSends(c, phases, requests, next, sent, q);
    }
  }

  lemma SetOutPhases(c: Course, phases: seq<Phase>, requests: seq<Request>, next: nat, phase: Phase)
    requires SetOut(c, phases, requests) && phase.iteration == next
    requires forall q :: q in requests ==> q.iteration <= next
    ensures SetOut(c, phases + [phase], requests)
  {
    hide SetOutAt;
    forall q | q in requests ensures SetOutAt(c, phases + [phase], requests, q) {
      SetOutPhase(c, phases, requests, next, phase, q);
    }
  }

  /** What an iteration ended with is not undone by later ones. */
  lemma GoesOnKept(
      c: Course, phases: seq<Phase>, requests: seq<Request>, more: seq<Phase>, sent: seq<Request>, next: nat, i: nat)
    requires GoesOn(c, phases, requests, i) && c.start <= i < next && forall q :: q in sent ==> q.iteration == next
    requires forall k :: 0 <= k < |more| ==> more[k].iteration == next
    ensures GoesOn(c, phases + more, requests + sent, i)
  {
    hide Brought, PhaseFails, PhaseOf, Announces, PhaseAt, IsRetry;
    var s := c.world(i);
    var step :|
      Brought(c, requests, i, Ok(step)) &&
      if step.ToolPhase? then
        exists k :: 0 <= k < |phases| && phases[k].iteration == i &&
          phases[k] == PhaseOf(i, phases[k].denials, step, s) &&
          !PhaseFails(s, step.toolCalls, phases[k].denials)
      else
        Announces(c.setup, step) && s.storageOk(CompleteModel) && !IsRetry(c, phases, i) && !PhaseAt(phases, i);
    BroughtKept(c, requests, sent, next, i, Ok(step));
    RetryKept(c, phases, more, next, i);
    if step.ToolPhase? {
      var k :| 0 <= k < |phases| && phases[k].iteration == i && phases[k] == PhaseOf(i, phases[k].denials, step, s) &&
        !PhaseFails(s, step.toolCalls, phases[k].denials);
      assert (phases + more)[k] == phases[k];
    }
  }

  lemma RetryKept(c: Course, phases: seq<Phase>, more: seq<Phase>, next: nat, i: nat)
    requires i < next && forall k :: 0 <= k < |more| ==> more[k].iteration == next
    ensures PhaseAt(phases + more, i) <==> PhaseAt(phases, i)
    ensures IsRetry(c, phases + more, i) <==> IsRetry(c, phases, i)
  {
    PhaseAtKept(phases, more, next, i);
    if i > 0 { PhaseAtKept(phases, more, next, i - 1); }
  }

  lemma PhaseAtKept(phases: seq<Phase>, more: seq<Phase>, next: nat, i: nat)
    requires i < next && forall k :: 0 <= k < |more| ==> more[k].iteration == next
    ensures PhaseAt(phases + more, i) <==> PhaseAt(phases, i)
  {
    if PhaseAt(phases, i) {
      var k :| 0 <= k < |phases| && phases[k].iteration == i;
      assert (phases + more)[k].iteration == i;
    }
  }

  /** All iterations before `next` stay as they ended when iteration `next` sends and finishes a phase. */
  lemma AllGoOnKept(
      c: Course, phases: seq<Phase>, requests: seq<Request>, more: seq<Phase>, sent: seq<Request>, next: nat)
    requires WentOn(c, phases, requests, next) && forall q :: q in sent ==> q.iteration == next
    requires forall k :: 0 <= k < |more| ==> more[k].iteration == next
    ensures forall i: nat :: c.start <= i < next ==> GoesOn(c, phases + more, requests + sent, i)
  {
    hide GoesOn;
    forall i: nat | c.start <= i < next ensures GoesOn(c, phases + more, requests + sent, i) {
      GoesOnKept(c, phases, requests, more, sent, next, i);
    }
  }

  lemma WentOnRetry(c: Course, phases: seq<Phase>, requests: seq<Request>, next: nat, sent: seq<Request>, step: Step)
    requires WentOn(c, phases, requests, next) && IterationSent(c.world(next), next, sent, Ok(step))
    requires Announces(c.setup, step) && c.world(next).storageOk(CompleteModel) && !IsRetry(c, phases, next)
    requires c.start <= next
    ensures WentOn(c, phases, requests + sent, next + 1) && IsRetry(c, phases, next + 1)
  {
    hide GoesOn, Brought, Announces, Brings;
    BroughtNow(c, phases, requests, next, sent, Ok(step));
    AllGoOnKept(c, phases, requests, [], sent, next);
    assert phases + [] == phases;
    assert GoesOn(c, phases, requests + sent, next) by { RetryGoesOn(c, phases, requests + sent, next, step); }
  }

  lemma RetryGoesOn(c: Course, phases: seq<Phase>, requests: seq<Request>, i: nat, step: Step)
    requires Brought(c, requests, i, Ok(step)) && Announces(c.setup, step) && c.world(i).storageOk(CompleteModel)
    requires !IsRetry(c, phases, i) && !PhaseAt(phases, i)
    ensures GoesOn(c, phases, requests, i)
  {
    hide Brought, Blank, IsRetry, PhaseAt;
  }

  lemma WentOnPhase(
      c: Course, phases: seq<Phase>, requests: seq<Request>, next: nat, sent: seq<Request>, step: Step, phase: Phase)
    requires WentOn(c, phases, requests, next) && IterationSent(c.world(next), next, sent, Ok(step))
    requires step.ToolPhase? && phase == PhaseOf(next, phase.denials, step, c.world(next))
    requires !PhaseFails(c.world(next), step.toolCalls, phase.denials) && c.start <= next
    ensures WentOn(c, phases + [phase], requests + sent, next + 1) && !IsRetry(c, phases + [phase], next + 1)
  {
    hide GoesOn, Brought, Brings, PhaseFails, PhaseOf;
    BroughtNow(c, phases, requests, next, sent, Ok(step));
    PhaseGoesOn(c, phases, requests + sent, next, step, phase);
    AllGoOnKept(c, phases, requests, [phase], sent, next);
  }

  lemma PhaseGoesOn(c: Course, phases: seq<Phase>, requests: seq<Request>, i: nat, step: Step, phase: Phase)
    requires Brought(c, requests, i, Ok(step)) && step.ToolPhase? &&
      phase == PhaseOf(i, phase.denials, step, c.world(i))
    requires !PhaseFails(c.world(i), step.toolCalls, phase.denials)
    ensures phase.iteration == i && PhaseAt(phases + [phase], i) && GoesOn(c, phases + [phase], requests, i)
  {
    hide Brought, PhaseFails, ResultsOf, StagedMessagesOf;
    assert (phases + [phase])[|phases|] == phase;
  }

  /** An iteration that ends the run without a tool phase. */
  lemma EndsNow(
      c: Course, phases: seq<Phase>, requests: seq<Request>, next: nat, sent: seq<Request>,
      r: Result<LoopResult, RunError>)
    requires WentOn(c, phases, requests, next) && c.start <= next <= MAX_TOOL_ITERATIONS
    requires forall q :: q in sent ==> q.iteration == next
    requires match r
      case Ok(answer) => Answered(c, phases, requests + sent, next, answer)
      case Err(error) => Failed(c, phases, requests + sent, next, error)
    ensures Ends(c, phases, requests + sent, next, r)
  {
    hide GoesOn, Answered, Failed, WentOn;
    AllGoOnKept(c, phases, requests, [], sent, next);
    assert phases + [] == phases;
  }

  lemma ModelEnds(c: Course, phases: seq<Phase>, requests: seq<Request>, next: nat, sent: seq<Request>, error: RunError)
    requires WentOn(c, phases, requests, next) && c.start <= next <= MAX_TOOL_ITERATIONS
    requires if c.world(next).storageOk(BeginModel) then IterationSent(c.world(next), next, sent, Err(error))
      else error == StorageFailed && |sent| == 0
    ensures Ends(c, phases, requests + sent, next, Err(error))
  {
    hide WentOn, GoesOn, Brought, Ends;
    if c.world(next).storageOk(BeginModel) { BroughtNow(c, phases, requests, next, sent, Err(error)); }
    EndsNow(c, phases, requests, next, sent, Err(error));
  }

  lemma PhaseEnds(c: Course, phases: seq<Phase>, requests: seq<Request>, next: nat, sent: seq<Request>, step: Step)
    requires WentOn(c, phases, requests, next) && c.start <= next <= MAX_TOOL_ITERATIONS
    requires IterationSent(c.world(next), next, sent, Ok(step)) && step.ToolPhase?
    requires PhaseFails(c.world(next), step.toolCalls, DenialsAfter(c.world, phases, |phases|))
    ensures Ends(c, phases, requests + sent, next, Err(StorageFailed))
  {
    hide WentOn, GoesOn, Brought, Brings, Ends, PhaseFails, DenialsAfter;
    BroughtNow(c, phases, requests, next, sent, Ok(step));
    EndsNow(c, phases, requests, next, sent, Err(StorageFailed));
  }

  /** What a reply without a valid tool call ends a run with. */
  ghost predicate ReplyEnds(
      setup: Setup, s: Surroundings, step: Step, isRetry: bool, r: Result<LoopResult, RunError>)
  {
    match r
    case Ok(answer) => s.storageOk(CompleteModel) && Speaks(step, answer) && (Announces(setup, step) ==> isRetry)
    case Err(StorageFailed) => !s.storageOk(CompleteModel)
    case Err(EmptyAnswer(message)) =>
      s.storageOk(CompleteModel) && step.MalformedToolCalls? && Blank(step.content) &&
      (forall shown :: Thinking.Shows(step.content, shown) ==> IsBlank(shown)) && message == ALL_CALLS_MALFORMED
    case Err(_) => false
  }

  lemma AnswerEnds(
      c: Course, phases: seq<Phase>, requests: seq<Request>, next: nat, sent: seq<Request>, step: Step,
      r: Result<LoopResult, RunError>)
    requires WentOn(c, phases, requests, next) && c.start <= next <= MAX_TOOL_ITERATIONS
    requires IterationSent(c.world(next), next, sent, Ok(step)) && !step.ToolPhase?
    requires ReplyEnds(c.setup, c.world(next), step, IsRetry(c, phases, next), r)
    ensures Ends(c, phases, requests + sent, next, r)
  {
    hide WentOn, GoesOn, Brought, Brings, Ends, Speaks, Announces, Blank, IsRetry, DenialsAfter, PhaseFails;
    BroughtNow(c, phases, requests, next, sent, Ok(step));
    EndsNow(c, phases, requests, next, sent, r);
  }

  // ---- between two iterations

  /** What holds between two iterations, `next` the coming one. */
  ghost predicate Sound(c: Course, next: nat, v: View) {
    CourseOk(c) && RecordOk(c, v.phases, v.requests) &&
    v.messages == MessagesAfter(c.setup, c.history, v.phases, |v.phases|) &&
    (v.retryMessages.Some? <==> v.retryAttempted) &&
    (v.retryMessages.Some? ==> Corrects(c, v.requests, next, v.messages, v.retryMessages.value)) &&
    Settled(c.setup.turn, next, v.events) &&
    c.start <= next && next - c.start <= 2 * |v.phases| + (if v.retryAttempted then 1 else 0) &&
    SendsWithin(|v.requests|, next - c.start) &&
    v.denials == DenialsAfter(c.world, v.phases, |v.phases|) &&
    (|v.phases| > 0 ==> v.phases[|v.phases| - 1].iteration < next) &&
    WentOn(c, v.phases, v.requests, next) && (v.retryAttempted <==> IsRetry(c, v.phases, next))
  }

  /** At most four requests per iteration. */
  predicate SendsWithin(sends: nat, iterations: int) { sends <= 4 * iterations }

  lemma SendsInAll(sends: nat, few: int, many: int)
    requires SendsWithin(sends, few) && few <= many
    ensures sends <= 4 * many
  {
  }

  /** The answer is the visible text of a reply that asked for no valid tool call. */
  ghost predicate Speaks(step: Step, answer: LoopResult) {
    !step.ToolPhase? && answer.content == Trim(VisibleText(step.content)) && answer.content != "" &&
    answer.reasoning == step.reasoning &&
    forall shown :: Thinking.Shows(step.content, shown) ==> answer.content == Trim(shown)
  }

  /** A run that answers: the loop's messages are the history and the phases, nothing else, and
      tool-complete; every streamed message ended exactly once, the last one as the answer. */
  ghost predicate Delivered(c: Course, v: View, answer: LoopResult) {
    v.messages == MessagesAfter(c.setup, c.history, v.phases, |v.phases|) && ToolComplete(v.messages) &&
    answer.iteration - c.start + 1 <= 2 * (|v.phases| + 1) &&
    answer.finalMessageId == "turn:" + c.setup.turn + ":assistant:" + Decimal(answer.iteration) &&
    Ends(c, v.phases, v.requests, answer.iteration, Ok(answer)) &&
    SettledBut(c.setup.turn, answer.iteration, v.events)
  }

  /** What the next iteration builds on. */
  function Base(v: View): seq<Message> {
    if v.retryMessages.Some? then v.retryMessages.value else v.messages
  }

  /** The requests of iteration `next`, sent from the state `v`. */
  ghost predicate SentFrom(c: Course, next: nat, v: View, sent: seq<Request>) {
    |sent| <= MAX_LLM_RETRIES + 1 &&
    (forall k :: 0 <= k < |sent| ==>
      sent[k].phases == |v.phases| && sent[k].denials == v.denials && IsRequest(c.setup, v.messages, sent[k])) &&
    (|sent| > 0 ==>
      IsChain(IterationOf(c.world(next), sent[0].full), next, sent) &&
      IsFull(c.setup, Base(v), next, v.denials, sent[0].full))
  }

  lemma SentIs(c: Course, next: nat, v: View, sent: seq<Request>)
    requires |sent| <= MAX_LLM_RETRIES + 1
    requires forall k :: 0 <= k < |sent| ==>
      sent[k].phases == |v.phases| && sent[k].denials == v.denials && IsRequest(c.setup, v.messages, sent[k])
    requires |sent| > 0 ==>
      IsChain(IterationOf(c.world(next), sent[0].full), next, sent) &&
      IsFull(c.setup, Base(v), next, v.denials, sent[0].full)
    ensures SentFrom(c, next, v, sent)
  {
    hide IsRequest, IsChain, IsFull;
  }

  lemma RejectionIs(setup: Setup, ms: seq<Message>, text: string, reasoning: Option<string>, guard: Guard)
    ensures Rejection(setup, ms, text, reasoning, guard) == GuardMessages(ms, text, reasoning, setup.wording(guard))
  {
  }

  /** The links between requests, and what iterations set out with, over what iteration `next` sends. */
  lemma LinksGrow(c: Course, next: nat, v: View, sent: seq<Request>)
    requires Sound(c, next, v) && SentFrom(c, next, v, sent)
    ensures Linked(c.world, v.requests + sent) && SetOut(c, v.phases, v.requests + sent)
    ensures forall q :: q in v.requests + sent ==> q.iteration <= next
  {
    hide RequestsOk, MessagesAfter, PhasesOk, PhasesFrom, RequestsCounted, Rising, DenialsAfter, Settled, IsBase,
      IsRequest, CourseOk, IsRetry, Linked, SetOut, SetOutAt, Corrects, GoesOn, IsFull, Continues, SendsWithin;
    assert forall q :: q in v.requests ==> q.iteration < next;
    if |sent| == 0 {
      assert v.requests + sent == v.requests;
    } else {
      LinkedGrow(c.world, v.requests, next, sent[0].full, sent);
      forall q | q in sent ensures q.iteration == next && SetOutAt(c, v.phases, v.requests, q) {
        SetsOut(c, next, v, q);
      }
      SetOutSent(c, v.phases, v.requests, next, sent);
    }
  }

  lemma SetsOut(c: Course, next: nat, v: View, q: Request)
    requires v.messages == MessagesAfter(c.setup, c.history, v.phases, |v.phases|)
    requires v.retryMessages.Some? <==> IsRetry(c, v.phases, next)
    requires v.retryMessages.Some? ==> Corrects(c, v.requests, next, v.messages, v.retryMessages.value)
    requires q.iteration == next && q.phases == |v.phases| && q.denials == v.denials
    requires IsFull(c.setup, Base(v), next, v.denials, q.full)
    ensures SetOutAt(c, v.phases, v.requests, q)
  {
    hide MessagesAfter, IsRetry, Corrects, IsFull;
  }

  lemma AfterPhaseIs(setup: Setup, ms: seq<Message>, phase: Phase)
    ensures AfterPhase(setup, ms, phase) ==
      if phase.compaction.None? then Executed(ms, phase) + phase.staged
      else MaybeCompact(setup.systemPrompt, setup.toolsJson, Executed(ms, phase) + phase.staged, phase.compaction.value)
  {
    hide MaybeCompact;
  }

  lemma SoundStart(c: Course)
    requires CourseOk(c)
    ensures Sound(c, c.start, View(c.history, None, false, 0, [], [], []))
  {
    hide CourseOk;
  }

  lemma SoundMessages(c: Course, next: nat, v: View)
    requires Sound(c, next, v)
    ensures ToolComplete(v.messages) && v.messages == MessagesAfter(c.setup, c.history, v.phases, |v.phases|)
    ensures v.retryMessages.Some? ==> IsBase(c.setup, v.messages, v.retryMessages.value)
    ensures v.retryMessages.Some? ==> v.retryAttempted
    ensures RecordOk(c, v.phases, v.requests) && RequestsComplete(v.requests) && WorldOk(c.world(next))
    ensures SendsWithin(|v.requests|, next - c.start)
    ensures c.start <= next && WentOn(c, v.phases, v.requests, next) &&
      (v.retryAttempted <==> IsRetry(c, v.phases, next))
    ensures v.denials == DenialsAfter(c.world, v.phases, |v.phases|)
  {
    hide ToolComplete, RequestsOk, MessagesAfter, PhasesOk, PhasesFrom, RequestsCounted, Rising, DenialsAfter,
      Settled, ContextOk, IsBase, WorldOk, WentOn, IsRetry, Linked, SetOut, Corrects;
    MessagesAfterComplete(c.setup, c.history, v.phases, |v.phases|);
    RequestsToolComplete(c.setup, c.history, v.phases, v.requests);
    if v.retryMessages.Some? { CorrectsIsBase(c, v.requests, next, v.messages, v.retryMessages.value); }
  }

  ghost predicate RequestsComplete(requests: seq<Request>) {
    forall k :: 0 <= k < |requests| ==> ToolComplete(requests[k].messages)
  }

  /** The run may end here: with an error, or with this iteration's text as the answer. */
  lemma SoundSend(c: Course, next: nat, v: View, sent: seq<Request>, streamed: bool)
    requires Sound(c, next, v) && SentFrom(c, next, v, sent)
    ensures RecordOk(c, v.phases, v.requests + sent) && RequestsComplete(v.requests + sent)
    ensures SendsWithin(|v.requests + sent|, next + 1 - c.start)
    ensures SettledBut(c.setup.turn, next, v.events + Shown(streamed, MessageId(c.setup.turn, next)))
    ensures v.messages == MessagesAfter(c.setup, c.history, v.phases, |v.phases|) && ToolComplete(v.messages)
    ensures c.start <= next && next - c.start + 1 <= 2 * (|v.phases| + 1)
  {
    hide ToolComplete, RequestsOk, MessagesAfter, PhasesOk, PhasesFrom, RequestsCounted, Rising, DenialsAfter,
      Settled, SettledBut, ContextOk, IsBase, Shown, MessageId, IsRequest, WentOn, IsRetry, Linked, SetOut, Corrects,
      IsChain, IsFull;
    LinksGrow(c, next, v, sent);
    RequestsGrow(c.setup, c.history, v.phases, v.requests, sent);
    CountsGrow(c.world, v.phases, v.requests, sent);
    RequestsToolComplete(c.setup, c.history, v.phases, v.requests + sent);
    MessagesAfterComplete(c.setup, c.history, v.phases, |v.phases|);
    ShownStep(c.setup.turn, next, v.events, streamed);
  }

  lemma CountsGrow(world: nat -> Surroundings, phases: seq<Phase>, requests: seq<Request>, more: seq<Request>)
    requires RequestsCounted(world, phases, requests)
    requires forall k :: 0 <= k < |more| ==>
      more[k].phases == |phases| && more[k].denials == DenialsAfter(world, phases, |phases|)
    ensures RequestsCounted(world, phases, requests + more)
  {
    hide DenialsAfter;
  }

  lemma RisesOn(start: nat, phases: seq<Phase>, phase: Phase)
    requires Rising(start, phases) && start <= phase.iteration
    requires |phases| > 0 ==> phases[|phases| - 1].iteration < phase.iteration
    ensures Rising(start, phases + [phase])
  {
  }

  lemma SoundRetry(c: Course, next: nat, v: View, sent: seq<Request>, streamed: bool, step: Step, retry: seq<Message>)
    requires Sound(c, next, v) && SentFrom(c, next, v, sent) && !v.retryAttempted && !step.ToolPhase?
    requires retry == Rejected(c.setup, v.messages, step)
    requires IterationSent(c.world(next), next, sent, Ok(step)) && Announces(c.setup, step)
    requires c.world(next).storageOk(CompleteModel)
    ensures var id := MessageId(c.setup.turn, next);
      Sound(c, next + 1, View(v.messages, Some(retry), true, v.denials, v.phases, v.requests + sent,
        v.events + Shown(streamed, id) + (if streamed then [Discarded(id)] else [])))
  {
    hide RequestsOk, MessagesAfter, PhasesOk, PhasesFrom, PhaseFrom, RequestsCounted, Rising, DenialsAfter, DenialsIn,
      Settled, IsBase, Shown, MessageId, IsRequest, CourseOk, WentOn, IsRetry, IterationSent, Announces, Linked, SetOut,
      Corrects, IsChain, IsFull, Rejected;
    LinksGrow(c, next, v, sent);
    CorrectsNow(c, next, v, sent, step);
    RequestsGrow(c.setup, c.history, v.phases, v.requests, sent);
    CountsGrow(c.world, v.phases, v.requests, sent);
    WentOnRetry(c, v.phases, v.requests, next, sent, step);
    RetryStep(c.setup.turn, next, v.events, streamed);
  }

  lemma CorrectsNow(c: Course, next: nat, v: View, sent: seq<Request>, step: Step)
    requires WentOn(c, v.phases, v.requests, next) && IterationSent(c.world(next), next, sent, Ok(step))
    requires !step.ToolPhase?
    ensures Corrects(c, v.requests + sent, next + 1, v.messages, Rejected(c.setup, v.messages, step))
  {
    hide WentOn, IterationSent, Brought, Rejected;
    BroughtNow(c, v.phases, v.requests, next, sent, Ok(step));
  }

  lemma SoundPhase(c: Course, next: nat, v: View, sent: seq<Request>, streamed: bool, step: Step, phase: Phase)
    requires Sound(c, next, v) && SentFrom(c, next, v, sent)
    requires step.ToolPhase? && IsToolStep(step) && PhaseOk(phase) &&
      phase == PhaseOf(next, v.denials, step, c.world(next))
    requires IsReply(c.world(next).provider, step) && IterationSent(c.world(next), next, sent, Ok(step))
    requires !PhaseFails(c.world(next), step.toolCalls, v.denials)
    requires ResultsTold(c.world(next).tools, step.toolCalls, v.denials, phase.results,
                         DenialsIn(c.world(next).tools, step.toolCalls, v.denials))
    ensures var id := MessageId(c.setup.turn, next);
      Sound(c, next + 1, View(AfterPhase(c.setup, v.messages, phase), None, false,
        DenialsIn(c.world(next).tools, step.toolCalls, v.denials), v.phases + [phase], v.requests + sent,
        v.events + Shown(streamed, id) + [PhasePersisted(id)]))
  {
    hide RequestsOk, MessagesAfter, PhasesOk, PhasesFrom, PhaseFrom, RequestsCounted, Rising, DenialsAfter, DenialsIn,
      Settled, IsBase, Shown, MessageId, IsRequest, CourseOk, IsReply, ResultsOf, StagedMessagesOf, IsToolStep,
      PhaseOk, AfterPhase, WentOn, IsRetry, IterationSent, PhaseFails, PhaseOf, Linked, SetOut, Corrects, IsChain,
      IsFull, ResultsTold;
    PhaseOfIs(next, v.denials, step, c.world(next));
    LinksGrow(c, next, v, sent);
    SetOutPhases(c, v.phases, v.requests + sent, next, phase);
    RequestsGrow(c.setup, c.history, v.phases, v.requests, sent);
    PhasesGrow(c.setup, c.history, v.phases, v.requests + sent, phase);
    CountsGrow(c.world, v.phases, v.requests, sent);
    CountsKept(c.world, v.phases, v.requests + sent, phase);
    PhaseIsFrom(c.world, step, phase);
    PhasesFromGrow(c.world, v.phases, phase);
    DenialsAfterNext(c.world, v.phases, phase);
    RisesOn(c.start, v.phases, phase);
    WentOnPhase(c, v.phases, v.requests, next, sent, step, phase);
    PhaseStep(c.setup.turn, next, v.events, streamed);
  }

  lemma PhaseOfIs(iteration: nat, denials: nat, step: Step, s: Surroundings)
    requires step.ToolPhase?
    ensures PhaseOf(iteration, denials, step, s).iteration == iteration &&
      PhaseOf(iteration, denials, step, s).denials == denials
    ensures PhaseOf(iteration, denials, step, s) == Phase(iteration, denials, step.assistant,
      ResultsOf(s.tools, step.toolCalls, denials), StagedMessagesOf(s.staged), s.compaction)
  {
    hide ResultsOf, StagedMessagesOf;
  }

  const ALL_CALLS_MALFORMED: string := "all tool calls were malformed (empty names)"

  /** `LoopState` with the trace of the run: requests sent, snapshots stored, finished phases and events. */
  class AgentLoop {
    const setup: Setup
    const store: PhaseStore.SessionStore
    var messages: seq<Message>
    var revision: Option<nat>
    var retryMessages: Option<seq<Message>>
    var retryAttempted: bool
    var denials: nat
    var requests: seq<Request>
    var commits: seq<seq<Message>>
    var phases: seq<Phase>
    var events: seq<LoopEvent>

    constructor (setup: Setup, store: PhaseStore.SessionStore)
      ensures this.setup == setup && this.store == store
    {
      this.setup, this.store := setup, store;
      messages, revision, retryMessages, retryAttempted, denials := [], None, None, false, 0;
      requests, commits, phases, events := [], [], [], [];
    }

    /** `request_messages_for_iteration`, `messages_for_iteration` and `append_guard_denial_wrap`. */
    method RequestMessagesForIteration(iteration: nat) returns (r: seq<Message>)
      modifies this`retryMessages
      ensures retryMessages == None
      ensures r ==
        FullRequest(setup, old(if retryMessages.Some? then retryMessages.value else messages), iteration, denials)
      ensures IsFull(setup, old(if retryMessages.Some? then retryMessages.value else messages), iteration, denials, r)
    {
      r := if retryMessages.Some? then retryMessages.value else messages;
      retryMessages := None;
      if iteration == 1 && setup.channelContext.Some? {
        r := [setup.channelContext.value] + r;
      }
      if iteration == FINAL_RESPONSE_WARNING_ITERATION {
        r := r + [GuardMessage(setup, FinalResponseWarning)];
      } else if iteration > FINAL_RESPONSE_WARNING_ITERATION {
        r := r + [GuardMessage(setup, FinalResponse)];
      }
      if denials >= ToolExecution.GUARD_DENIAL_LIMIT {
        r := r + [GuardMessage(setup, DenialsReached)];
      }
    }

    /** One model iteration with its retries (`run_with_retry`). */
    method SendModelStep(iteration: nat, s: Surroundings)
      returns (r: Result<Step, RunError>, streamed: bool, sent: seq<Request>)
      requires iteration <= MAX_TOOL_ITERATIONS
      requires retryMessages.Some? ==> IsBase(setup, messages, retryMessages.value)
      modifies this`retryMessages, this`requests, this`events
      ensures retryMessages == None
      ensures requests == old(requests) + sent && |sent| <= MAX_LLM_RETRIES + 1
      ensures forall k :: 0 <= k < |sent| ==>
        sent[k].phases == |phases| && sent[k].denials == denials && sent[k].iteration == iteration &&
        IsRequest(setup, messages, sent[k])
      ensures streamed <==> |sent| > 0 && s.provider(|sent| - 1).streams
      ensures events == old(events) + Shown(streamed, MessageId(setup.turn, iteration))
      // the first request carries what the iteration sets out with, each later one follows for cause
      ensures |sent| > 0 ==>
        IsChain(Iteration(sent[0].full, true, None, s.clock, s.provider, s.pauses), iteration, sent) &&
        IsFull(setup, old(if retryMessages.Some? then retryMessages.value else messages), iteration, denials,
               sent[0].full)
      // the iteration ends with what its last request brought, or without any request when storage fails
      ensures s.storageOk(BeginModel) ==> IterationSent(s, iteration, sent, r)
      ensures !s.storageOk(BeginModel) ==> r == Err(StorageFailed) && |sent| == 0
      ensures r.Ok? && r.value.Final? ==> !Blank(r.value.content)
      ensures r.Ok? && r.value.ToolPhase? ==> IsToolStep(r.value)
      ensures r.Ok? ==> IsReply(s.provider, r.value)
    {
      hide FullRequest, IsFull, IsGuarded, MessageId, IsToolStep, Blank, IsReply, Chained, Continues, Reports;
      var base := if retryMessages.Some? then retryMessages.value else messages;
      var full := RequestMessagesForIteration(iteration);
      if !s.storageOk(BeginModel) { return Err(StorageFailed), false, []; }
      var step, sends, ended, published, attempts :=
        RetryTransientFailures(full, true, None, s.clock, s.provider, s.pauses);
      var offers := denials < ToolExecution.GUARD_DENIAL_LIMIT;
      var behind, denied := |phases|, denials;
      sent := seq(|sends|, i requires 0 <= i < |sends| =>
        Request(iteration, i, sends[i].at, behind, denied, full, sends[i].messages, offers));
      ChainedRequests(IterationOf(s, full), iteration, sends, sent);
      forall i | 0 <= i < |sent| ensures IsRequest(setup, messages, sent[i]) {
        assert IsBase(setup, messages, base) && IsFull(setup, base, iteration, denials, full);
      }
      requests := requests + sent;
      streamed := published;
      events := events + Shown(streamed, MessageId(setup.turn, iteration));
      ghost var last := sent[|sent| - 1];
      assert AsSent(last) == sends[|sends| - 1];
      match step {
        case Err(error) =>
          ReportedFlag(IterationOf(s, full), last.number, AsSent(last), error);
          return Err(ModelFailed(error.error)), streamed, sent;
        case Ok(value) =>
          AnsweredStep(s, last, value);
          return Ok(value), streamed, sent;
      }
    }

    method EvaluateEndTurn(content: string, reasoning: Option<string>) returns (r: Result<LoopAction, RunError>)
      modifies this`retryAttempted
      ensures r.Err? <==> Blank(content)
      ensures r.Err? ==> r.error == EmptyAnswer(EMPTY_AFTER_RETRY)
      ensures r.Ok? && r.value.Retry? <==>
        !Blank(content) && !old(retryAttempted) && setup.isDeclarative(VisibleText(content))
      ensures r.Ok? && r.value.Retry? ==>
        retryAttempted && r.value.messages == Rejection(setup, messages, content, reasoning, OnlyDeclared)
      ensures r.Ok? && r.value.Done? ==>
        r.value == Done(Trim(VisibleText(content)), reasoning) && r.value.content != ""
      ensures !(r.Ok? && r.value.Retry?) ==> retryAttempted == old(retryAttempted)
      // told by what the reply shows, whatever thinking it hides
      ensures forall shown :: Thinking.Shows(content, shown) ==>
        (r.Err? <==> IsBlank(shown)) &&
        (r.Ok? && r.value.Retry? <==>
          !IsBlank(shown) && !old(retryAttempted) && setup.isDeclarative(Trim(shown))) &&
        (r.Ok? && r.value.Done? ==> r.value == Done(Trim(shown), reasoning))
    {
      hide StripThinking, Trim, IsBlank, Thinking.Shows, EMPTY_AFTER_RETRY, ALL_CALLS_MALFORMED;
      ShownText(content);
      RejectionIs(setup, messages, content, reasoning, OnlyDeclared);
      RejectionIs(setup, messages, content, reasoning, NoValidCall);
      var visible := StripThinking(Trim(content));
      var displayable := !IsBlank(visible);
      if displayable && !retryAttempted && setup.isDeclarative(visible) {
        retryAttempted := true;
        return Ok(Retry(GuardMessages(messages, content, reasoning, setup.wording(OnlyDeclared))));
      }
      if !displayable { return Err(EmptyAnswer(EMPTY_AFTER_RETRY)); }
      return Ok(Done(Trim(visible), reasoning));
    }

    method EvaluateMalformedResponse(content: string, reasoning: Option<string>)
      returns (r: Result<LoopAction, RunError>)
      modifies this`retryAttempted
      ensures r.Err? <==> Blank(content)
      ensures r.Err? ==> r.error == EmptyAnswer(ALL_CALLS_MALFORMED)
      ensures r.Ok? && r.value.Retry? <==>
        !Blank(content) && !old(retryAttempted) && setup.isDeclarative(VisibleText(content))
      ensures r.Ok? && r.value.Retry? ==>
        retryAttempted && r.value.messages == Rejection(setup, messages, content, reasoning, NoValidCall)
      ensures r.Ok? && r.value.Done? ==>
        r.value == Done(Trim(VisibleText(content)), reasoning) && r.value.content != ""
      ensures !(r.Ok? && r.value.Retry?) ==> retryAttempted == old(retryAttempted)
      // told by what the reply shows, whatever thinking it hides
      ensures forall shown :: Thinking.Shows(content, shown) ==>
        (r.Err? <==> IsBlank(shown)) &&
        (r.Ok? && r.value.Retry? <==>
          !IsBlank(shown) && !old(retryAttempted) && setup.isDeclarative(Trim(shown))) &&
        (r.Ok? && r.value.Done? ==> r.value == Done(Trim(shown), reasoning))
    {
      hide StripThinking, Trim, IsBlank, Thinking.Shows, EMPTY_AFTER_RETRY, ALL_CALLS_MALFORMED;
      ShownText(content);
      RejectionIs(setup, messages, content, reasoning, OnlyDeclared);
      RejectionIs(setup, messages, content, reasoning, NoValidCall);
      var visible := StripThinking(Trim(content));
      if IsBlank(visible) { return Err(EmptyAnswer(ALL_CALLS_MALFORMED)); }
      if !retryAttempted && setup.isDeclarative(visible) {
        retryAttempted := true;
        return Ok(Retry(GuardMessages(messages, content, reasoning, setup.wording(NoValidCall))));
      }
      return Ok(Done(Trim(visible), reasoning));
    }

    /** `persist_tool_call`. */
    method PersistToolCall(step: Step, id: string) returns (called: seq<Message>)
      requires step.ToolPhase? && IsToolStep(step) && ToolComplete(messages) && store.Accepts(revision)
      modifies this`revision, this`commits, this`events, store
      ensures called == messages + [step.assistant] && commits == old(commits) + [called] && Loadable(called)
      ensures StoredNow(called) && store.revision == old(store.revision) + 1
      ensures events == old(events) + [PhasePersisted(id)]
    {
      hide ToolComplete, Loadable, IsToolStep, Session.Repair;
      called := messages + [step.assistant];
      var stored, attempts :=
        PhaseStore.PersistPhaseMessages(store, [step.assistant], called, revision, [], true, [], []);
      revision, commits, events := Some(stored.value.revision), commits + [called], events + [PhasePersisted(id)];
      CalledStepLoadable(messages, step);
    }

    /** `persist_tool_results`. */
    method PersistToolResults(called: seq<Message>, results: seq<Message>)
      requires ToolComplete(called + results) && store.Accepts(revision) && |results| > 0
      modifies this`revision, this`commits, store
      ensures commits == old(commits) + [called + results] && Loadable(called + results)
      ensures StoredNow(called + results) && store.revision == old(store.revision) + 1
    {
      hide ToolComplete, Loadable, Session.Repair;
      var stored, attempts :=
        PhaseStore.PersistPhaseMessages(store, results, called + results, revision, [], true, [], []);
      revision, commits := Some(stored.value.revision), commits + [called + results];
      CompleteIsLoadable(called + results);
    }

    /** `commit_staged_user_messages`: nothing is stored when nothing is staged. */
    method CommitStaged(staged: seq<Message>)
      requires ToolComplete(messages) && AreTexts(staged) && StoredNow(messages)
      modifies this`messages, this`revision, this`commits, store
      ensures messages == old(messages) + staged && StoredNow(messages)
      ensures commits == old(commits) + (if |staged| > 0 then [messages] else []) && Loadable(messages)
      ensures store.revision == old(store.revision) + if |staged| > 0 then 1 else 0
    {
      hide ToolComplete, Loadable, Session.Repair;
      AppendTexts(messages, staged);
      CompleteIsLoadable(messages + staged);
      if |staged| == 0 { assert messages + staged == messages; }
      var stored := PhaseStore.CommitStagedUserMessages(store, messages, revision, staged, staged, [], true, [], []);
      messages, revision := stored.value.messages, Some(stored.value.revision);
      commits := commits + if |staged| > 0 then [messages] else [];
    }

    /** The session holds exactly `ms`, and the loop knows its revision. */
    predicate StoredNow(ms: seq<Message>)
      reads this, store
    {
      store.snapshot == Some(ms) && revision == Some(store.revision)
    }

    /** `execute_tool_phase`, when no other turn writes the session: every store is accepted at once. It
        fails exactly when a storage call or the executor does, and then the snapshots it got to store stay
        behind; they can be loaded. */
    method ExecuteToolPhase(iteration: nat, step: Step, id: string, s: Surroundings)
      returns (r: Option<Phase>, stored: seq<seq<Message>>)
      requires step.ToolPhase? && IsToolStep(step) && ToolComplete(messages) && store.Accepts(revision)
      requires ToolExecution.Scheduled(s.tools)
      modifies this`messages, this`revision, this`denials, this`commits, this`events, store
      ensures commits == old(commits) + stored && CommitsOk(stored) && store.revision == old(store.revision) + |stored|
      ensures store.snapshot == if |stored| > 0 then Some(stored[|stored| - 1]) else old(store.snapshot)
      ensures r.None? <==> PhaseFails(s, step.toolCalls, old(denials))
      ensures r.Some? ==> forall point: StoragePoint :: point.BeginModel? || s.storageOk(point)
      ensures |stored| == StoresMade(s, step.toolCalls, old(denials))
      ensures stored <= PhaseStores(old(messages), PhaseOf(iteration, old(denials), step, s))
      ensures r.Some? ==>
        r.value == PhaseOf(iteration, old(denials), step, s) &&
        PhaseOk(r.value) && messages == Executed(old(messages), r.value) + r.value.staged && store.Accepts(revision) &&
        denials == DenialsIn(s.tools, step.toolCalls, old(denials)) &&
        ResultsTold(s.tools, step.toolCalls, old(denials), r.value.results, denials) &&
        events == old(events) + [PhasePersisted(id)]
    {
      hide PhaseOk, ToolComplete, Loadable, IsToolStep, AreTexts, ToolExecution.Scheduled, CommitsOk, ResultsOf,
        StagedMessagesOf, DenialsIn, ToolExecution.ExecutionFails, ResultsTold;
      stored := [];
      NoCommits();
      if !s.storageOk(CompleteModel) || !s.storageOk(BeginTools) || !s.storageOk(PersistCall) { return None, stored; }
      var denied := denials;
      ghost var was := messages;
      var called := PersistToolCall(step, id);
      CommitsAppend(stored, called);
      stored := stored + [called];
      var results := ExecuteTools(step, s.tools);
      if results.None? || !s.storageOk(PersistResults) { return None, stored; }
      var phase := Phase(iteration, denied, step.assistant, results.value, StagedMessagesOf(s.staged), s.compaction);
      PhaseReady(setup, was, s.tools, step, phase);
      PersistToolResults(called, results.value);
      CommitsAppend(stored, called + results.value);
      stored := stored + [called + results.value];
      messages := called + results.value;
      if !s.storageOk(CompleteTools) || !s.storageOk(StagedMessages) { return None, stored; }
      CommitStaged(phase.staged);
      if |phase.staged| > 0 {
        CommitsAppend(stored, messages);
        stored := stored + [messages];
      } else {
        assert messages == called + results.value;
      }
      return Some(phase), stored;
    }

    /** `execute_tools`: the result messages, one per call in call order, unless the executor fails. */
    method ExecuteTools(step: Step, tools: ToolExecution.Env) returns (r: Option<seq<Message>>)
      requires step.ToolPhase? && ToolExecution.Scheduled(tools)
      modifies this`denials
      ensures r.None? <==> ToolExecution.ExecutionFails(tools, step.toolCalls, old(denials))
      ensures r.Some? ==> r.value == ResultsOf(tools, step.toolCalls, old(denials))
      ensures r.Some? ==> denials == DenialsIn(tools, step.toolCalls, old(denials))
      ensures r.Some? ==> ResultsTold(tools, step.toolCalls, old(denials), r.value, denials)
    {
      hide ToolExecution.Scheduled, ToolExecution.OutcomeOf, ToolExecution.EventsAre, ToolExecution.Stopped,
        ToolExecution.ExecutionFails, ToolExecution.Denials, ToolExecution.AllTold, ToolExecution.DeniedAmong;
      var executor := new ToolExecution.ToolExecutor(tools, denials);
      var outcomes := executor.Execute(step.toolCalls);
      denials := executor.denials;
      if outcomes.None? { return None; }
      var all := outcomes.value;
      return Some(seq(|all|, k requires 0 <= k < |all| => all[k].message));
    }

    ghost function Now(): View
      reads this
    {
      View(messages, retryMessages, retryAttempted, denials, phases, requests, events)
    }

    /** A corrective retry: the iteration's text is dropped, the correction waits for the next request. */
    method ScheduleRetry(iteration: nat, retry: seq<Message>, streamed: bool)
      modifies this`retryMessages, this`events
      ensures retryMessages == Some(retry)
      ensures events == old(events) + if streamed then [Discarded(MessageId(setup.turn, iteration))] else []
    {
      if streamed { events := events + [Discarded(MessageId(setup.turn, iteration))]; }
      retryMessages := Some(retry);
    }

    /** What the loop does with a reply that asks for no tool: `None` means the iteration is retried. */
    method AnswerOrRetry(iteration: nat, step: Step, streamed: bool, s: Surroundings)
      returns (r: Option<Result<LoopResult, RunError>>)
      requires !step.ToolPhase? && (step.Final? ==> !Blank(step.content))
      modifies this`retryAttempted, this`retryMessages, this`events
      ensures r.None? <==> s.storageOk(CompleteModel) && Announces(setup, step) && !old(retryAttempted)
      ensures r.None? ==>
        retryAttempted && retryMessages == Some(Rejected(setup, messages, step)) &&
        events == old(events) + if streamed then [Discarded(MessageId(setup.turn, iteration))] else []
      ensures r.Some? ==> ReplyEnds(setup, s, step, old(retryAttempted), r.value) && events == old(events)
      ensures r.Some? && r.value.Ok? ==>
        r.value.value.iteration == iteration &&
        r.value.value.finalMessageId == "turn:" + setup.turn + ":assistant:" + Decimal(iteration)
    {
      hide StripThinking, MessageId, Rejection, Blank, Trim, VisibleText, IsBlank, Thinking.Shows, EMPTY_AFTER_RETRY,
        ALL_CALLS_MALFORMED;
      if !s.storageOk(CompleteModel) { return Some(Err(StorageFailed)); }
      MessageIdIs(setup.turn, iteration);
      var action;
      if step.Final? {
        action := EvaluateEndTurn(step.content, step.reasoning);
      } else {
        action := EvaluateMalformedResponse(step.content, step.reasoning);
      }
      match action {
        case Err(error) =>
          return Some(Err(error));
        case Ok(Retry(retry)) =>
          ScheduleRetry(iteration, retry, streamed);
          return None;
        case Ok(Done(text, why)) =>
          return Some(Ok(LoopResult(text, why, MessageId(setup.turn, iteration), iteration)));
      }
    }

    /** A tool phase, the reset of the retry guard, and the compaction attempt after it. */
    method ToolPhaseAndCompaction(iteration: nat, step: Step, s: Surroundings)
      returns (r: Option<Phase>, stored: seq<seq<Message>>)
      requires step.ToolPhase? && IsToolStep(step) && ToolComplete(messages) && store.Accepts(revision) && WorldOk(s)
      modifies this`messages, this`revision, this`denials, this`commits, this`events, this`phases, this`retryAttempted,
        store
      ensures commits == old(commits) + stored && CommitsOk(stored) && store.revision == old(store.revision) + |stored|
      ensures store.snapshot == if |stored| > 0 then Some(stored[|stored| - 1]) else old(store.snapshot)
      ensures r.None? <==> PhaseFails(s, step.toolCalls, old(denials))
      ensures r.Some? ==>
        r.value == PhaseOf(iteration, old(denials), step, s) &&
        PhaseOk(r.value) && messages == AfterPhase(setup, old(messages), r.value) && store.Accepts(revision) &&
        denials == DenialsIn(s.tools, step.toolCalls, old(denials)) &&
        ResultsTold(s.tools, step.toolCalls, old(denials), r.value.results, denials) &&
        events == old(events) + [PhasePersisted(MessageId(setup.turn, iteration))] &&
        phases == old(phases) + [r.value] && !retryAttempted
      ensures r.None? ==> phases == old(phases)
    {
      hide PhaseOk, ToolComplete, IsToolStep, CommitsOk, ResultsOf, StagedMessagesOf, MaybeCompact, AfterPhase,
        MessageId, ToolExecution.Scheduled, DenialsIn, PhaseFails, PhaseStores, StoresMade, PhaseOf, ResultsTold;
      r, stored := ExecuteToolPhase(iteration, step, MessageId(setup.turn, iteration), s);
      if r.None? { return; }
      retryAttempted := false;
      AfterPhaseIs(setup, old(messages), r.value);
      PhaseOfIs(iteration, old(denials), step, s);
      if s.compaction.Some? {
        messages := MaybeCompactMessages(setup.systemPrompt, setup.toolsJson, messages, s.compaction.value);
      }
      phases := phases + [r.value];
    }

    /** One pass through the loop of `run`; `None` means the loop goes on. */
    method Iterate(ghost c: Course, iteration: nat, s: Surroundings)
      returns (r: Option<Result<LoopResult, RunError>>, stored: seq<seq<Message>>)
      requires c.setup == setup && s == c.world(iteration) && iteration <= MAX_TOOL_ITERATIONS
      requires Sound(c, iteration, Now()) && store.Accepts(revision)
      modifies this`messages, this`revision, this`retryMessages, this`retryAttempted, this`denials, this`requests,
        this`commits, this`phases, this`events, store
      ensures commits == old(commits) + stored && CommitsOk(stored) && store.revision == old(store.revision) + |stored|
      ensures store.snapshot == if |stored| > 0 then Some(stored[|stored| - 1]) else old(store.snapshot)
      ensures r.None? ==> Sound(c, iteration + 1, Now()) && store.Accepts(revision)
      ensures r.Some? ==> RecordOk(c, phases, requests) && RequestsComplete(requests)
      ensures r.Some? ==> SendsWithin(|requests|, iteration + 1 - c.start)
      ensures r.Some? ==> Ends(c, phases, requests, iteration, r.value)
      ensures r.Some? && r.value.Ok? ==> Delivered(c, Now(), r.value.value) && store.Accepts(revision)
      ensures r.Some? && r.value.Err? ==> !r.value.error.TooManyIterations?
    {
      hide ToolComplete, MessagesAfter, Sound, SettledBut, IsBase, IsToolStep, WorldOk, RecordOk, RequestsComplete,
        IsRequest, MessageId, PhaseOk, IsReply, Shown, Blank, CommitsOk, ResultsOf, StagedMessagesOf, AfterPhase,
        SentFrom, DenialsIn, Speaks, SendsWithin, WentOn, IsRetry, Ends, IterationSent, ReplyEnds, Announces,
        PhaseFails, PhaseOf, Brings, DenialsAfter, IsChain, IsFull, Rejected, ResultsTold;
      ghost var v := Now();
      SoundMessages(c, iteration, v);
      NoCommits();
      var step, streamed, sent := SendModelStep(iteration, s);
      SentIs(c, iteration, v, sent);
      SoundSend(c, iteration, v, sent, streamed);
      if step.Err? {
        ModelEnds(c, phases, v.requests, iteration, sent, step.error);
        EndsInTime(c, phases, requests, iteration, step.error);
        return Some(Err(step.error)), [];
      }
      if step.value.ToolPhase? {
        var phase;
        phase, stored := ToolPhaseAndCompaction(iteration, step.value, s);
        if phase.None? {
          PhaseEnds(c, phases, v.requests, iteration, sent, step.value);
          return Some(Err(StorageFailed)), stored;
        }
        SoundPhase(c, iteration, v, sent, streamed, step.value, phase.value);
        return None, stored;
      }
      var answer := AnswerOrRetry(iteration, step.value, streamed, s);
      if answer.None? {
        SoundRetry(c, iteration, v, sent, streamed, step.value, retryMessages.value);
      } else {
        AnswerEnds(c, phases, v.requests, iteration, sent, step.value, answer.value);
        if answer.value.Err? { EndsInTime(c, phases, requests, iteration, answer.value.error); }
      }
      return answer, [];
    }

    /** `AgentLoop::run`, when no other turn writes the session. */
    method Run(history: seq<Message>, sessionRevision: Option<nat>, start: nat, world: nat -> Surroundings)
      returns (r: Result<LoopResult, RunError>)
      requires CourseOk(Course(setup, world, history, start)) && store.Accepts(sessionRevision)
      modifies this, store
      // what is stored on the way can be loaded, and no store ever met a conflict
      ensures CommitsOk(commits) && store.revision == old(store.revision) + |commits|
      ensures store.snapshot == if |commits| > 0 then Some(commits[|commits| - 1]) else old(store.snapshot)
      // every request is the loop's messages plus what only requests carry, and is tool-complete
      ensures RecordOk(Course(setup, world, history, start), phases, requests) && RequestsComplete(requests)
      ensures start <= 50 ==> |requests| <= 4 * (51 - start)
      // an answer comes from the first iteration that gives one, an error from the first that fails
      ensures r.Ok? ==> Delivered(Course(setup, world, history, start), Now(), r.value) && store.Accepts(revision)
      ensures r.Err? ==> Stopped(Course(setup, world, history, start), phases, requests, r.error)
    {
      hide Sound, RecordOk, RequestsComplete, CommitsOk, CourseOk, Delivered, ToolComplete, SendsWithin, Loadable,
        IsBase, MessagesAfter, PhaseOk, PhasesOk, PhasesFrom, RequestsOk, RequestsCounted, Rising, DenialsAfter,
        Settled, SettledBut, IsRequest, WorldOk, ContextOk, MessageId, IsReply, Speaks, Ends, WentOn, IsRetry;
      ghost var c := Course(setup, world, history, start);
      messages, revision, retryMessages, retryAttempted, denials := history, sessionRevision, None, false, 0;
      requests, commits, phases, events := [], [], [], [];
      SoundStart(c);
      NoCommits();
      var iteration := start;
      while iteration <= MAX_TOOL_ITERATIONS
        invariant Sound(c, iteration, Now()) && start <= iteration && store.Accepts(revision)
        invariant start <= MAX_TOOL_ITERATIONS ==> iteration <= MAX_TOOL_ITERATIONS + 1
        invariant CommitsOk(commits) && store.revision == old(store.revision) + |commits|
        invariant store.snapshot == if |commits| > 0 then Some(commits[|commits| - 1]) else old(store.snapshot)
        decreases MAX_TOOL_ITERATIONS + 1 - iteration
      {
        ghost var before := commits;
        var answer, stored := Iterate(c, iteration, world(iteration));
        CommitsConcat(before, stored);
        if answer.Some? {
          SendsInAll(|requests|, iteration + 1 - start, 51 - start);
          return answer.value;
        }
        iteration := iteration + 1;
      }
      SoundMessages(c, iteration, Now());
      SendsInAll(|requests|, iteration - start, iteration - start);
      return Err(TooManyIterations);
    }
  }

  /** No single iteration reports that there were too many. */
  lemma EndsInTime(c: Course, phases: seq<Phase>, requests: seq<Request>, last: nat, error: RunError)
    requires Ends(c, phases, requests, last, Err(error))
    ensures !error.TooManyIterations?
  {
    hide GoesOn, Brought, PhaseFails, DenialsAfter, Blank;
  }

  /** A request built with three denials counted offers no tools and asks the model to wrap up. */
  lemma DeniedRequestWrapsUp(setup: Setup, history: seq<Message>, q: Request)
    requires IsRequest(setup, history, q) && q.denials >= ToolExecution.GUARD_DENIAL_LIMIT
    ensures !q.offersTools && GuardMessage(setup, DenialsReached) in q.messages
  {
    hide IsGuarded, IsFull, IsBase;
    var base :| IsBase(setup, history, base) && IsFull(setup, base, q.iteration, q.denials, q.full);
    WrapIsLast(setup, base, q.iteration, q.denials, q.full);
    GuardedKeeps(q.full, q.messages, GuardMessage(setup, DenialsReached));
  }

  lemma WrapIsLast(setup: Setup, base: seq<Message>, iteration: nat, denials: nat, full: seq<Message>)
    requires denials >= 3 && IsFull(setup, base, iteration, denials, full)
    ensures GuardMessage(setup, DenialsReached) in full
  {
    assert full[|full| - 1] == GuardMessage(setup, DenialsReached);
  }

  /** Once three denials are counted over the finished phases, every later request of the run does. */
  lemma LaterRequestsWrapUp(c: Course, phases: seq<Phase>, requests: seq<Request>, k: nat)
    requires RecordOk(c, phases, requests) && k < |requests| && requests[k].phases <= |phases|
    requires DenialsAfter(c.world, phases, requests[k].phases) >= ToolExecution.GUARD_DENIAL_LIMIT
    ensures !requests[k].offersTools && GuardMessage(c.setup, DenialsReached) in requests[k].messages
  {
    hide MessagesAfter, PhasesOk, PhasesFrom, Rising, DenialsAfter, IsRequest, GuardMessage;
    DeniedRequestWrapsUp(c.setup, MessagesAfter(c.setup, c.history, phases, requests[k].phases), requests[k]);
  }

  lemma GuardedKeeps(full: seq<Message>, sent: seq<Message>, m: Message)
    requires m in full && (sent == full || IsGuarded(full, sent))
    ensures m in sent
  {
    if sent != full {
      var text, reasoning :| sent == Corrected(full, text, reasoning);
      var i :| 0 <= i < |full| && full[i] == m;
      assert sent[i] == m;
    }
  }

  // ---------------------------------------------------------------- from turn to turn

  /** `persist_user_input`: whatever snapshot an earlier turn left behind, even one cut off between a
      tool call and its result, the next turn starts tool-complete. */
  lemma TurnStartsComplete(setup: Setup, left: seq<Message>, input: Message, compaction: CompactionInput)
    requires Loadable(left) && AreTexts([input])
    ensures ToolComplete(MaybeCompact(setup.systemPrompt, setup.toolsJson, Session.Repair(left) + [input], compaction))
  {
    hide ToolComplete, MaybeCompact, Session.Repair;
    AppendTexts(Session.Repair(left), [input]);
    MaybeCompactComplete(setup, Session.Repair(left) + [input], compaction);
  }

  /** `persist_final`: the answer closes the turn, and the stored session is read back unchanged. */
  lemma TurnEndsComplete(c: Course, v: View, answer: LoopResult)
    requires Delivered(c, v, answer)
    ensures var final := v.messages + [TextMessage(Assistant, answer.content).(reasoning := answer.reasoning)];
      ToolComplete(final) && Loadable(final) && Session.Repair(final) == final
  {
    hide ToolComplete, Session.Repair, SettledBut, MessagesAfter, MessageId, Speaks, IsReply;
    var closing := [TextMessage(Assistant, answer.content).(reasoning := answer.reasoning)];
    AppendTexts(v.messages, closing);
    CompleteIsLoadable(v.messages + closing);
    CompleteIsFixed(v.messages + closing);
  }

  lemma CompleteIsFixed(ms: seq<Message>)
    requires ToolComplete(ms)
    ensures Session.Repair(ms) == ms
  {
    hide Session.Repair;
    Session.RepairIdentityIff(ms);
  }

  lemma NoCommits()
    ensures CommitsOk([])
  {
  }

  lemma CommitsAppend(commits: seq<seq<Message>>, ms: seq<Message>)
    requires CommitsOk(commits) && Loadable(ms)
    ensures CommitsOk(commits + [ms])
  {
    hide Loadable;
  }

  lemma CommitsConcat(a: seq<seq<Message>>, b: seq<seq<Message>>)
    requires CommitsOk(a) && CommitsOk(b)
    ensures CommitsOk(a + b)
  {
    hide Loadable;
  }

  lemma PhaseReady(setup: Setup, was: seq<Message>, tools: ToolExecution.Env, step: Step, phase: Phase)
    requires ToolComplete(was) && step.ToolPhase? && IsToolStep(step) && AreTexts(phase.staged)
    requires phase.assistant == step.assistant && phase.results == ResultsOf(tools, step.toolCalls, phase.denials)
    ensures PhaseOk(phase) && |phase.results| > 0 && ToolComplete(was + [step.assistant] + phase.results)
  {
    hide ToolComplete, ResultsOf, AreTexts, AfterPhase, Loadable;
    ResultsAnswer(tools, step, phase.denials, phase);
    PhaseKeepsToolComplete(setup, was, phase);
  }
}
