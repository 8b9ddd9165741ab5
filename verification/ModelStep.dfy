/** One model iteration (`src/agent_loop/model_step.rs`): which tool calls are kept, and the retries
    that one deadline, one attempt limit and one published-output latch bound together. */
module ModelStep {
  import opened Text
  import opened Conversation
  import opened MessageFormat

  // ---------------------------------------------------------------- valid tool calls

  predicate IsValidCall(call: ToolCall) {
    !IsBlank(call.name) && !IsBlank(call.id)
  }

  predicate HasValidCall(calls: seq<ToolCall>, n: nat, id: string)
    requires n <= |calls|
  {
    exists k :: 0 <= k < n && IsValidCall(calls[k]) && calls[k].id == id
  }

  /** Ids of the valid calls among the first `n`, in the order they first appear. */
  function FirstIds(calls: seq<ToolCall>, n: nat): (ids: seq<string>)
    requires n <= |calls|
    ensures forall i, j :: 0 <= i < j < |ids| ==> ids[i] != ids[j]
    ensures forall i :: 0 <= i < |ids| ==> !IsBlank(ids[i])
    ensures forall k :: 0 <= k < n && IsValidCall(calls[k]) ==> calls[k].id in ids
    ensures forall id :: id in ids ==> HasValidCall(calls, n, id)
  {
    if n == 0 then []
    else
      var ids := FirstIds(calls, n - 1);
      if IsValidCall(calls[n - 1]) && calls[n - 1].id !in ids then ids + [calls[n - 1].id] else ids
  }

  predicate NoLaterCall(calls: seq<ToolCall>, k: int, n: nat, id: string)
    requires n <= |calls|
  {
    forall j :: 0 <= j && k < j < n ==> !(IsValidCall(calls[j]) && calls[j].id == id)
  }

  /** The latest valid call with this id among the first `n`. */
  function LatestCall(calls: seq<ToolCall>, n: nat, id: string): (call: Option<ToolCall>)
    requires n <= |calls|
    ensures call.Some? ==> IsValidCall(call.value) && call.value.id == id
    ensures call.Some? ==> exists k :: 0 <= k < n && calls[k] == call.value && NoLaterCall(calls, k, n, id)
    ensures call.None? ==> !HasValidCall(calls, n, id)
  {
    if n == 0 then None
    else if IsValidCall(calls[n - 1]) && calls[n - 1].id == id then Some(calls[n - 1])
    else LatestCall(calls, n - 1, id)
  }

  /** One call per id, in order of first appearance, each the latest with its id. */
  function ValidCalls(calls: seq<ToolCall>): (valid: seq<ToolCall>)
    ensures |valid| == |FirstIds(calls, |calls|)|
    ensures forall i :: 0 <= i < |valid| ==> valid[i].id == FirstIds(calls, |calls|)[i] && IsValidCall(valid[i])
  {
    var ids := FirstIds(calls, |calls|);
    seq(|ids|, i requires 0 <= i < |ids| => assert ids[i] in ids; LatestCall(calls, |calls|, ids[i]).value)
  }

  predicate DistinctIds(calls: seq<ToolCall>) {
    forall i, j :: 0 <= i < j < |calls| ==> calls[i].id != calls[j].id
  }

  /** What the tool phase rests on: the kept calls have distinct ids, none of them blank. */
  lemma ValidCallsDistinct(calls: seq<ToolCall>)
    ensures DistinctIds(ValidCalls(calls))
    ensures forall i :: 0 <= i < |ValidCalls(calls)| ==> IsValidCall(ValidCalls(calls)[i])
    ensures ValidCalls(calls) == [] <==> forall k :: 0 <= k < |calls| ==> !IsValidCall(calls[k])
  {
    hide FirstIds, LatestCall;
    var ids := FirstIds(calls, |calls|);
    if |ids| > 0 { assert ids[0] in ids; }
  }

  /** The calls that are kept, told without the index map: one for each id that a call with a name and an id
      has, the latest such call, in the order in which the ids first appear. */
  ghost predicate KeptCalls(calls: seq<ToolCall>, kept: seq<ToolCall>) {
    (forall i :: 0 <= i < |kept| ==> IsLatest(calls, kept[i])) &&
    (forall k :: 0 <= k < |calls| && !IsBlank(calls[k].name) && !IsBlank(calls[k].id) ==> HoldsId(kept, calls[k].id)) &&
    (forall i, j :: 0 <= i < j < |kept| ==> kept[i].id != kept[j].id && AppearsFirst(calls, kept[i].id, kept[j].id))
  }

  ghost predicate IsLatest(calls: seq<ToolCall>, call: ToolCall) {
    exists k ::
      0 <= k < |calls| && calls[k] == call && !IsBlank(call.name) && !IsBlank(call.id) &&
      forall j :: k < j < |calls| && calls[j].id == call.id ==> IsBlank(calls[j].name)
  }

  ghost predicate HoldsId(calls: seq<ToolCall>, id: string) {
    exists i :: 0 <= i < |calls| && calls[i].id == id
  }

  /** Every call with id `b` that counts has one with id `a` that counts before it. */
  ghost predicate AppearsFirst(calls: seq<ToolCall>, a: string, b: string) {
    forall q :: 0 <= q < |calls| && calls[q].id == b && !IsBlank(calls[q].name) ==>
      exists p :: 0 <= p < q && calls[p].id == a && !IsBlank(calls[p].name)
  }

  /** Ids come in the order of their first calls. */
  lemma {:induction false} FirstIdsOrdered(calls: seq<ToolCall>, n: nat, i: nat, j: nat)
    requires n <= |calls| && i < j < |FirstIds(calls, n)|
    ensures forall q :: 0 <= q < n && IsValidCall(calls[q]) && calls[q].id == FirstIds(calls, n)[j] ==>
      HasValidCall(calls, q, FirstIds(calls, n)[i])
  {
    hide IsValidCall;
    var ids, before := FirstIds(calls, n), FirstIds(calls, n - 1);
    if j < |before| {
      FirstIdsOrdered(calls, n - 1, i, j);
      forall q | 0 <= q < n && IsValidCall(calls[q]) && calls[q].id == ids[j] ensures HasValidCall(calls, q, ids[i]) {
        if q == n - 1 { assert ids[i] in before; }
      }
    } else {
      forall q | 0 <= q < n && IsValidCall(calls[q]) && calls[q].id == ids[j] ensures HasValidCall(calls, q, ids[i]) {
        assert q == n - 1;
        assert ids[i] in before;
      }
    }
  }

  lemma ValidCallsKept(calls: seq<ToolCall>)
    ensures KeptCalls(calls, ValidCalls(calls))
  {
    hide FirstIds, LatestCall;
    var ids, kept := FirstIds(calls, |calls|), ValidCalls(calls);
    forall i | 0 <= i < |kept| ensures IsLatest(calls, kept[i]) {
      assert ids[i] in ids;
      var k :| 0 <= k < |calls| && calls[k] == kept[i] && NoLaterCall(calls, k, |calls|, ids[i]);
    }
    forall k | 0 <= k < |calls| && !IsBlank(calls[k].name) && !IsBlank(calls[k].id) ensures HoldsId(kept, calls[k].id) {
      assert IsValidCall(calls[k]) && calls[k].id in ids;
      var i :| 0 <= i < |ids| && ids[i] == calls[k].id;
      assert kept[i].id == calls[k].id;
    }
    forall i, j | 0 <= i < j < |kept| ensures kept[i].id != kept[j].id && AppearsFirst(calls, kept[i].id, kept[j].id) {
      KeptInOrder(calls, i, j);
    }
  }

  lemma KeptInOrder(calls: seq<ToolCall>, i: nat, j: nat)
    requires i < j < |ValidCalls(calls)|
    ensures AppearsFirst(calls, ValidCalls(calls)[i].id, ValidCalls(calls)[j].id)
  {
    hide FirstIds, LatestCall;
    var ids := FirstIds(calls, |calls|);
    FirstIdsOrdered(calls, |calls|, i, j);
    forall q | 0 <= q < |calls| && calls[q].id == ids[j] && !IsBlank(calls[q].name)
      ensures exists p :: 0 <= p < q && calls[p].id == ids[i] && !IsBlank(calls[p].name)
    {
      assert IsValidCall(calls[q]);
      assert HasValidCall(calls, q, ids[i]);
    }
  }

  /** `valid` is what the reference says for the first `n` calls. */
  ghost predicate FilteredTo(calls: seq<ToolCall>, n: nat, valid: seq<ToolCall>)
    requires n <= |calls|
  {
    var ids := FirstIds(calls, n);
    |valid| == |ids| && forall i :: 0 <= i < |ids| ==> LatestCall(calls, n, ids[i]) == Some(valid[i])
  }

  /** `indexById` finds each id at its place, and nothing else. */
  ghost predicate Indexes(ids: seq<string>, indexById: map<string, nat>) {
    (forall i :: 0 <= i < |ids| ==> ids[i] in indexById && indexById[ids[i]] == i) &&
    (forall id :: id in indexById ==> id in ids)
  }

  lemma FilterStep(calls: seq<ToolCall>, n: nat)
    requires n < |calls|
    ensures forall id :: LatestCall(calls, n + 1, id) == NextLatest(calls[n], id, LatestCall(calls, n, id))
    ensures FirstIds(calls, n + 1) == FirstIds(calls, n) +
      if IsValidCall(calls[n]) && calls[n].id !in FirstIds(calls, n) then [calls[n].id] else []
  {
    hide IsValidCall, HasValidCall, NoLaterCall;
    forall id ensures LatestCall(calls, n + 1, id) == NextLatest(calls[n], id, LatestCall(calls, n, id)) {
    }
  }

  function NextLatest(call: ToolCall, id: string, latest: Option<ToolCall>): Option<ToolCall> {
    if IsValidCall(call) && call.id == id then Some(call) else latest
  }

  lemma FilteredSkip(calls: seq<ToolCall>, n: nat, valid: seq<ToolCall>)
    requires n < |calls| && FilteredTo(calls, n, valid) && !IsValidCall(calls[n])
    ensures FilteredTo(calls, n + 1, valid) && FirstIds(calls, n + 1) == FirstIds(calls, n)
  {
    hide IsValidCall, LatestCall, FirstIds;
    FilterStep(calls, n);
  }

  lemma FilteredReplace(calls: seq<ToolCall>, n: nat, valid: seq<ToolCall>, index: nat)
    requires n < |calls| && FilteredTo(calls, n, valid) && IsValidCall(calls[n])
    requires index < |FirstIds(calls, n)| && FirstIds(calls, n)[index] == calls[n].id
    ensures FilteredTo(calls, n + 1, valid[index := calls[n]]) && FirstIds(calls, n + 1) == FirstIds(calls, n)
  {
    hide IsValidCall, LatestCall, FirstIds;
    FilterStep(calls, n);
  }

  lemma FilteredAppend(calls: seq<ToolCall>, n: nat, valid: seq<ToolCall>)
    requires n < |calls| && FilteredTo(calls, n, valid) && IsValidCall(calls[n]) && calls[n].id !in FirstIds(calls, n)
    ensures FilteredTo(calls, n + 1, valid + [calls[n]]) && FirstIds(calls, n + 1) == FirstIds(calls, n) + [calls[n].id]
  {
    hide IsValidCall, LatestCall, FirstIds;
    FilterStep(calls, n);
  }

  lemma IndexesAppend(ids: seq<string>, indexById: map<string, nat>, id: string)
    requires Indexes(ids, indexById) && id !in indexById
    ensures id !in ids && Indexes(ids + [id], indexById[id := |ids|])
  {
  }

  method FilterValidToolCalls(calls: seq<ToolCall>) returns (valid: seq<ToolCall>)
    ensures valid == ValidCalls(calls) && KeptCalls(calls, valid)
  {
    hide IsValidCall, FilteredTo, FirstIds, KeptCalls;
    var indexById: map<string, nat> := map[];
    valid := [];
    FilteredNothing(calls);
    for n := 0 to |calls|
      invariant FilteredTo(calls, n, valid) && |valid| == |FirstIds(calls, n)| && Indexes(FirstIds(calls, n), indexById)
    {
      var call := calls[n];
      if !IsValidCall(call) {
        FilteredSkip(calls, n, valid);
        continue;
      }
      if call.id in indexById {
        FilteredReplace(calls, n, valid, indexById[call.id]);
        valid := valid[indexById[call.id] := call];
      } else {
        IndexesAppend(FirstIds(calls, n), indexById, call.id);
        FilteredAppend(calls, n, valid);
        indexById := indexById[call.id := |valid|];
        valid := valid + [call];
      }
    }
    FilteredDone(calls, valid);
    ValidCallsKept(calls);
  }

  lemma FilteredNothing(calls: seq<ToolCall>)
    ensures FilteredTo(calls, 0, []) && FirstIds(calls, 0) == []
  {
  }

  lemma FilteredDone(calls: seq<ToolCall>, valid: seq<ToolCall>)
    requires FilteredTo(calls, |calls|, valid)
    ensures valid == ValidCalls(calls)
  {
    hide IsValidCall, FirstIds, LatestCall;
  }

  // ---------------------------------------------------------------- one request

  /** `EmptyContent` is the invalid response that carries the parser's empty-content message. */
  datatype LlmError =
    | RequestFailed
    | ApiError(status: nat, retryAfterSecs: Option<nat>)
    | EmptyContent
    | InvalidResponse(message: string)
    | InitFailed
    | RequestConstructionFailed
    | DeadlineExceeded

  predicate IsRetryable(error: LlmError) {
    match error
    case RequestFailed => true
    case ApiError(status, _) => status == 429 || 500 <= status < 600
    case _ => false
  }

  datatype Reply = Reply(content: string, reasoning: Option<string>, toolCalls: seq<ToolCall>)

  datatype Step =
    | Final(content: string, reasoning: Option<string>)
    | MalformedToolCalls(content: string, reasoning: Option<string>)
    | ToolPhase(assistant: Message, preview: string, toolCalls: seq<ToolCall>)

  /** `build_assistant_tool_phase`. */
  function AssistantToolPhase(content: string, reasoning: Option<string>, calls: seq<ToolCall>): Step {
    var text := VisibleText(content);
    ToolPhase(Message(Assistant, Plain(text), reasoning, calls, None), SummarizeToolCalls(text, calls), calls)
  }

  /** What `send_model_step` makes of a reply. */
  function StepOf(reply: Reply): Step {
    if |reply.toolCalls| == 0 then Final(reply.content, reply.reasoning)
    else
      var valid := ValidCalls(reply.toolCalls);
      if |valid| == 0 then MalformedToolCalls(reply.content, reply.reasoning)
      else AssistantToolPhase(reply.content, reply.reasoning, valid)
  }

  function Outcome(answer: Result<Reply, LlmError>): Result<Step, LlmError> {
    match answer
    case Ok(reply) => Ok(StepOf(reply))
    case Err(error) => Err(error)
  }

  /** `model_step_response_is_empty`. */
  predicate IsEmpty(outcome: Result<Step, LlmError>) {
    match outcome
    case Err(error) => error.EmptyContent?
    case Ok(Final(content, _)) => IsBlank(VisibleText(content))
    case Ok(_) => false
  }

  const EMPTY_REPLY_RUNTIME_GUARD: string :=
    "[runtime_guard]: Your previous reply had no user-visible text. Reply again now with a concise visible answer. " +
    "If tools are required, execute them first and then provide the visible result."

  /** `runtime_guard_messages`: the request with the bad answer and a corrective user message. */
  function GuardMessages(ms: seq<Message>, text: string, reasoning: Option<string>, guard: string): seq<Message> {
    ms + [TextMessage(Assistant, text).(reasoning := reasoning), TextMessage(User, guard)]
  }

  /** The guarded list that answers an empty outcome. */
  function EmptyReplyGuard(ms: seq<Message>, outcome: Result<Step, LlmError>): seq<Message> {
    if outcome.Ok? && outcome.value.Final? then
      GuardMessages(ms, outcome.value.content, outcome.value.reasoning, EMPTY_REPLY_RUNTIME_GUARD)
    else GuardMessages(ms, "", None, EMPTY_REPLY_RUNTIME_GUARD)
  }

  // ---------------------------------------------------------------- retries

  const MAX_LLM_RETRIES: nat := 3
  const MODEL_ITERATION_DEADLINE_MS: nat := 300_000
  const LLM_RETRY_BASE_BACKOFF_MS: nat := 500

  function Pow2(n: nat): nat { if n == 0 then 1 else 2 * Pow2(n - 1) }

  function BackoffCeiling(attempt: nat): nat
    requires attempt >= 1
  {
    LLM_RETRY_BASE_BACKOFF_MS * Pow2(attempt - 1)
  }

  /** `llm_retry_backoff`: the server's delay, or a random delay below the ceiling. `random` is any number. */
  function Backoff(attempt: nat, error: LlmError, random: nat): nat
    requires attempt >= 1
  {
    if error.ApiError? && error.retryAfterSecs.Some? then error.retryAfterSecs.value * 1000
    else random % (BackoffCeiling(attempt) + 1)
  }

  /** How the provider behaves on one request: whether it streams text before it answers or is cut off,
      how long it takes, and what it answers. */
  datatype Behaviour = Behaviour(streams: bool, took: nat, answer: Result<Reply, LlmError>)

  /** What happens between two attempts: the time to record the attempt, and the random number drawn. */
  datatype Pause = Pause(recording: nat, random: nat)

  /** One request as it was sent, with the latch at that moment. */
  datatype Sent = Sent(messages: seq<Message>, at: nat, published: bool)

  datatype IterationError = IterationError(error: LlmError, published: bool)

  /** What one attempt reports: its outcome, the list to retry with, and the requests it sent. */
  datatype Attempt = Attempt(
    outcome: Result<Step, LlmError>, retryMessages: seq<Message>, now: nat, emptyRetried: bool, published: bool,
    requests: seq<Sent>)

  const EMPTY_AFTER_OUTPUT: string := "assistant content was empty after output was published"
  const EMPTY_AFTER_RETRY: string := "assistant content was empty after retry"

  /** `send_model_step_with_empty_retry` under the deadline: one request, and a guarded second one when
      the first answer is empty, nothing was shown yet, and no guard was spent. `latched` is the latch
      before the attempt, `second` the behaviour of that second request. */
  function SendWithEmptyRetry(
      ms: seq<Message>, now: nat, deadline: nat, publish: bool, latched: bool, emptyRetried: bool,
      first: Behaviour, second: Behaviour)
    : (a: Attempt)
    ensures 1 <= |a.requests| <= 2
  {
    var shown := latched || (publish && first.streams);
    var sent := [Sent(ms, now, latched)];
    if now + first.took > deadline then Attempt(Err(DeadlineExceeded), ms, deadline, emptyRetried, shown, sent)
    else
      var now1, outcome := now + first.took, Outcome(first.answer);
      if !IsEmpty(outcome) then Attempt(outcome, ms, now1, emptyRetried, shown, sent)
      else if shown then Attempt(Err(InvalidResponse(EMPTY_AFTER_OUTPUT)), ms, now1, emptyRetried, shown, sent)
      else if emptyRetried then Attempt(Err(InvalidResponse(EMPTY_AFTER_RETRY)), ms, now1, emptyRetried, shown, sent)
      else
        var guarded := EmptyReplyGuard(ms, outcome);
        var sent2 := sent + [Sent(guarded, now1, shown)];
        var shown2, now2 := shown || (publish && second.streams), now1 + second.took;
        if now2 > deadline then Attempt(Err(DeadlineExceeded), ms, deadline, true, shown2, sent2)
        else if IsEmpty(Outcome(second.answer)) then
          Attempt(Err(InvalidResponse(EMPTY_AFTER_RETRY)), guarded, now2, true, shown2, sent2)
        else Attempt(Outcome(second.answer), guarded, now2, true, shown2, sent2)
  }

  // ---------------------------------------------------------------- the requests of one iteration

  /** What one iteration works with. `publish` says whether streamed text is shown, `maxBackoff` is the
      caller's limit on a single wait; behaviours are numbered by request, pauses by attempt. */
  datatype Iteration = Iteration(
    ms: seq<Message>, publish: bool, maxBackoff: Option<nat>, started: nat, provider: nat -> Behaviour,
    pauses: nat -> Pause)

  function Deadline(t: Iteration): nat { t.started + 300_000 }

  /** A step, told from the reply it is made of. */
  ghost predicate StepIs(reply: Reply, step: Step) {
    match step
    case Final(content, reasoning) =>
      |reply.toolCalls| == 0 && content == reply.content && reasoning == reply.reasoning
    case MalformedToolCalls(content, reasoning) =>
      |reply.toolCalls| > 0 && content == reply.content && reasoning == reply.reasoning &&
      forall k :: 0 <= k < |reply.toolCalls| ==> IsBlank(reply.toolCalls[k].name) || IsBlank(reply.toolCalls[k].id)
    case ToolPhase(assistant, preview, calls) =>
      |calls| > 0 && KeptCalls(reply.toolCalls, calls) &&
      assistant == Message(Assistant, Plain(VisibleText(reply.content)), reply.reasoning, calls, None) &&
      preview == PreviewOf(VisibleText(reply.content), Names(calls))
  }

  predicate SaysNothing(reply: Reply) {
    |reply.toolCalls| == 0 && IsBlank(VisibleText(reply.content))
  }

  /** A transport failure, a rate limit or a failure of the server. */
  predicate MayPass(error: LlmError) {
    error.RequestFailed? || (error.ApiError? && (error.status == 429 || 500 <= error.status <= 599))
  }

  /** The request with the empty answer and the correction behind it. */
  function Corrected(ms: seq<Message>, text: string, reasoning: Option<string>): seq<Message> {
    ms + [Message(Assistant, Plain(text), reasoning, [], None),
          Message(User, Plain(EMPTY_REPLY_RUNTIME_GUARD), None, [], None)]
  }

  ghost predicate IsGuarded(ms: seq<Message>, guarded: seq<Message>) {
    exists text, reasoning :: guarded == Corrected(ms, text, reasoning)
  }

  /** A corrected request belongs to the attempt of the request before it. */
  function AttemptNumber(t: Iteration, i: nat, sent: Sent): nat {
    if sent.messages == t.ms then i + 1 else i
  }

  /** The server's delay in seconds, or a random one up to half a second, a second the next time. */
  function Wait(error: LlmError, attempt: nat, random: nat): nat {
    if error.ApiError? && error.retryAfterSecs.Some? then 1000 * error.retryAfterSecs.value
    else random % (if attempt == 1 then 501 else 1001)
  }

  /** After request `i` there is an attempt left, and leave and time to wait for it. */
  predicate CanWait(t: Iteration, i: nat, sent: Sent, error: LlmError) {
    var attempt := AttemptNumber(t, i, sent);
    1 <= attempt <= 2 &&
    var pause := t.pauses(attempt - 1);
    var wait, answered := Wait(error, attempt, pause.random), sent.at + t.provider(i).took;
    (t.maxBackoff.Some? ==> wait <= t.maxBackoff.value) && answered + wait < Deadline(t) &&
    answered + pause.recording + wait <= Deadline(t)
  }

  /** Request `i` is followed by `next`: its answer came in time and showed nothing, and it said nothing, for
      the first time, or it failed in a way that may pass. */
  ghost predicate Continues(t: Iteration, i: nat, sent: Sent, next: Sent) {
    var b := t.provider(i);
    var answered := sent.at + b.took;
    answered <= next.at <= Deadline(t) && !(t.publish && b.streams) && !next.published &&
    match b.answer
    case Ok(reply) =>
      SaysNothing(reply) && sent.messages == t.ms && next.at == answered &&
      next.messages == Corrected(t.ms, reply.content, reply.reasoning)
    case Err(EmptyContent) =>
      sent.messages == t.ms && next.at == answered && next.messages == Corrected(t.ms, "", None)
    case Err(error) =>
      MayPass(error) && next.messages == sent.messages && CanWait(t, i, sent, error) &&
      var pause := t.pauses(AttemptNumber(t, i, sent) - 1);
      next.at == answered + pause.recording + Wait(error, AttemptNumber(t, i, sent), pause.random)
  }

  /** Request `i` is the last one, and this is what is reported of it. */
  ghost predicate Reports(t: Iteration, i: nat, sent: Sent, r: Result<Step, IterationError>) {
    var b := t.provider(i);
    var published := t.publish && b.streams;
    if sent.at + b.took > Deadline(t) then r == Err(IterationError(DeadlineExceeded, published))
    else
      match b.answer
      case Ok(reply) =>
        if SaysNothing(reply) then ReportsEmpty(t, sent, published, r) else r.Ok? && StepIs(reply, r.value)
      case Err(EmptyContent) => ReportsEmpty(t, sent, published, r)
      case Err(error) =>
        r == Err(IterationError(error, published)) && (MayPass(error) && !published ==> !CanWait(t, i, sent, error))
  }

  /** An empty answer is final when something was shown or the correction is spent. */
  predicate ReportsEmpty(t: Iteration, sent: Sent, published: bool, r: Result<Step, IterationError>) {
    (published || sent.messages != t.ms) &&
    (r == Err(IterationError(InvalidResponse(EMPTY_AFTER_RETRY), published)) ||
     (published && r == Err(IterationError(InvalidResponse(EMPTY_AFTER_OUTPUT), published))))
  }

  /** From the first request on, each one is followed by the next. */
  ghost predicate Chained(t: Iteration, sends: seq<Sent>) {
    (|sends| > 0 ==> sends[0] == Sent(t.ms, t.started, false)) &&
    forall i :: 0 <= i < |sends| - 1 ==> Continues(t, i, sends[i], sends[i + 1])
  }

  ghost predicate NextMayBe(t: Iteration, sends: seq<Sent>, next: Sent) {
    if |sends| == 0 then next == Sent(t.ms, t.started, false)
    else Continues(t, |sends| - 1, sends[|sends| - 1], next)
  }

  lemma ChainGrows(t: Iteration, sends: seq<Sent>, next: Sent)
    requires Chained(t, sends) && NextMayBe(t, sends, next)
    ensures Chained(t, sends + [next])
  {
    hide Continues;
    var all := sends + [next];
    forall i | 0 <= i < |all| - 1 ensures Continues(t, i, all[i], all[i + 1]) {
      if i == |sends| - 1 { assert all[i] == sends[i] && all[i + 1] == next; }
    }
  }

  /** Every request of the chain carries the messages, or them with one correction. */
  lemma {:induction false} ChainCarries(t: Iteration, sends: seq<Sent>, i: nat)
    requires Chained(t, sends) && i < |sends|
    ensures sends[i].messages == t.ms || IsGuarded(t.ms, sends[i].messages)
    ensures t.started <= sends[i].at <= Deadline(t) && !sends[i].published
  {
    hide SaysNothing, MayPass, CanWait, Wait, Corrected;
    if i > 0 {
      ChainCarries(t, sends, i - 1);
      assert Continues(t, i - 1, sends[i - 1], sends[i]);
    }
  }

  // ---- one attempt

  lemma OutcomeIs(reply: Reply)
    ensures IsEmpty(Ok(StepOf(reply))) <==> SaysNothing(reply)
    ensures StepIs(reply, StepOf(reply))
  {
    hide VisibleText, SummarizeToolCalls, KeptCalls, ValidCalls, IsBlank;
    ValidCallsKept(reply.toolCalls);
    StepIsKept(reply);
  }

  lemma StepIsKept(reply: Reply)
    requires KeptCalls(reply.toolCalls, ValidCalls(reply.toolCalls))
    ensures StepIs(reply, StepOf(reply))
  {
    hide VisibleText, KeptCalls, ValidCalls, PreviewOf, Names, IsBlank;
    ValidCallsDistinct(reply.toolCalls);
    InvalidCalls(reply.toolCalls);
  }

  lemma InvalidCalls(calls: seq<ToolCall>)
    ensures forall k :: 0 <= k < |calls| ==>
      (!IsValidCall(calls[k]) <==> IsBlank(calls[k].name) || IsBlank(calls[k].id))
  {
    hide IsBlank;
  }

  lemma RetryableIs(error: LlmError)
    ensures IsRetryable(error) <==> MayPass(error)
  {
  }

  lemma BackoffIs(attempt: nat, error: LlmError, random: nat)
    requires 1 <= attempt <= 2
    ensures Backoff(attempt, error, random) == Wait(error, attempt, random)
  {
  }

  lemma CorrectedIs(ms: seq<Message>, outcome: Result<Step, LlmError>)
    ensures EmptyReplyGuard(ms, outcome) ==
      if outcome.Ok? && outcome.value.Final? then Corrected(ms, outcome.value.content, outcome.value.reasoning)
      else Corrected(ms, "", None)
    ensures EmptyReplyGuard(ms, outcome) != ms
  {
    hide EMPTY_REPLY_RUNTIME_GUARD;
    assert |EmptyReplyGuard(ms, outcome)| == |ms| + 2;
  }

  /** The last request of an attempt, whose behaviour decides how it ended. */
  function LastOf(a: Attempt, first: Behaviour, second: Behaviour): Behaviour {
    if |a.requests| == 2 then second else first
  }

  /** What the last request brings about: its answer, unless it came too late or was empty. */
  function Conclusion(b: Behaviour, at: nat, deadline: nat, message: string): Result<Step, LlmError> {
    if at + b.took > deadline then Err(DeadlineExceeded)
    else if IsEmpty(Outcome(b.answer)) then Err(InvalidResponse(message))
    else Outcome(b.answer)
  }

  /** Which of the two messages reports an empty answer: a guarded second answer is always reported as empty
      after the retry, whatever it showed. */
  function EmptyMessage(guardJustSpent: bool, shown: bool): string {
    if guardJustSpent || !shown then EMPTY_AFTER_RETRY else EMPTY_AFTER_OUTPUT
  }

  lemma AttemptFacts(
      ms: seq<Message>, now: nat, deadline: nat, publish: bool, emptyRetried: bool, first: Behaviour, second: Behaviour)
    requires now <= deadline
    ensures var a := SendWithEmptyRetry(ms, now, deadline, publish, false, emptyRetried, first, second);
      a.requests[0] == Sent(ms, now, false) && now <= a.now <= deadline &&
      (|a.requests| == 2 <==>
        now + first.took <= deadline && IsEmpty(Outcome(first.answer)) && !(publish && first.streams) &&
        !emptyRetried) &&
      (|a.requests| == 2 ==>
        a.requests[1] == Sent(EmptyReplyGuard(ms, Outcome(first.answer)), now + first.took, false)) &&
      (a.emptyRetried <==> emptyRetried || |a.requests| == 2) &&
      (a.published <==> publish && LastOf(a, first, second).streams)
  {
    hide StepOf, VisibleText, ValidCalls, EmptyReplyGuard, Outcome, IsEmpty, EMPTY_AFTER_OUTPUT, EMPTY_AFTER_RETRY;
  }

  lemma AttemptConcludes(
      ms: seq<Message>, now: nat, deadline: nat, publish: bool, emptyRetried: bool, first: Behaviour, second: Behaviour)
    requires now <= deadline
    ensures var a := SendWithEmptyRetry(ms, now, deadline, publish, false, emptyRetried, first, second);
      var last, sent := LastOf(a, first, second), a.requests[|a.requests| - 1];
      a.outcome == Conclusion(last, sent.at, deadline, EmptyMessage(|a.requests| == 2, a.published)) &&
      (a.now == if sent.at + last.took > deadline then deadline else sent.at + last.took) &&
      (sent.at + last.took <= deadline && IsEmpty(Outcome(last.answer)) && !a.published ==> a.emptyRetried) &&
      (sent.at + last.took <= deadline && a.outcome.Err? && IsRetryable(a.outcome.error) ==>
        a.retryMessages == sent.messages)
  {
    hide StepOf, VisibleText, ValidCalls, EmptyReplyGuard, Outcome, IsEmpty, EMPTY_AFTER_OUTPUT, EMPTY_AFTER_RETRY;
  }

  /** One attempt from where the loop stands. */
  function AttemptOf(t: Iteration, sends: seq<Sent>, ms: seq<Message>, now: nat): (a: Attempt)
    ensures 1 <= |a.requests| <= 2
  {
    SendWithEmptyRetry(ms, now, Deadline(t), t.publish, false, ms != t.ms, t.provider(|sends|),
                       t.provider(|sends| + 1))
  }

  /** An attempt extends the chain by its one or two requests. */
  lemma AttemptChains(t: Iteration, sends: seq<Sent>, ms: seq<Message>, now: nat)
    requires Chained(t, sends) && NextMayBe(t, sends, Sent(ms, now, false)) && now <= Deadline(t)
    ensures var a := AttemptOf(t, sends, ms, now);
      var all := sends + a.requests;
      var last, sent := |all| - 1, all[|all| - 1];
      Chained(t, all) && sent == a.requests[|a.requests| - 1] && now <= a.now <= Deadline(t) &&
      (a.emptyRetried <==> sent.messages != t.ms) && (a.published <==> t.publish && t.provider(last).streams) &&
      AttemptNumber(t, last, sent) == |sends| - (if ms != t.ms then 1 else 0) + 1 &&
      |all| - (if a.emptyRetried then 1 else 0) == AttemptNumber(t, last, sent) &&
      Concludes(t, last, sent, a)
  {
    hide SendWithEmptyRetry, IsEmpty, Outcome, Conclusion, EmptyMessage, Continues, Chained, NextMayBe, EmptyReplyGuard,
      Concludes;
    var first, second := t.provider(|sends|), t.provider(|sends| + 1);
    var a := AttemptOf(t, sends, ms, now);
    AttemptFacts(ms, now, Deadline(t), t.publish, ms != t.ms, first, second);
    ChainGrows(t, sends, a.requests[0]);
    CorrectedIs(ms, Outcome(first.answer));
    if |a.requests| == 2 {
      var grown := sends + [a.requests[0]];
      EmptyContinues(t, |sends|, a.requests[0], a.requests[1]);
      NextIs(t, grown, a.requests[1]);
      ChainGrows(t, grown, a.requests[1]);
      assert sends + a.requests == grown + [a.requests[1]];
    } else {
      assert sends + a.requests == sends + [a.requests[0]];
    }
    AttemptConcluded(t, sends, ms, now);
  }

  lemma NextIs(t: Iteration, sends: seq<Sent>, next: Sent)
    requires |sends| > 0 && Continues(t, |sends| - 1, sends[|sends| - 1], next)
    ensures NextMayBe(t, sends, next)
  {
    hide Continues;
  }

  /** The second request of an attempt follows an empty answer to the first. */
  lemma EmptyContinues(t: Iteration, i: nat, sent: Sent, next: Sent)
    requires var b := t.provider(i);
      sent.messages == t.ms && sent.at + b.took <= Deadline(t) && IsEmpty(Outcome(b.answer)) &&
      !(t.publish && b.streams) && next == Sent(EmptyReplyGuard(t.ms, Outcome(b.answer)), sent.at + b.took, false)
    ensures Continues(t, i, sent, next)
  {
    hide SaysNothing, Corrected, EmptyReplyGuard, StepOf, CanWait;
    var answer := t.provider(i).answer;
    CorrectedIs(t.ms, Outcome(answer));
    if answer.Ok? {
      OutcomeIs(answer.value);
      StepOfFinal(answer.value);
    }
  }

  lemma StepOfFinal(reply: Reply)
    ensures SaysNothing(reply) ==> StepOf(reply) == Final(reply.content, reply.reasoning)
  {
    hide VisibleText;
  }

  /** What the attempt reports is what its last request brought. */
  ghost predicate Concludes(t: Iteration, last: nat, sent: Sent, a: Attempt) {
    match a.outcome
    case Ok(step) => Reports(t, last, sent, Ok(step))
    case Err(error) =>
      (!(MayPass(error) && !a.published && CanWait(t, last, sent, error)) ==>
        Reports(t, last, sent, Err(IterationError(error, a.published)))) &&
      (MayPass(error) ==>
        a.now == sent.at + t.provider(last).took && a.retryMessages == sent.messages &&
        t.provider(last).answer == Err(error))
  }

  lemma AttemptConcluded(t: Iteration, sends: seq<Sent>, ms: seq<Message>, now: nat)
    requires now <= Deadline(t)
    ensures var a := AttemptOf(t, sends, ms, now);
      Concludes(t, |sends| + |a.requests| - 1, a.requests[|a.requests| - 1], a)
  {
    hide SendWithEmptyRetry, IsEmpty, Outcome, Conclusion, EmptyMessage, EmptyReplyGuard, Reports, CanWait, MayPass,
      IsRetryable;
    var first, second := t.provider(|sends|), t.provider(|sends| + 1);
    var a := AttemptOf(t, sends, ms, now);
    var last, sent := |sends| + |a.requests| - 1, a.requests[|a.requests| - 1];
    AttemptFacts(ms, now, Deadline(t), t.publish, ms != t.ms, first, second);
    AttemptConcludes(ms, now, Deadline(t), t.publish, ms != t.ms, first, second);
    CorrectedIs(ms, Outcome(first.answer));
    assert LastOf(a, first, second) == t.provider(last);
    var message := EmptyMessage(|a.requests| == 2, a.published);
    EmptyMessages(|a.requests| == 2, a.published);
    ConclusionReports(t, last, sent, message, a.published);
    if a.outcome.Err? { RetryableIs(a.outcome.error); }
    if |a.requests| == 2 {
      assert ms == t.ms && sent == a.requests[1];
      GuardedDiffers(ms, first, sent);
    }
  }

  lemma GuardedDiffers(ms: seq<Message>, first: Behaviour, sent: Sent)
    requires sent.messages == EmptyReplyGuard(ms, Outcome(first.answer))
    ensures sent.messages != ms
  {
    hide EmptyReplyGuard, Outcome;
    CorrectedIs(ms, Outcome(first.answer));
  }

  lemma EmptyMessages(guardJustSpent: bool, shown: bool)
    ensures EmptyMessage(guardJustSpent, shown) == EMPTY_AFTER_RETRY ||
      (shown && EmptyMessage(guardJustSpent, shown) == EMPTY_AFTER_OUTPUT)
  {
    hide EMPTY_AFTER_OUTPUT, EMPTY_AFTER_RETRY;
  }

  lemma ConclusionReports(t: Iteration, i: nat, sent: Sent, message: string, published: bool)
    requires published <==> t.publish && t.provider(i).streams
    requires message == EMPTY_AFTER_RETRY || (published && message == EMPTY_AFTER_OUTPUT)
    ensures var b := t.provider(i);
      var c := Conclusion(b, sent.at, Deadline(t), message);
      var late := sent.at + b.took > Deadline(t);
      (c.Ok? ==> Reports(t, i, sent, Ok(c.value))) &&
      (c.Err? && MayPass(c.error) ==> !late && b.answer == Err(c.error)) &&
      (c.Err? && (late || !IsEmpty(Outcome(b.answer)) || published || sent.messages != t.ms) &&
       !(MayPass(c.error) && !published && CanWait(t, i, sent, c.error)) ==>
        Reports(t, i, sent, Err(IterationError(c.error, published))))
  {
    hide SaysNothing, StepOf, StepIs, CanWait, EMPTY_AFTER_OUTPUT, EMPTY_AFTER_RETRY;
    var answer := t.provider(i).answer;
    if answer.Ok? { OutcomeIs(answer.value); }
  }

  /** `retry_transient_failures`: the retry loop of one iteration for the provider `provider` (behaviour
      of the i-th request) and the pauses `pauses` (after the i-th attempt). */
  method RetryTransientFailures(
      ms: seq<Message>, publish: bool, maxBackoff: Option<nat>, started: nat, provider: nat -> Behaviour,
      pauses: nat -> Pause)
    returns (r: Result<Step, IterationError>, sends: seq<Sent>, ended: nat, published: bool, attempts: nat)
    // the bounds, for every provider and every clock
    ensures started <= ended <= started + 300_000
    ensures 1 <= |sends| <= 4 && 1 <= attempts <= 3 && attempts <= |sends| <= attempts + 1
    // every request but the last is followed for cause, by the request that answers its answer, in time
    ensures Chained(Iteration(ms, publish, maxBackoff, started, provider, pauses), sends)
    // what is reported is what the last request brought, and nothing more could be tried
    ensures published <==> publish && provider(|sends| - 1).streams
    ensures Reports(
      Iteration(ms, publish, maxBackoff, started, provider, pauses), |sends| - 1, sends[|sends| - 1], r)
  {
    hide SendWithEmptyRetry, Backoff, IsRetryable, Chained, NextMayBe, Reports, CanWait, MayPass, AttemptOf, Concludes,
      AttemptNumber;
    ghost var t := Iteration(ms, publish, maxBackoff, started, provider, pauses);
    var deadline := started + MODEL_ITERATION_DEADLINE_MS;
    var now, emptyRetried, retryMessages := started, false, ms;
    sends, attempts, published := [], 0, false;
    NothingSent(t);
    while true
      invariant attempts < MAX_LLM_RETRIES && started <= now <= deadline && !published
      invariant |sends| == attempts + if emptyRetried then 1 else 0
      invariant Chained(t, sends) && NextMayBe(t, sends, Sent(retryMessages, now, false))
      invariant emptyRetried <==> retryMessages != ms
      decreases MAX_LLM_RETRIES - attempts
    {
      var first, second := provider(|sends|), provider(|sends| + 1);
      var a := SendWithEmptyRetry(retryMessages, now, deadline, publish, published, emptyRetried, first, second);
      AttemptIs(t, sends, retryMessages, now);
      AttemptChains(t, sends, retryMessages, now);
      sends, attempts := sends + a.requests, attempts + 1;
      now, emptyRetried, retryMessages, published := a.now, a.emptyRetried, a.retryMessages, a.published;
      ghost var last, sent := |sends| - 1, sends[|sends| - 1];
      ConcludesIs(t, last, sent, a);
      match a.outcome {
        case Ok(step) =>
          return Ok(step), sends, now, published, attempts;
        case Err(error) =>
          var pause := pauses(attempts - 1);
          var backoff := Backoff(attempts, error, pause.random);
          var withinLimit := maxBackoff.None? || backoff <= maxBackoff.value;
          var beforeDeadline := now + backoff < deadline;
          WaitIs(t, last, sent, error, attempts);
          RetryableIs(error);
          if !(IsRetryable(error) && !published && withinLimit && beforeDeadline && attempts < MAX_LLM_RETRIES) {
            return Err(IterationError(error, published)), sends, now, published, attempts;
          }
          if now + pause.recording + backoff > deadline {
            return Err(IterationError(error, published)), sends, deadline, published, attempts;
          }
          now := now + pause.recording + backoff;
          PassContinues(t, last, sent, error, Sent(retryMessages, now, false));
          NextIs(t, sends, Sent(retryMessages, now, false));
      }
    }
  }

  lemma NothingSent(t: Iteration)
    ensures Chained(t, []) && NextMayBe(t, [], Sent(t.ms, t.started, false))
  {
  }

  lemma AttemptIs(t: Iteration, sends: seq<Sent>, ms: seq<Message>, now: nat)
    ensures AttemptOf(t, sends, ms, now) ==
      SendWithEmptyRetry(ms, now, Deadline(t), t.publish, false, ms != t.ms, t.provider(|sends|),
                         t.provider(|sends| + 1))
  {
    hide SendWithEmptyRetry;
  }

  lemma ConcludesIs(t: Iteration, last: nat, sent: Sent, a: Attempt)
    requires Concludes(t, last, sent, a)
    ensures a.outcome.Ok? ==> Reports(t, last, sent, Ok(a.outcome.value))
    ensures a.outcome.Err? ==>
      (!(MayPass(a.outcome.error) && !a.published && CanWait(t, last, sent, a.outcome.error)) ==>
        Reports(t, last, sent, Err(IterationError(a.outcome.error, a.published))))
    ensures a.outcome.Err? && MayPass(a.outcome.error) ==>
      a.now == sent.at + t.provider(last).took && a.retryMessages == sent.messages &&
      t.provider(last).answer == Err(a.outcome.error)
  {
    hide Reports, CanWait, MayPass;
  }

  /** The loop's own conditions say whether it can wait. */
  lemma WaitIs(t: Iteration, last: nat, sent: Sent, error: LlmError, attempts: nat)
    requires AttemptNumber(t, last, sent) == attempts >= 1
    ensures var pause, answered := t.pauses(attempts - 1), sent.at + t.provider(last).took;
      var backoff := Backoff(attempts, error, pause.random);
      CanWait(t, last, sent, error) <==>
        attempts < MAX_LLM_RETRIES && (t.maxBackoff.None? || backoff <= t.maxBackoff.value) &&
        answered + backoff < Deadline(t) && answered + pause.recording + backoff <= Deadline(t)
  {
    hide Backoff, Wait;
    if attempts <= 2 { BackoffIs(attempts, error, t.pauses(attempts - 1).random); }
  }

  lemma PassContinues(t: Iteration, last: nat, sent: Sent, error: LlmError, next: Sent)
    requires t.provider(last).answer == Err(error) && MayPass(error) && CanWait(t, last, sent, error)
    requires !(t.publish && t.provider(last).streams) && !next.published && next.messages == sent.messages
    requires AttemptNumber(t, last, sent) >= 1
    requires var attempt := AttemptNumber(t, last, sent);
      var pause := t.pauses(attempt - 1);
      next.at == sent.at + t.provider(last).took + pause.recording + Backoff(attempt, error, pause.random)
    ensures Continues(t, last, sent, next)
  {
    hide Backoff, Wait, SaysNothing, Corrected;
    BackoffIs(AttemptNumber(t, last, sent), error, t.pauses(AttemptNumber(t, last, sent) - 1).random);
  }
}
