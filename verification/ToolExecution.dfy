/** Execution of one assistant tool phase (`src/agent_loop/tool_execution.rs`): parallel read-only
    blocks, serial side-effecting calls behind a ledger claim, and the guard-denial stop. */
module ToolExecution {
  import opened Text
  import opened Conversation

  const GUARD_DENIAL_LIMIT: nat := 3

  datatype ErrorKind = GuardDenied | InvalidInput | OtherKind

  datatype ToolResult = ToolResult(isError: bool, kind: Option<ErrorKind>, content: string)

  /** Answer of the ledger when a side-effecting call asks for its slot; `ClaimFailed` is a storage error. */
  datatype Claim = Acquired | Reused(output: string) | Blocked(state: string) | ClaimFailed

  datatype Executed = Executed(call: ToolCall, result: ToolResult, payload: string, message: Message)

  /** Everything the executor does not decide. The index is the position of the call in the phase:
      the ledger's answer, the tool's result, whether recording that result succeeds, whether the
      ledger write of the read-only block that starts there succeeds, in which order the calls of the
      block `[lo, hi)` finish, and how results are printed. `tracked` says whether denials are counted. */
  datatype Env = Env(
    tracked: bool,
    isReadOnly: string -> bool,
    claim: nat -> Claim,
    result: nat -> ToolResult,
    recordOk: nat -> bool,
    blockLedgerOk: nat -> bool,
    finishOrder: (nat, nat) -> seq<nat>,
    format: (ToolCall, ToolResult) -> string,
    content: (string, ToolResult) -> Content)

  /** What happens, in order, beside the returned outcomes. */
  datatype Event = Claimed(index: nat) | Ran(index: nat) | Ledgered(index: nat)

  const REFUSAL: ToolResult := ToolResult(true, Some(GuardDenied),
    "[runtime_guard]: All Tool execution is stopped for this run because the security-guard denial limit (3) was " +
    "reached. Do not retry or request another Tool; report what was blocked to the user.")

  // ---------------------------------------------------------------- one call

  function Finish(env: Env, call: ToolCall, result: ToolResult, payload: string): Executed {
    Executed(call, result, payload, Message(Tool, env.content(payload, result), None, [], Some(call.id)))
  }

  lemma FinishKeepsResult(env: Env, call: ToolCall, result: ToolResult, payload: string)
    ensures Finish(env, call, result, payload).result == result
  {
  }

  function InvalidArguments(call: ToolCall, parseError: string): ToolResult {
    ToolResult(true, Some(InvalidInput),
      "Tool call was not executed: the arguments for '" + call.name + "' are not valid JSON (" + parseError +
      "). Resend the call with complete, valid JSON arguments. For large file content, use `write` or split the " +
      "change into smaller `edit` calls.")
  }

  function Rejected(env: Env, call: ToolCall): Executed {
    Finish(env, call, REFUSAL, env.format(call, REFUSAL))
  }

  /** The outcome of a call that is not refused, when storage does not fail. */
  function Single(env: Env, call: ToolCall, index: nat): Executed {
    if call.invalidArguments.Some? then
      var result := InvalidArguments(call, call.invalidArguments.value);
      Finish(env, call, result, env.format(call, result))
    else if env.isReadOnly(call.name) || env.claim(index).Acquired? then
      Finish(env, call, env.result(index), env.format(call, env.result(index)))
    else
      match env.claim(index)
      case Reused(output) => Finish(env, call, ToolResult(false, None, output), output)
      case Blocked(state) =>
        var result := ToolResult(true, None, "tool call blocked: ledger state=" + state);
        Finish(env, call, result, env.format(call, result))
      case _ => Finish(env, call, env.result(index), env.format(call, env.result(index)))
  }

  /** The tool itself runs: valid arguments and, unless it only reads, an acquired claim. */
  predicate RunsTool(env: Env, call: ToolCall, index: nat) {
    call.invalidArguments.None? && (env.isReadOnly(call.name) || env.claim(index).Acquired?)
  }

  predicate StorageFails(env: Env, call: ToolCall, index: nat) {
    call.invalidArguments.None? && !env.isReadOnly(call.name) &&
    (env.claim(index).ClaimFailed? || (env.claim(index).Acquired? && !env.recordOk(index)))
  }

  predicate Denies(env: Env, call: ToolCall, index: nat) {
    env.tracked && Single(env, call, index).result.kind == Some(GuardDenied)
  }

  // ---------------------------------------------------------------- the in-order specification

  predicate IsReadOnlyAt(env: Env, calls: seq<ToolCall>, i: nat)
    requires i < |calls|
  {
    env.isReadOnly(calls[i].name)
  }

  /** The first call of the block that call `i` belongs to: a maximal stretch of read-only calls, or
      a single side-effecting call. */
  function BlockStart(env: Env, calls: seq<ToolCall>, i: nat): (start: nat)
    requires i < |calls|
    ensures start <= i
    ensures forall k :: start <= k < i ==> IsReadOnlyAt(env, calls, k) && IsReadOnlyAt(env, calls, i)
    ensures start > 0 ==> !(IsReadOnlyAt(env, calls, start - 1) && IsReadOnlyAt(env, calls, start))
  {
    if i > 0 && IsReadOnlyAt(env, calls, i) && IsReadOnlyAt(env, calls, i - 1) then BlockStart(env, calls, i - 1) else i
  }

  /** Denials counted after the first `n` calls, `before` of them earlier in the run. */
  function Denials(env: Env, calls: seq<ToolCall>, before: nat, n: nat): (d: nat)
    requires n <= |calls|
    ensures before <= d
    decreases n, 1
  {
    if n == 0 then before
    else
      Denials(env, calls, before, n - 1) +
      (if !Refused(env, calls, before, n - 1) && Denies(env, calls[n - 1], n - 1) then 1 else 0)
  }

  /** Call `i` is refused: the limit was reached before its block started. */
  predicate Refused(env: Env, calls: seq<ToolCall>, before: nat, i: nat)
    requires i < |calls|
    decreases i, 2
  {
    env.tracked && Denials(env, calls, before, BlockStart(env, calls, i)) >= GUARD_DENIAL_LIMIT
  }

  function OutcomeOf(env: Env, calls: seq<ToolCall>, before: nat, i: nat): Executed
    requires i < |calls|
  {
    if Refused(env, calls, before, i) then Rejected(env, calls[i]) else Single(env, calls[i], i)
  }

  predicate RunsAt(env: Env, calls: seq<ToolCall>, before: nat, i: nat)
    requires i < |calls|
  {
    !Refused(env, calls, before, i) && RunsTool(env, calls[i], i)
  }

  predicate LedgeredAt(env: Env, calls: seq<ToolCall>, before: nat, i: nat)
    requires i < |calls|
  {
    !Refused(env, calls, before, i) && IsReadOnlyAt(env, calls, i) && calls[i].invalidArguments.None?
  }

  /** Storage fails for call `i`: its claim or the recording of its result, or the ledger write of the
      read-only block that it belongs to. */
  predicate FailsAt(env: Env, calls: seq<ToolCall>, before: nat, i: nat)
    requires i < |calls|
  {
    !Refused(env, calls, before, i) && calls[i].invalidArguments.None? &&
    if env.isReadOnly(calls[i].name) then !env.blockLedgerOk(BlockStart(env, calls, i))
    else env.claim(i).ClaimFailed? || (env.claim(i).Acquired? && !env.recordOk(i))
  }

  lemma FailsAtIs(env: Env, calls: seq<ToolCall>, before: nat, i: nat)
    requires i < |calls|
    ensures FailsAt(env, calls, before, i) <==>
      !Refused(env, calls, before, i) &&
      (StorageFails(env, calls[i], i) ||
       (LedgeredAt(env, calls, before, i) && !env.blockLedgerOk(BlockStart(env, calls, i))))
  {
    hide Refused, BlockStart;
  }

  ghost predicate ExecutionFails(env: Env, calls: seq<ToolCall>, before: nat) {
    exists i: nat :: i < |calls| && FailsAt(env, calls, before, i)
  }

  // ---- what the specification means

  lemma {:induction false} DenialsGrow(env: Env, calls: seq<ToolCall>, before: nat, m: nat, n: nat)
    requires m <= n <= |calls|
    ensures Denials(env, calls, before, m) <= Denials(env, calls, before, n)
    decreases n - m
  {
    if m < n { DenialsGrow(env, calls, before, m, n - 1); }
  }

  lemma {:induction false} SameBlockStart(env: Env, calls: seq<ToolCall>, start: nat, i: nat)
    requires start <= i < |calls| &&
      (start > 0 ==> !(IsReadOnlyAt(env, calls, start - 1) && IsReadOnlyAt(env, calls, start)))
    requires forall k :: start <= k <= i ==> IsReadOnlyAt(env, calls, k)
    ensures BlockStart(env, calls, i) == start
  {
    if start < i { SameBlockStart(env, calls, start, i - 1); }
  }

  predicate AnswersCall(outcome: Executed, call: ToolCall) {
    outcome.call == call && outcome.message.role.Tool? && outcome.message.toolCallId == Some(call.id) &&
    outcome.message.toolCalls == []
  }

  lemma SingleAnswersCall(env: Env, call: ToolCall, index: nat)
    ensures AnswersCall(Single(env, call, index), call)
  {
    hide InvalidArguments;
  }

  lemma RejectedAnswersCall(env: Env, call: ToolCall)
    ensures AnswersCall(Rejected(env, call), call)
  {
    hide REFUSAL;
  }

  /** Exactly one outcome per call carries that call's id, whatever happened to it. */
  lemma OutcomeAnswersCall(env: Env, calls: seq<ToolCall>, before: nat, i: nat)
    requires i < |calls|
    ensures AnswersCall(OutcomeOf(env, calls, before, i), calls[i])
  {
    hide Refused, Single, Rejected, AnswersCall;
    if Refused(env, calls, before, i) {
      RejectedAnswersCall(env, calls[i]);
    } else {
      SingleAnswersCall(env, calls[i], i);
    }
  }

  /** Once three denials are counted after `n` calls, only the block in flight still runs: a call whose
      block starts at or behind `n` is refused, runs no tool and is not ledgered. */
  lemma NothingRunsAfterLimit(env: Env, calls: seq<ToolCall>, before: nat, n: nat, i: nat)
    requires env.tracked && i < |calls| && n <= BlockStart(env, calls, i)
    requires Denials(env, calls, before, n) >= GUARD_DENIAL_LIMIT
    ensures OutcomeOf(env, calls, before, i) == Rejected(env, calls[i])
    ensures !RunsAt(env, calls, before, i) && !LedgeredAt(env, calls, before, i)
  {
    hide Rejected, Single, RunsTool, Denials;
    DenialsGrow(env, calls, before, n, BlockStart(env, calls, i));
  }

  // ---- what a model is told, by the results themselves

  /** How many of the results are guard denials. */
  function DeniedAmong(outs: seq<Executed>): nat {
    if |outs| == 0 then 0
    else
      var last := |outs| - 1;
      DeniedAmong(outs[..last]) + if outs[last].result.kind == Some(GuardDenied) then 1 else 0
  }

  /** Three denials among the results before the block of call `i`, and earlier in the run, refuse it. */
  predicate RefusedBy(env: Env, calls: seq<ToolCall>, before: nat, outs: seq<Executed>, i: nat)
    requires i < |calls| == |outs|
  {
    env.tracked && before + DeniedAmong(outs[..BlockStart(env, calls, i)]) >= 3
  }

  /** What is returned for call `i`, how often its tool ran, and what the ledger had to do with it. */
  ghost predicate Told(env: Env, call: ToolCall, i: nat, refused: bool, runs: nat, o: Executed) {
    o.call == call && o.message == Message(Tool, env.content(o.payload, o.result), None, [], Some(call.id)) &&
    if refused then
      runs == 0 && o.result.isError && o.result.kind == Some(GuardDenied) && o.payload == env.format(call, o.result)
    else if call.invalidArguments.Some? then
      runs == 0 && o.result.isError && o.result.kind == Some(InvalidInput) && o.payload == env.format(call, o.result) &&
      Mentions(o.result.content, call.name, call.invalidArguments.value)
    else if env.isReadOnly(call.name) then
      runs == 1 && o.result == env.result(i) && o.payload == env.format(call, env.result(i))
    else
      match env.claim(i)
      case Acquired => runs == 1 && o.result == env.result(i) && o.payload == env.format(call, env.result(i))
      case Reused(output) => runs == 0 && o.result == ToolResult(false, None, output) && o.payload == output
      case Blocked(state) =>
        runs == 0 && o.result == ToolResult(true, None, "tool call blocked: ledger state=" + state) &&
        o.payload == env.format(call, o.result)
      case ClaimFailed => false
  }

  ghost predicate Mentions(text: string, first: string, second: string) {
    exists i, j :: OccursAt(text, first, i) && OccursAt(text, second, j) && i + |first| <= j
  }

  /** Told of every call, with the runs of the events `happened`. */
  ghost predicate AllTold(env: Env, calls: seq<ToolCall>, before: nat, outs: seq<Executed>, happened: seq<Event>) {
    |outs| == |calls| &&
    forall i :: 0 <= i < |calls| ==>
      var refused := RefusedBy(env, calls, before, outs, i);
      Told(env, calls[i], i, refused, Times(happened, Ran(i)), outs[i]) &&
      Times(happened, Ledgered(i)) ==
        if !refused && env.isReadOnly(calls[i].name) && calls[i].invalidArguments.None? then 1 else 0
  }

  lemma InvalidMentions(call: ToolCall, parseError: string)
    ensures var r := InvalidArguments(call, parseError);
      r.isError && r.kind == Some(InvalidInput) && Mentions(r.content, call.name, parseError)
  {
    var content, i := InvalidArguments(call, parseError).content, 47;
    var j := i + |call.name| + 22;
    assert content[i..i + |call.name|] == call.name;
    assert content[j..j + |parseError|] == parseError;
    assert OccursAt(content, call.name, i) && OccursAt(content, parseError, j);
  }

  lemma SingleTold(env: Env, call: ToolCall, i: nat)
    requires !StorageFails(env, call, i)
    ensures Told(env, call, i, false, if RunsTool(env, call, i) then 1 else 0, Single(env, call, i))
  {
    hide InvalidArguments, Mentions;
    if call.invalidArguments.Some? { InvalidMentions(call, call.invalidArguments.value); }
  }

  lemma RejectedTold(env: Env, call: ToolCall, i: nat)
    ensures Told(env, call, i, true, 0, Rejected(env, call))
    ensures Rejected(env, call).result.kind == Some(GuardDenied)
  {
  }

  /** The tracker's count and the denials among the results agree until the limit, and pass it together. */
  lemma {:induction false} CountsAgree(env: Env, calls: seq<ToolCall>, before: nat, outs: seq<Executed>, n: nat)
    requires env.tracked && n <= |calls| == |outs|
    requires forall i :: 0 <= i < |calls| ==> outs[i] == OutcomeOf(env, calls, before, i)
    ensures var told := before + DeniedAmong(outs[..n]);
      Denials(env, calls, before, n) == told || (Denials(env, calls, before, n) >= 3 && told >= 3)
  {
    hide Single, Rejected, Refused, BlockStart;
    if n > 0 {
      CountsAgree(env, calls, before, outs, n - 1);
      assert outs[..n][..n - 1] == outs[..n - 1];
      assert outs[n - 1] == OutcomeOf(env, calls, before, n - 1);
      if Refused(env, calls, before, n - 1) { RefusedDenials(env, calls, before, n - 1); }
    }
  }

  lemma RefusedDenials(env: Env, calls: seq<ToolCall>, before: nat, i: nat)
    requires i < |calls| && Refused(env, calls, before, i)
    ensures Denials(env, calls, before, i) >= 3
  {
    DenialsGrow(env, calls, before, BlockStart(env, calls, i), i);
  }

  lemma RefusedIsTold(env: Env, calls: seq<ToolCall>, before: nat, outs: seq<Executed>, i: nat)
    requires i < |calls| == |outs|
    requires forall i :: 0 <= i < |calls| ==> outs[i] == OutcomeOf(env, calls, before, i)
    ensures RefusedBy(env, calls, before, outs, i) <==> Refused(env, calls, before, i)
  {
    hide OutcomeOf, Denials, DeniedAmong;
    if env.tracked { CountsAgree(env, calls, before, outs, BlockStart(env, calls, i)); }
  }

  lemma OwnRun(env: Env, call: ToolCall, i: nat)
    ensures Times(SingleEvents(env, call, i), Ran(i)) == if RunsTool(env, call, i) then 1 else 0
  {
  }

  /** So the outcomes of the specification tell of every call what happened to it. */
  lemma OutcomesTold(env: Env, calls: seq<ToolCall>, before: nat, outs: seq<Executed>, happened: seq<Event>)
    requires |outs| == |calls| && EventsAre(env, calls, before, |calls|, happened)
    requires forall i :: 0 <= i < |calls| ==> outs[i] == OutcomeOf(env, calls, before, i)
    requires !ExecutionFails(env, calls, before)
    ensures AllTold(env, calls, before, outs, happened)
  {
    hide Told, Single, Rejected, Refused, RefusedBy, StorageFails, RunsTool, FailsAt, Times, ClaimedFirst;
    forall i | 0 <= i < |calls|
      ensures Told(env, calls[i], i, RefusedBy(env, calls, before, outs, i), Times(happened, Ran(i)), outs[i])
      ensures Times(happened, Ledgered(i)) ==
        if !RefusedBy(env, calls, before, outs, i) && env.isReadOnly(calls[i].name) &&
          calls[i].invalidArguments.None? then 1 else 0
    {
      RefusedIsTold(env, calls, before, outs, i);
      assert !FailsAt(env, calls, before, i);
      FailsAtIs(env, calls, before, i);
      assert outs[i] == OutcomeOf(env, calls, before, i);
      if Refused(env, calls, before, i) {
        RejectedTold(env, calls[i], i);
      } else {
        SingleTold(env, calls[i], i);
      }
    }
  }

  // ---------------------------------------------------------------- the code

  ghost predicate IsOrder(order: seq<nat>, lo: nat, hi: nat) {
    |order| == hi - lo &&
    (forall k :: 0 <= k < |order| ==> lo <= order[k] < hi) &&
    (forall j, k :: 0 <= j < k < |order| ==> order[j] != order[k]) &&
    (forall i :: lo <= i < hi ==> i in order)
  }

  ghost predicate Scheduled(env: Env) {
    forall lo: nat, hi: nat :: lo <= hi ==> IsOrder(env.finishOrder(lo, hi), lo, hi)
  }

  /** How often `e` happened. */
  function Times(events: seq<Event>, e: Event): nat { multiset(events)[e] }

  predicate ClaimOk(env: Env, calls: seq<ToolCall>, events: seq<Event>, p: nat)
    requires p < |events|
  {
    events[p].Ran? ==>
      var i := events[p].index;
      i < |calls| && (IsReadOnlyAt(env, calls, i) || (env.claim(i).Acquired? && p > 0 && events[p - 1] == Claimed(i)))
  }

  /** A side-effecting tool ran only after its claim was acquired. */
  ghost predicate ClaimedFirst(env: Env, calls: seq<ToolCall>, events: seq<Event>) {
    forall p :: 0 <= p < |events| ==> ClaimOk(env, calls, events, p)
  }

  /** Exactly the specified ones of the first `ran` calls ran their tools, exactly the specified ones of the
      first `ledgered` calls are in the ledger, each once, and claims come first. */
  ghost predicate EventsUpTo(env: Env, calls: seq<ToolCall>, before: nat, ran: nat, ledgered: nat, events: seq<Event>)
    requires ran <= |calls| && ledgered <= |calls|
  {
    ClaimedFirst(env, calls, events) &&
    (forall i :: 0 <= i < |calls| ==>
      Times(events, Ran(i)) == (if i < ran && RunsAt(env, calls, before, i) then 1 else 0) &&
      Times(events, Ledgered(i)) == (if i < ledgered && LedgeredAt(env, calls, before, i) then 1 else 0))
  }

  ghost predicate EventsAre(env: Env, calls: seq<ToolCall>, before: nat, n: nat, events: seq<Event>)
    requires n <= |calls|
  {
    EventsUpTo(env, calls, before, n, n, events)
  }

  /** The first block or call whose storage fails is `calls[first..end]`: it ran, nothing of it is in the
      ledger, and nothing behind it happened. */
  ghost predicate StoppedAt(env: Env, calls: seq<ToolCall>, before: nat, first: nat, end: nat, events: seq<Event>) {
    first < end <= |calls| && EventsUpTo(env, calls, before, end, first, events) &&
    (forall i: nat :: i < first ==> !FailsAt(env, calls, before, i)) &&
    (exists i: nat :: first <= i < end && FailsAt(env, calls, before, i)) &&
    forall i: nat :: first <= i < end ==> BlockStart(env, calls, i) == first
  }

  ghost predicate Stopped(env: Env, calls: seq<ToolCall>, before: nat, events: seq<Event>) {
    exists first: nat, end: nat :: StoppedAt(env, calls, before, first, end, events)
  }

  // ---- pieces of the event list

  function SingleEvents(env: Env, call: ToolCall, i: nat): seq<Event> {
    if !RunsTool(env, call, i) then [] else if env.isReadOnly(call.name) then [Ran(i)] else [Claimed(i), Ran(i)]
  }

  /** The ledger entries of a read-only block: its calls with valid arguments, in call order. */
  function LedgerEvents(calls: seq<ToolCall>, lo: nat, hi: nat): seq<Event>
    requires lo <= hi <= |calls|
    decreases hi - lo
  {
    if lo == hi then []
    else (if calls[lo].invalidArguments.None? then [Ledgered(lo)] else []) + LedgerEvents(calls, lo + 1, hi)
  }

  lemma LedgerHeadTimes(calls: seq<ToolCall>, lo: nat, i: nat)
    requires lo < |calls|
    ensures var head := if calls[lo].invalidArguments.None? then [Ledgered(lo)] else [];
      Times(head, Ledgered(i)) == (if i == lo && calls[i].invalidArguments.None? then 1 else 0) &&
      Times(head, Ran(i)) == 0
  {
  }

  lemma {:induction false} LedgerEventsTimes(calls: seq<ToolCall>, lo: nat, hi: nat, i: nat)
    requires lo <= hi <= |calls|
    ensures Times(LedgerEvents(calls, lo, hi), Ledgered(i)) ==
      (if lo <= i < hi && calls[i].invalidArguments.None? then 1 else 0)
    ensures Times(LedgerEvents(calls, lo, hi), Ran(i)) == 0
    decreases hi - lo
  {
    hide Times;
    if lo == hi {
      TimesNone(Ledgered(i));
      TimesNone(Ran(i));
    } else {
      LedgerEventsTimes(calls, lo + 1, hi, i);
      LedgerHeadTimes(calls, lo, i);
      var head := if calls[lo].invalidArguments.None? then [Ledgered(lo)] else [];
      TimesConcat(head, LedgerEvents(calls, lo + 1, hi), Ledgered(i));
      TimesConcat(head, LedgerEvents(calls, lo + 1, hi), Ran(i));
    }
  }

  lemma TimesNone(e: Event)
    ensures Times([], e) == 0
  {
  }

  lemma {:induction false} LedgerEventsClaimed(env: Env, calls: seq<ToolCall>, lo: nat, hi: nat)
    requires lo <= hi <= |calls|
    ensures ClaimedFirst(env, calls, LedgerEvents(calls, lo, hi))
    decreases hi - lo
  {
    if lo < hi {
      LedgerEventsClaimed(env, calls, lo + 1, hi);
      var head := if calls[lo].invalidArguments.None? then [Ledgered(lo)] else [];
      ClaimedFirstConcat(env, calls, head, LedgerEvents(calls, lo + 1, hi));
    }
  }

  lemma ClaimedFirstConcat(env: Env, calls: seq<ToolCall>, a: seq<Event>, b: seq<Event>)
    requires ClaimedFirst(env, calls, a) && ClaimedFirst(env, calls, b)
    ensures ClaimedFirst(env, calls, a + b)
  {
    var all := a + b;
    forall p | 0 <= p < |all| ensures ClaimOk(env, calls, all, p) {
      if p < |a| {
        assert ClaimOk(env, calls, a, p);
      } else {
        assert ClaimOk(env, calls, b, p - |a|);
        if p > |a| { assert all[p - 1] == b[p - |a| - 1]; }
      }
    }
  }

  /** All reads of a block: each of `done` that runs its tool ran once, and nothing else happened. */
  ghost predicate BlockEvents(env: Env, calls: seq<ToolCall>, done: set<nat>, events: seq<Event>) {
    (forall p :: 0 <= p < |events| ==> events[p].Ran? && events[p].index in done) &&
    forall i: nat :: i < |calls| ==> Times(events, Ran(i)) == (if i in done && RunsTool(env, calls[i], i) then 1 else 0)
  }

  /** The same for the block `[lo, hi)`. */
  ghost predicate BlockRan(env: Env, calls: seq<ToolCall>, lo: nat, hi: nat, events: seq<Event>) {
    (forall p :: 0 <= p < |events| ==> events[p].Ran? && lo <= events[p].index < hi) &&
    forall i: nat :: i < |calls| ==>
      Times(events, Ran(i)) == (if lo <= i < hi && RunsTool(env, calls[i], i) then 1 else 0)
  }

  lemma BlockDone(env: Env, calls: seq<ToolCall>, done: set<nat>, lo: nat, hi: nat, events: seq<Event>)
    requires BlockEvents(env, calls, done, events) && forall i: nat :: i in done <==> lo <= i < hi
    ensures BlockRan(env, calls, lo, hi, events)
  {
    hide RunsTool, Times;
  }

  lemma BlockEventsStep(env: Env, calls: seq<ToolCall>, done: set<nat>, events: seq<Event>, i: nat)
    requires BlockEvents(env, calls, done, events) && i < |calls| && i !in done && IsReadOnlyAt(env, calls, i)
    ensures BlockEvents(env, calls, done + {i}, events + SingleEvents(env, calls[i], i))
  {
    var all := events + SingleEvents(env, calls[i], i);
    if RunsTool(env, calls[i], i) {
      assert all == events + [Ran(i)];
    } else {
      assert all == events;
    }
  }

  // ---- denials of a block

  function DenySet(env: Env, calls: seq<ToolCall>, lo: nat, hi: nat): set<nat>
    requires hi <= |calls|
  {
    set i: nat | lo <= i < hi && Denies(env, calls[i], i)
  }

  lemma {:induction false} BlockDenials(env: Env, calls: seq<ToolCall>, before: nat, lo: nat, hi: nat)
    requires lo <= hi <= |calls|
    requires forall k :: lo <= k < hi ==> !Refused(env, calls, before, k)
    ensures Denials(env, calls, before, hi) == Denials(env, calls, before, lo) + |DenySet(env, calls, lo, hi)|
    decreases hi - lo
  {
    hide Denies, Refused;
    if lo == hi {
      assert DenySet(env, calls, lo, hi) == {};
    } else {
      BlockDenials(env, calls, before, lo, hi - 1);
      if Denies(env, calls[hi - 1], hi - 1) {
        assert DenySet(env, calls, lo, hi) == DenySet(env, calls, lo, hi - 1) + {hi - 1};
      } else {
        assert DenySet(env, calls, lo, hi) == DenySet(env, calls, lo, hi - 1);
      }
    }
  }

  lemma DenySetHas(env: Env, calls: seq<ToolCall>, lo: nat, hi: nat, i: nat)
    requires lo <= i < hi <= |calls|
    ensures i in DenySet(env, calls, lo, hi) <==> Denies(env, calls[i], i)
  {
    hide Denies;
  }

  lemma NoStorage(env: Env, call: ToolCall, index: nat)
    requires env.isReadOnly(call.name)
    ensures !StorageFails(env, call, index)
  {
  }

  lemma CountOne(done: set<nat>, x: nat, all: set<nat>)
    requires x !in done
    ensures |(done + {x}) * all| == |done * all| + (if x in all then 1 else 0)
  {
    if x in all {
      assert (done + {x}) * all == done * all + {x};
    } else {
      assert (done + {x}) * all == done * all;
    }
  }

  // ---- a block in flight

  /** The first `k` calls that finish. */
  function Finished(order: seq<nat>, k: nat): set<nat>
    requires k <= |order|
  {
    if k == 0 then {} else Finished(order, k - 1) + {order[k - 1]}
  }

  lemma {:induction false} FinishedAre(order: seq<nat>, k: nat, i: nat)
    requires k <= |order|
    ensures i in Finished(order, k) <==> exists j :: 0 <= j < k && order[j] == i
  {
    if k > 0 {
      FinishedAre(order, k - 1, i);
      if order[k - 1] == i { assert order[k - 1] == i; }
    }
  }

  lemma OrderStep(order: seq<nat>, lo: nat, hi: nat, k: nat)
    requires IsOrder(order, lo, hi) && k < |order|
    ensures lo <= order[k] < hi && order[k] !in Finished(order, k)
  {
    FinishedAre(order, k, order[k]);
  }

  lemma OrderEnd(order: seq<nat>, lo: nat, hi: nat)
    requires IsOrder(order, lo, hi)
    ensures forall i: nat :: i in Finished(order, |order|) <==> lo <= i < hi
  {
    forall i: nat ensures i in Finished(order, |order|) <==> lo <= i < hi {
      FinishedAre(order, |order|, i);
      if lo <= i < hi { assert i in order; }
    }
  }

  ghost predicate Collected(env: Env, calls: seq<ToolCall>, finished: set<nat>, results: map<nat, Executed>) {
    results.Keys == finished && forall i: nat :: i in results ==> i < |calls| && results[i] == Single(env, calls[i], i)
  }

  /** After `k` calls of the block have finished: which, with what results, and what happened. */
  ghost predicate Progress(
    env: Env, calls: seq<ToolCall>, lo: nat, hi: nat, k: nat, results: map<nat, Executed>, happened: seq<Event>)
  {
    var order := env.finishOrder(lo, hi);
    IsOrder(order, lo, hi) && k <= |order| &&
    BlockEvents(env, calls, Finished(order, k), happened) && Collected(env, calls, Finished(order, k), results)
  }

  /** How many of the first `k` finished calls were denied. */
  ghost function DeniedSoFar(env: Env, calls: seq<ToolCall>, lo: nat, hi: nat, k: nat): nat
    requires hi <= |calls| && k <= |env.finishOrder(lo, hi)|
  {
    |Finished(env.finishOrder(lo, hi), k) * DenySet(env, calls, lo, hi)|
  }

  lemma ProgressStart(env: Env, calls: seq<ToolCall>, lo: nat, hi: nat)
    requires Scheduled(env) && lo <= hi <= |calls|
    ensures Progress(env, calls, lo, hi, 0, map[], []) && DeniedSoFar(env, calls, lo, hi, 0) == 0
  {
    hide Single, Denies;
    assert Finished(env.finishOrder(lo, hi), 0) * DenySet(env, calls, lo, hi) == {};
  }

  lemma CollectedStep(env: Env, calls: seq<ToolCall>, finished: set<nat>, results: map<nat, Executed>, i: nat)
    requires Collected(env, calls, finished, results) && i < |calls|
    ensures Collected(env, calls, finished + {i}, results[i := Single(env, calls[i], i)])
  {
    hide Single;
  }

  lemma DeniedStep(env: Env, calls: seq<ToolCall>, lo: nat, hi: nat, k: nat)
    requires lo <= hi <= |calls| && IsOrder(env.finishOrder(lo, hi), lo, hi) && k < |env.finishOrder(lo, hi)|
    ensures env.finishOrder(lo, hi)[k] < |calls|
    ensures var i := env.finishOrder(lo, hi)[k];
      DeniedSoFar(env, calls, lo, hi, k + 1) == DeniedSoFar(env, calls, lo, hi, k) +
        (if Denies(env, calls[i], i) then 1 else 0)
  {
    hide Denies, IsOrder, DenySet;
    var order := env.finishOrder(lo, hi);
    OrderStep(order, lo, hi, k);
    DenySetHas(env, calls, lo, hi, order[k]);
    CountOne(Finished(order, k), order[k], DenySet(env, calls, lo, hi));
  }

  lemma ProgressStep(
    env: Env, calls: seq<ToolCall>, lo: nat, hi: nat, k: nat, results: map<nat, Executed>, happened: seq<Event>)
    requires lo <= hi <= |calls| && forall j :: lo <= j < hi ==> IsReadOnlyAt(env, calls, j)
    requires Progress(env, calls, lo, hi, k, results, happened) && k < |env.finishOrder(lo, hi)|
    ensures var i := env.finishOrder(lo, hi)[k];
      i < |calls| && !StorageFails(env, calls[i], i) &&
      Progress(env, calls, lo, hi, k + 1, results[i := Single(env, calls[i], i)],
        happened + SingleEvents(env, calls[i], i))
  {
    hide Single, BlockEvents, SingleEvents, StorageFails, IsOrder, Collected;
    var order := env.finishOrder(lo, hi);
    var i := order[k];
    OrderStep(order, lo, hi, k);
    assert IsReadOnlyAt(env, calls, i);
    NoStorage(env, calls[i], i);
    BlockEventsStep(env, calls, Finished(order, k), happened, i);
    CollectedStep(env, calls, Finished(order, k), results, i);
  }

  lemma ProgressEnd(env: Env, calls: seq<ToolCall>, lo: nat, hi: nat, results: map<nat, Executed>, happened: seq<Event>)
    requires lo <= hi <= |calls| && Progress(env, calls, lo, hi, |env.finishOrder(lo, hi)|, results, happened)
    ensures BlockRan(env, calls, lo, hi, happened)
    ensures DeniedSoFar(env, calls, lo, hi, |env.finishOrder(lo, hi)|) == |DenySet(env, calls, lo, hi)|
    ensures forall i: nat :: lo <= i < hi ==> i in results && results[i] == Single(env, calls[i], i)
  {
    hide Single, Denies, BlockEvents, BlockRan, IsOrder;
    var finished := Finished(env.finishOrder(lo, hi), |env.finishOrder(lo, hi)|);
    OrderEnd(env.finishOrder(lo, hi), lo, hi);
    assert finished * DenySet(env, calls, lo, hi) == DenySet(env, calls, lo, hi);
    BlockDone(env, calls, finished, lo, hi, happened);
  }

  lemma ReadTold(env: Env, calls: seq<ToolCall>, lo: nat, hi: nat, happened: seq<Event>, k: nat)
    requires lo <= k < hi <= |calls| && IsReadOnlyAt(env, calls, k) && BlockRan(env, calls, lo, hi, happened)
    ensures Told(env, calls[k], k, false, Times(happened, Ran(k)), Single(env, calls[k], k))
  {
    hide Single, Told, Times, RunsTool, ClaimedFirst;
    NoStorage(env, calls[k], k);
    SingleTold(env, calls[k], k);
  }

  /** `denials` is the shared `GuardDenialTracker`, `events` the trace of what happened. */
  class ToolExecutor {
    const env: Env
    var denials: nat
    var events: seq<Event>

    /** `denied` is what the tracker of the run counts so far. */
    constructor (env: Env, denied: nat)
      ensures this.env == env && denials == denied && events == []
    {
      this.env, denials, events := env, denied, [];
    }

    predicate IsRunBlocked()
      reads this
    {
      env.tracked && denials >= GUARD_DENIAL_LIMIT
    }

    /** `GuardDenialTracker::record`. */
    method RecordDenial()
      modifies this`denials
      ensures denials == old(denials) + 1
    {
      denials := denials + 1;
    }

    /** `execute_single_tool` with `run_claimed_tool`; `None` is a storage error. */
    method ExecuteSingleTool(call: ToolCall, index: nat) returns (r: Option<Executed>)
      modifies this
      ensures r == if StorageFails(env, call, index) then None else Some(Single(env, call, index))
      ensures denials == old(denials) + (if r.Some? && Denies(env, call, index) then 1 else 0)
      ensures events == old(events) + SingleEvents(env, call, index)
      // the failures and what is returned, told by the environment and the events alone
      ensures r.None? <==>
        call.invalidArguments.None? && !env.isReadOnly(call.name) &&
        (env.claim(index).ClaimFailed? || (env.claim(index).Acquired? && !env.recordOk(index)))
      ensures r.Some? ==> Told(env, call, index, false, Times(events[|old(events)|..], Ran(index)), r.value)
    {
      hide InvalidArguments, Finish, Told, Times;
      var result, payload;
      if call.invalidArguments.Some? {
        result := InvalidArguments(call, call.invalidArguments.value);
        payload := env.format(call, result);
      } else if env.isReadOnly(call.name) {
        events := events + [Ran(index)];
        result := env.result(index);
        payload := env.format(call, result);
      } else {
        match env.claim(index) {
          case ClaimFailed =>
            return None;
          case Acquired =>
            events := events + [Claimed(index)];
            events := events + [Ran(index)];
            assert events == old(events) + [Claimed(index), Ran(index)];
            result := env.result(index);
            payload := env.format(call, result);
            if !env.recordOk(index) { return None; }
          case Reused(output) =>
            result, payload := ToolResult(false, None, output), output;
          case Blocked(state) =>
            result := ToolResult(true, None, "tool call blocked: ledger state=" + state);
            payload := env.format(call, result);
        }
      }
      FinishKeepsResult(env, call, result, payload);
      assert events[|old(events)|..] == SingleEvents(env, call, index);
      SingleTold(env, call, index);
      OwnRun(env, call, index);
      if env.tracked && result.kind == Some(GuardDenied) {
        RecordDenial();
      }
      return Some(Finish(env, call, result, payload));
    }

    /** One parallel block: every call is in flight at once and finishes in the given order; a denial
        inside it stops no sibling. Results are collected in call order. */
    method ExecuteBlock(calls: seq<ToolCall>, lo: nat, hi: nat) returns (outcomes: seq<Executed>)
      requires lo <= hi <= |calls| && Scheduled(env)
      requires forall k :: lo <= k < hi ==> IsReadOnlyAt(env, calls, k)
      modifies this
      ensures |outcomes| == hi - lo && forall k :: lo <= k < hi ==> outcomes[k - lo] == Single(env, calls[k], k)
      ensures denials == old(denials) + |DenySet(env, calls, lo, hi)|
      ensures old(events) <= events && BlockRan(env, calls, lo, hi, events[|old(events)|..])
      ensures forall k :: lo <= k < hi ==>
        Told(env, calls[k], k, false, Times(events[|old(events)|..], Ran(k)), outcomes[k - lo])
    {
      hide Single, RunsTool, SingleEvents, Denies, BlockRan, DenySet, StorageFails, Scheduled, DeniedSoFar, IsOrder,
        BlockEvents, Collected, Told, Times;
      var order := env.finishOrder(lo, hi);
      ghost var happened: seq<Event> := [];
      var results: map<nat, Executed> := map[];
      ProgressStart(env, calls, lo, hi);
      for k := 0 to |order|
        invariant Progress(env, calls, lo, hi, k, results, happened)
        invariant denials == old(denials) + DeniedSoFar(env, calls, lo, hi, k)
        invariant events == old(events) + happened
      {
        var i := order[k];
        ProgressStep(env, calls, lo, hi, k, results, happened);
        DeniedStep(env, calls, lo, hi, k);
        var r := ExecuteSingleTool(calls[i], i);
        results := results[i := r.value];
        happened := happened + SingleEvents(env, calls[i], i);
      }
      ProgressEnd(env, calls, lo, hi, results, happened);
      assert events[|old(events)|..] == happened;
      outcomes := seq(hi - lo, n requires 0 <= n < hi - lo => results[lo + n]);
      forall k | lo <= k < hi ensures Told(env, calls[k], k, false, Times(happened, Ran(k)), outcomes[k - lo]) {
        ReadTold(env, calls, lo, hi, happened, k);
      }
    }

    /** `execute`: one outcome per call in call order, exactly as specified; `None` is a storage error. */
    method Execute(calls: seq<ToolCall>) returns (r: Option<seq<Executed>>)
      requires Scheduled(env)
      modifies this
      ensures old(events) <= events
      ensures r.Some? ==> |r.value| == |calls|
      ensures r.Some? ==> forall i :: 0 <= i < |calls| ==> r.value[i] == OutcomeOf(env, calls, old(denials), i)
      ensures r.Some? ==> denials == Denials(env, calls, old(denials), |calls|)
      ensures r.Some? ==> EventsAre(env, calls, old(denials), |calls|, events[|old(events)|..])
      // what is returned for each call, told by the results and events alone
      ensures r.Some? ==> AllTold(env, calls, old(denials), r.value, events[|old(events)|..])
      ensures r.Some? ==>
        if !env.tracked then denials == old(denials)
        else
          var told := old(denials) + DeniedAmong(r.value);
          denials == told || (denials >= 3 && told >= 3)
      ensures r.None? <==> ExecutionFails(env, calls, old(denials))
      ensures r.None? ==> Stopped(env, calls, old(denials), events[|old(events)|..])
    {
      hide AllTold, Told, DeniedAmong, Times, Single, RunsTool, SingleEvents, Denies, BlockRan, EventsAre, EventsUpTo,
        Refused, Denials, OutcomeOf, FailsAt, Stopped, BlockStart, ExecutionFails, Rejected, StorageFails, LedgerEvents,
        CanContinue, DenySet, Scheduled;
      var outcomes: seq<Executed> := [];
      var cursor := 0;
      ghost var happened: seq<Event> := [];
      ghost var before := denials;
      NothingYet(env, calls, before);
      while cursor < |calls|
        invariant cursor <= |calls| && |outcomes| == cursor && CanContinue(env, calls, before, cursor)
        invariant forall i :: 0 <= i < cursor ==> outcomes[i] == OutcomeOf(env, calls, before, i)
        invariant denials == Denials(env, calls, before, cursor)
        invariant events == old(events) + happened && EventsAre(env, calls, before, cursor, happened)
        invariant forall i: nat :: i < cursor ==> !FailsAt(env, calls, before, i)
      {
        RefusedHere(env, calls, before, cursor);
        if IsRunBlocked() {
          RefusedStep(env, calls, before, cursor, happened);
          outcomes := outcomes + [Rejected(env, calls[cursor])];
          cursor := cursor + 1;
          continue;
        }
        if env.isReadOnly(calls[cursor].name) {
          var blockStart := cursor;
          ghost var soFar := happened;
          while cursor < |calls| && env.isReadOnly(calls[cursor].name)
            invariant blockStart <= cursor <= |calls|
            invariant forall k :: blockStart <= k < cursor ==> IsReadOnlyAt(env, calls, k)
          {
            cursor := cursor + 1;
          }
          var results := ExecuteBlock(calls, blockStart, cursor);
          outcomes := outcomes + results;
          ghost var block := events[|old(events)| + |soFar|..];
          assert events == old(events) + (soFar + block);
          BlockStep(env, calls, before, blockStart, cursor, soFar, block);
          var records := LedgerEvents(calls, blockStart, cursor);
          BlockFails(env, calls, before, blockStart, cursor);
          if records != [] && !env.blockLedgerOk(blockStart) {
            StopsAt(env, calls, before, blockStart, cursor, soFar + block);
            assert events[|old(events)|..] == soFar + block;
            return None;
          }
          events := events + records;
          happened := soFar + block + records;
        } else {
          var r1 := ExecuteSingleTool(calls[cursor], cursor);
          SerialStep(env, calls, before, cursor, happened);
          SerialFails(env, calls, before, cursor);
          happened := happened + SingleEvents(env, calls[cursor], cursor);
          if r1.None? {
            StopsAt(env, calls, before, cursor, cursor + 1, happened);
            assert events[|old(events)|..] == happened;
            return None;
          }
          outcomes := outcomes + [r1.value];
          cursor := cursor + 1;
        }
      }
      assert events[|old(events)|..] == happened;
      NothingFails(env, calls, before);
      OutcomesTold(env, calls, before, outcomes, happened);
      DenialsTold(env, calls, before, outcomes);
      return Some(outcomes);
    }
  }

  lemma DenialsTold(env: Env, calls: seq<ToolCall>, before: nat, outs: seq<Executed>)
    requires |outs| == |calls| && forall i :: 0 <= i < |calls| ==> outs[i] == OutcomeOf(env, calls, before, i)
    ensures var d, told := Denials(env, calls, before, |calls|), before + DeniedAmong(outs);
      if !env.tracked then d == before else d == told || (d >= 3 && told >= 3)
  {
    hide OutcomeOf, DeniedAmong;
    if env.tracked {
      CountsAgree(env, calls, before, outs, |calls|);
      assert outs[..|calls|] == outs;
    } else {
      Untracked(env, calls, before, |calls|);
    }
  }

  lemma {:induction false} Untracked(env: Env, calls: seq<ToolCall>, before: nat, n: nat)
    requires !env.tracked && n <= |calls|
    ensures Denials(env, calls, before, n) == before
  {
    hide Single, Refused;
    if n > 0 { Untracked(env, calls, before, n - 1); }
  }

  /** The cursor stands at the start of a block, or inside one that is refused call by call. */
  ghost predicate CanContinue(env: Env, calls: seq<ToolCall>, before: nat, c: nat) {
    c < |calls| ==> BlockStart(env, calls, c) == c || Refused(env, calls, before, c)
  }

  lemma NothingYet(env: Env, calls: seq<ToolCall>, before: nat)
    ensures EventsAre(env, calls, before, 0, []) && Denials(env, calls, before, 0) == before &&
      CanContinue(env, calls, before, 0)
  {
  }

  lemma RefusedHere(env: Env, calls: seq<ToolCall>, before: nat, c: nat)
    requires c < |calls| && CanContinue(env, calls, before, c)
    ensures Refused(env, calls, before, c) <==> env.tracked && Denials(env, calls, before, c) >= GUARD_DENIAL_LIMIT
    ensures !Refused(env, calls, before, c) ==> BlockStart(env, calls, c) == c
  {
    DenialsGrow(env, calls, before, BlockStart(env, calls, c), c);
  }

  lemma RefusedStep(env: Env, calls: seq<ToolCall>, before: nat, c: nat, events: seq<Event>)
    requires c < |calls| && Refused(env, calls, before, c) && EventsAre(env, calls, before, c, events)
    ensures OutcomeOf(env, calls, before, c) == Rejected(env, calls[c])
    ensures EventsAre(env, calls, before, c + 1, events) && CanContinue(env, calls, before, c + 1)
    ensures Denials(env, calls, before, c + 1) == Denials(env, calls, before, c)
    ensures !FailsAt(env, calls, before, c)
  {
    hide StorageFails, Rejected, Single, Denies, RunsTool, Times, ClaimedFirst;
  }

  lemma TimesConcat(a: seq<Event>, b: seq<Event>, e: Event)
    ensures Times(a + b, e) == Times(a, e) + Times(b, e)
  {
  }

  lemma SingleEventsTimes(env: Env, calls: seq<ToolCall>, c: nat, i: nat)
    requires c < |calls| && i < |calls|
    ensures Times(SingleEvents(env, calls[c], c), Ran(i)) == (if i == c && RunsTool(env, calls[c], c) then 1 else 0)
    ensures Times(SingleEvents(env, calls[c], c), Ledgered(i)) == 0
    ensures ClaimedFirst(env, calls, SingleEvents(env, calls[c], c))
  {
    var events := SingleEvents(env, calls[c], c);
    forall p | 0 <= p < |events| ensures ClaimOk(env, calls, events, p) {
      if events[p].Ran? { assert p == |events| - 1; }
    }
  }

  lemma SerialStep(env: Env, calls: seq<ToolCall>, before: nat, c: nat, events: seq<Event>)
    requires c < |calls| && !IsReadOnlyAt(env, calls, c) && !Refused(env, calls, before, c)
    requires EventsAre(env, calls, before, c, events)
    ensures var all := events + SingleEvents(env, calls[c], c);
      EventsAre(env, calls, before, c + 1, all) && EventsUpTo(env, calls, before, c + 1, c, all)
    ensures OutcomeOf(env, calls, before, c) == Single(env, calls[c], c) && CanContinue(env, calls, before, c + 1)
    ensures Denials(env, calls, before, c + 1) == Denials(env, calls, before, c) +
      (if Denies(env, calls[c], c) then 1 else 0)
  {
    hide Refused, Single, Denies, RunsTool, Times, ClaimedFirst, SingleEvents;
    var more := SingleEvents(env, calls[c], c);
    forall i: nat | i < |calls|
      ensures Times(more, Ran(i)) == (if i == c && RunsTool(env, calls[c], c) then 1 else 0) &&
        Times(more, Ledgered(i)) == 0
      ensures Times(events + more, Ran(i)) == Times(events, Ran(i)) + Times(more, Ran(i))
      ensures Times(events + more, Ledgered(i)) == Times(events, Ledgered(i)) + Times(more, Ledgered(i))
    {
      SingleEventsTimes(env, calls, c, i);
      TimesConcat(events, more, Ran(i));
      TimesConcat(events, more, Ledgered(i));
    }
    SingleEventsTimes(env, calls, c, c);
    ClaimedFirstConcat(env, calls, events, more);
  }

  lemma BlockRanTimes(env: Env, calls: seq<ToolCall>, lo: nat, hi: nat, events: seq<Event>, i: nat)
    requires BlockRan(env, calls, lo, hi, events) && i < |calls| && hi <= |calls|
    requires forall k :: lo <= k < hi ==> IsReadOnlyAt(env, calls, k)
    ensures Times(events, Ran(i)) == (if lo <= i < hi && RunsTool(env, calls[i], i) then 1 else 0)
    ensures Times(events, Ledgered(i)) == 0
    ensures ClaimedFirst(env, calls, events)
  {
    hide RunsTool;
  }

  lemma BlockStep(env: Env, calls: seq<ToolCall>, before: nat, lo: nat, hi: nat, events: seq<Event>, block: seq<Event>)
    requires lo < hi <= |calls| && BlockStart(env, calls, lo) == lo && !Refused(env, calls, before, lo)
    requires forall k :: lo <= k < hi ==> IsReadOnlyAt(env, calls, k)
    requires hi < |calls| ==> !IsReadOnlyAt(env, calls, hi)
    requires EventsAre(env, calls, before, lo, events) && BlockRan(env, calls, lo, hi, block)
    ensures EventsUpTo(env, calls, before, hi, lo, events + block)
    ensures EventsAre(env, calls, before, hi, events + block + LedgerEvents(calls, lo, hi))
    ensures forall k :: lo <= k < hi ==> OutcomeOf(env, calls, before, k) == Single(env, calls[k], k)
    ensures Denials(env, calls, before, hi) == Denials(env, calls, before, lo) + |DenySet(env, calls, lo, hi)|
    ensures CanContinue(env, calls, before, hi)
  {
    hide Single, Denies, RunsTool, Times, ClaimedFirst, BlockRan, LedgerEvents, Denials;
    forall k | lo <= k < hi ensures !Refused(env, calls, before, k) { SameBlockStart(env, calls, lo, k); }
    BlockDenials(env, calls, before, lo, hi);
    var ledger := LedgerEvents(calls, lo, hi);
    forall i: nat | i < |calls|
      ensures Times(events + block, Ran(i)) == Times(events, Ran(i)) +
        (if lo <= i < hi && RunsTool(env, calls[i], i) then 1 else 0)
      ensures Times(events + block, Ledgered(i)) == Times(events, Ledgered(i))
      ensures Times(events + block + ledger, Ran(i)) == Times(events + block, Ran(i))
      ensures Times(events + block + ledger, Ledgered(i)) ==
        Times(events, Ledgered(i)) + (if lo <= i < hi && calls[i].invalidArguments.None? then 1 else 0)
    {
      BlockRanTimes(env, calls, lo, hi, block, i);
      LedgerEventsTimes(calls, lo, hi, i);
      TimesConcat(events, block, Ran(i));
      TimesConcat(events, block, Ledgered(i));
      TimesConcat(events + block, ledger, Ran(i));
      TimesConcat(events + block, ledger, Ledgered(i));
    }
    BlockRanTimes(env, calls, lo, hi, block, lo);
    ClaimedFirstConcat(env, calls, events, block);
    LedgerEventsClaimed(env, calls, lo, hi);
    ClaimedFirstConcat(env, calls, events + block, ledger);
  }

  // ---- storage failures

  lemma SerialFails(env: Env, calls: seq<ToolCall>, before: nat, c: nat)
    requires c < |calls| && !IsReadOnlyAt(env, calls, c) && !Refused(env, calls, before, c)
    ensures FailsAt(env, calls, before, c) <==> StorageFails(env, calls[c], c)
    ensures BlockStart(env, calls, c) == c
  {
    hide Refused, StorageFails;
    FailsAtIs(env, calls, before, c);
  }

  lemma {:induction false} LedgerEventsSome(calls: seq<ToolCall>, lo: nat, hi: nat)
    requires lo <= hi <= |calls|
    ensures LedgerEvents(calls, lo, hi) != [] <==> exists k :: lo <= k < hi && calls[k].invalidArguments.None?
    decreases hi - lo
  {
    if lo < hi { LedgerEventsSome(calls, lo + 1, hi); }
  }

  lemma BlockFails(env: Env, calls: seq<ToolCall>, before: nat, lo: nat, hi: nat)
    requires lo < hi <= |calls| && BlockStart(env, calls, lo) == lo && !Refused(env, calls, before, lo)
    requires forall k :: lo <= k < hi ==> IsReadOnlyAt(env, calls, k)
    ensures forall k: nat :: lo <= k < hi ==> BlockStart(env, calls, k) == lo
    ensures LedgerEvents(calls, lo, hi) != [] && !env.blockLedgerOk(lo) <==>
      exists k: nat :: lo <= k < hi && FailsAt(env, calls, before, k)
  {
    hide LedgerEvents, Denials, BlockStart;
    LedgerEventsSome(calls, lo, hi);
    forall k: nat | lo <= k < hi
      ensures BlockStart(env, calls, k) == lo
      ensures FailsAt(env, calls, before, k) <==> calls[k].invalidArguments.None? && !env.blockLedgerOk(lo)
    {
      SameBlockStart(env, calls, lo, k);
      assert IsReadOnlyAt(env, calls, k);
    }
  }

  lemma StopsAt(env: Env, calls: seq<ToolCall>, before: nat, first: nat, end: nat, events: seq<Event>)
    requires first < end <= |calls| && EventsUpTo(env, calls, before, end, first, events)
    requires forall i: nat :: i < first ==> !FailsAt(env, calls, before, i)
    requires exists i: nat :: first <= i < end && FailsAt(env, calls, before, i)
    requires forall i: nat :: first <= i < end ==> BlockStart(env, calls, i) == first
    ensures Stopped(env, calls, before, events) && ExecutionFails(env, calls, before)
  {
    hide FailsAt, EventsUpTo, BlockStart;
    assert StoppedAt(env, calls, before, first, end, events);
  }

  lemma NothingFails(env: Env, calls: seq<ToolCall>, before: nat)
    requires forall i: nat :: i < |calls| ==> !FailsAt(env, calls, before, i)
    ensures !ExecutionFails(env, calls, before)
  {
    hide FailsAt;
  }
}
