/** The second half of `src/agent_loop/compaction.rs`: token estimates, the search for the longest
    summary that fits the target, and the whole compaction decision. */
module CompactionTarget {
  import opened Text
  import opened Conversation
  import opened Compaction

  // ---------------------------------------------------------------- estimates

  function CallChars(calls: seq<ToolCall>): nat {
    if calls == [] then 0 else ByteLen(calls[0].name) + ByteLen(calls[0].arguments) + CallChars(calls[1..])
  }

  function MessageChars(m: Message): nat {
    ByteLen(RoleText(m.role)) + ByteLen(AsTextLossy(m.content)) + CallChars(m.toolCalls)
  }

  function TotalChars(ms: seq<Message>): nat {
    if ms == [] then 0 else MessageChars(ms[0]) + TotalChars(ms[1..])
  }

  function Estimate(systemPrompt: string, ms: seq<Message>, toolsJson: Option<string>): nat {
    var chars := ByteLen(systemPrompt) + TotalChars(ms) + (if toolsJson.Some? then ByteLen(toolsJson.value) else 0);
    Max(chars / CHARS_PER_TOKEN_ESTIMATE, 1)
  }

  lemma {:induction false} TotalCharsConcat(a: seq<Message>, b: seq<Message>)
    ensures TotalChars(a + b) == TotalChars(a) + TotalChars(b)
  {
    if a == [] {
      assert a + b == b;
    } else {
      assert (a + b)[1..] == a[1..] + b;
      TotalCharsConcat(a[1..], b);
    }
  }

  lemma {:induction false} CallCharsSnoc(calls: seq<ToolCall>, n: nat)
    requires n < |calls|
    ensures CallChars(calls[..n + 1]) == CallChars(calls[..n]) + ByteLen(calls[n].name) + ByteLen(calls[n].arguments)
  {
    if n == 0 {
      assert calls[..1][1..] == [] && calls[..0] == [];
    } else {
      CallCharsSnoc(calls[1..], n - 1);
      assert calls[..n + 1][1..] == calls[1..][..n] && calls[..n][1..] == calls[1..][..n - 1];
    }
  }

  /** Everything that is counted, in one text. */
  function PromptText(systemPrompt: string, ms: seq<Message>, toolsJson: Option<string>): string {
    systemPrompt + MessagesText(ms) + if toolsJson.Some? then toolsJson.value else ""
  }

  function MessagesText(ms: seq<Message>): string {
    if |ms| == 0 then ""
    else RoleText(ms[0].role) + AsTextLossy(ms[0].content) + CallsText(ms[0].toolCalls) + MessagesText(ms[1..])
  }

  function CallsText(calls: seq<ToolCall>): string {
    if |calls| == 0 then "" else calls[0].name + calls[0].arguments + CallsText(calls[1..])
  }

  lemma {:induction false} CallsTextBytes(calls: seq<ToolCall>)
    ensures ByteLen(CallsText(calls)) == CallChars(calls)
  {
    hide ByteLen;
    NoBytes();
    if |calls| > 0 {
      CallsTextBytes(calls[1..]);
      ByteLenConcat(calls[0].name, calls[0].arguments);
      ByteLenConcat(calls[0].name + calls[0].arguments, CallsText(calls[1..]));
    }
  }

  lemma NoBytes()
    ensures ByteLen("") == 0
  {
  }

  lemma {:induction false} MessagesTextBytes(ms: seq<Message>)
    ensures ByteLen(MessagesText(ms)) == TotalChars(ms)
  {
    hide ByteLen, CallsText, CallChars, RoleText, AsTextLossy;
    NoBytes();
    if |ms| > 0 {
      var m := ms[0];
      MessagesTextBytes(ms[1..]);
      CallsTextBytes(m.toolCalls);
      ByteLenConcat(RoleText(m.role), AsTextLossy(m.content));
      ByteLenConcat(RoleText(m.role) + AsTextLossy(m.content), CallsText(m.toolCalls));
      ByteLenConcat(RoleText(m.role) + AsTextLossy(m.content) + CallsText(m.toolCalls), MessagesText(ms[1..]));
    }
  }

  /** A third of the bytes of everything that is counted, and at least one. */
  ghost predicate IsEstimate(tokens: nat, systemPrompt: string, ms: seq<Message>, toolsJson: Option<string>) {
    var bytes := ByteLen(PromptText(systemPrompt, ms, toolsJson));
    if bytes < 3 then tokens == 1 else 3 * tokens <= bytes < 3 * tokens + 3
  }

  lemma EstimateIs(systemPrompt: string, ms: seq<Message>, toolsJson: Option<string>)
    ensures IsEstimate(Estimate(systemPrompt, ms, toolsJson), systemPrompt, ms, toolsJson)
  {
    hide ByteLen, MessagesText, TotalChars;
    var tools := if toolsJson.Some? then toolsJson.value else "";
    NoBytes();
    MessagesTextBytes(ms);
    ByteLenConcat(systemPrompt, MessagesText(ms));
    ByteLenConcat(systemPrompt + MessagesText(ms), tools);
  }

  method EstimatePromptTokens(systemPrompt: string, ms: seq<Message>, toolsJson: Option<string>) returns (tokens: nat)
    ensures tokens == Estimate(systemPrompt, ms, toolsJson)
    ensures IsEstimate(tokens, systemPrompt, ms, toolsJson)
  {
    var totalChars := ByteLen(systemPrompt);
    for i := 0 to |ms|
      invariant totalChars == ByteLen(systemPrompt) + TotalChars(ms[..i])
    {
      var m := ms[i];
      assert ms[..i + 1] == ms[..i] + [m] && [m][1..] == [];
      TotalCharsConcat(ms[..i], [m]);
      totalChars := totalChars + ByteLen(RoleText(m.role));
      totalChars := totalChars + ByteLen(AsTextLossy(m.content));
      ghost var before := totalChars;
      for c := 0 to |m.toolCalls|
        invariant totalChars == before + CallChars(m.toolCalls[..c])
      {
        CallCharsSnoc(m.toolCalls, c);
        totalChars := totalChars + ByteLen(m.toolCalls[c].name);
        totalChars := totalChars + ByteLen(m.toolCalls[c].arguments);
      }
      assert m.toolCalls[..|m.toolCalls|] == m.toolCalls;
    }
    assert ms[..|ms|] == ms;
    if toolsJson.Some? {
      totalChars := totalChars + ByteLen(toolsJson.value);
    }
    tokens := Max(totalChars / CHARS_PER_TOKEN_ESTIMATE, 1);
    EstimateIs(systemPrompt, ms, toolsJson);
  }

  function Ceil(x: real): int { -((-x).Floor) }

  function CalibratedEstimate(raw: nat, factor: real): nat {
    Max(Ceil(raw as real * factor), 1)
  }

  lemma CalibratedMonotone(a: nat, b: nat, factor: real)
    requires a <= b && factor >= 0.0
    ensures CalibratedEstimate(a, factor) <= CalibratedEstimate(b, factor)
  {
    assert b as real * factor - a as real * factor == (b - a) as real * factor >= 0.0;
  }

  /** The smallest whole number of tokens that the scaled estimate does not exceed, and at least one. */
  ghost predicate IsCalibrated(tokens: nat, raw: nat, factor: real) {
    tokens >= 1 && raw as real * factor <= tokens as real &&
    (tokens == 1 || (tokens - 1) as real < raw as real * factor)
  }

  lemma CalibratedIs(raw: nat, factor: real)
    ensures forall tokens: nat :: (IsCalibrated(tokens, raw, factor) <==> tokens == CalibratedEstimate(raw, factor))
  {
    var scaled := raw as real * factor;
    var ceil := Ceil(scaled);
    assert (ceil - 1) as real < scaled <= ceil as real;
  }

  function UsableContextTokens(contextWindow: nat): nat {
    Max(contextWindow - CONTEXT_RESERVE_TOKENS, 1)
  }

  function TargetTokens(usable: nat, ratio: real): nat {
    Max((usable as real * ratio).Floor, 1)
  }

  /** What is left of the context window, and a share of it in whole tokens, both at least one. */
  ghost predicate IsShare(tokens: nat, contextWindow: nat, ratio: real) {
    var usable := if contextWindow > 8193 then contextWindow - 8192 else 1;
    tokens >= 1 && usable as real * ratio < (tokens + 1) as real &&
    (tokens == 1 || tokens as real <= usable as real * ratio)
  }

  lemma ShareIs(contextWindow: nat, ratio: real)
    ensures forall tokens: nat ::
      (IsShare(tokens, contextWindow, ratio) <==> tokens == TargetTokens(UsableContextTokens(contextWindow), ratio))
  {
    var share := UsableContextTokens(contextWindow) as real * ratio;
    assert share.Floor as real <= share < (share.Floor + 1) as real;
  }

  predicate ShouldCompact(estimated: nat, usable: nat, thresholdRatio: real) {
    estimated >= TargetTokens(usable, thresholdRatio)
  }

  // ---------------------------------------------------------------- the longest summary that fits

  function TruncateSummary(summary: string, maxChars: nat): string {
    if maxChars >= |summary| then summary
    else if maxChars == 0 then []
    else summary[..maxChars] + TRUNCATION_SUFFIX
  }

  predicate Fits(compacted: seq<Message>, target: nat, factor: real) {
    CalibratedEstimate(Estimate("", compacted, None), factor) <= target
  }

  predicate PrefixFits(summary: string, k: nat, recent: seq<Message>, target: nat, factor: real) {
    Fits(Compacted(TruncateSummary(summary, k), recent), target, factor)
  }

  /** Linear scan from `from` down: the largest prefix length that fits, 0 if none does. */
  function LongestFit(summary: string, from: nat, recent: seq<Message>, target: nat, factor: real): nat {
    if from == 0 || PrefixFits(summary, from, recent, target, factor) then from
    else LongestFit(summary, from - 1, recent, target, factor)
  }

  /** What `build_targeted_compacted_messages` promises, with no search in sight. */
  function Targeted(summary: string, recent: seq<Message>, target: nat, factor: real): seq<Message> {
    if target == 0 then Compacted(summary, recent)
    else Compacted(TruncateSummary(summary, LongestFit(summary, |summary|, recent, target, factor)), recent)
  }

  /** The scan is optimal: nothing longer fits, and what it returns fits unless nothing at all does. */
  lemma {:induction false} LongestFitIsLongest(
      summary: string, from: nat, recent: seq<Message>, target: nat, factor: real)
    ensures var k := LongestFit(summary, from, recent, target, factor);
      k <= from &&
      (forall j :: k < j <= from ==> !PrefixFits(summary, j, recent, target, factor)) &&
      (k == 0 || PrefixFits(summary, k, recent, target, factor))
  {
    hide PrefixFits;
    if from != 0 && !PrefixFits(summary, from, recent, target, factor) {
      LongestFitIsLongest(summary, from - 1, recent, target, factor);
    }
  }

  lemma PrefixFitsIs(summary: string, k: nat, recent: seq<Message>, target: nat, factor: real)
    ensures PrefixFits(summary, k, recent, target, factor) <==>
      CalibratedEstimate(Estimate("", Compacted(TruncateSummary(summary, k), recent), None), factor) <= target
  {
  }

  lemma LongestFitIs(summary: string, k: nat, recent: seq<Message>, target: nat, factor: real)
    requires k <= |summary|
    requires forall j :: k < j <= |summary| ==> !PrefixFits(summary, j, recent, target, factor)
    requires k == 0 || PrefixFits(summary, k, recent, target, factor)
    ensures LongestFit(summary, |summary|, recent, target, factor) == k
  {
    hide PrefixFits;
    LongestFitIsLongest(summary, |summary|, recent, target, factor);
  }

  /** The summary is only the first message: everything after it is the same for every summary. */
  lemma CompactedSplit(a: string, b: string, recent: seq<Message>)
    ensures Compacted(a, recent) != [] && Compacted(a, recent)[0] == SummaryMessage(a)
    ensures Compacted(a, recent)[1..] == Compacted(b, recent)[1..]
  {
    hide SummaryMessage, FoldMerge;
    SummaryIsNoAnswer(a);
    SummaryIsNoAnswer(b);
    assert ([SummaryMessage(a)] + recent)[1..] == recent == ([SummaryMessage(b)] + recent)[1..];
    if |recent| >= 2 {
      assert ([SummaryMessage(a)] + recent)[2..] == recent[1..] == ([SummaryMessage(b)] + recent)[2..];
      assert ([SummaryMessage(a)] + recent)[1] == recent[0] == ([SummaryMessage(b)] + recent)[1];
    }
    var ma, mb := MergeSkippingFirst([SummaryMessage(a)] + recent), MergeSkippingFirst([SummaryMessage(b)] + recent);
    assert ma[1..] == mb[1..] && |ma| == |mb|;
    assert |ma| > 1 ==> ma[|ma| - 1] == ma[1..][|ma| - 2] == mb[|mb| - 1];
    assert PopTrailingAssistant(ma)[1..] == PopTrailingAssistant(mb)[1..];
  }

  /** A summary with fewer bytes never makes the prompt longer. */
  lemma ShorterSummaryFits(a: string, b: string, recent: seq<Message>, target: nat, factor: real)
    requires factor >= 0.0 && ByteLen(a) <= ByteLen(b)
    requires Fits(Compacted(b, recent), target, factor)
    ensures Fits(Compacted(a, recent), target, factor)
  {
    CompactedSplit(a, b, recent);
    CompactedSplit(b, a, recent);
    ByteLenConcat(REFERENCE_ONLY_HEADER + "\n\n", a);
    ByteLenConcat(REFERENCE_ONLY_HEADER + "\n\n", b);
    var ca, cb := Compacted(a, recent), Compacted(b, recent);
    assert TotalChars(ca) <= TotalChars(cb);
    CalibratedMonotone(Estimate("", ca, None), Estimate("", cb, None), factor);
  }

  /** Fitting is downward closed below the full length; the suffix breaks it only at the full length,
      where a cut summary can be longer than the whole one. */
  lemma FitsDownward(summary: string, j: nat, k: nat, recent: seq<Message>, target: nat, factor: real)
    requires factor >= 0.0 && j <= k < |summary|
    requires PrefixFits(summary, k, recent, target, factor)
    ensures PrefixFits(summary, j, recent, target, factor)
  {
    hide Fits, Compacted;
    if 0 < j {
      ByteLenPrefix(summary, j, k);
      ByteLenConcat(summary[..j], TRUNCATION_SUFFIX);
      ByteLenConcat(summary[..k], TRUNCATION_SUFFIX);
    }
    ShorterSummaryFits(TruncateSummary(summary, j), TruncateSummary(summary, k), recent, target, factor);
  }

  /** The summary cut after `k` characters, with a note unless nothing or all of it is left. */
  function CutSummary(summary: string, k: nat): string
    requires k <= |summary|
  {
    if k == 0 || k == |summary| then summary[..k] else summary[..k] + TRUNCATION_SUFFIX
  }

  /** The calibrated estimate of these messages on their own is `tokens`. */
  ghost predicate Costs(ms: seq<Message>, factor: real, tokens: nat) {
    IsCalibrated(tokens, Estimate("", ms, None), factor)
  }

  /** `r` is the compaction with the longest cut of the summary that costs at most `target` tokens, or with
      none of it when every cut costs more. */
  ghost predicate IsLongestCut(summary: string, recent: seq<Message>, target: nat, factor: real, r: seq<Message>) {
    exists k ::
      0 <= k <= |summary| && r == Compacted(CutSummary(summary, k), recent) &&
      (k == 0 || exists tokens: nat :: Costs(r, factor, tokens) && tokens <= target) &&
      forall j, tokens: nat ::
        k < j <= |summary| && Costs(Compacted(CutSummary(summary, j), recent), factor, tokens) ==> tokens > target
  }

  lemma CutIs(summary: string, k: nat)
    requires k <= |summary|
    ensures TruncateSummary(summary, k) == CutSummary(summary, k)
  {
  }

  lemma LongestCut(summary: string, recent: seq<Message>, target: nat, factor: real)
    ensures IsLongestCut(summary, recent, target, factor,
      Compacted(TruncateSummary(summary, LongestFit(summary, |summary|, recent, target, factor)), recent))
  {
    hide Compacted, Estimate, CalibratedEstimate, TruncateSummary, CutSummary, IsCalibrated, LongestFit, PrefixFits;
    var k := LongestFit(summary, |summary|, recent, target, factor);
    LongestFitIsLongest(summary, |summary|, recent, target, factor);
    CutIs(summary, k);
    var r := Compacted(CutSummary(summary, k), recent);
    PrefixFitsIs(summary, k, recent, target, factor);
    CalibratedIs(Estimate("", r, None), factor);
    if k > 0 { assert Costs(r, factor, CalibratedEstimate(Estimate("", r, None), factor)); }
    forall j, tokens: nat
      | k < j <= |summary| && Costs(Compacted(CutSummary(summary, j), recent), factor, tokens)
      ensures tokens > target
    {
      CutIs(summary, j);
      CalibratedIs(Estimate("", Compacted(CutSummary(summary, j), recent), None), factor);
      PrefixFitsIs(summary, j, recent, target, factor);
      assert !PrefixFits(summary, j, recent, target, factor);
    }
  }

  /** `build_targeted_compacted_messages`: the binary search agrees with the linear scan. */
  method BuildTargetedCompactedMessages(summary: string, recent: seq<Message>, target: nat, factor: real)
    returns (r: seq<Message>)
    requires factor >= 0.0
    ensures r == Targeted(summary, recent, target, factor)
    ensures if target == 0 then r == Compacted(summary, recent) else IsLongestCut(summary, recent, target, factor, r)
  {
    hide PrefixFits, Compacted, Estimate, CalibratedEstimate, IsLongestCut, PromptText;
    var compacted := BuildCompactedMessages(summary, recent);
    PrefixFitsIs(summary, |summary|, recent, target, factor);
    LongestCut(summary, recent, target, factor);
    if target == 0 { return compacted; }
    var tokens := EstimatePromptTokens("", compacted, None);
    if CalibratedEstimate(tokens, factor) <= target {
      LongestFitIs(summary, |summary|, recent, target, factor);
      return compacted;
    }

    var best: Option<seq<Message>> := None;
    var low: nat, high: nat := 0, |summary|;
    while low <= high
      invariant low <= high + 1 && high <= |summary|
      invariant forall j :: high < j <= |summary| ==> !PrefixFits(summary, j, recent, target, factor)
      invariant best == if low == 0 then None else Some(Compacted(TruncateSummary(summary, low - 1), recent))
      invariant low > 0 ==> PrefixFits(summary, low - 1, recent, target, factor)
      invariant !PrefixFits(summary, |summary|, recent, target, factor)
      decreases high + 1 - low
    {
      var mid := low + (high - low) / 2;
      var candidate := BuildCompactedMessages(TruncateSummary(summary, mid), recent);
      tokens := EstimatePromptTokens("", candidate, None);
      PrefixFitsIs(summary, mid, recent, target, factor);
      if CalibratedEstimate(tokens, factor) <= target {
        best := Some(candidate);
        low := mid + 1;
      } else {
        forall j | mid < j <= high ensures !PrefixFits(summary, j, recent, target, factor) {
          if j < |summary| && PrefixFits(summary, j, recent, target, factor) {
            FitsDownward(summary, mid, j, recent, target, factor);
          }
        }
        if mid == 0 { break; }
        high := mid - 1;
      }
    }
    LongestFitIs(summary, if low == 0 then 0 else low - 1, recent, target, factor);
    if best.Some? { return best.value; }
    r := BuildCompactedMessages("", recent);
    assert TruncateSummary(summary, 0) == [];
  }

  // ---------------------------------------------------------------- the whole decision

  /** What one compaction attempt is told: `summary` is the redacted summarizer answer, or `None`
      when the summarizer failed or timed out. */
  datatype CompactionInput = CompactionInput(
    keepRecent: nat, contextWindow: nat, thresholdRatio: real, targetRatio: real, factor: real, summary: Option<string>)

  function Usable(input: CompactionInput): nat { UsableContextTokens(input.contextWindow) }

  function Target(input: CompactionInput): nat { TargetTokens(Usable(input), input.targetRatio) }

  /** `safety_compact` as a function of its input. */
  function SafeCompact(ms: seq<Message>, input: CompactionInput): seq<Message> {
    match SelectSplit(ms, input.keepRecent)
    case None => ms
    case Some(splitAt) =>
      SplitKeepsLatestUser(ms, input.keepRecent);
      if input.summary.None? || IsBlank(input.summary.value) then ms
      else Targeted(input.summary.value, ms[splitAt..], Target(input), input.factor)
  }

  /** `r` is an attempt on `ms`: nothing is done when nothing is to be cut or there is no summary, else the
      part from the cut on stays behind the longest cut of the summary that meets the target share. */
  ghost predicate IsAttempt(ms: seq<Message>, input: CompactionInput, r: seq<Message>) {
    var splitAt := SplitAt(ms, input.keepRecent);
    if |ms| <= input.keepRecent || splitAt == 0 || input.summary.None? || IsBlank(input.summary.value) then r == ms
    else
      splitAt <= |ms| &&
      exists target: nat ::
        IsShare(target, input.contextWindow, input.targetRatio) &&
        IsLongestCut(input.summary.value, ms[splitAt..], target, input.factor, r)
  }

  lemma TargetIsShare(input: CompactionInput)
    ensures IsShare(Target(input), input.contextWindow, input.targetRatio) && Target(input) >= 1
  {
    hide UsableContextTokens;
    ShareIs(input.contextWindow, input.targetRatio);
  }

  lemma SafeCompactIsAttempt(ms: seq<Message>, input: CompactionInput)
    requires input.factor >= 0.0
    ensures IsAttempt(ms, input, SafeCompact(ms, input))
  {
    hide IsLongestCut, IsShare, TargetTokens, UsableContextTokens, SafeSplit, Compacted, TruncateSummary, LongestFit;
    TargetIsShare(input);
    var split := SelectSplit(ms, input.keepRecent);
    SplitKeepsLatestUser(ms, input.keepRecent);
    if split.Some? && input.summary.Some? {
      LongestCut(input.summary.value, ms[split.value..], Target(input), input.factor);
    }
  }

  /** The list is left alone while the calibrated estimate of the whole prompt is below the threshold share of
      the usable window, and attempted from there on. */
  ghost predicate CompactsAtThreshold(
      systemPrompt: string, toolsJson: Option<string>, ms: seq<Message>, input: CompactionInput, r: seq<Message>)
  {
    forall raw: nat, estimate: nat, threshold: nat ::
      IsEstimate(raw, systemPrompt, ms, toolsJson) && IsCalibrated(estimate, raw, input.factor) &&
      IsShare(threshold, input.contextWindow, input.thresholdRatio) ==>
        if estimate < threshold then r == ms else IsAttempt(ms, input, r)
  }

  lemma MaybeCompactIs(systemPrompt: string, toolsJson: Option<string>, ms: seq<Message>, input: CompactionInput)
    requires input.factor >= 0.0
    ensures CompactsAtThreshold(systemPrompt, toolsJson, ms, input, MaybeCompact(systemPrompt, toolsJson, ms, input))
  {
    hide IsCalibrated, IsShare, SafeCompact, IsAttempt, PromptText, CalibratedEstimate, UsableContextTokens,
      TargetTokens, Estimate;
    EstimateIs(systemPrompt, ms, toolsJson);
    CalibratedIs(Estimate(systemPrompt, ms, toolsJson), input.factor);
    ShareIs(input.contextWindow, input.thresholdRatio);
    SafeCompactIsAttempt(ms, input);
  }

  /** `maybe_compact_messages` as a function: nothing happens below the threshold. */
  function MaybeCompact(systemPrompt: string, toolsJson: Option<string>, ms: seq<Message>, input: CompactionInput)
    : seq<Message>
  {
    var estimated := CalibratedEstimate(Estimate(systemPrompt, ms, toolsJson), input.factor);
    if ShouldCompact(estimated, Usable(input), input.thresholdRatio) then SafeCompact(ms, input) else ms
  }

  method MaybeCompactMessages(systemPrompt: string, toolsJson: Option<string>, ms: seq<Message>, input: CompactionInput)
    returns (r: seq<Message>)
    requires input.factor >= 0.0
    ensures r == MaybeCompact(systemPrompt, toolsJson, ms, input)
    ensures CompactsAtThreshold(systemPrompt, toolsJson, ms, input, r)
  {
    hide CompactsAtThreshold, SafeCompact, PromptText, CalibratedEstimate, UsableContextTokens, TargetTokens;
    MaybeCompactIs(systemPrompt, toolsJson, ms, input);
    var raw := EstimatePromptTokens(systemPrompt, ms, toolsJson);
    if !ShouldCompact(CalibratedEstimate(raw, input.factor), Usable(input), input.thresholdRatio) { return ms; }
    r := SafetyCompact(ms, input);
  }

  /** A larger prompt never turns compaction off. */
  lemma LargerPromptCompacts(
      systemPrompt: string, toolsJson: Option<string>, largerPrompt: string, largerTools: Option<string>,
      ms: seq<Message>, input: CompactionInput)
    requires input.factor >= 0.0 && MaybeCompact(systemPrompt, toolsJson, ms, input) != ms
    requires Estimate(systemPrompt, ms, toolsJson) <= Estimate(largerPrompt, ms, largerTools)
    ensures MaybeCompact(largerPrompt, largerTools, ms, input) == MaybeCompact(systemPrompt, toolsJson, ms, input)
  {
    hide SafeCompact, Estimate, CalibratedEstimate;
    CalibratedMonotone(Estimate(systemPrompt, ms, toolsJson), Estimate(largerPrompt, ms, largerTools), input.factor);
  }

  method SafetyCompact(ms: seq<Message>, input: CompactionInput) returns (r: seq<Message>)
    requires input.factor >= 0.0
    ensures r == SafeCompact(ms, input) && IsAttempt(ms, input, r)
  {
    hide IsAttempt, Targeted, TargetTokens, UsableContextTokens, SafeSplit;
    SafeCompactIsAttempt(ms, input);
    var keep := Min(input.keepRecent, |ms|);
    if keep == |ms| { return ms; }
    var splitAt := ToolSafeSplitAt(ms, PreferredSplit(ms, keep));
    assert splitAt == SplitAt(ms, input.keepRecent);
    if splitAt == 0 || input.summary.None? || IsBlank(input.summary.value) { return ms; }
    r := BuildTargetedCompactedMessages(input.summary.value, ms[splitAt..], Target(input),
                                        input.factor);
  }

  /** Compaction keeps tool-completeness, for every history, setting and summarizer answer. */
  lemma CompactionKeepsToolComplete(ms: seq<Message>, input: CompactionInput)
    requires ToolComplete(ms)
    ensures ToolComplete(SafeCompact(ms, input))
  {
    var split := SelectSplit(ms, input.keepRecent);
    if split.Some? && input.summary.Some? && !IsBlank(input.summary.value) {
      SplitSound(ms, input.keepRecent);
      var summary, recent := input.summary.value, ms[split.value..];
      var target := Target(input);
      CompactedToolComplete(TruncateSummary(summary, LongestFit(summary, |summary|, recent, target, input.factor)),
        recent);
    }
  }

  // ---------------------------------------------------------------- what happens to the latest user message

  lemma LatestUserCons(m: Message, rest: seq<Message>)
    ensures LatestUser([m] + rest) ==
      if LatestUser(rest).Some? then Some(LatestUser(rest).value + 1) else if m.role.User? then Some(0) else None
  {
    hide LatestUserBefore;
    var all := [m] + rest;
    assert forall k :: 0 <= k < |rest| ==> all[k + 1] == rest[k];
    var u := LatestUserBefore(rest, |rest|);
    if u.Some? {
      LatestUserIs(all, u.value + 1);
    } else if m.role.User? {
      LatestUserIs(all, 0);
    } else {
      NoUser(all);
    }
  }

  lemma {:induction false} FoldMergeNoUser(cur: Message, rest: seq<Message>)
    requires LatestUser([cur] + rest).None?
    ensures LatestUser(FoldMerge([cur], rest)).None?
    decreases rest
  {
    LatestUserCons(cur, rest);
    if rest != [] {
      var m, rest' := rest[0], rest[1..];
      assert rest == [m] + rest';
      LatestUserCons(m, rest');
      FoldMergeStep(cur, m, rest');
      if CanMerge(cur, m) {
        LatestUserCons(JoinMessages(cur, m), rest');
        FoldMergeNoUser(JoinMessages(cur, m), rest');
      } else {
        FoldMergeNoUser(m, rest');
        LatestUserCons(cur, FoldMerge([m], rest'));
      }
    }
  }

  predicate EndsWith(s: string, suffix: string) {
    |suffix| <= |s| && s[|s| - |suffix|..] == suffix
  }

  /** Whether the message at `u` is joined to the message before it. */
  predicate JoinedLeft(ms: seq<Message>, u: nat)
    requires u < |ms|
  {
    u > 0 && CanMerge(ms[u - 1], ms[u])
  }

  /** The last user message of `r` ends with the text of `m`, and is `m` itself exactly when `verbatim`. */
  predicate EndsWithUser(r: seq<Message>, m: Message, verbatim: bool) {
    LatestUser(r).Some? && EndsWith(AsTextLossy(r[LatestUser(r).value].content), AsTextLossy(m.content)) &&
    (r[LatestUser(r).value] == m <==> verbatim)
  }

  lemma EndsWithSelf(s: string)
    ensures EndsWith(s, s)
  {
  }

  lemma JoinEndsWith(left: Message, right: Message)
    ensures JoinMessages(left, right) != right
    ensures EndsWith(AsTextLossy(JoinMessages(left, right).content), AsTextLossy(right.content))
    ensures forall s :: EndsWith(AsTextLossy(right.content), s) ==>
      EndsWith(AsTextLossy(JoinMessages(left, right).content), s)
  {
    var l, r := AsTextLossy(left.content), AsTextLossy(right.content);
    var j := AsTextLossy(JoinMessages(left, right).content);
    assert j == l + "\n" + r && |j| > |r|;
    forall s | EndsWith(r, s) ensures EndsWith(j, s) {
      assert j[|j| - |s|..] == r[|r| - |s|..];
    }
  }

  lemma {:induction false} FoldMergeLatestUser(cur: Message, rest: seq<Message>)
    requires LatestUser([cur] + rest).Some?
    ensures var ms := [cur] + rest;
      var u := LatestUser(ms).value;
      EndsWithUser(FoldMerge([cur], rest), ms[u], !JoinedLeft(ms, u))
    decreases rest
  {
    hide LatestUser, LatestUserBefore, FoldMerge, EndsWith, AsTextLossy;
    EndsWithSelf(AsTextLossy(cur.content));
    FoldMergeNothing(cur);
    var ms := [cur] + rest;
    LatestUserCons(cur, rest);
    if rest != [] {
      var m, rest' := rest[0], rest[1..];
      assert rest == [m] + rest' && ms[1] == m;
      LatestUserCons(m, rest');
      FoldMergeStep(cur, m, rest');
      if CanMerge(cur, m) {
        var j := JoinMessages(cur, m);
        LatestUserCons(j, rest');
        FoldMergeLatestUser(j, rest');
        var ms' := [j] + rest';
        assert forall k :: 2 <= k < |ms| ==> ms[k] == ms'[k - 1];
        JoinEndsWith(cur, m);
      } else if LatestUser(rest).Some? {
        FoldMergeLatestUser(m, rest');
        LatestUserCons(cur, FoldMerge([m], rest'));
        assert forall k :: 1 <= k < |ms| ==> ms[k] == rest[k - 1];
      } else {
        FoldMergeNoUser(m, rest');
        LatestUserCons(cur, FoldMerge([m], rest'));
      }
    }
  }

  lemma MergedIs(summary: string, recent: seq<Message>)
    requires recent != []
    ensures MergeSkippingFirst([SummaryMessage(summary)] + recent) ==
      [SummaryMessage(summary)] + FoldMerge([recent[0]], recent[1..])
  {
    var all := [SummaryMessage(summary)] + recent;
    assert all[1] == recent[0] && all[2..] == recent[1..];
    FoldMergeNothing(recent[0]);
  }

  lemma EndsWithUserCons(h: Message, ms: seq<Message>, m: Message, verbatim: bool)
    requires EndsWithUser(ms, m, verbatim)
    ensures EndsWithUser([h] + ms, m, verbatim)
  {
    hide LatestUser, LatestUserBefore, EndsWith, AsTextLossy;
    LatestUserCons(h, ms);
  }

  lemma EndsWithUserPop(ms: seq<Message>, m: Message, verbatim: bool)
    requires EndsWithUser(ms, m, verbatim)
    ensures EndsWithUser(PopTrailingAssistant(ms), m, verbatim)
  {
    hide LatestUser, LatestUserBefore, EndsWith, AsTextLossy;
    var r, u := PopTrailingAssistant(ms), LatestUser(ms).value;
    assert r[u] == ms[u] && forall k :: u < k < |r| ==> r[k] == ms[k];
    LatestUserIs(r, u);
  }

  lemma CompactedLatestUser(summary: string, recent: seq<Message>)
    requires LatestUser(recent).Some?
    ensures var u := LatestUser(recent).value;
      EndsWithUser(Compacted(summary, recent), recent[u], !JoinedLeft(recent, u))
  {
    hide LatestUser, LatestUserBefore, FoldMerge, EndsWithUser, PopTrailingAssistant, MergeSkippingFirst,
      SummaryMessage, JoinedLeft;
    var cur, rest, m := recent[0], recent[1..], recent[LatestUser(recent).value];
    var verbatim := !JoinedLeft(recent, LatestUser(recent).value);
    assert recent == [cur] + rest;
    FoldMergeLatestUser(cur, rest);
    MergedIs(summary, recent);
    EndsWithUserCons(SummaryMessage(summary), FoldMerge([cur], rest), m, verbatim);
    EndsWithUserPop(MergeSkippingFirst([SummaryMessage(summary)] + recent), m, verbatim);
  }

  lemma FoldMergeNothing(cur: Message)
    ensures FoldMerge([cur], []) == [cur]
  {
  }

  /** The latest user message survives as the end of the last user message, and survives verbatim
      exactly when the message before it is cut off or cannot be merged with it. */
  lemma LatestUserVerbatimIff(ms: seq<Message>, keepRecent: nat, summary: string)
    requires LatestUser(ms).Some?
    ensures var splitAt, u := SplitAt(ms, keepRecent), LatestUser(ms).value;
      splitAt <= u &&
      EndsWithUser(Compacted(summary, ms[splitAt..]), ms[u], u == splitAt || !CanMerge(ms[u - 1], ms[u]))
  {
    hide LatestUser, LatestUserBefore, Compacted, SplitAt;
    SplitKeepsLatestUser(ms, keepRecent);
    var splitAt, u := SplitAt(ms, keepRecent), LatestUser(ms).value;
    var recent := ms[splitAt..];
    assert recent[u - splitAt] == ms[u] && forall k :: u - splitAt < k < |recent| ==> recent[k] == ms[k + splitAt];
    LatestUserIs(recent, u - splitAt);
    CompactedLatestUser(summary, recent);
    assert u > splitAt ==> recent[u - splitAt - 1] == ms[u - 1];
  }

  // ---------------------------------------------------------------- what happens to the kept part

  /** An attempt that compacts keeps its recent part verbatim exactly when no two neighbours in it can be
      merged and it does not end with an assistant message. */
  lemma AttemptVerbatimIff(ms: seq<Message>, input: CompactionInput)
    requires SelectSplit(ms, input.keepRecent).Some? && input.summary.Some? && !IsBlank(input.summary.value)
    ensures SplitAt(ms, input.keepRecent) <= |ms| && |SafeCompact(ms, input)| > 0
    ensures var recent := ms[SplitAt(ms, input.keepRecent)..];
      SafeCompact(ms, input)[1..] == recent <==>
        NoNeighboursMerge(recent) && (|recent| > 0 ==> !recent[|recent| - 1].role.Assistant?)
  {
    hide NoNeighboursMerge, Compacted, SplitAt, LongestFit, SummaryMessage, TruncateSummary;
    SplitKeepsLatestUser(ms, input.keepRecent);
    var summary, recent := input.summary.value, ms[SplitAt(ms, input.keepRecent)..];
    var kept := TruncateSummary(summary, LongestFit(summary, |summary|, recent, Target(input), input.factor));
    var result := if Target(input) == 0 then summary else kept;
    KeptVerbatimIff(result, recent);
    CompactedHead(result, recent);
    assert SafeCompact(ms, input) == Compacted(result, recent);
    assert Compacted(result, recent) == [SummaryMessage(result)] + Compacted(result, recent)[1..];
  }

  lemma CompactedHead(summary: string, recent: seq<Message>)
    ensures |Compacted(summary, recent)| > 0 && Compacted(summary, recent)[0] == SummaryMessage(summary)
  {
    hide FoldMerge, SummaryMessage;
    SummaryIsNoAnswer(summary);
    if |recent| > 0 {
      assert recent == [recent[0]] + recent[1..];
      MergedForm(SummaryMessage(summary), recent[0], recent[1..]);
      FoldMergeHead(recent[0], recent[1..]);
    }
  }

  /** A forced compaction after a finished turn: the latest answer is neither kept nor in the part that is
      summarized. */
  lemma LatestAnswerIsLost(q0: string, r0: string, q: string, r: string, input: CompactionInput)
    requires input.keepRecent == 2 && input.summary.Some? && !IsBlank(input.summary.value)
    ensures var ms :=
        [TextMessage(User, q0), TextMessage(Assistant, r0), TextMessage(User, q), TextMessage(Assistant, r)];
      SelectSplit(ms, 2) == Some(2) && |SafeCompact(ms, input)| > 0 &&
      SafeCompact(ms, input)[1..] == [TextMessage(User, q)]
  {
    hide Compacted, LongestFit, SummaryMessage, TruncateSummary, LatestUser, LatestUserBefore, FindToolCallParent;
    var ms := [TextMessage(User, q0), TextMessage(Assistant, r0), TextMessage(User, q), TextMessage(Assistant, r)];
    LatestUserIs(ms, 2);
    var summary, recent := input.summary.value, ms[2..];
    assert recent == [TextMessage(User, q), TextMessage(Assistant, r)];
    assert SplitAt(ms, 2) == 2;
    var kept := TruncateSummary(summary, LongestFit(summary, |summary|, recent, Target(input), input.factor));
    var result := if Target(input) == 0 then summary else kept;
    TrailingAnswerIsDropped(result, q, r);
  }
}
