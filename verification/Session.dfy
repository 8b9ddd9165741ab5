/** Session restore and storage (`src/agent_loop/session.rs`): repair of a restored snapshot, and the
    optimistic store of one turn phase with one reload and one retry. */
module Session {
  import opened Text
  import opened Conversation

  // ---------------------------------------------------------------- repair on load

  const ORPHAN_OUTPUT: string :=
    "{\"status\":\"error\",\"error\":\"tool output was missing from the restored session snapshot\"}"

  function OrphanToolOutput(id: string): Message {
    Message(Tool, Plain(ORPHAN_OUTPUT), None, [], Some(id))
  }

  /** One orphan output for every call that no tool message of the run answers. */
  function MissingOutputs(calls: seq<ToolCall>, seen: set<string>): (r: seq<Message>)
    ensures IsToolRun(r, 0, |r|)
  {
    if calls == [] then []
    else (if calls[0].id in seen then [] else [OrphanToolOutput(calls[0].id)]) + MissingOutputs(calls[1..], seen)
  }

  /** The message that stands in for a lost output. */
  predicate IsPlaceholder(m: Message, id: string) {
    m.role.Tool? && m.toolCallId == Some(id) && m.reasoning.None? && m.toolCalls == [] &&
    m.content ==
      Plain("{\"status\":\"error\",\"error\":\"tool output was missing from the restored session snapshot\"}")
  }

  /** Each further call adds one placeholder behind the others, or none when it is answered. */
  lemma {:induction false} MissingOutputsGrow(calls: seq<ToolCall>, call: ToolCall, seen: set<string>)
    ensures MissingOutputs([], seen) == []
    ensures var before, after := MissingOutputs(calls, seen), MissingOutputs(calls + [call], seen);
      if call.id in seen then after == before
      else |after| == |before| + 1 && after[..|before|] == before && IsPlaceholder(after[|before|], call.id)
  {
    if |calls| == 0 {
      assert calls + [call] == [call] && [call][1..] == [];
    } else {
      assert (calls + [call])[0] == calls[0] && (calls + [call])[1..] == calls[1..] + [call];
      MissingOutputsGrow(calls[1..], call, seen);
    }
  }

  /** How many tool messages the list starts with. */
  function RunLen(ms: seq<Message>): (n: nat)
    ensures n <= |ms| && IsToolRun(ms, 0, n)
    ensures n < |ms| ==> !ms[n].role.Tool?
  {
    if ms == [] || !ms[0].role.Tool? then 0 else 1 + RunLen(ms[1..])
  }

  predicate MakesCalls(m: Message) {
    m.role.Assistant? && |m.toolCalls| > 0
  }

  function Repair(ms: seq<Message>): seq<Message> {
    if ms == [] then []
    else if MakesCalls(ms[0]) then
      var n := RunLen(ms[1..]);
      var run := ms[1..n + 1];
      [ms[0]] + run + MissingOutputs(ms[0].toolCalls, SeenIds(run)) + Repair(ms[n + 1..])
    else [ms[0]] + Repair(ms[1..])
  }

  lemma RunLenIs(ms: seq<Message>, n: nat)
    requires n <= |ms| && IsToolRun(ms, 0, n) && (n < |ms| ==> !ms[n].role.Tool?)
    ensures RunLen(ms) == n
  {
    var r := RunLen(ms);
  }

  lemma {:induction false} SeenIdsSnoc(run: seq<Message>, m: Message)
    requires IsToolRun(run, 0, |run|) && m.role.Tool?
    ensures SeenIds(run + [m]) == SeenIds(run) + (if m.toolCallId.Some? then {m.toolCallId.value} else {})
  {
    if |run| == 0 {
      assert run + [m] == [m] && [m][1..] == [];
    } else {
      assert (run + [m])[1..] == run[1..] + [m];
      SeenIdsSnoc(run[1..], m);
    }
  }

  method RepairOrphanToolOutputs(ms: seq<Message>) returns (repaired: seq<Message>)
    ensures repaired == Repair(ms)
  {
    hide Repair, SeenIds, RunLen, MissingOutputs, IsToolRun;
    repaired := [];
    var next := 0;
    while next < |ms|
      invariant next <= |ms| && repaired + Repair(ms[next..]) == Repair(ms)
    {
      ghost var start, done := next, repaired;
      var message := ms[next];
      repaired := repaired + [message];
      next := next + 1;
      if message.role.Assistant? && |message.toolCalls| > 0 {
        var seen: set<string> := {};
        SeenIdsEmpty(ms[start + 1..next]);
        NoRun(ms, next);
        while next < |ms| && ms[next].role.Tool?
          invariant start < next <= |ms| && IsToolRun(ms, start + 1, next)
          invariant repaired == done + [message] + ms[start + 1..next]
          invariant seen == SeenIds(ms[start + 1..next])
        {
          var toolMessage := ms[next];
          RunGrows(ms, start + 1, next);
          if toolMessage.toolCallId.Some? {
            seen := seen + {toolMessage.toolCallId.value};
          }
          repaired := repaired + [toolMessage];
          next := next + 1;
        }
        RepairBlock(ms, start, next);
        BlockAppended(done, message, ms[start + 1..next], MissingOutputs(message.toolCalls, seen), Repair(ms[next..]));
        repaired := repaired + MissingOutputs(message.toolCalls, seen);
      } else {
        RepairOther(ms[start..]);
        assert ms[start..][1..] == ms[next..];
        BlockAppended(done, message, [], [], Repair(ms[next..]));
      }
    }
    RepairNothing(ms[next..]);
  }

  lemma NoRun(ms: seq<Message>, at: nat)
    requires at <= |ms|
    ensures IsToolRun(ms, at, at)
  {
  }

  lemma RunGrows(ms: seq<Message>, from: nat, next: nat)
    requires from <= next < |ms| && IsToolRun(ms, from, next) && ms[next].role.Tool?
    ensures IsToolRun(ms, from, next + 1) && ms[from..next + 1] == ms[from..next] + [ms[next]]
    ensures SeenIds(ms[from..next + 1]) ==
      SeenIds(ms[from..next]) + if ms[next].toolCallId.Some? then {ms[next].toolCallId.value} else {}
  {
    hide SeenIds;
    assert ms[from..next + 1] == ms[from..next] + [ms[next]];
    SeenIdsSnoc(ms[from..next], ms[next]);
  }

  lemma BlockAppended(
      done: seq<Message>, m: Message, run: seq<Message>, missing: seq<Message>, rest: seq<Message>)
    ensures done + ([m] + run + missing + rest) == done + [m] + run + missing + rest
    ensures done + ([m] + rest) == done + [m] + rest
  {
  }

  lemma SeenIdsEmpty(run: seq<Message>)
    requires |run| == 0
    ensures SeenIds(run) == {}
  {
  }

  lemma RepairNothing(ms: seq<Message>)
    requires |ms| == 0
    ensures Repair(ms) == []
  {
  }

  lemma RepairOther(ms: seq<Message>)
    requires |ms| > 0 && !MakesCalls(ms[0])
    ensures Repair(ms) == [ms[0]] + Repair(ms[1..])
  {
  }

  /** `ms[start]` makes calls and its tool run is `ms[start + 1..next]`. */
  lemma RepairBlock(ms: seq<Message>, start: nat, next: nat)
    requires start < next <= |ms| && MakesCalls(ms[start]) && IsToolRun(ms, start + 1, next)
    requires next < |ms| ==> !ms[next].role.Tool?
    ensures var run := ms[start + 1..next];
      Repair(ms[start..]) == [ms[start]] + run + MissingOutputs(ms[start].toolCalls, SeenIds(run)) + Repair(ms[next..])
  {
    var rest := ms[start..];
    RunLenIs(rest[1..], next - start - 1);
    assert rest[1..next - start] == ms[start + 1..next] && rest[next - start..] == ms[next..];
  }

  // ---- what repair achieves

  predicate IsSubsequence(a: seq<Message>, b: seq<Message>) {
    |a| == 0 || (|b| > 0 && ((a[0] == b[0] && IsSubsequence(a[1..], b[1..])) || IsSubsequence(a, b[1..])))
  }

  lemma {:induction false} SubsequenceConcat(a: seq<Message>, b: seq<Message>, c: seq<Message>, d: seq<Message>)
    requires IsSubsequence(a, b) && IsSubsequence(c, d)
    ensures IsSubsequence(a + c, b + d)
    decreases |b|
  {
    if |b| == 0 {
      assert a + c == c && b + d == d;
    } else {
      assert (b + d)[1..] == b[1..] + d && (b + d)[0] == b[0];
      if |a| > 0 && a[0] == b[0] && IsSubsequence(a[1..], b[1..]) {
        SubsequenceConcat(a[1..], b[1..], c, d);
        assert (a + c)[1..] == a[1..] + c;
      } else {
        SubsequenceConcat(a, b[1..], c, d);
      }
    }
  }

  lemma {:induction false} SubsequenceSelf(a: seq<Message>)
    ensures IsSubsequence(a, a)
  {
    if |a| > 0 { SubsequenceSelf(a[1..]); }
  }

  lemma {:induction false} SubsequenceTransitive(a: seq<Message>, b: seq<Message>, c: seq<Message>)
    requires IsSubsequence(a, b) && IsSubsequence(b, c)
    ensures IsSubsequence(a, c)
    decreases |b| + |c|
  {
    if |a| > 0 && |c| > 0 {
      if b[0] == c[0] && IsSubsequence(b[1..], c[1..]) {
        if a[0] == b[0] && IsSubsequence(a[1..], b[1..]) {
          SubsequenceTransitive(a[1..], b[1..], c[1..]);
        } else {
          SubsequenceTransitive(a, b[1..], c[1..]);
        }
      } else {
        SubsequenceTransitive(a, b, c[1..]);
      }
    }
  }

  lemma SubsequenceAppend(a: seq<Message>, b: seq<Message>, more: seq<Message>)
    requires IsSubsequence(a, b)
    ensures IsSubsequence(a, b + more)
  {
    SubsequenceConcat(a, b, [], more);
    assert a + [] == a;
  }

  lemma RepairCons(ms: seq<Message>)
    requires |ms| > 0
    ensures MakesCalls(ms[0]) ==>
      var n := RunLen(ms[1..]);
      var run, rest := ms[1..n + 1], ms[n + 1..];
      ms == [ms[0]] + run + rest && IsToolRun(run, 0, |run|) && (|rest| > 0 ==> !rest[0].role.Tool?) &&
      Repair(ms) == [ms[0]] + run + MissingOutputs(ms[0].toolCalls, SeenIds(run)) + Repair(rest)
  {
    hide MissingOutputs, SeenIds, RunLen, IsToolRun;
    var n := RunLen(ms[1..]);
    assert n + 1 < |ms| ==> ms[n + 1] == ms[1..][n];
    assert ms[1..] == ms[1..n + 1] + ms[n + 1..] && ms == [ms[0]] + ms[1..];
    assert ms[1..n + 1] == ms[1..][..n];
    RunIsPrefix(ms[1..], n);
  }

  lemma RunIsPrefix(ms: seq<Message>, n: nat)
    requires n <= |ms| && IsToolRun(ms, 0, n)
    ensures IsToolRun(ms[..n], 0, n)
  {
  }

  /** Nothing is lost: the input is a subsequence of the output. */
  lemma {:induction false} RepairKeepsMessages(ms: seq<Message>)
    ensures IsSubsequence(ms, Repair(ms))
    decreases |ms|
  {
    hide IsSubsequence;
    if |ms| == 0 {
      SubsequenceSelf(ms);
    } else if MakesCalls(ms[0]) {
      RepairCons(ms);
      var n := RunLen(ms[1..]);
      var block, rest := [ms[0]] + ms[1..n + 1], ms[n + 1..];
      SubsequenceSelf(block);
      SubsequenceAppend(block, block, MissingOutputs(ms[0].toolCalls, SeenIds(ms[1..n + 1])));
      RepairKeepsMessages(rest);
      SubsequenceConcat(block, block + MissingOutputs(ms[0].toolCalls, SeenIds(ms[1..n + 1])), rest, Repair(rest));
    } else {
      RepairKeepsMessages(ms[1..]);
      SubsequenceSelf([ms[0]]);
      SubsequenceConcat([ms[0]], [ms[0]], ms[1..], Repair(ms[1..]));
      assert ms == [ms[0]] + ms[1..];
    }
  }

  lemma RepairStart(ms: seq<Message>)
    ensures |Repair(ms)| == 0 <==> |ms| == 0
    ensures |ms| > 0 ==> Repair(ms)[0] == ms[0]
  {
  }

  lemma {:induction false} ToolRunFacts(run: seq<Message>, head: Message)
    requires IsToolRun(run, 0, |run|)
    ensures Answered(run) && HeadAfter(Some(head), run) == Some(head)
  {
    if |run| > 0 {
      assert run[0].role.Tool?;
      ToolRunFacts(run[1..], head);
    }
  }

  lemma {:induction false} SeenIdsOfRuns(a: seq<Message>, b: seq<Message>)
    requires IsToolRun(a, 0, |a|)
    ensures SeenIds(a + b) == SeenIds(a) + SeenIds(b)
  {
    if |a| == 0 {
      assert a + b == b;
    } else {
      assert (a + b)[1..] == a[1..] + b && a[0].role.Tool?;
      SeenIdsOfRuns(a[1..], b);
    }
  }

  lemma {:induction false} MissingOutputsFacts(calls: seq<ToolCall>, seen: set<string>, head: Message)
    ensures forall c :: c in calls ==> c.id in seen + SeenIds(MissingOutputs(calls, seen))
    ensures (forall c :: c in calls ==> HoldsCall(head, c.id)) ==> NoStray(Some(head), MissingOutputs(calls, seen))
    ensures (forall c :: c in calls ==> c.id in seen) ==> MissingOutputs(calls, seen) == []
  {
    if |calls| > 0 {
      var tail := MissingOutputs(calls[1..], seen);
      MissingOutputsFacts(calls[1..], seen, head);
      if calls[0].id !in seen {
        var out := OrphanToolOutput(calls[0].id);
        assert MissingOutputs(calls, seen) == [out] + tail && ([out] + tail)[1..] == tail;
      } else {
        assert MissingOutputs(calls, seen) == tail;
      }
    }
  }

  /** `[head] + run + rest`, where `rest` starts no tool run, is judged block by block. */
  lemma BlockSplit(outer: Option<Message>, head: Message, run: seq<Message>, rest: seq<Message>)
    requires MakesCalls(head) && IsToolRun(run, 0, |run|) && (|rest| > 0 ==> !rest[0].role.Tool?)
    ensures Answered([head] + run + rest) <==>
      (forall id :: HoldsCall(head, id) ==> id in SeenIds(run)) && Answered(rest)
    ensures NoStray(outer, [head] + run + rest) <==> NoStray(Some(head), run) && NoStray(None, rest)
  {
    assert ([head] + run + rest)[1..] == run + rest;
    ToolRunFacts(run, head);
    AnsweredConcat(run, rest);
    SeenIdsConcat(run, rest);
    NoStrayConcat(Some(head), run, rest);
    NoStrayAnyHead(Some(head), rest);
  }

  lemma AnsweredCons(m: Message, rest: seq<Message>)
    requires !MakesCalls(m)
    ensures Answered([m] + rest) <==> Answered(rest)
  {
    assert ([m] + rest)[1..] == rest;
    assert forall id :: !HoldsCall(m, id);
  }

  lemma NoStrayCons(outer: Option<Message>, m: Message, rest: seq<Message>)
    ensures NoStray(outer, [m] + rest) <==>
      if m.role.Tool? then
        outer.Some? && m.toolCallId.Some? && HoldsCall(outer.value, m.toolCallId.value) && NoStray(outer, rest)
      else NoStray(Some(m), rest)
  {
    assert ([m] + rest)[1..] == rest;
  }

  /** The tool run behind `head` after repair: it answers every call and has no stray that was not there. */
  lemma RepairedRun(head: Message, run: seq<Message>) returns (full: seq<Message>)
    requires head.role.Assistant? && IsToolRun(run, 0, |run|)
    ensures full == run + MissingOutputs(head.toolCalls, SeenIds(run)) && IsToolRun(full, 0, |full|)
    ensures forall id :: HoldsCall(head, id) ==> id in SeenIds(full)
    ensures NoStray(Some(head), full) <==> NoStray(Some(head), run)
  {
    var missing := MissingOutputs(head.toolCalls, SeenIds(run));
    full := run + missing;
    MissingOutputsFacts(head.toolCalls, SeenIds(run), head);
    SeenIdsOfRuns(run, missing);
    NoStrayConcat(Some(head), run, missing);
    ToolRunFacts(run, head);
  }

  /** After repair every call is answered in the run right after it. */
  lemma {:induction false} RepairAnswers(ms: seq<Message>)
    ensures Answered(Repair(ms))
    decreases |ms|
  {
    hide Answered, MissingOutputs, SeenIds, HoldsCall, Repair;
    if |ms| == 0 {
      RepairNothing(ms);
      AnsweredNothing();
    } else if MakesCalls(ms[0]) {
      RepairCons(ms);
      var head, run, rest := ms[0], ms[1..RunLen(ms[1..]) + 1], ms[RunLen(ms[1..]) + 1..];
      var full := RepairedRun(head, run);
      RepairAnswers(rest);
      RepairStart(rest);
      BlockSplit(None, head, full, Repair(rest));
      assert Repair(ms) == [head] + full + Repair(rest);
    } else {
      RepairOther(ms);
      RepairAnswers(ms[1..]);
      AnsweredCons(ms[0], Repair(ms[1..]));
    }
  }

  lemma AnsweredNothing()
    ensures Answered([])
  {
  }

  /** Repair neither adds nor removes stray tool messages. */
  lemma {:induction false} RepairStrays(outer: Option<Message>, ms: seq<Message>)
    ensures NoStray(outer, Repair(ms)) <==> NoStray(outer, ms)
    decreases |ms|
  {
    hide NoStray, Answered, MissingOutputs, SeenIds, HoldsCall, Repair, RunLen;
    if |ms| == 0 { RepairNothing(ms); }
    if |ms| > 0 && MakesCalls(ms[0]) {
      RepairCons(ms);
      var head, run, rest := ms[0], ms[1..RunLen(ms[1..]) + 1], ms[RunLen(ms[1..]) + 1..];
      var full := RepairedRun(head, run);
      RepairStrays(None, rest);
      RepairStart(rest);
      BlockSplit(outer, head, full, Repair(rest));
      BlockSplit(outer, head, run, rest);
      assert Repair(ms) == [head] + full + Repair(rest);
    } else if |ms| > 0 {
      RepairOther(ms);
      RepairStrays(if ms[0].role.Tool? then outer else Some(ms[0]), ms[1..]);
      NoStrayCons(outer, ms[0], Repair(ms[1..]));
      NoStrayCons(outer, ms[0], ms[1..]);
      assert ms == [ms[0]] + ms[1..];
    }
  }

  lemma {:induction false} RepairIdentity(ms: seq<Message>)
    requires Answered(ms)
    ensures Repair(ms) == ms
    decreases |ms|
  {
    hide Answered, MissingOutputs, SeenIds;
    if |ms| > 0 && MakesCalls(ms[0]) {
      RepairCons(ms);
      var head, run, rest := ms[0], ms[1..RunLen(ms[1..]) + 1], ms[RunLen(ms[1..]) + 1..];
      BlockSplit(None, head, run, rest);
      assert forall c :: c in head.toolCalls ==> HoldsCall(head, c.id);
      MissingOutputsFacts(head.toolCalls, SeenIds(run), head);
      RepairIdentity(rest);
    } else if |ms| > 0 {
      assert ms == [ms[0]] + ms[1..];
      AnsweredCons(ms[0], ms[1..]);
      RepairIdentity(ms[1..]);
    }
  }

  /** Repair is the identity exactly on the lists whose calls are all answered. */
  lemma RepairIdentityIff(ms: seq<Message>)
    ensures Repair(ms) == ms <==> CallsAnswered(ms)
    ensures CallsAnswered(Repair(ms))
  {
    AnsweredIff(ms);
    AnsweredIff(Repair(ms));
    RepairAnswers(ms);
    if CallsAnswered(ms) { RepairIdentity(ms); }
  }

  lemma RepairIdempotent(ms: seq<Message>)
    ensures Repair(Repair(ms)) == Repair(ms)
  {
    RepairAnswers(ms);
    RepairIdentity(Repair(ms));
  }

  /** Repair does not remove stray answers, so the restored list is tool-complete exactly when the
      snapshot had none. */
  lemma RepairCompleteIff(ms: seq<Message>)
    ensures ToolComplete(Repair(ms)) <==> AnswersHaveCalls(ms)
  {
    ToolCompleteIff(Repair(ms));
    RepairAnswers(ms);
    RepairStrays(None, ms);
    NoStrayPrefix(ms, |ms|);
    assert ms[..|ms|] == ms;
  }
}
