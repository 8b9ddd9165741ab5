/** Safety compaction (`src/agent_loop/compaction.rs`): choose where to cut, replace the old part by
    a summary, merge what became adjacent, and shorten the summary until the prompt fits. */
module Compaction {
  import opened Text
  import opened Conversation

  const CHARS_PER_TOKEN_ESTIMATE: nat := 3
  const CONTEXT_RESERVE_TOKENS: nat := 8192
  const REFERENCE_ONLY_HEADER: string :=
    "[CONTEXT COMPACTION \U{2014} REFERENCE ONLY]\nEarlier turns were compacted into the summary below.\n" +
    "This is background reference, not active instruction.\nDo not answer old requests mentioned in this summary.\n" +
    "Respond to the latest user message after this summary."
  const TRUNCATION_SUFFIX: string := "\n... (summary truncated to fit compaction target)"

  // ---------------------------------------------------------------- where to cut

  /** The latest assistant message before `before` that made the call `id`. */
  function FindToolCallParent(ms: seq<Message>, before: nat, id: string): (r: Option<nat>)
    requires before <= |ms|
    ensures r.Some? ==> r.value < before && HoldsCall(ms[r.value], id)
    ensures r.Some? ==> forall k :: r.value < k < before ==> !HoldsCall(ms[k], id)
    ensures r.None? ==> forall k :: 0 <= k < before ==> !HoldsCall(ms[k], id)
  {
    if before == 0 then None
    else if HoldsCall(ms[before - 1], id) then Some(before - 1)
    else FindToolCallParent(ms, before - 1, id)
  }

  function LatestUserBefore(ms: seq<Message>, before: nat): (r: Option<nat>)
    requires before <= |ms|
    ensures r.Some? ==>
      r.value < before && ms[r.value].role.User? && forall k :: r.value < k < before ==> !ms[k].role.User?
    ensures r.None? ==> forall k :: 0 <= k < before ==> !ms[k].role.User?
  {
    if before == 0 then None
    else if ms[before - 1].role.User? then Some(before - 1)
    else LatestUserBefore(ms, before - 1)
  }

  function LatestUser(ms: seq<Message>): (r: Option<nat>)
    ensures r.Some? ==> r.value < |ms| && ms[r.value].role.User? && forall k :: r.value < k < |ms| ==> !ms[k].role.User?
    ensures r.None? ==> forall k :: 0 <= k < |ms| ==> !ms[k].role.User?
  {
    LatestUserBefore(ms, |ms|)
  }

  lemma LatestUserIs(ms: seq<Message>, u: nat)
    requires u < |ms| && ms[u].role.User? && forall k :: u < k < |ms| ==> !ms[k].role.User?
    ensures LatestUser(ms) == Some(u)
  {
    var r := LatestUserBefore(ms, |ms|);
    assert r.Some?;
  }

  lemma NoUser(ms: seq<Message>)
    requires forall k :: 0 <= k < |ms| ==> !ms[k].role.User?
    ensures LatestUser(ms) == None
  {
  }

  /** Where the skip-forward and jump-back loop stops when it stands at `at`. */
  function SafeSplit(ms: seq<Message>, at: nat): nat
    requires at <= |ms|
    decreases |ms| - at
  {
    if at == |ms| || !ms[at].role.Tool? then at
    else if ms[at].toolCallId.None? then SafeSplit(ms, at + 1)
    else
      match FindToolCallParent(ms, at, ms[at].toolCallId.value)
      case None => SafeSplit(ms, at + 1)
      case Some(parent) => parent
  }

  method ToolSafeSplitAt(ms: seq<Message>, preferred: nat) returns (splitAt: nat)
    ensures splitAt <= |ms| && splitAt == SafeSplit(ms, Min(preferred, |ms|))
  {
    splitAt := Min(preferred, |ms|);
    while splitAt < |ms| && ms[splitAt].role.Tool?
      invariant splitAt <= |ms| && SafeSplit(ms, splitAt) == SafeSplit(ms, Min(preferred, |ms|))
      decreases if splitAt < |ms| && ms[splitAt].role.Tool? then |ms| - splitAt + 1 else 0
    {
      if ms[splitAt].toolCallId.None? {
        splitAt := splitAt + 1;
        continue;
      }
      var parent := FindToolCallParent(ms, splitAt, ms[splitAt].toolCallId.value);
      if parent.None? {
        splitAt := splitAt + 1;
        continue;
      }
      splitAt := parent.value;
    }
  }

  function Min(a: nat, b: nat): nat { if a <= b then a else b }

  function Max(a: int, b: int): int { if a >= b then a else b }

  function PreferredSplit(ms: seq<Message>, keepRecent: nat): nat {
    var desired := |ms| - Min(keepRecent, |ms|);
    match LatestUser(ms)
    case None => desired
    case Some(user) => Min(desired, user)
  }

  function SplitAt(ms: seq<Message>, keepRecent: nat): nat {
    SafeSplit(ms, PreferredSplit(ms, keepRecent))
  }

  /** On every history the cut is the end of the list or a message that is no tool message; it moves
      forward only over tool messages whose call is nowhere before them. */
  lemma {:induction false} SafeSplitBoundary(ms: seq<Message>, at: nat)
    requires at <= |ms|
    ensures SafeSplit(ms, at) <= |ms|
    ensures SafeSplit(ms, at) < |ms| ==> !ms[SafeSplit(ms, at)].role.Tool?
    ensures at <= SafeSplit(ms, at) ==> IsToolRun(ms, at, SafeSplit(ms, at))
    decreases |ms| - at
  {
    if at < |ms| && ms[at].role.Tool? {
      var parent := if ms[at].toolCallId.None? then None else FindToolCallParent(ms, at, ms[at].toolCallId.value);
      if parent.None? { SafeSplitBoundary(ms, at + 1); }
    }
  }

  /** The cut never passes the latest user message. */
  lemma SplitKeepsLatestUser(ms: seq<Message>, keepRecent: nat)
    ensures SplitAt(ms, keepRecent) <= |ms|
    ensures LatestUser(ms).Some? ==> SplitAt(ms, keepRecent) <= LatestUser(ms).value
  {
    var p := PreferredSplit(ms, keepRecent);
    SafeSplitBoundary(ms, p);
  }

  lemma ParentIs(ms: seq<Message>, h: nat, before: nat, id: string)
    requires h < before <= |ms| && HoldsCall(ms[h], id)
    requires forall k :: h < k < before ==> !HoldsCall(ms[k], id)
    ensures FindToolCallParent(ms, before, id) == Some(h)
  {
    var found := FindToolCallParent(ms, before, id);
    assert found.Some?;
  }

  /** In a tool-complete list the parent of an answer is the head of its run. */
  lemma RunHead(ms: seq<Message>, at: nat) returns (h: nat)
    requires ToolComplete(ms) && at < |ms| && ms[at].role.Tool?
    ensures h < at && !ms[h].role.Tool? && IsToolRun(ms, h + 1, at + 1)
    ensures ms[at].toolCallId.Some? && FindToolCallParent(ms, at, ms[at].toolCallId.value) == Some(h)
  {
    assert AnswersHead(ms, at);
    h :| 0 <= h < at && IsToolRun(ms, h + 1, at + 1) && !ms[h].role.Tool? &&
      ms[at].toolCallId.Some? && HoldsCall(ms[h], ms[at].toolCallId.value);
    ParentIs(ms, h, at, ms[at].toolCallId.value);
  }

  /** On a tool-complete history the cut is the last block boundary at or before the preferred place:
      it never moves forward, and everything between the cut and that place belongs to its own block. */
  lemma SafeSplitExact(ms: seq<Message>, at: nat)
    requires ToolComplete(ms) && at <= |ms|
    ensures SafeSplit(ms, at) <= at
    ensures IsToolRun(ms, SafeSplit(ms, at) + 1, Min(at + 1, |ms|))
    ensures at == |ms| ==> SafeSplit(ms, at) == |ms|
    ensures ToolComplete(ms[..SafeSplit(ms, at)]) && ToolComplete(ms[SafeSplit(ms, at)..])
  {
    var s := SafeSplit(ms, at);
    if at < |ms| && ms[at].role.Tool? {
      var h := RunHead(ms, at);
      assert s == h;
    } else {
      assert s == at;
    }
    CutComplete(ms, s);
  }

  lemma CutComplete(ms: seq<Message>, s: nat)
    requires ToolComplete(ms) && s <= |ms| && (s < |ms| ==> !ms[s].role.Tool?)
    ensures ToolComplete(ms[..s]) && ToolComplete(ms[s..])
  {
    assert ms == ms[..s] + ms[s..];
    ToolCompleteConcat(ms[..s], ms[s..]);
  }

  /** At least the requested number of recent messages survives, and no call/answer block is cut. */
  lemma SplitSound(ms: seq<Message>, keepRecent: nat)
    requires ToolComplete(ms)
    ensures SplitAt(ms, keepRecent) <= |ms| - Min(keepRecent, |ms|)
    ensures ToolComplete(ms[..SplitAt(ms, keepRecent)]) && ToolComplete(ms[SplitAt(ms, keepRecent)..])
  {
    SafeSplitExact(ms, PreferredSplit(ms, keepRecent));
  }

  /** Nothing later could have been cut at: a place that keeps enough messages, keeps the latest user message
      and is no tool message lies at or before the cut. */
  lemma SplitIsLatest(ms: seq<Message>, keepRecent: nat, place: nat)
    requires ToolComplete(ms) && place <= |ms| - Min(keepRecent, |ms|) && (place < |ms| ==> !ms[place].role.Tool?)
    requires (forall k :: 0 <= k < |ms| ==> !ms[k].role.User?) || exists u :: place <= u < |ms| && ms[u].role.User?
    ensures place <= SplitAt(ms, keepRecent)
  {
    var at := PreferredSplit(ms, keepRecent);
    assert place <= at;
    SafeSplitExact(ms, at);
  }

  /** `select_compaction_slices`: the cut, or nothing when there is nothing to compact. */
  function SelectSplit(ms: seq<Message>, keepRecent: nat): Option<nat> {
    if Min(keepRecent, |ms|) == |ms| then None
    else
      var splitAt := SplitAt(ms, keepRecent);
      if splitAt != 0 then Some(splitAt) else None
  }

  // ---------------------------------------------------------------- merging neighbours

  predicate Mergeable(m: Message) {
    |m.toolCalls| == 0 && m.reasoning.None? && m.toolCallId.None? && m.content.Plain?
  }

  predicate CanMerge(left: Message, right: Message) {
    left.role == right.role && Mergeable(left) && Mergeable(right)
  }

  function JoinMessages(left: Message, right: Message): Message {
    left.(content := Plain(AsTextLossy(left.content) + "\n" + AsTextLossy(right.content)))
  }

  /** Two messages can merge exactly when they are nothing but texts of one role. */
  lemma CanMergeIff(left: Message, right: Message)
    ensures CanMerge(left, right) <==>
      exists role, a, b :: left == TextMessage(role, a) && right == TextMessage(role, b)
  {
    if CanMerge(left, right) {
      assert left == TextMessage(left.role, left.content.text) && right == TextMessage(left.role, right.content.text);
    }
  }

  /** The pure left fold: `acc` is the merged part so far, its last message may still grow. */
  function FoldMerge(acc: seq<Message>, rest: seq<Message>): (r: seq<Message>)
    requires acc != []
    decreases rest
  {
    if rest == [] then acc
    else
      var last := acc[|acc| - 1];
      FoldMerge(if CanMerge(last, rest[0]) then acc[..|acc| - 1] + [JoinMessages(last, rest[0])] else acc + [rest[0]],
                rest[1..])
  }

  lemma FoldMergeUnfold(acc: seq<Message>, rest: seq<Message>)
    requires acc != [] && rest != []
    ensures var last := acc[|acc| - 1];
      FoldMerge(acc, rest) ==
        FoldMerge(if CanMerge(last, rest[0]) then acc[..|acc| - 1] + [JoinMessages(last, rest[0])] else acc + [rest[0]],
                  rest[1..])
  {
  }

  lemma FoldMergeDone(acc: seq<Message>, rest: seq<Message>)
    requires acc != [] && rest == []
    ensures FoldMerge(acc, rest) == acc
  {
  }

  /** Index 0, the summary, is left alone. */
  function MergeSkippingFirst(ms: seq<Message>): seq<Message> {
    if |ms| <= 2 then ms else [ms[0]] + FoldMerge([ms[1]], ms[2..])
  }

  /** While merging: `arr[1..write + 1]` is merged, `arr[read..]` untouched, between them is garbage. */
  ghost predicate MergingFrom(was: seq<Message>, arr: seq<Message>, write: nat, read: nat) {
    |arr| == |was| && 1 <= write < read <= |arr| && arr[0] == was[0] && arr[read..] == was[read..] &&
    FoldMerge(arr[1..write + 1], was[read..]) == FoldMerge([was[1]], was[2..])
  }

  lemma MergingJoin(was: seq<Message>, arr: seq<Message>, write: nat, read: nat)
    requires MergingFrom(was, arr, write, read) && read < |arr| && CanMerge(arr[write], arr[read])
    ensures MergingFrom(was, arr[write := JoinMessages(arr[write], arr[read])], write, read + 1)
  {
    hide FoldMerge;
    var acc, rest := arr[1..write + 1], was[read..];
    var arr' := arr[write := JoinMessages(arr[write], arr[read])];
    FoldMergeUnfold(acc, rest);
    assert arr[read] == arr[read..][0] == rest[0] && rest[1..] == was[read + 1..];
    assert arr'[1..write + 1] == acc[..|acc| - 1] + [JoinMessages(acc[|acc| - 1], rest[0])];
    assert arr'[read + 1..] == arr[read..][1..];
  }

  lemma MergingMove(was: seq<Message>, arr: seq<Message>, write: nat, read: nat)
    requires MergingFrom(was, arr, write, read) && read < |arr| && !CanMerge(arr[write], arr[read])
    ensures MergingFrom(was, arr[write + 1 := arr[read]][read := arr[write + 1]], write + 1, read + 1)
  {
    hide FoldMerge, CanMerge;
    var acc, rest := arr[1..write + 1], was[read..];
    var arr' := arr[write + 1 := arr[read]][read := arr[write + 1]];
    FoldMergeUnfold(acc, rest);
    assert arr[read] == arr[read..][0] == rest[0] && rest[1..] == was[read + 1..];
    assert arr'[1..write + 2] == acc + [rest[0]];
    assert arr'[read + 1..] == arr[read..][1..];
  }

  lemma MergingDone(was: seq<Message>, arr: seq<Message>, write: nat)
    requires MergingFrom(was, arr, write, |arr|)
    ensures arr[..write + 1] == MergeSkippingFirst(was)
  {
    FoldMergeDone(arr[1..write + 1], was[|arr|..]);
    assert arr[..write + 1] == [arr[0]] + arr[1..write + 1];
  }

  /** `merge_compacted_skipping_summary`: `len` is the length the vector is truncated to. */
  method MergeInPlace(a: array<Message>) returns (len: nat)
    modifies a
    ensures len <= a.Length && a[..len] == MergeSkippingFirst(old(a[..]))
  {
    if a.Length <= 2 { return a.Length; }
    hide FoldMerge, CanMerge, MergeSkippingFirst, JoinMessages;
    ghost var was := a[..];
    var write, read := 1, 2;
    assert MergingFrom(was, a[..], write, read) by { assert was[1..2] == [was[1]]; }
    while read < a.Length
      invariant 1 <= write < read <= a.Length && MergingFrom(was, a[..], write, read)
    {
      ghost var arr := a[..];
      if CanMerge(a[write], a[read]) {
        MergingJoin(was, arr, write, read);
        a[write] := JoinMessages(a[write], a[read]);
        assert a[..] == arr[write := JoinMessages(arr[write], arr[read])];
      } else {
        MergingMove(was, arr, write, read);
        write := write + 1;
        if write != read {
          a[write], a[read] := a[read], a[write];
        }
        assert a[..] == arr[write := arr[read]][read := arr[write]];
      }
      read := read + 1;
    }
    MergingDone(was, a[..], write);
    assert a[..write + 1] == a[..][..write + 1];
    return write + 1;
  }

  lemma {:induction false} FoldMergeFrame(pre: seq<Message>, cur: Message, rest: seq<Message>)
    ensures FoldMerge(pre + [cur], rest) == pre + FoldMerge([cur], rest)
    decreases rest
  {
    if rest != [] {
      var m := rest[0];
      if CanMerge(cur, m) {
        assert (pre + [cur])[..|pre|] == pre;
        FoldMergeFrame(pre, JoinMessages(cur, m), rest[1..]);
        assert [cur][..0] + [JoinMessages(cur, m)] == [JoinMessages(cur, m)];
      } else {
        FoldMergeFrame(pre + [cur], m, rest[1..]);
        FoldMergeFrame([cur], m, rest[1..]);
        assert pre + [cur] + FoldMerge([m], rest[1..]) == pre + ([cur] + FoldMerge([m], rest[1..]));
      }
    }
  }

  /** One step of the fold, seen from the left. */
  lemma FoldMergeStep(cur: Message, m: Message, rest: seq<Message>)
    ensures FoldMerge([cur], [m] + rest) ==
      if CanMerge(cur, m) then FoldMerge([JoinMessages(cur, m)], rest) else [cur] + FoldMerge([m], rest)
  {
    assert ([m] + rest)[1..] == rest;
    assert [cur][..0] + [JoinMessages(cur, m)] == [JoinMessages(cur, m)];
    FoldMergeFrame([cur], m, rest);
  }

  // The fold against its reference: maximal runs of mergeable neighbours, each joined by newlines.

  type Run = g: seq<Message> | g != [] witness [TextMessage(User, "")]

  function Runs(ms: seq<Message>): (r: seq<Run>)
    ensures ms == [] ==> r == []
    ensures ms != [] ==> r != [] && r[0][0] == ms[0]
  {
    if ms == [] then []
    else
      var tail := Runs(ms[1..]);
      if tail != [] && CanMerge(ms[0], tail[0][0]) then
        var first: Run := [ms[0]] + tail[0];
        [first] + tail[1..]
      else
        var first: Run := [ms[0]];
        [first] + tail
  }

  function Flatten(groups: seq<Run>): seq<Message> {
    if groups == [] then [] else groups[0] + Flatten(groups[1..])
  }

  function Texts(ms: seq<Message>): seq<string> {
    if ms == [] then [] else [AsTextLossy(ms[0].content)] + Texts(ms[1..])
  }

  function JoinRun(run: Run): Message {
    if |run| == 1 then run[0] else run[0].(content := Plain(Join(Texts(run), "\n")))
  }

  function JoinRuns(groups: seq<Run>): seq<Message> {
    if groups == [] then [] else [JoinRun(groups[0])] + JoinRuns(groups[1..])
  }

  /** All neighbours inside the run can merge. */
  predicate IsMergeableRun(run: seq<Message>) {
    forall j :: 0 <= j < |run| - 1 ==> CanMerge(run[j], run[j + 1])
  }

  /** Every group is a mergeable run, and no two neighbouring groups could have been one. */
  predicate AreMaximalRuns(groups: seq<Run>) {
    groups == [] || (
      IsMergeableRun(groups[0]) && AreMaximalRuns(groups[1..]) &&
      (|groups| > 1 ==> !CanMerge(groups[0][|groups[0]| - 1], groups[1][0])))
  }

  lemma MergeableRunCons(m: Message, run: Run)
    requires IsMergeableRun(run) && CanMerge(m, run[0])
    ensures IsMergeableRun([m] + run)
  {
    assert forall j :: 1 <= j < |[m] + run| ==> ([m] + run)[j] == run[j - 1];
  }

  lemma GroupsStep(groups: seq<Run>)
    requires |groups| > 0
    ensures Flatten(groups) == groups[0] + Flatten(groups[1..])
    ensures JoinRuns(groups) == [JoinRun(groups[0])] + JoinRuns(groups[1..])
    ensures AreMaximalRuns(groups) <==>
      IsMergeableRun(groups[0]) && AreMaximalRuns(groups[1..]) &&
      (|groups| > 1 ==> !CanMerge(groups[0][|groups[0]| - 1], groups[1][0]))
  {
    hide CanMerge, IsMergeableRun, JoinRun;
  }

  lemma NoGroups()
    ensures Runs([]) == [] && Flatten([]) == [] && AreMaximalRuns([]) && JoinRuns([]) == []
  {
  }

  /** `Runs` cuts the list into its maximal mergeable runs and loses nothing. */
  lemma {:induction false} RunsPartition(ms: seq<Message>)
    ensures Flatten(Runs(ms)) == ms
    ensures AreMaximalRuns(Runs(ms))
  {
    hide CanMerge, IsMergeableRun, Runs, Flatten, AreMaximalRuns, JoinRuns, JoinRun;
    NoGroups();
    if |ms| > 0 {
      var cur, rest := ms[0], ms[1..];
      assert ms == [cur] + rest;
      SingletonRun(cur);
      RunsPartition(rest);
      var tail, all := Runs(rest), Runs(ms);
      GroupsStep(all);
      if |rest| == 0 {
        SingleRun(cur);
      } else {
        RunsCons(cur, rest);
        GroupsStep(tail);
        if CanMerge(cur, rest[0]) {
          MergeableRunCons(cur, tail[0]);
          assert |all| > 1 ==> all[1] == all[1..][0] == tail[1..][0] == tail[1];
        } else {
          assert all[1] == all[1..][0] == tail[0];
        }
      }
    }
  }

  lemma SingletonRun(m: Message)
    ensures IsMergeableRun([m])
  {
  }

  lemma JoinHead(cur: Message, m: Message, more: seq<Message>)
    requires CanMerge(cur, m)
    ensures JoinRun([JoinMessages(cur, m)] + more) == JoinRun([cur, m] + more)
  {
    var j := JoinMessages(cur, m);
    var left, right := [j] + more, [cur, m] + more;
    var a, b := AsTextLossy(cur.content), AsTextLossy(m.content);
    assert left[1..] == more && right[1..] == [m] + more && ([m] + more)[1..] == more;
    assert Texts(right) == [a] + ([b] + Texts(more));
    assert Texts(left) == [a + "\n" + b] + Texts(more);
    assert Texts(right)[1..] == [b] + Texts(more);
    assert Texts(left)[1..] == Texts(more) == ([b] + Texts(more))[1..];
    if more != [] {
      var t := Join(Texts(more), "\n");
      assert Join(Texts(left), "\n") == a + "\n" + b + "\n" + t;
      assert Join(Texts(right), "\n") == a + "\n" + (b + "\n" + t);
      assert a + "\n" + b + "\n" + t == a + "\n" + (b + "\n" + t);
    } else {
      assert Join(Texts(right), "\n") == a + "\n" + b;
    }
  }

  /** Swapping the first message for an equally mergeable one changes the first run only at its head. */
  lemma RunsSwapHead(a: Message, b: Message, rest: seq<Message>)
    requires a.role == b.role && Mergeable(a) && Mergeable(b)
    ensures Runs([a] + rest)[1..] == Runs([b] + rest)[1..]
    ensures Runs([a] + rest)[0] == [a] + Runs([b] + rest)[0][1..]
  {
    assert ([a] + rest)[1..] == rest && ([b] + rest)[1..] == rest;
  }

  lemma RunsCons(cur: Message, rest: seq<Message>)
    requires rest != []
    ensures CanMerge(cur, rest[0]) ==>
      Runs([cur] + rest)[0] == [cur] + Runs(rest)[0] && Runs([cur] + rest)[1..] == Runs(rest)[1..]
    ensures !CanMerge(cur, rest[0]) ==> Runs([cur] + rest)[0] == [cur] && Runs([cur] + rest)[1..] == Runs(rest)
  {
    assert ([cur] + rest)[1..] == rest;
  }

  lemma SingleRun(cur: Message)
    ensures Runs([cur] + []) == [[cur]] && JoinRuns(Runs([cur] + [])) == [cur] && JoinRun([cur]) == cur
  {
    assert [cur] + [] == [cur] && [cur][1..] == [];
    assert Runs([cur])[1..] == [];
  }

  lemma JoinedMergesAlike(left: Message, right: Message)
    requires CanMerge(left, right)
    ensures JoinMessages(left, right).role == right.role && Mergeable(JoinMessages(left, right)) && Mergeable(right)
  {
  }

  /** The fold joins exactly the maximal runs, each by newlines, and touches nothing else. */
  lemma {:induction false} FoldMergeIsJoinRuns(cur: Message, rest: seq<Message>)
    ensures FoldMerge([cur], rest) == JoinRuns(Runs([cur] + rest))
    decreases rest
  {
    hide FoldMerge, Runs, JoinRun, JoinRuns, CanMerge, Flatten, AreMaximalRuns, IsMergeableRun, JoinMessages;
    SingleRun(cur);
    if |rest| == 0 {
      FoldMergeDone([cur], []);
    } else {
      var m, rest' := rest[0], rest[1..];
      assert rest == [m] + rest';
      FoldMergeStep(cur, m, rest');
      RunsCons(cur, rest);
      GroupsStep(Runs([cur] + rest));
      if CanMerge(cur, m) {
        var j := JoinMessages(cur, m);
        FoldMergeIsJoinRuns(j, rest');
        JoinedMergesAlike(cur, m);
        RunsSwapHead(j, m, rest');
        GroupsStep(Runs([j] + rest'));
        var more := Runs(rest)[0][1..];
        JoinHead(cur, m, more);
        assert [cur] + Runs(rest)[0] == [cur, m] + more;
      } else {
        FoldMergeIsJoinRuns(m, rest');
      }
    }
  }

  predicate ToolRelated(m: Message) {
    |m.toolCalls| > 0 || (m.role.Tool? && m.toolCallId.Some?)
  }

  function ToolMessages(ms: seq<Message>): seq<Message> {
    if ms == [] then [] else (if ToolRelated(ms[0]) then [ms[0]] else []) + ToolMessages(ms[1..])
  }

  /** Merging keeps every tool-related message, unchanged and in order. */
  lemma {:induction false} FoldMergeKeepsToolMessages(cur: Message, rest: seq<Message>)
    ensures ToolMessages(FoldMerge([cur], rest)) == ToolMessages([cur] + rest)
    decreases rest
  {
    assert ([cur] + rest)[1..] == rest;
    if rest == [] {
      assert [cur] + rest == [cur];
    } else {
      var m, rest' := rest[0], rest[1..];
      assert rest == [m] + rest';
      FoldMergeStep(cur, m, rest');
      if CanMerge(cur, m) {
        var j := JoinMessages(cur, m);
        FoldMergeKeepsToolMessages(j, rest');
        assert ([j] + rest')[1..] == rest';
      } else {
        FoldMergeKeepsToolMessages(m, rest');
        assert ([cur] + FoldMerge([m], rest'))[1..] == FoldMerge([m], rest');
      }
    }
  }

  // ---------------------------------------------------------------- merging keeps tool-completeness

  lemma {:induction false} FoldMergeHead(cur: Message, rest: seq<Message>)
    ensures FoldMerge([cur], rest) != []
    ensures FoldMerge([cur], rest)[0].role == cur.role
    ensures ToolRelated(cur) ==> FoldMerge([cur], rest)[0] == cur
    decreases rest
  {
    if rest != [] {
      assert rest == [rest[0]] + rest[1..];
      FoldMergeStep(cur, rest[0], rest[1..]);
      if CanMerge(cur, rest[0]) { FoldMergeHead(JoinMessages(cur, rest[0]), rest[1..]); }
    }
  }

  lemma {:induction false} FoldMergeSeenIds(cur: Message, rest: seq<Message>)
    ensures SeenIds(FoldMerge([cur], rest)) == SeenIds([cur] + rest)
    decreases rest
  {
    assert ([cur] + rest)[1..] == rest;
    if rest == [] {
      assert [cur] + rest == [cur];
    } else {
      var m, rest' := rest[0], rest[1..];
      assert rest == [m] + rest';
      FoldMergeStep(cur, m, rest');
      if CanMerge(cur, m) {
        var j := JoinMessages(cur, m);
        FoldMergeSeenIds(j, rest');
        assert ([j] + rest')[1..] == rest';
      } else {
        FoldMergeSeenIds(m, rest');
        assert ([cur] + FoldMerge([m], rest'))[1..] == FoldMerge([m], rest');
      }
    }
  }

  lemma {:induction false} FoldMergeAnswered(cur: Message, rest: seq<Message>)
    requires Answered([cur] + rest)
    ensures Answered(FoldMerge([cur], rest))
    decreases rest
  {
    assert ([cur] + rest)[1..] == rest;
    if rest == [] {
      assert [cur] + rest == [cur];
    } else {
      var m, rest' := rest[0], rest[1..];
      assert rest == [m] + rest';
      FoldMergeStep(cur, m, rest');
      if CanMerge(cur, m) {
        var j := JoinMessages(cur, m);
        assert ([j] + rest')[1..] == rest';
        assert forall id :: !HoldsCall(j, id);
        FoldMergeAnswered(j, rest');
      } else {
        FoldMergeAnswered(m, rest');
        FoldMergeSeenIds(m, rest');
        assert ([cur] + FoldMerge([m], rest'))[1..] == FoldMerge([m], rest');
      }
    }
  }

  /** Whether a tool message is stray depends on the head only through the calls it holds. */
  lemma {:induction false} NoStrayHeadCalls(a: Message, b: Message, ms: seq<Message>)
    requires NoStray(Some(a), ms)
    requires forall id :: HoldsCall(a, id) ==> HoldsCall(b, id)
    ensures NoStray(Some(b), ms)
  {
    if ms != [] && ms[0].role.Tool? { NoStrayHeadCalls(a, b, ms[1..]); }
  }

  lemma {:induction false} FoldMergeNoStray(head: Option<Message>, cur: Message, rest: seq<Message>)
    requires NoStray(head, [cur] + rest)
    ensures NoStray(head, FoldMerge([cur], rest))
    decreases rest
  {
    assert ([cur] + rest)[1..] == rest;
    if rest == [] {
      assert [cur] + rest == [cur];
    } else {
      var m, rest' := rest[0], rest[1..];
      assert rest == [m] + rest';
      FoldMergeStep(cur, m, rest');
      if CanMerge(cur, m) {
        var j := JoinMessages(cur, m);
        assert ([j] + rest')[1..] == rest';
        assert !cur.role.Tool?;
        assert NoStray(Some(m), rest');
        NoStrayHeadCalls(m, j, rest');
        FoldMergeNoStray(head, j, rest');
      } else {
        assert ([cur] + FoldMerge([m], rest'))[1..] == FoldMerge([m], rest');
        FoldMergeNoStray(if cur.role.Tool? then head else Some(cur), m, rest');
      }
    }
  }

  lemma MergeKeepsToolComplete(ms: seq<Message>)
    requires ToolComplete(ms)
    ensures ToolComplete(MergeSkippingFirst(ms))
  {
    if |ms| > 2 {
      ToolCompleteIff(ms);
      var cur, rest := ms[1], ms[2..];
      assert ms[1..] == [cur] + rest;
      var merged := FoldMerge([cur], rest);
      FoldMergeAnswered(cur, rest);
      FoldMergeSeenIds(cur, rest);
      FoldMergeNoStray(Some(ms[0]), cur, rest);
      assert ([ms[0]] + merged)[1..] == merged;
      ToolCompleteIff([ms[0]] + merged);
    }
  }

  // ---------------------------------------------------------------- the compacted list

  function SummaryMessage(summary: string): Message {
    TextMessage(User, REFERENCE_ONLY_HEADER + "\n\n" + summary)
  }

  function PopTrailingAssistant(ms: seq<Message>): seq<Message> {
    if ms != [] && ms[|ms| - 1].role.Assistant? then ms[..|ms| - 1] else ms
  }

  function Compacted(summary: string, recent: seq<Message>): seq<Message> {
    PopTrailingAssistant(MergeSkippingFirst([SummaryMessage(summary)] + recent))
  }

  /** The summary comes first, as a user message under the reference header. */
  lemma CompactedStarts(summary: string, recent: seq<Message>)
    ensures |Compacted(summary, recent)| > 0
    ensures Compacted(summary, recent)[0] == TextMessage(User, REFERENCE_ONLY_HEADER + "\n\n" + summary)
  {
    hide FoldMerge, REFERENCE_ONLY_HEADER;
  }

  method BuildCompactedMessages(summary: string, recent: seq<Message>) returns (compacted: seq<Message>)
    ensures compacted == Compacted(summary, recent)
    ensures |compacted| > 0 && compacted[0] == TextMessage(User, REFERENCE_ONLY_HEADER + "\n\n" + summary)
  {
    CompactedStarts(summary, recent);
    var all := [SummaryMessage(summary)] + recent;
    var vec := new Message[|all|](i requires 0 <= i < |all| => all[i]);
    assert vec[..] == all;
    var len := MergeInPlace(vec);
    if len > 0 && vec[len - 1].role.Assistant? {
      len := len - 1;
    }
    compacted := vec[..len];
  }

  /** The pop removes no message that made tool calls, and what is left is still complete. */
  lemma PopKeepsToolComplete(ms: seq<Message>)
    requires ToolComplete(ms)
    ensures ToolComplete(PopTrailingAssistant(ms))
    ensures ms != [] && ms[|ms| - 1].role.Assistant? ==> ms[|ms| - 1].toolCalls == []
  {
    if ms != [] && ms[|ms| - 1].role.Assistant? {
      var last := ms[|ms| - 1];
      if last.toolCalls != [] {
        assert HoldsCall(last, last.toolCalls[0].id);
        assert false;
      }
      assert ms == ms[..|ms| - 1] + [last];
      ToolCompleteConcat(ms[..|ms| - 1], [last]);
    }
  }

  lemma CompactedToolComplete(summary: string, recent: seq<Message>)
    requires ToolComplete(recent)
    ensures ToolComplete(Compacted(summary, recent))
  {
    ToolCompleteSingle(SummaryMessage(summary));
    ToolCompleteStart(recent);
    ToolCompleteConcat([SummaryMessage(summary)], recent);
    MergeKeepsToolComplete([SummaryMessage(summary)] + recent);
    PopKeepsToolComplete(MergeSkippingFirst([SummaryMessage(summary)] + recent));
  }

  lemma {:induction false} ToolMessagesConcat(a: seq<Message>, b: seq<Message>)
    ensures ToolMessages(a + b) == ToolMessages(a) + ToolMessages(b)
  {
    hide ToolRelated;
    if |a| == 0 {
      assert a + b == b;
    } else {
      assert (a + b)[1..] == a[1..] + b;
      ToolMessagesConcat(a[1..], b);
    }
  }

  /** Every tool call and tool answer of the recent part survives, unchanged and in order. */
  lemma CompactedKeepsToolMessages(summary: string, recent: seq<Message>)
    requires ToolComplete(recent)
    ensures ToolMessages(Compacted(summary, recent)) == ToolMessages(recent)
  {
    hide FoldMerge;
    var all := [SummaryMessage(summary)] + recent;
    ToolCompleteSingle(SummaryMessage(summary));
    ToolCompleteStart(recent);
    ToolCompleteConcat([SummaryMessage(summary)], recent);
    MergeKeepsToolComplete(all);
    MergeKeepsToolMessages(all);
    PopKeepsToolMessages(MergeSkippingFirst(all));
    assert all[1..] == recent;
  }

  lemma MergeKeepsToolMessages(ms: seq<Message>)
    ensures ToolMessages(MergeSkippingFirst(ms)) == ToolMessages(ms)
  {
    hide FoldMerge, ToolRelated;
    if |ms| > 2 {
      var tail := [ms[1]] + ms[2..];
      assert ms == [ms[0]] + tail;
      FoldMergeKeepsToolMessages(ms[1], ms[2..]);
      ToolMessagesConcat([ms[0]], tail);
      ToolMessagesConcat([ms[0]], FoldMerge([ms[1]], ms[2..]));
    }
  }

  lemma PopKeepsToolMessages(ms: seq<Message>)
    requires ToolComplete(ms)
    ensures ToolMessages(PopTrailingAssistant(ms)) == ToolMessages(ms)
  {
    PopKeepsToolComplete(ms);
    if ms != [] && ms[|ms| - 1].role.Assistant? {
      var last := ms[|ms| - 1];
      assert ms == ms[..|ms| - 1] + [last];
      ToolMessagesConcat(ms[..|ms| - 1], [last]);
      assert ToolMessages([last]) == [] by { assert [last][1..] == []; }
    }
  }

  // ---------------------------------------------------------------- what stays verbatim

  predicate NoNeighboursMerge(ms: seq<Message>) {
    forall j :: 0 <= j < |ms| - 1 ==> !CanMerge(ms[j], ms[j + 1])
  }

  lemma NoNeighboursMergeCons(m: Message, rest: seq<Message>)
    requires |rest| > 0
    ensures NoNeighboursMerge([m] + rest) <==> !CanMerge(m, rest[0]) && NoNeighboursMerge(rest)
  {
    hide CanMerge;
    var all := [m] + rest;
    assert all[0] == m && forall j :: 0 <= j < |rest| ==> all[j + 1] == rest[j];
    if NoNeighboursMerge(all) {
      assert !CanMerge(all[0], all[1]);
      forall j | 0 <= j < |rest| - 1 ensures !CanMerge(rest[j], rest[j + 1]) {
        assert !CanMerge(all[j + 1], all[j + 2]);
      }
    }
  }

  lemma {:induction false} FoldMergeVerbatimIff(cur: Message, rest: seq<Message>)
    ensures |FoldMerge([cur], rest)| <= |rest| + 1
    ensures FoldMerge([cur], rest) == [cur] + rest <==> NoNeighboursMerge([cur] + rest)
    ensures |FoldMerge([cur], rest)| == |rest| + 1 <==> NoNeighboursMerge([cur] + rest)
    decreases rest
  {
    hide FoldMerge, CanMerge, NoNeighboursMerge;
    if |rest| == 0 {
      FoldMergeDone([cur], []);
      SingleHasNoNeighbours(cur);
      assert [cur] + rest == [cur];
    } else {
      var m, rest' := rest[0], rest[1..];
      assert rest == [m] + rest';
      FoldMergeStep(cur, m, rest');
      NoNeighboursMergeCons(cur, rest);
      FoldMergeVerbatimIff(if CanMerge(cur, m) then JoinMessages(cur, m) else m, rest');
    }
  }

  lemma SingleHasNoNeighbours(m: Message)
    ensures NoNeighboursMerge([m])
  {
  }

  /** The kept part stays verbatim behind the summary exactly when no two neighbours in it can be merged
      and it does not end with an assistant message. */
  lemma KeptVerbatimIff(summary: string, recent: seq<Message>)
    ensures Compacted(summary, recent) == [SummaryMessage(summary)] + recent <==>
      NoNeighboursMerge(recent) && (|recent| > 0 ==> !recent[|recent| - 1].role.Assistant?)
  {
    hide FoldMerge, NoNeighboursMerge, SummaryMessage;
    var head := SummaryMessage(summary);
    SummaryIsNoAnswer(summary);
    if |recent| == 0 {
      NoneHasNoNeighbours();
      assert [head] + recent == [head];
    } else {
      var cur, rest := recent[0], recent[1..];
      assert recent == [cur] + rest;
      FoldMergeVerbatimIff(cur, rest);
      FoldMergeDone([cur], []);
      var merged := FoldMerge([cur], rest);
      MergedForm(head, cur, rest);
      var all := [head] + merged;
      assert Compacted(summary, recent) == PopTrailingAssistant(all);
      if merged == recent { assert all[|all| - 1] == recent[|recent| - 1]; }
    }
  }

  lemma MergedForm(head: Message, cur: Message, rest: seq<Message>)
    ensures MergeSkippingFirst([head] + ([cur] + rest)) == [head] + FoldMerge([cur], rest)
  {
    var all := [head] + ([cur] + rest);
    assert all[1] == cur && all[2..] == rest;
    if |rest| == 0 {
      FoldMergeDone([cur], rest);
      assert all == [head] + [cur];
    }
  }

  lemma SummaryIsNoAnswer(summary: string)
    ensures !SummaryMessage(summary).role.Assistant?
  {
  }

  lemma NoneHasNoNeighbours()
    ensures NoNeighboursMerge([])
  {
  }

  /** Two user messages in a row become one. */
  lemma NeighboursAreMerged(summary: string, a: string, b: string)
    ensures Compacted(summary, [TextMessage(User, a), TextMessage(User, b)]) ==
      [SummaryMessage(summary), TextMessage(User, a + "\n" + b)]
  {
    hide SummaryMessage;
    var first, second := TextMessage(User, a), TextMessage(User, b);
    SummaryIsNoAnswer(summary);
    MergedForm(SummaryMessage(summary), first, [second]);
    assert [first] + [second] == [first, second] && [second] + [] == [second];
    FoldMergeStep(first, second, []);
    FoldMergeDone([JoinMessages(first, second)], []);
  }

  /** A kept part that ends with the latest answer loses that answer. */
  lemma TrailingAnswerIsDropped(summary: string, question: string, answer: string)
    ensures Compacted(summary, [TextMessage(User, question), TextMessage(Assistant, answer)]) ==
      [SummaryMessage(summary), TextMessage(User, question)]
  {
    hide SummaryMessage;
    var first, second := TextMessage(User, question), TextMessage(Assistant, answer);
    SummaryIsNoAnswer(summary);
    MergedForm(SummaryMessage(summary), first, [second]);
    assert [first] + [second] == [first, second] && [second] + [] == [second];
    FoldMergeStep(first, second, []);
    FoldMergeDone([second], []);
  }
}
