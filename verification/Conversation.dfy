/** Messages of one conversation (`src/llm/mod.rs`) and tool-completeness: every tool call is
    answered in the run of tool messages right after it, and every tool message answers a call
    of the message its run follows. */
module Conversation {
  import opened Text

  /** The role string; `Other` stands for any string that is none of the four the program writes. */
  datatype Role = System | User | Assistant | Tool | Other(name: string)

  function RoleText(role: Role): string {
    match role
    case System => "system"
    case User => "user"
    case Assistant => "assistant"
    case Tool => "tool"
    case Other(name) => name
  }

  /** `arguments` is the printed JSON value; `invalidArguments` is the parse error, if any. */
  datatype ToolCall = ToolCall(id: string, name: string, arguments: string, invalidArguments: Option<string>)

  datatype Part = InputText(text: string) | InputImage(imageUrl: string, detail: Option<string>)

  datatype Content = Plain(text: string) | Parts(parts: seq<Part>)

  datatype Message = Message(
    role: Role,
    content: Content,
    reasoning: Option<string>,
    toolCalls: seq<ToolCall>,
    toolCallId: Option<string>)

  function TextMessage(role: Role, text: string): Message {
    Message(role, Plain(text), None, [], None)
  }

  /** `MessageContent::as_text_lossy`: the text parts joined by newlines, images dropped. */
  function AsTextLossy(content: Content): string {
    match content
    case Plain(text) => text
    case Parts(parts) => Join(TextParts(parts), "\n")
  }

  function TextParts(parts: seq<Part>): seq<string> {
    if parts == [] then []
    else (if parts[0].InputText? then [parts[0].text] else []) + TextParts(parts[1..])
  }

  /** Every text part is read, in order, and nothing else. */
  lemma {:induction false} TextPartsConcat(a: seq<Part>, b: seq<Part>)
    ensures TextParts(a + b) == TextParts(a) + TextParts(b)
    ensures |a| == 1 ==> TextParts(a) == if a[0].InputText? then [a[0].text] else []
  {
    if |a| == 0 {
      assert a + b == b;
    } else {
      assert (a + b)[0] == a[0] && (a + b)[1..] == a[1..] + b;
      TextPartsConcat(a[1..], b);
    }
  }

  /** Images leave no trace in the text of a message. */
  lemma ImagesAreDropped(before: seq<Part>, image: Part, after: seq<Part>)
    requires image.InputImage?
    ensures AsTextLossy(Parts(before + [image] + after)) == AsTextLossy(Parts(before + after))
  {
    TextPartsConcat(before, [image]);
    TextPartsConcat(before + [image], after);
    TextPartsConcat(before, after);
    TextPartsConcat([image], []);
    assert TextParts(before) + [] == TextParts(before);
  }

  /** Two texts around an image are read with a newline between them. */
  lemma TwoTexts(a: string, image: Part, b: string)
    requires image.InputImage?
    ensures AsTextLossy(Parts([InputText(a), image, InputText(b)])) == a + "\n" + b
  {
    var one, two, three := [InputText(a)], [image], [InputText(b)];
    assert [InputText(a), image, InputText(b)] == one + two + three;
    TextPartsConcat(one, two);
    TextPartsConcat(one + two, three);
    TextPartsConcat(two, []);
    TextPartsConcat(three, []);
    assert TextParts(one + two + three) == [a, b];
    assert [a, b][1..] == [b] && Join([b], "\n") == b;
  }

  // ---------------------------------------------------------------- tool-completeness

  predicate HasCall(m: Message, id: string) {
    exists c :: c in m.toolCalls && c.id == id
  }

  /** `m` is an assistant message that made the call `id`. */
  predicate HoldsCall(m: Message, id: string) {
    m.role.Assistant? && HasCall(m, id)
  }

  /** All messages in `ms[lo..hi]` are tool messages. */
  predicate IsToolRun(ms: seq<Message>, lo: int, hi: int) {
    0 <= lo && hi <= |ms| && forall k :: lo <= k < hi ==> ms[k].role.Tool?
  }

  /** Call `id` of the message at `i` is answered inside the tool run that starts at `i + 1`. */
  ghost predicate AnsweredAt(ms: seq<Message>, i: int, id: string) {
    exists k {:trigger ms[k]} :: i < k < |ms| && IsToolRun(ms, i + 1, k + 1) && ms[k].toolCallId == Some(id)
  }

  /** The tool message at `k` answers a call of the message `h` its run follows. */
  ghost predicate AnswersHead(ms: seq<Message>, k: int) {
    exists h {:trigger ms[h]} :: 0 <= h < k < |ms| && IsToolRun(ms, h + 1, k + 1) && !ms[h].role.Tool? &&
      ms[k].toolCallId.Some? && HoldsCall(ms[h], ms[k].toolCallId.value)
  }

  ghost predicate CallsAnswered(ms: seq<Message>) {
    forall i, id :: 0 <= i < |ms| && HoldsCall(ms[i], id) ==> AnsweredAt(ms, i, id)
  }

  ghost predicate AnswersHaveCalls(ms: seq<Message>) {
    forall k :: 0 <= k < |ms| && ms[k].role.Tool? ==> AnswersHead(ms, k)
  }

  ghost predicate ToolComplete(ms: seq<Message>) {
    CallsAnswered(ms) && AnswersHaveCalls(ms)
  }

  // ---------------------------------------------------------------- the same, one message at a time

  /** Ids answered by the tool messages `ms` starts with. */
  function SeenIds(ms: seq<Message>): set<string> {
    if ms == [] || !ms[0].role.Tool? then {}
    else (if ms[0].toolCallId.Some? then {ms[0].toolCallId.value} else {}) + SeenIds(ms[1..])
  }

  ghost predicate Answered(ms: seq<Message>) {
    ms == [] || ((forall id :: HoldsCall(ms[0], id) ==> id in SeenIds(ms[1..])) && Answered(ms[1..]))
  }

  /** Reading left to right with `head` the latest non-tool message, no tool message is stray. */
  ghost predicate NoStray(head: Option<Message>, ms: seq<Message>)
    decreases ms
  {
    if ms == [] then true
    else if ms[0].role.Tool? then
      head.Some? && ms[0].toolCallId.Some? && HoldsCall(head.value, ms[0].toolCallId.value) && NoStray(head, ms[1..])
    else NoStray(Some(ms[0]), ms[1..])
  }

  lemma {:induction false} SeenIdsAt(ms: seq<Message>, id: string)
    ensures id in SeenIds(ms) <==> exists k :: 0 <= k < |ms| && IsToolRun(ms, 0, k + 1) && ms[k].toolCallId == Some(id)
  {
    if ms != [] && ms[0].role.Tool? {
      var t := ms[1..];
      SeenIdsAt(t, id);
      if k :| 0 <= k < |t| && IsToolRun(t, 0, k + 1) && t[k].toolCallId == Some(id) {
        assert ms[k + 1] == t[k];
        assert forall j :: 1 <= j < k + 2 ==> ms[j] == t[j - 1];
        assert IsToolRun(ms, 0, k + 2);
      }
      if k :| 0 < k < |ms| && IsToolRun(ms, 0, k + 1) && ms[k].toolCallId == Some(id) {
        assert t[k - 1] == ms[k];
        assert IsToolRun(t, 0, k);
      }
    }
  }

  lemma {:induction false} AnsweredIff(ms: seq<Message>)
    ensures Answered(ms) <==> CallsAnswered(ms)
  {
    if ms != [] {
      var t := ms[1..];
      AnsweredIff(t);
      forall i, id | 0 < i < |ms|
        ensures AnsweredAt(ms, i, id) <==> AnsweredAt(t, i - 1, id)
      {
        AnsweredShift(ms, i, id);
      }
      forall id ensures id in SeenIds(t) <==> AnsweredAt(ms, 0, id) {
        SeenIdsAt(t, id);
        AnsweredShift0(ms, id);
      }
      if Answered(ms) {
        forall i, id | 0 <= i < |ms| && HoldsCall(ms[i], id) ensures AnsweredAt(ms, i, id) {
          if i > 0 { assert t[i - 1] == ms[i]; }
        }
      }
      if CallsAnswered(ms) {
        forall i, id | 0 <= i < |t| && HoldsCall(t[i], id) ensures AnsweredAt(t, i, id) {
          assert ms[i + 1] == t[i];
          assert AnsweredAt(ms, i + 1, id);
        }
      }
    }
  }

  lemma AnsweredShift(ms: seq<Message>, i: int, id: string)
    requires 0 < i < |ms|
    ensures AnsweredAt(ms, i, id) <==> AnsweredAt(ms[1..], i - 1, id)
  {
    var t := ms[1..];
    if AnsweredAt(ms, i, id) {
      var k :| i < k < |ms| && IsToolRun(ms, i + 1, k + 1) && ms[k].toolCallId == Some(id);
      assert t[k - 1] == ms[k];
    }
    if AnsweredAt(t, i - 1, id) {
      var k :| i - 1 < k < |t| && IsToolRun(t, i, k + 1) && t[k].toolCallId == Some(id);
      assert ms[k + 1] == t[k];
      assert forall j :: i + 1 <= j < k + 2 ==> ms[j] == t[j - 1];
    }
  }

  lemma AnsweredShift0(ms: seq<Message>, id: string)
    requires ms != []
    ensures AnsweredAt(ms, 0, id) <==>
      exists k :: 0 <= k < |ms[1..]| && IsToolRun(ms[1..], 0, k + 1) && ms[1..][k].toolCallId == Some(id)
  {
    var t := ms[1..];
    if AnsweredAt(ms, 0, id) {
      var k :| 0 < k < |ms| && IsToolRun(ms, 1, k + 1) && ms[k].toolCallId == Some(id);
      assert t[k - 1] == ms[k] && IsToolRun(t, 0, k);
    }
    if k :| 0 <= k < |t| && IsToolRun(t, 0, k + 1) && t[k].toolCallId == Some(id) {
      assert ms[k + 1] == t[k];
      assert forall j :: 1 <= j < k + 2 ==> ms[j] == t[j - 1];
    }
  }

  /** `NoStray` after a prefix: the head is the last non-tool message of the prefix. */
  function HeadAfter(head: Option<Message>, ms: seq<Message>): Option<Message>
    decreases ms
  {
    if ms == [] then head
    else HeadAfter(if ms[0].role.Tool? then head else Some(ms[0]), ms[1..])
  }

  lemma {:induction false} NoStrayConcat(head: Option<Message>, a: seq<Message>, b: seq<Message>)
    ensures NoStray(head, a + b) <==> NoStray(head, a) && NoStray(HeadAfter(head, a), b)
    decreases a
  {
    if a == [] {
      assert a + b == b;
    } else {
      assert (a + b)[1..] == a[1..] + b;
      NoStrayConcat(if a[0].role.Tool? then head else Some(a[0]), a[1..], b);
    }
  }

  lemma {:induction false} SeenIdsConcat(a: seq<Message>, b: seq<Message>)
    requires b == [] || !b[0].role.Tool?
    ensures SeenIds(a + b) == SeenIds(a)
  {
    if a == [] {
      assert a + b == b;
    } else {
      assert (a + b)[1..] == a[1..] + b;
      SeenIdsConcat(a[1..], b);
    }
  }

  lemma {:induction false} AnsweredConcat(a: seq<Message>, b: seq<Message>)
    requires b == [] || !b[0].role.Tool?
    ensures Answered(a + b) <==> Answered(a) && Answered(b)
  {
    if a == [] {
      assert a + b == b;
    } else {
      assert (a + b)[1..] == a[1..] + b;
      AnsweredConcat(a[1..], b);
      SeenIdsConcat(a[1..], b);
    }
  }

  lemma {:induction false} HeadAfterAt(head: Option<Message>, ms: seq<Message>)
    ensures IsToolRun(ms, 0, |ms|) ==> HeadAfter(head, ms) == head
    ensures !IsToolRun(ms, 0, |ms|) ==>
      exists h :: 0 <= h < |ms| && !ms[h].role.Tool? && IsToolRun(ms, h + 1, |ms|) && HeadAfter(head, ms) == Some(ms[h])
    decreases ms
  {
    if ms != [] {
      var t := ms[1..];
      var head' := if ms[0].role.Tool? then head else Some(ms[0]);
      HeadAfterAt(head', t);
      if IsToolRun(t, 0, |t|) {
        assert forall j :: 1 <= j < |ms| ==> ms[j] == t[j - 1];
        assert IsToolRun(ms, 1, |ms|);
      } else {
        var h :| 0 <= h < |t| && !t[h].role.Tool? && IsToolRun(t, h + 1, |t|) && HeadAfter(head', t) == Some(t[h]);
        assert ms[h + 1] == t[h];
        assert forall j :: 1 <= j < |ms| ==> ms[j] == t[j - 1];
      }
    }
  }

  /** The tool message that follows `ms[..k]` is not stray exactly when it answers its run head. */
  lemma AnswersHeadStep(ms: seq<Message>, k: nat)
    requires k < |ms| && ms[k].role.Tool?
    ensures AnswersHead(ms, k) <==>
      var head := HeadAfter(None, ms[..k]);
      head.Some? && ms[k].toolCallId.Some? && HoldsCall(head.value, ms[k].toolCallId.value)
  {
    var p := ms[..k];
    HeadAfterAt(None, p);
    if IsToolRun(p, 0, k) {
      assert forall j :: 0 <= j < k ==> ms[j] == p[j];
    } else {
      var g :| 0 <= g < k && !p[g].role.Tool? && IsToolRun(p, g + 1, k) && HeadAfter(None, p) == Some(p[g]);
      assert ms[g] == p[g];
      assert forall j :: g < j < k ==> ms[j] == p[j];
      if AnswersHead(ms, k) {
        var h :| 0 <= h < k < |ms| && IsToolRun(ms, h + 1, k + 1) && !ms[h].role.Tool? &&
          ms[k].toolCallId.Some? && HoldsCall(ms[h], ms[k].toolCallId.value);
        assert h == g;
      }
      assert IsToolRun(ms, g + 1, k + 1);
    }
  }

  lemma {:induction false} NoStrayPrefix(ms: seq<Message>, n: nat)
    requires n <= |ms|
    ensures NoStray(None, ms[..n]) <==> forall k :: 0 <= k < n && ms[k].role.Tool? ==> AnswersHead(ms, k)
  {
    if n > 0 {
      NoStrayPrefix(ms, n - 1);
      assert ms[..n] == ms[..n - 1] + [ms[n - 1]];
      NoStrayConcat(None, ms[..n - 1], [ms[n - 1]]);
      if ms[n - 1].role.Tool? { AnswersHeadStep(ms, n - 1); }
    }
  }

  /** The index-based definition and the left-to-right reading agree on every list. */
  lemma ToolCompleteIff(ms: seq<Message>)
    ensures ToolComplete(ms) <==> Answered(ms) && NoStray(None, ms)
  {
    AnsweredIff(ms);
    NoStrayPrefix(ms, |ms|);
    assert ms[..|ms|] == ms;
  }

  // ---------------------------------------------------------------- gluing and cutting

  /** A list that does not start with a tool message is judged on its own, whatever precedes it. */
  lemma NoStrayAnyHead(head: Option<Message>, ms: seq<Message>)
    requires ms == [] || !ms[0].role.Tool?
    ensures NoStray(head, ms) <==> NoStray(None, ms)
  {
  }

  lemma ToolCompleteStart(ms: seq<Message>)
    requires ToolComplete(ms)
    ensures ms == [] || !ms[0].role.Tool?
  {
    ToolCompleteIff(ms);
  }

  /** Cutting where the right part does not start with a tool message, and gluing back. */
  lemma ToolCompleteConcat(a: seq<Message>, b: seq<Message>)
    requires b == [] || !b[0].role.Tool?
    ensures ToolComplete(a + b) <==> ToolComplete(a) && ToolComplete(b)
  {
    ToolCompleteIff(a + b);
    ToolCompleteIff(a);
    ToolCompleteIff(b);
    AnsweredConcat(a, b);
    NoStrayConcat(None, a, b);
    NoStrayAnyHead(HeadAfter(None, a), b);
  }

  /** A message that is no tool message and makes no call is complete by itself. */
  lemma ToolCompleteSingle(m: Message)
    requires !m.role.Tool? && (m.role.Assistant? ==> m.toolCalls == [])
    ensures ToolComplete([m])
  {
    ToolCompleteIff([m]);
    assert NoStray(Some(m), [m][1..]);
  }
}
