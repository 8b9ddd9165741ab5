/** Text forms of messages (`src/agent_loop/message_format.rs`): removal of thinking blocks, and the
    tool-call preview with its three readers (two of them in `src/agent_loop/session.rs`). */
module MessageFormat {
  import opened Text
  import opened Conversation

  // ---------------------------------------------------------------- thinking blocks

  /** Removes every `open` .. `close` block; an unclosed block runs to the end. */
  function StripTagBlocks(input: string, open: string, close: string): string
    requires |open| > 0 && |close| > 0
    decreases |input|
  {
    match FindFrom(input, open, 0)
    case None => input
    case Some(start) =>
      match FindFrom(input, close, start)
      case None => input[..start]
      case Some(end) => input[..start] + StripTagBlocks(input[end + |close|..], open, close)
  }

  lemma StripUnfolds(input: string, open: string, close: string)
    requires |open| > 0 && |close| > 0
    ensures var start := FindFrom(input, open, 0);
      if start.None? then StripTagBlocks(input, open, close) == input
      else
        var end := FindFrom(input, close, start.value);
        StripTagBlocks(input, open, close) == input[..start.value] +
          if end.None? then [] else StripTagBlocks(input[end.value + |close|..], open, close)
  {
    hide FindFrom, OccursAt;
  }

  method StripTagBlocksLoop(input: string, open: string, close: string) returns (result: string)
    requires |open| > 0 && |close| > 0
    ensures result == StripTagBlocks(input, open, close)
  {
    hide StripTagBlocks, FindFrom;
    result := [];
    var rest := input;
    var found := FindFrom(rest, open, 0);
    while found.Some?
      invariant found == FindFrom(rest, open, 0)
      invariant result + StripTagBlocks(rest, open, close) == StripTagBlocks(input, open, close)
      decreases |rest|
    {
      StripUnfolds(rest, open, close);
      var start := found.value;
      result := result + rest[..start];
      var end := FindFrom(rest, close, start);
      if end.None? {
        return result;
      }
      rest := rest[end.value + |close|..];
      found := FindFrom(rest, open, 0);
    }
    StripUnfolds(rest, open, close);
    result := result + rest;
  }

  /** Stripping changes exactly the texts that contain the opening tag. */
  lemma StripIdentityIff(input: string, open: string, close: string)
    requires |open| > 0 && |close| > 0
    ensures StripTagBlocks(input, open, close) == input <==> FindFrom(input, open, 0).None?
  {
    StripShortens(input, open, close);
  }

  lemma {:induction false} StripShortens(input: string, open: string, close: string)
    requires |open| > 0 && |close| > 0
    ensures |StripTagBlocks(input, open, close)| <= |input|
    ensures FindFrom(input, open, 0).Some? ==> |StripTagBlocks(input, open, close)| < |input|
    decreases |input|
  {
    hide FindFrom;
    var start := FindFrom(input, open, 0);
    if start.Some? {
      var end := FindFrom(input, close, start.value);
      if end.Some? { StripShortens(input[end.value + |close|..], open, close); }
    }
  }

  function StripThinking(text: string): string {
    var noThink := StripTagBlocks(text, "<think>", "</think>");
    var noThought := StripTagBlocks(noThink, "<thought>", "</thought>");
    var noThinking := StripTagBlocks(noThought, "<thinking>", "</thinking>");
    Trim(StripTagBlocks(noThinking, "<reasoning>", "</reasoning>"))
  }

  lemma TrimShortens(text: string)
    ensures |Trim(text)| <= |text|
    ensures Trim(text) == text <==> IsTrimmed(text)
  {
    hide TrimStart, TrimEnd;
    if IsTrimmed(text) { TrimOfTrimmed(text); }
  }

  predicate LacksTag(text: string, tag: string) { FindFrom(text, tag, 0).None? }

  lemma StripOnce(input: string, open: string, close: string)
    requires |open| > 0 && |close| > 0
    ensures |StripTagBlocks(input, open, close)| <= |input|
    ensures StripTagBlocks(input, open, close) == input <==> LacksTag(input, open)
    ensures |StripTagBlocks(input, open, close)| == |input| <==> LacksTag(input, open)
  {
    hide StripTagBlocks, FindFrom;
    StripShortens(input, open, close);
    StripIdentityIff(input, open, close);
  }

  /** All four passes and the final trim leave a text alone exactly when it opens no block and is trimmed. */
  lemma StripThinkingIdentityIff(text: string)
    ensures StripThinking(text) == text <==>
      LacksTag(text, "<think>") && LacksTag(text, "<thought>") && LacksTag(text, "<thinking>") &&
      LacksTag(text, "<reasoning>") && IsTrimmed(text)
  {
    hide StripTagBlocks, Trim, LacksTag, IsTrimmed;
    var one := StripTagBlocks(text, "<think>", "</think>");
    var two := StripTagBlocks(one, "<thought>", "</thought>");
    var three := StripTagBlocks(two, "<thinking>", "</thinking>");
    var four := StripTagBlocks(three, "<reasoning>", "</reasoning>");
    StripOnce(text, "<think>", "</think>");
    StripOnce(one, "<thought>", "</thought>");
    StripOnce(two, "<thinking>", "</thinking>");
    StripOnce(three, "<reasoning>", "</reasoning>");
    TrimShortens(four);
  }

  /** `strip_thinking(raw.trim())`: what the user would see of a model answer. */
  function VisibleText(raw: string): string {
    StripThinking(Trim(raw))
  }

  // ---------------------------------------------------------------- tool-call previews

  const MARKER: string := "[tool_call]"
  const TOOL_CALL_PREFIX: string := "[tool_call] "
  const SPACED_MARKER: string := " [tool_call] "

  function Names(calls: seq<ToolCall>): seq<string> {
    seq(|calls|, i requires 0 <= i < |calls| => calls[i].name)
  }

  /** `summarize_tool_calls_with_content`. */
  function PreviewOf(content: string, names: seq<string>): string {
    if IsBlank(content) then TOOL_CALL_PREFIX + Join(names, ", ")
    else Trim(content) + " " + TOOL_CALL_PREFIX + Join(names, ", ")
  }

  function SummarizeToolCalls(content: string, calls: seq<ToolCall>): string {
    PreviewOf(content, Names(calls))
  }

  function TrimmedNonEmpty(parts: seq<string>): seq<string> {
    if |parts| == 0 then []
    else (if IsBlank(parts[0]) then [] else [Trim(parts[0])]) + TrimmedNonEmpty(parts[1..])
  }

  /** `tool_call_preview_names`: split at the first marker, then at commas. */
  function PreviewNames(content: string): seq<string> {
    match FindFrom(content, MARKER, 0)
    case None => []
    case Some(i) => TrimmedNonEmpty(Split(content[i + |MARKER|..], ','))
  }

  /** `strip_tool_call_preview`: the text before the first marker. */
  function StripPreview(content: string): string {
    match FindFrom(content, MARKER, 0)
    case None => content
    case Some(i) => TrimEnd(content[..i])
  }

  /** `tool_preview_narration`: the text before the last spaced marker. */
  function PreviewNarration(content: string): string {
    match FindLast(content, SPACED_MARKER, |content|)
    case None => content
    case Some(i) => TrimEnd(content[..i])
  }

  predicate IsPlainName(name: string) {
    |name| > 0 && IsTrimmed(name) && ',' !in name
  }

  predicate ArePlainNames(names: seq<string>) {
    forall i :: 0 <= i < |names| ==> IsPlainName(names[i])
  }

  // ---- splitting what was joined

  lemma {:induction false} SplitPlain(s: string)
    requires ',' !in s
    ensures Split(s, ',') == [s]
  {
    if |s| > 0 {
      assert forall c :: c in s[1..] ==> c in s;
      SplitPlain(s[1..]);
      assert [s[0]] + s[1..] == s;
    }
  }

  lemma {:induction false} SplitAtComma(s: string, t: string)
    requires ',' !in s
    ensures Split(s + "," + t, ',') == [s] + Split(t, ',')
  {
    var all := s + "," + t;
    if |s| == 0 {
      assert all[1..] == t && all[0] == ',';
    } else {
      assert forall c :: c in s[1..] ==> c in s;
      SplitAtComma(s[1..], t);
      assert all[1..] == s[1..] + "," + t && all[0] == s[0] && s[0] != ',';
      assert [s[0]] + s[1..] == s;
    }
  }

  lemma TrimOfTrimmed(s: string)
    requires IsTrimmed(s)
    ensures Trim(s) == s && (|s| > 0 ==> !IsBlank(s))
  {
    if |s| > 0 { assert TrimStart(s) == s; }
  }

  lemma TrimSpaced(s: string)
    requires |s| > 0 && IsTrimmed(s)
    ensures Trim(" " + s) == s && !IsBlank(" " + s)
  {
    assert (" " + s)[1..] == s;
    TrimOfTrimmed(s);
    assert !IsWhitespace((" " + s)[1]);
  }

  /** Splitting the printed name list, which starts with the space after the marker, gives the names. */
  lemma {:induction false} NamesRoundTrip(names: seq<string>)
    requires ArePlainNames(names)
    ensures TrimmedNonEmpty(Split(" " + Join(names, ", "), ',')) == names
  {
    hide Split, Trim, IsTrimmed;
    if |names| == 0 {
      assert " " + Join(names, ", ") == " ";
      SplitPlain(" ");
      assert IsBlank(" ");
    } else {
      var name, rest := names[0], names[1..];
      assert IsPlainName(name);
      TrimSpaced(name);
      assert ',' !in " " + name;
      if |names| == 1 {
        SplitPlain(" " + name);
        assert names == [name] && [" " + name][1..] == [];
      } else {
        assert forall i :: 0 <= i < |rest| ==> rest[i] == names[i + 1];
        NamesRoundTrip(rest);
        PrintedNames(names);
        SplitAtComma(" " + name, " " + Join(rest, ", "));
        KeepFirst(" " + name, Split(" " + Join(rest, ", "), ','));
        assert names == [name] + rest;
      }
    }
  }

  lemma PrintedNames(names: seq<string>)
    requires |names| > 1
    ensures " " + Join(names, ", ") == " " + names[0] + "," + (" " + Join(names[1..], ", "))
  {
  }

  lemma KeepFirst(part: string, parts: seq<string>)
    requires !IsBlank(part)
    ensures TrimmedNonEmpty([part] + parts) == [Trim(part)] + TrimmedNonEmpty(parts)
  {
    assert ([part] + parts)[1..] == parts;
  }

  /** Whatever is parsed, the names are trimmed, not empty and free of commas. */
  lemma {:induction false} TrimmedNonEmptyArePlain(parts: seq<string>)
    requires forall i :: 0 <= i < |parts| ==> ',' !in parts[i]
    ensures ArePlainNames(TrimmedNonEmpty(parts))
  {
    if |parts| > 0 {
      assert forall i :: 0 <= i < |parts[1..]| ==> parts[1..][i] == parts[i + 1];
      TrimmedNonEmptyArePlain(parts[1..]);
    }
  }

  // ---- where the markers are

  lemma MarkerAt(s: string, i: nat)
    requires OccursAt(s, MARKER, i)
    ensures s[i] == '[' && forall k :: i < k < i + 11 ==> s[k] != '[' && s[k] != ' ' && s[k] != ','
  {
    assert s[i] == MARKER[0];
    assert forall k :: i < k < i + 11 ==> s[k] == MARKER[k - i];
  }

  /** No marker starts anywhere but at a bracket, and none covers a space or a comma. */
  lemma NoMarkerOver(s: string, j: nat, k: nat)
    requires j <= k < j + 11 && k < |s|
    requires s[k] == ' ' || s[k] == ',' || s[j] != '['
    ensures !OccursAt(s, MARKER, j)
  {
    if OccursAt(s, MARKER, j) { MarkerAt(s, j); }
  }

  lemma OccursInside(a: string, b: string, c: string, pat: string, j: nat)
    requires |a| <= j && j + |pat| <= |a| + |b|
    ensures OccursAt(a + b + c, pat, j) <==> OccursAt(b, pat, j - |a|)
  {
    assert (a + b + c)[j..j + |pat|] == b[j - |a|..j - |a| + |pat|];
  }

  /** The marker cannot straddle the border between a marker-free prefix and the space after it. */
  lemma FirstMarker(prefix: string, names: string)
    requires FindFrom(prefix, MARKER, 0).None?
    ensures FindFrom(prefix + " " + MARKER + names, MARKER, 0) == Some(|prefix| + 1)
  {
    hide FindFrom;
    var all := prefix + " " + MARKER + names;
    assert all[|prefix| + 1..|prefix| + 12] == MARKER;
    assert OccursAt(all, MARKER, |prefix| + 1);
    forall j | 0 <= j <= |prefix| ensures !OccursAt(all, MARKER, j) {
      if j + 11 <= |prefix| {
        OccursInside([], prefix, " " + MARKER + names, MARKER, j);
        assert [] + prefix + (" " + MARKER + names) == all;
      } else {
        NoMarkerOver(all, j, |prefix|);
      }
    }
  }

  lemma FirstMarkerBare(names: string)
    ensures FindFrom(MARKER + names, MARKER, 0) == Some(0)
  {
    assert (MARKER + names)[..11] == MARKER;
    assert OccursAt(MARKER + names, MARKER, 0);
  }

  /** What follows the marker in a printed preview. */
  function Printed(names: seq<string>): string {
    " " + Join(names, ", ")
  }

  /** The two printed forms. */
  lemma PreviewForm(content: string, names: seq<string>)
    ensures PreviewOf(content, names) ==
      if IsBlank(content) then MARKER + Printed(names) else Trim(content) + " " + MARKER + Printed(names)
  {
    hide Join, Trim, IsBlank;
    var joined := Join(names, ", ");
    assert TOOL_CALL_PREFIX + joined == MARKER + (" " + joined);
  }

  /** Reading a text whose first marker stands after `before`. */
  lemma ReadPreview(before: string, after: string)
    requires FindFrom(before + MARKER + after, MARKER, 0) == Some(|before|)
    ensures PreviewNames(before + MARKER + after) == TrimmedNonEmpty(Split(after, ','))
    ensures StripPreview(before + MARKER + after) == TrimEnd(before)
  {
    hide FindFrom, Split, TrimmedNonEmpty, TrimEnd;
    var p := before + MARKER + after;
    assert p[|before| + |MARKER|..] == after && p[..|before|] == before;
  }

  lemma TrimEndSpaced(s: string)
    requires IsTrimmed(s)
    ensures TrimEnd(s + " ") == s && TrimEnd(s) == s
  {
    assert (s + " ")[..|s|] == s && IsWhitespace(' ');
    assert TrimEnd(s) == s;
  }

  /** Parsing a printed preview gives the names back exactly when the narration holds no marker of its own
      and the names are trimmed, not empty and free of commas. */
  lemma NamesRoundTripIff(content: string, names: seq<string>)
    ensures PreviewNames(PreviewOf(content, names)) == names <==>
      FindFrom(Trim(content), MARKER, 0).None? && ArePlainNames(names)
  {
    hide FindFrom, Split, Join, PreviewNames, StripPreview, PreviewOf, Trim, TrimEnd, TrimmedNonEmpty, ArePlainNames,
      Printed;
    if FindFrom(Trim(content), MARKER, 0).None? {
      PrintedPreviewReads(content, names);
      TrimmedNonEmptyArePlain(Split(Printed(names), ','));
      if ArePlainNames(names) { PlainNamesRoundTrip(names); }
    } else {
      var x := MarkedPreviewReads(content, names);
      TrimmedNonEmptyArePlain(Split(x + " " + MARKER + Printed(names), ','));
      if ArePlainNames(names) { MarkedReadsMore(x, names); }
    }
  }

  lemma PlainNamesRoundTrip(names: seq<string>)
    requires ArePlainNames(names)
    ensures TrimmedNonEmpty(Split(Printed(names), ',')) == names
  {
    hide Split, Join, TrimmedNonEmpty, ArePlainNames;
    NamesRoundTrip(names);
  }

  lemma PrintedPreviewReads(content: string, names: seq<string>)
    requires FindFrom(Trim(content), MARKER, 0).None?
    ensures PreviewNames(PreviewOf(content, names)) == TrimmedNonEmpty(Split(Printed(names), ','))
    ensures StripPreview(PreviewOf(content, names)) == Trim(content)
  {
    hide FindFrom, Split, Join, PreviewNames, StripPreview, PreviewOf, Trim, TrimEnd;
    var narration, tail, p := Trim(content), Printed(names), PreviewOf(content, names);
    PreviewForm(content, names);
    if IsBlank(content) {
      FirstMarkerBare(tail);
      assert p == [] + MARKER + tail;
      ReadPreview([], tail);
    } else {
      FirstMarker(narration, tail);
      ReadPreview(narration + " ", tail);
      TrimEndSpaced(narration);
    }
  }

  /** A marker in the narration is found first: the parse starts inside the narration. */
  lemma MarkedPreviewReads(content: string, names: seq<string>) returns (x: string)
    requires FindFrom(Trim(content), MARKER, 0).Some?
    ensures PreviewNames(PreviewOf(content, names)) == TrimmedNonEmpty(Split(x + " " + MARKER + Printed(names), ','))
    ensures |StripPreview(PreviewOf(content, names))| < |Trim(content)|
    ensures !IsBlank(content)
  {
    hide FindFrom, Join, Split, TrimmedNonEmpty, PreviewOf, Trim, TrimEnd, Printed;
    var narration, p := Trim(content), PreviewOf(content, names);
    var found := FindFrom(narration, MARKER, 0);
    assert OccursAt(narration, MARKER, found.value);
    PreviewForm(content, names);
    var more := " " + MARKER + Printed(names);
    MarkerStays(narration, more, found.value);
    assert p == narration + more;
    var first := FindFrom(p, MARKER, 0);
    assert first.Some? && first.value + |MARKER| <= |narration|;
    assert TrimEnd(p[..first.value]) <= p[..first.value];
    x := narration[first.value + |MARKER|..];
    assert p[first.value + |MARKER|..] == x + " " + MARKER + Printed(names);
  }

  /** The first of several names became longer, or there are more of them. */
  predicate Overflows(read: seq<string>, names: seq<string>) {
    |read| > |names| || (|read| == |names| && |names| > 0 && |read[0]| > |names[0]|)
  }

  lemma FirstComma(s: string) returns (i: nat)
    requires ',' in s
    ensures i < |s| && s[i] == ',' && ',' !in s[..i]
  {
    i := 0;
    while s[i] != ','
      invariant i < |s| && forall k :: 0 <= k < i ==> s[k] != ','
      decreases |s| - i
    {
      if i + 1 == |s| { assert forall k :: 0 <= k < |s| ==> s[k] != ','; }
      i := i + 1;
    }
  }

  /** What is read behind a marker of the narration is never the list of names. */
  lemma {:induction false} MarkedReadsMore(x: string, names: seq<string>)
    requires ArePlainNames(names)
    ensures Overflows(TrimmedNonEmpty(Split(x + " " + MARKER + Printed(names), ',')), names)
    decreases |x|
  {
    hide Split, Trim, TrimmedNonEmpty, ArePlainNames, Printed, MARKER, IsBlank;
    var tail := " " + MARKER + Printed(names);
    assert x + " " + MARKER + Printed(names) == x + tail;
    if ',' in x {
      var i := FirstComma(x);
      var rest := x[i + 1..];
      MarkedReadsMore(rest, names);
      assert rest + " " + MARKER + Printed(names) == rest + tail;
      assert x + tail == x[..i] + "," + (rest + tail);
      SplitAtComma(x[..i], rest + tail);
      OneMore(x[..i], Split(rest + tail, ','));
    } else {
      MarkedFirst(x, names);
    }
  }

  lemma OneMore(part: string, parts: seq<string>)
    ensures TrimmedNonEmpty([part] + parts) == (if IsBlank(part) then [] else [Trim(part)]) + TrimmedNonEmpty(parts)
  {
    assert ([part] + parts)[1..] == parts;
  }

  lemma MarkedBare(x: string)
    requires ',' !in x
    ensures |TrimmedNonEmpty(Split(x + " " + MARKER + " ", ','))| > 0
  {
    hide Split, Trim, TrimmedNonEmpty;
    var all := x + " " + MARKER + " ";
    SplitPlain(all);
    assert !IsWhitespace(all[|x| + 1]);
    OneMore(all, []);
    assert [all] + [] == [all];
  }

  lemma MarkedFirst(x: string, names: seq<string>)
    requires ArePlainNames(names) && ',' !in x
    ensures Overflows(TrimmedNonEmpty(Split(x + " " + MARKER + Printed(names), ',')), names)
  {
    hide Split, Trim, TrimmedNonEmpty, IsTrimmed;
    var lead := x + " " + MARKER;
    assert ',' !in MARKER;
    if |names| == 0 {
      assert Printed(names) == " ";
      MarkedBare(x);
    } else {
      var name, rest := names[0], names[1..];
      assert IsPlainName(name);
      MarkedTrim(x, name);
      if |names| == 1 {
        assert Printed(names) == " " + name && lead + (" " + name) == lead + " " + name;
        SplitPlain(lead + " " + name);
        OneMore(lead + " " + name, []);
        assert [lead + " " + name] + [] == [lead + " " + name];
      } else {
        assert forall i :: 0 <= i < |rest| ==> rest[i] == names[i + 1];
        PrintedNames(names);
        assert lead + Printed(names) == lead + " " + name + "," + Printed(rest);
        SplitAtComma(lead + " " + name, Printed(rest));
        OneMore(lead + " " + name, Split(Printed(rest), ','));
        NamesRoundTrip(rest);
      }
    }
  }

  /** Trimming keeps everything from a character that is not whitespace to another. */
  lemma MarkedTrim(x: string, name: string)
    requires |name| > 0 && IsTrimmed(name)
    ensures !IsBlank(x + " " + MARKER + " " + name) && |Trim(x + " " + MARKER + " " + name)| > |name|
  {
    var all := x + " " + MARKER + " " + name;
    var k := |x| + 1;
    assert all[k] == '[' && all[|all| - 1] == name[|name| - 1];
    TrimStartKeeps(all, k);
    var started := TrimStart(all);
    assert started[|started| - 1] == all[|all| - 1];
  }

  lemma {:induction false} TrimStartKeeps(s: string, k: nat)
    requires k < |s| && !IsWhitespace(s[k])
    ensures |TrimStart(s)| >= |s| - k
  {
    hide TrimStart, IsBlank, IsWhitespace;
    if k > 0 && IsWhitespace(s[0]) {
      TrimStartStep(s);
      TrimStartKeeps(s[1..], k - 1);
    }
  }

  lemma TrimStartStep(s: string)
    requires |s| > 0 && IsWhitespace(s[0])
    ensures TrimStart(s) == TrimStart(s[1..])
  {
    hide IsBlank, IsWhitespace;
  }

  lemma TrimEndKeeps(s: string, k: nat)
    requires k < |s| && !IsWhitespace(s[k])
    ensures |TrimEnd(s)| > k
  {
    hide TrimEnd;
    var r := TrimEnd(s);
    forall i | |r| <= i < |s| ensures IsWhitespace(s[i]) {
      assert s[|r|..][i - |r|] == s[i];
    }
  }

  /** The narration comes back, trimmed, exactly when it holds no marker of its own. */
  lemma NarrationRoundTripIff(content: string, names: seq<string>)
    ensures StripPreview(PreviewOf(content, names)) == Trim(content) <==> FindFrom(Trim(content), MARKER, 0).None?
  {
    hide FindFrom, StripPreview, PreviewOf, Trim, TrimmedNonEmpty, Split, PreviewNames;
    if FindFrom(Trim(content), MARKER, 0).None? {
      PrintedPreviewReads(content, names);
    } else {
      var x := MarkedPreviewReads(content, names);
    }
  }

  lemma MarkerStays(s: string, more: string, i: nat)
    requires OccursAt(s, MARKER, i)
    ensures OccursAt(s + more, MARKER, i)
  {
    assert (s + more)[i..i + |MARKER|] == s[i..i + |MARKER|];
  }

  /** A comma in a tool name splits it. */
  lemma CommaSplitsName(content: string, a: string, b: string)
    requires FindFrom(Trim(content), MARKER, 0).None? && IsPlainName(a) && IsPlainName(b)
    ensures PreviewNames(PreviewOf(content, [a + "," + b])) == [a, b]
  {
    hide FindFrom, PreviewNames, PreviewOf, StripPreview, Split, Trim, TrimmedNonEmpty, IsTrimmed;
    PrintedPreviewReads(content, [a + "," + b]);
    assert Printed([a + "," + b]) == " " + a + "," + b;
    SplitAtComma(" " + a, b);
    SplitPlain(b);
    TrimSpaced(a);
    TrimOfTrimmed(b);
    KeepFirst(" " + a, [b]);
    OnePart(b);
  }

  lemma OnePart(part: string)
    requires !IsBlank(part)
    ensures TrimmedNonEmpty([part]) == [Trim(part)]
  {
    assert [part][1..] == [];
  }

  lemma SpacedStarts(s: string, j: int)
    ensures OccursAt(s, SPACED_MARKER, j) ==> s[j] == ' '
  {
    if OccursAt(s, SPACED_MARKER, j) { assert s[j..j + 13][0] == s[j]; }
  }

  /** Where spaced markers stand in a printed preview: before the names, and inside them. */
  lemma SpacedMarkersAt(narration: string, names: seq<string>, j: int)
    requires j >= |narration|
    ensures var p, inside := narration + " " + MARKER + Printed(names), j - |narration| - 12;
      (OccursAt(p, SPACED_MARKER, j) <==>
        j == |narration| || (inside >= 0 && OccursAt(Printed(names), SPACED_MARKER, inside))) &&
      (OccursAt(p, SPACED_MARKER, j) ==> j <= |p|)
  {
    hide Join;
    var p, joined, inside := narration + " " + MARKER + Printed(names), Join(names, ", "), j - |narration| - 12;
    if j == |narration| {
      assert p[j..j + 13] == SPACED_MARKER;
    } else if inside < 0 {
      assert p[j] == MARKER[j - |narration| - 1];
      SpacedStarts(p, j);
    } else if inside + 13 <= |Printed(names)| {
      OccursInside(narration + " " + MARKER, Printed(names), [], SPACED_MARKER, j);
      assert narration + " " + MARKER + Printed(names) + [] == p;
    }
  }

  /** The history projection reads the narration exactly when no name brings a spaced marker of its own. */
  lemma ProjectionReads(narration: string, names: seq<string>)
    requires IsTrimmed(narration)
    ensures var r := PreviewNarration(narration + " " + MARKER + Printed(names));
      |r| >= |narration| && (r == narration <==> LacksTag(Printed(names), SPACED_MARKER))
  {
    hide FindFrom, FindLast, OccursAt, Printed, TrimEnd, MARKER, SPACED_MARKER;
    var p := narration + " " + MARKER + Printed(names);
    SpacedMarkersAt(narration, names, |narration|);
    var last := FindLast(p, SPACED_MARKER, |p|);
    assert last.Some? && last.value >= |narration|;
    SpacedMarkersAt(narration, names, last.value);
    ReadsAtLeast(narration, names, last.value);
    var found := FindFrom(Printed(names), SPACED_MARKER, 0);
    if found.Some? {
      SpacedMarkersAt(narration, names, |narration| + 12 + found.value);
      ReadsMore(narration, names, last.value);
    } else {
      assert last.value == |narration|;
      assert p[..|narration|] == narration;
      TrimEndSpaced(narration);
    }
  }

  lemma ReadsAtLeast(narration: string, names: seq<string>, i: nat)
    requires var p := narration + " " + MARKER + Printed(names);
      IsTrimmed(narration) && |narration| <= i && OccursAt(p, SPACED_MARKER, i)
    ensures |TrimEnd((narration + " " + MARKER + Printed(names))[..i])| >= |narration|
  {
    hide Printed, TrimEnd;
    if |narration| > 0 { TrimEndKeeps((narration + " " + MARKER + Printed(names))[..i], |narration| - 1); }
  }

  lemma ReadsMore(narration: string, names: seq<string>, i: nat)
    requires var p := narration + " " + MARKER + Printed(names);
      i >= |narration| + 12 && OccursAt(p, SPACED_MARKER, i)
    ensures |TrimEnd((narration + " " + MARKER + Printed(names))[..i])| > |narration|
  {
    hide Printed, TrimEnd;
    TrimEndKeeps((narration + " " + MARKER + Printed(names))[..i], |narration| + 1);
  }

  lemma BareProjectionReads(names: seq<string>)
    ensures PreviewNarration(MARKER + Printed(names)) != []
  {
    hide FindLast, Printed, TrimEnd;
    var p := MARKER + Printed(names);
    var last := FindLast(p, SPACED_MARKER, |p|);
    assert p[0] == '[';
    if last.Some? {
      SpacedStarts(p, last.value);
      TrimEndKeeps(p[..last.value], 0);
    }
  }

  lemma BlankIsMarkerFree(content: string)
    requires IsBlank(content)
    ensures LacksTag(Trim(content), MARKER) && FindFrom(Trim(content), MARKER, 0).None?
  {
  }

  /** The history projection and the restore agree on the narration exactly when there is one, it holds no
      marker, and no name brings a spaced one; for a bare preview the projection returns the whole text. */
  lemma NarrationReadersAgreeIff(content: string, names: seq<string>)
    ensures PreviewNarration(PreviewOf(content, names)) == StripPreview(PreviewOf(content, names)) <==>
      !IsBlank(content) && LacksTag(Trim(content), MARKER) && LacksTag(Printed(names), SPACED_MARKER)
  {
    hide FindFrom, StripPreview, PreviewNarration, PreviewOf, Trim, TrimEnd, Printed, TrimmedNonEmpty, Split,
      PreviewNames, MARKER, SPACED_MARKER;
    PreviewForm(content, names);
    if IsBlank(content) {
      BareProjectionReads(names);
      BlankIsMarkerFree(content);
      PrintedPreviewReads(content, names);
    } else {
      ProjectionReads(Trim(content), names);
      NarrationRoundTripIff(content, names);
      if !LacksTag(Trim(content), MARKER) {
        var x := MarkedPreviewReads(content, names);
      }
    }
  }
}
