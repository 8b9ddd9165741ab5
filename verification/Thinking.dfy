/** What the four passes over thinking blocks leave of a reply (`src/agent_loop/message_format.rs`), told by
    the parts a reply is made of and not by the passes. */
module Thinking {
  import opened Text
  import opened MessageFormat

  /** The four kinds of blocks. */
  datatype Kind = Think | Thought | Thinking | Reasoning

  /** A reply is said text and blocks; only the last block may lack its closing tag. */
  datatype Part = Said(text: string) | Block(kind: Kind, hidden: string) | Unclosed(kind: Kind, hidden: string)

  function Open(kind: Kind): string {
    match kind
    case Think => "<think>"
    case Thought => "<thought>"
    case Thinking => "<thinking>"
    case Reasoning => "<reasoning>"
  }

  function Close(kind: Kind): string {
    match kind
    case Think => "</think>"
    case Thought => "</thought>"
    case Thinking => "</thinking>"
    case Reasoning => "</reasoning>"
  }

  function Written(part: Part): string {
    match part
    case Said(text) => text
    case Block(kind, hidden) => Open(kind) + hidden + Close(kind)
    case Unclosed(kind, hidden) => Open(kind) + hidden
  }

  function WrittenAll(parts: seq<Part>): string {
    if |parts| == 0 then "" else Written(parts[0]) + WrittenAll(parts[1..])
  }

  /** The said text alone. */
  function Kept(parts: seq<Part>): string {
    if |parts| == 0 then "" else (if parts[0].Said? then parts[0].text else "") + Kept(parts[1..])
  }

  ghost predicate Lacks(s: string, tag: string) {
    forall i :: !OccursAt(s, tag, i)
  }

  /** No opening tag in a block, and no closing tag of its own. */
  ghost predicate PartPlain(part: Part, isLast: bool) {
    part.Said? ||
    ((forall kind: Kind :: Lacks(part.hidden, Open(kind))) && Lacks(part.hidden, Close(part.kind)) &&
     (part.Unclosed? ==> isLast))
  }

  ghost predicate BlocksPlain(parts: seq<Part>) {
    |parts| == 0 || (PartPlain(parts[0], |parts| == 1) && BlocksPlain(parts[1..]))
  }

  /** A reply whose blocks are not nested, and whose said text has no opening tag of its own. */
  ghost predicate Plain(parts: seq<Part>) {
    (forall kind: Kind :: Lacks(Kept(parts), Open(kind))) && BlocksPlain(parts)
  }

  /** `content` says `shown`, and the rest of it is blocks of thinking. */
  ghost predicate Shows(content: string, shown: string) {
    exists parts :: Plain(parts) && content == WrittenAll(parts) && shown == Kept(parts)
  }

  // ---------------------------------------------------------------- tags do not overlap

  /** A tag starts with its only `<` and ends with its only `>`. */
  predicate IsTag(tag: string) {
    |tag| >= 2 && tag[0] == '<' && tag[|tag| - 1] == '>' &&
    (forall i :: 0 < i < |tag| ==> tag[i] != '<') && forall i :: 0 <= i < |tag| - 1 ==> tag[i] != '>'
  }

  lemma TagsAreTags(kind: Kind)
    ensures IsTag(Open(kind)) && IsTag(Close(kind))
  {
  }

  lemma TagsDiffer(a: Kind, b: Kind)
    ensures Open(a) == Open(b) ==> a == b
    ensures Open(a) != Close(b)
  {
    assert Open(a)[1] != '/' && Close(b)[1] == '/';
    assert Open(Think)[6] == '>' && Open(Thinking)[6] == 'i' && Open(Thought)[4] == 'u';
    assert Open(Think)[4] == 'n' && Open(Thinking)[4] == 'n' && Open(Reasoning)[1] == 'r';
    assert Open(Think)[1] == Open(Thought)[1] == Open(Thinking)[1] == 't';
  }


  /** Where one text ends with `>` or the next one starts with `<`, no tag lies across the border. */
  predicate Separated(a: string, b: string) {
    |a| == 0 || |b| == 0 || a[|a| - 1] == '>' || b[0] == '<'
  }

  /** So whatever occurs occurs on one side of the border. */
  lemma BorderIff(a: string, b: string, tag: string, i: int)
    requires IsTag(tag) && Separated(a, b)
    ensures OccursAt(a + b, tag, i) <==> OccursAt(a, tag, i) || (i >= |a| && OccursAt(b, tag, i - |a|))
  {
    if 0 <= i && i + |tag| <= |a + b| {
      var here := (a + b)[i..i + |tag|];
      if i + |tag| <= |a| {
        assert here == a[i..i + |tag|];
      } else if i >= |a| {
        assert here == b[i - |a|..i - |a| + |tag|];
      } else {
        assert here[|a| - i] == b[0] && here[|a| - i - 1] == a[|a| - 1];
      }
    }
  }

  lemma LacksIs(s: string, tag: string)
    requires Lacks(s, tag)
    ensures FindFrom(s, tag, 0).None?
  {
    hide FindFrom;
    var found := FindFrom(s, tag, 0);
  }

  lemma NoneBefore(s: string, tag: string, i: int)
    ensures i < 0 ==> !OccursAt(s, tag, i)
  {
  }

  lemma LacksBoth(a: string, b: string, tag: string)
    requires IsTag(tag) && Separated(a, b)
    ensures Lacks(a + b, tag) <==> Lacks(a, tag) && Lacks(b, tag)
  {
    hide IsTag, OccursAt;
    forall i ensures OccursAt(a + b, tag, i) <==> OccursAt(a, tag, i) || (i >= |a| && OccursAt(b, tag, i - |a|)) {
      BorderIff(a, b, tag, i);
    }
    forall i | Lacks(a + b, tag) ensures !OccursAt(b, tag, i) {
      NoneBefore(b, tag, i);
      assert i + |a| - |a| == i && !OccursAt(a + b, tag, i + |a|);
    }
  }

  /** Whatever is lacking in a text is lacking in its parts. */
  lemma LacksParts(a: string, b: string, tag: string)
    requires Lacks(a + b, tag)
    ensures Lacks(a, tag) && Lacks(b, tag)
  {
    forall i ensures !OccursAt(a, tag, i) && !OccursAt(b, tag, i) {
      if 0 <= i && i + |tag| <= |a| {
        assert (a + b)[i..i + |tag|] == a[i..i + |tag|] && !OccursAt(a + b, tag, i);
      }
      if 0 <= i && i + |tag| <= |b| {
        assert (a + b)[|a| + i..|a| + i + |tag|] == b[i..i + |tag|] && !OccursAt(a + b, tag, |a| + i);
      }
    }
  }

  lemma OtherTagLacks(outer: string, tag: string)
    requires IsTag(outer) && IsTag(tag) && outer != tag
    ensures Lacks(outer, tag)
  {
    forall i ensures !OccursAt(outer, tag, i) {
      if 0 < i && i + |tag| <= |outer| {
        assert outer[i..i + |tag|][0] == outer[i];
      } else if i == 0 && |tag| <= |outer| {
        assert outer[..|tag|][|tag| - 1] == outer[|tag| - 1] && outer[..|outer|] == outer;
      }
    }
  }

  // ---------------------------------------------------------------- one pass

  lemma FirstAt(s: string, tag: string, from: nat, p: nat)
    requires from <= p && OccursAt(s, tag, p) && forall j :: from <= j < p ==> !OccursAt(s, tag, j)
    ensures from <= |s| && FindFrom(s, tag, from) == Some(p)
  {
    hide FindFrom;
    var found := FindFrom(s, tag, from);
  }

  /** The first tag behind a text that lacks it. */
  lemma FoundAt(skipped: string, a: string, tag: string, b: string)
    requires IsTag(tag) && Lacks(a, tag)
    ensures FindFrom(skipped + a + tag + b, tag, |skipped|) == Some(|skipped| + |a|)
  {
    hide FindFrom, IsTag;
    var all, p := skipped + a + tag + b, |skipped| + |a|;
    assert all[p..p + |tag|] == tag;
    forall j | |skipped| <= j < p ensures !OccursAt(all, tag, j) {
      assert tag[0] == '<' && Separated(a, tag + b) by { TagStarts(tag); }
      BorderIff(a, tag + b, tag, j - |skipped|);
      Shifted(skipped, a + (tag + b), tag, j - |skipped|);
      assert skipped + (a + (tag + b)) == all;
    }
    FirstAt(all, tag, |skipped|, p);
  }

  lemma TagStarts(tag: string)
    requires IsTag(tag)
    ensures |tag| >= 2 && tag[0] == '<' && tag[|tag| - 1] == '>'
  {
  }

  lemma Shifted(front: string, rest: string, tag: string, i: int)
    requires i >= 0
    ensures OccursAt(front + rest, tag, |front| + i) <==> OccursAt(rest, tag, i)
  {
    if i + |tag| <= |rest| {
      assert (front + rest)[|front| + i..|front| + i + |tag|] == rest[i..i + |tag|];
    }
  }

  lemma LacksBehindOpen(kind: Kind, hidden: string)
    requires Lacks(hidden, Close(kind))
    ensures Lacks(Open(kind) + hidden, Close(kind))
  {
    hide Open, Close, IsTag;
    TagsAreTags(kind);
    TagsDiffer(kind, kind);
    OtherTagLacks(Open(kind), Close(kind));
    TagStarts(Open(kind));
    LacksBoth(Open(kind), hidden, Close(kind));
  }

  /** A pass removes the block it looks for and goes on behind it. */
  lemma PassRemoves(said: string, kind: Kind, hidden: string, rest: string)
    requires Lacks(said, Open(kind)) && Lacks(hidden, Close(kind))
    ensures |Open(kind)| > 0 && |Close(kind)| > 0
    ensures StripTagBlocks(said + Open(kind) + hidden + Close(kind) + rest, Open(kind), Close(kind)) ==
      said + StripTagBlocks(rest, Open(kind), Close(kind))
  {
    hide FindFrom, StripTagBlocks, IsTag, Open, Close, Lacks;
    TagsAreTags(kind);
    var open, close := Open(kind), Close(kind);
    TagStarts(open);
    TagStarts(close);
    var all := said + open + hidden + close + rest;
    FoundAt("", said, open, hidden + close + rest);
    assert "" + said + open + (hidden + close + rest) == all;
    LacksBehindOpen(kind, hidden);
    FoundAt(said, open + hidden, close, rest);
    assert said + (open + hidden) + close + rest == all;
    StripUnfolds(all, open, close);
    var end := |said| + |open + hidden|;
    assert all[..|said|] == said && all[end + |close|..] == rest;
  }

  /** A pass removes everything from an opening tag that is never closed. */
  lemma PassCuts(said: string, kind: Kind, hidden: string)
    requires Lacks(said, Open(kind)) && Lacks(hidden, Close(kind))
    ensures |Open(kind)| > 0 && |Close(kind)| > 0
    ensures StripTagBlocks(said + Open(kind) + hidden, Open(kind), Close(kind)) == said
  {
    hide FindFrom, StripTagBlocks, IsTag, Open, Close, Lacks;
    TagsAreTags(kind);
    var open, close := Open(kind), Close(kind);
    TagStarts(open);
    TagStarts(close);
    var all := said + open + hidden;
    FoundAt("", said, open, hidden);
    assert "" + said + open + hidden == all;
    LacksBehindOpen(kind, hidden);
    NotFoundBehind(said, open + hidden, close);
    assert said + (open + hidden) == all;
    StripUnfolds(all, open, close);
    assert all[..|said|] == said;
  }

  lemma NotFoundBehind(front: string, rest: string, tag: string)
    requires Lacks(rest, tag)
    ensures FindFrom(front + rest, tag, |front|).None?
  {
    hide FindFrom, OccursAt;
    var found := FindFrom(front + rest, tag, |front|);
    forall j | j >= |front| ensures !OccursAt(front + rest, tag, j) {
      Shifted(front, rest, tag, j - |front|);
    }
  }

  /** A pass that finds both its tags. */
  lemma StripRemoved(s: string, open: string, close: string)
    requires |open| > 0 && |close| > 0 && FindFrom(s, open, 0).Some? && FindFrom(s, open, 0).value <= |s|
    requires FindFrom(s, close, FindFrom(s, open, 0).value).Some?
    requires FindFrom(s, close, FindFrom(s, open, 0).value).value + |close| <= |s|
    ensures var i := FindFrom(s, open, 0).value;
      var e := FindFrom(s, close, i).value;
      StripTagBlocks(s, open, close) == s[..i] + StripTagBlocks(s[e + |close|..], open, close)
  {
    hide *;
    StripUnfolds(s, open, close);
  }

  lemma StripCut(s: string, open: string, close: string)
    requires |open| > 0 && |close| > 0 && FindFrom(s, open, 0).Some? && FindFrom(s, open, 0).value <= |s|
    requires FindFrom(s, close, FindFrom(s, open, 0).value).None?
    ensures StripTagBlocks(s, open, close) == s[..FindFrom(s, open, 0).value]
  {
    hide *;
    StripUnfolds(s, open, close);
    assert s[..FindFrom(s, open, 0).value] + [] == s[..FindFrom(s, open, 0).value];
  }

  lemma StripUntouched(s: string, open: string, close: string)
    requires |open| > 0 && |close| > 0 && FindFrom(s, open, 0).None?
    ensures StripTagBlocks(s, open, close) == s
  {
    hide FindFrom, OccursAt;
  }

  /** A pass that finds its first tag behind a front leaves the front alone. */
  lemma PassFrom(front: string, rest: string, open: string, close: string)
    requires |open| > 0 && |close| > 0
    requires FindFrom(front + rest, open, 0) == After(front, FindFrom(rest, open, 0))
    ensures StripTagBlocks(front + rest, open, close) == front + StripTagBlocks(rest, open, close)
  {
    hide FindFrom, StripTagBlocks, OccursAt;
    var all, found := front + rest, FindFrom(rest, open, 0);
    if found.None? {
      StripUntouched(all, open, close);
      StripUntouched(rest, open, close);
    } else {
      Ends(rest, open, 0);
      PassFound(front, rest, open, close, found.value);
    }
  }

  lemma PassFound(front: string, rest: string, open: string, close: string, i: nat)
    requires |open| > 0 && |close| > 0 && i <= |rest|
    requires FindFrom(rest, open, 0) == Some(i) && FindFrom(front + rest, open, 0) == Some(|front| + i)
    ensures StripTagBlocks(front + rest, open, close) == front + StripTagBlocks(rest, open, close)
  {
    hide *;
    var all, end := front + rest, FindFrom(rest, close, i);
    FoundLater(front, rest, close, i);
    AfterIs(front, end);
    Ends(rest, close, i);
    var e := if end.None? then 0 else end.value + |close|;
    CutBoth(all, front, rest, i, e);
    PassBehind(all, front, rest, open, close, i, e);
  }

  lemma CutBoth(all: string, front: string, rest: string, i: nat, e: nat)
    requires all == front + rest && i <= |rest| && e <= |rest|
    ensures |all| == |front| + |rest|
    ensures all[..|front| + i] == front + rest[..i] && all[|front| + e..] == rest[e..]
  {
  }

  lemma PassBehind(all: string, front: string, rest: string, open: string, close: string, i: nat, e: nat)
    requires |open| > 0 && |close| > 0 && i <= |rest| && e <= |rest| && |all| == |front| + |rest|
    requires FindFrom(rest, open, 0) == Some(i) && FindFrom(all, open, 0) == Some(|front| + i)
    requires FindFrom(all, close, |front| + i) == After(front, FindFrom(rest, close, i))
    requires FindFrom(rest, close, i).Some? ==> e == FindFrom(rest, close, i).value + |close|
    requires all[..|front| + i] == front + rest[..i] && all[|front| + e..] == rest[e..]
    ensures StripTagBlocks(all, open, close) == front + StripTagBlocks(rest, open, close)
  {
    hide *;
    AfterIs(front, FindFrom(rest, close, i));
    if FindFrom(rest, close, i).None? {
      StripCut(rest, open, close);
      StripCut(all, open, close);
    } else {
      StripRemoved(rest, open, close);
      StripRemoved(all, open, close);
      Assoc(front, rest[..i], StripTagBlocks(rest[e..], open, close));
    }
  }

  lemma AfterIs(front: string, found: Option<nat>)
    ensures After(front, found) == if found.None? then None else Some(|front| + found.value)
  {
  }

  lemma Ends(s: string, tag: string, from: nat)
    requires from <= |s|
    ensures FindFrom(s, tag, from).Some? ==> FindFrom(s, tag, from).value + |tag| <= |s|
  {
    hide FindFrom;
  }

  lemma Assoc(a: string, b: string, c: string)
    ensures a + b + c == a + (b + c)
  {
  }

  lemma PassSkips(front: string, kind: Kind, rest: string)
    requires Lacks(front, Open(kind)) && |front| > 0 && front[|front| - 1] == '>'
    ensures |Open(kind)| > 0 && |Close(kind)| > 0
    ensures StripTagBlocks(front + rest, Open(kind), Close(kind)) ==
      front + StripTagBlocks(rest, Open(kind), Close(kind))
  {
    hide FindFrom, StripTagBlocks, IsTag, Open, Close, Lacks;
    TagsAreTags(kind);
    TagStarts(Open(kind));
    TagStarts(Close(kind));
    FoundBehind(front, rest, Open(kind));
    PassFrom(front, rest, Open(kind), Close(kind));
  }

  function After(front: string, found: Option<nat>): Option<nat> {
    if found.None? then None else Some(|front| + found.value)
  }

  lemma FoundBehind(front: string, rest: string, tag: string)
    requires IsTag(tag) && Lacks(front, tag) && |front| > 0 && front[|front| - 1] == '>'
    ensures FindFrom(front + rest, tag, 0) == After(front, FindFrom(rest, tag, 0))
  {
    hide FindFrom, IsTag, OccursAt;
    forall j | 0 <= j < |front| ensures !OccursAt(front + rest, tag, j) {
      BorderIff(front, rest, tag, j);
    }
    FoundLater(front, rest, tag, 0);
    var found, later := FindFrom(front + rest, tag, 0), FindFrom(front + rest, tag, |front|);
  }

  /** Searching behind the front is searching the rest. */
  lemma FoundLater(front: string, rest: string, tag: string, i: nat)
    requires i <= |rest|
    ensures FindFrom(front + rest, tag, |front| + i) == After(front, FindFrom(rest, tag, i))
  {
    hide FindFrom, OccursAt;
    forall j | |front| <= j ensures OccursAt(front + rest, tag, j) <==> OccursAt(rest, tag, j - |front|) {
      Shifted(front, rest, tag, j - |front|);
    }
    var here, there := FindFrom(front + rest, tag, |front| + i), FindFrom(rest, tag, i);
    if there.Some? { assert OccursAt(front + rest, tag, |front| + there.value); }
  }

  // ---------------------------------------------------------------- all passes

  function Without(kind: Kind, parts: seq<Part>): seq<Part> {
    if |parts| == 0 then []
    else (if !parts[0].Said? && parts[0].kind == kind then [] else [parts[0]]) + Without(kind, parts[1..])
  }

  lemma Unfold(kind: Kind, part: Part, rest: seq<Part>)
    ensures WrittenAll([part] + rest) == Written(part) + WrittenAll(rest)
    ensures Kept([part] + rest) == (if part.Said? then part.text else "") + Kept(rest)
    ensures Without(kind, [part] + rest) ==
      (if !part.Said? && part.kind == kind then [] else [part]) + Without(kind, rest)
  {
    hide Written;
    assert ([part] + rest)[1..] == rest;
  }

  lemma PlainCons(part: Part, rest: seq<Part>)
    ensures BlocksPlain([part] + rest) <==> PartPlain(part, |rest| == 0) && BlocksPlain(rest)
  {
    hide PartPlain;
    assert ([part] + rest)[1..] == rest;
  }

  lemma NoParts()
    ensures WrittenAll([]) == "" && Kept([]) == "" && BlocksPlain([])
    ensures forall kind: Kind :: Without(kind, []) == []
  {
  }

  lemma {:induction false} WithoutKeeps(kind: Kind, parts: seq<Part>)
    requires BlocksPlain(parts)
    ensures BlocksPlain(Without(kind, parts)) && Kept(Without(kind, parts)) == Kept(parts)
    ensures forall part :: part in Without(kind, parts) <==> part in parts && (part.Said? || part.kind != kind)
    decreases |parts|
  {
    hide Lacks, Open, Close, WrittenAll, Kept, Without, BlocksPlain;
    NoParts();
    if |parts| > 0 {
      var part, rest := parts[0], parts[1..];
      var w := Without(kind, rest);
      assert parts == [part] + rest;
      PlainCons(part, rest);
      WithoutKeeps(kind, rest);
      Unfold(kind, part, rest);
      Unfold(kind, part, w);
      PlainCons(part, w);
      if part.Unclosed? { assert rest == []; }
      assert [] + w == w && "" + Kept(rest) == Kept(rest);
    }
  }

  lemma PassLeaves(s: string, kind: Kind)
    requires Lacks(s, Open(kind))
    ensures |Open(kind)| > 0 && |Close(kind)| > 0
    ensures StripTagBlocks(s, Open(kind), Close(kind)) == s
  {
    hide FindFrom, StripTagBlocks, Lacks, IsTag, Open, Close;
    TagsAreTags(kind);
    TagStarts(Open(kind));
    TagStarts(Close(kind));
    LacksIs(s, Open(kind));
    StripUnfolds(s, Open(kind), Close(kind));
  }

  /** A block of another kind, behind a text, has no opening tag of this kind. */
  lemma FrontLacks(said: string, other: Kind, hidden: string, kind: Kind)
    requires other != kind && Lacks(said, Open(kind)) && Lacks(hidden, Open(kind))
    ensures Lacks(said + Open(other) + hidden, Open(kind))
    ensures Lacks(said + Open(other) + hidden + Close(other), Open(kind))
    ensures |Close(other)| > 0 && Close(other)[|Close(other)| - 1] == '>'
  {
    hide Lacks, IsTag, Open, Close;
    var tag := Open(kind);
    TagsAreTags(kind);
    TagsAreTags(other);
    TagsDiffer(kind, other);
    TagStarts(Open(other));
    TagStarts(Close(other));
    OtherTagLacks(Open(other), tag);
    OtherTagLacks(Close(other), tag);
    LacksBoth(said, Open(other), tag);
    LacksBoth(said + Open(other), hidden, tag);
    LacksBoth(said + Open(other) + hidden, Close(other), tag);
  }

  /** A pass removes the blocks of its kind and nothing else. */
  lemma {:induction false} PassDrops(kind: Kind, said: string, parts: seq<Part>)
    requires BlocksPlain(parts) && Lacks(said + Kept(parts), Open(kind))
    ensures |Open(kind)| > 0 && |Close(kind)| > 0
    ensures StripTagBlocks(said + WrittenAll(parts), Open(kind), Close(kind)) == said + WrittenAll(Without(kind, parts))
    decreases |parts|
  {
    hide StripTagBlocks, Lacks, IsTag, Open, Close, Written, BlocksPlain;
    if |parts| == 0 {
      assert said + Kept(parts) == said;
      PassLeaves(said, kind);
    } else {
      var part, rest := parts[0], parts[1..];
      assert parts == [part] + rest;
      PlainCons(part, rest);
      if part.Said? {
        SaidFirst(kind, said, part.text, rest);
        PassDrops(kind, said + part.text, rest);
      } else {
        BlockFirst(kind, said, part, rest);
        LacksParts(said, Kept(rest), Open(kind));
        PassDrops(kind, "", rest);
        BlockPass(kind, said, part, rest);
      }
    }
  }

  lemma SaidFirst(kind: Kind, said: string, text: string, rest: seq<Part>)
    ensures var parts, w := [Said(text)] + rest, Without(kind, rest);
      said + Kept(parts) == said + text + Kept(rest) && said + WrittenAll(parts) == said + text + WrittenAll(rest) &&
      said + WrittenAll(Without(kind, parts)) == said + text + WrittenAll(w)
  {
    hide WrittenAll, Kept, Without;
    Unfold(kind, Said(text), rest);
    Unfold(kind, Said(text), Without(kind, rest));
  }

  lemma BlockFirst(kind: Kind, said: string, part: Part, rest: seq<Part>)
    requires !part.Said?
    ensures said + Kept([part] + rest) == said + Kept(rest)
    ensures WrittenAll([part] + rest) == Written(part) + WrittenAll(rest)
    ensures "" + Kept(rest) == Kept(rest) && "" + WrittenAll(rest) == WrittenAll(rest)
    ensures "" + WrittenAll(Without(kind, rest)) == WrittenAll(Without(kind, rest))
  {
    hide Written, WrittenAll, Kept, Without;
    Unfold(kind, part, rest);
  }

  lemma BlockPass(kind: Kind, said: string, part: Part, rest: seq<Part>)
    requires !part.Said? && BlocksPlain([part] + rest) && Lacks(said, Open(kind))
    requires |Open(kind)| > 0 && |Close(kind)| > 0
    requires StripTagBlocks(WrittenAll(rest), Open(kind), Close(kind)) == WrittenAll(Without(kind, rest))
    ensures StripTagBlocks(said + (Written(part) + WrittenAll(rest)), Open(kind), Close(kind)) ==
      said + WrittenAll(Without(kind, [part] + rest))
  {
    hide StripTagBlocks, Lacks, IsTag, Open, Close, WrittenAll, Kept, Without, BlocksPlain;
    var w, all := Without(kind, rest), said + (Written(part) + WrittenAll(rest));
    Unfold(kind, part, rest);
    NoParts();
    PlainCons(part, rest);
    if part.Unclosed? { assert rest == []; }
    if part.kind == kind {
      assert [] + w == w;
      if part.Block? {
        PassRemoves(said, kind, part.hidden, WrittenAll(rest));
        assert all == said + Open(kind) + part.hidden + Close(kind) + WrittenAll(rest);
      } else {
        PassCuts(said, kind, part.hidden);
        assert all == said + Open(kind) + part.hidden;
      }
    } else {
      FrontLacks(said, part.kind, part.hidden, kind);
      Unfold(kind, part, w);
      var front := said + Written(part);
      if part.Block? {
        assert front == said + Open(part.kind) + part.hidden + Close(part.kind);
        PassSkips(front, kind, WrittenAll(rest));
        assert all == front + WrittenAll(rest);
      } else {
        assert front == said + Open(part.kind) + part.hidden;
        PassLeaves(front, kind);
        assert all == front;
      }
    }
  }

  lemma {:induction false} OnlySaid(parts: seq<Part>)
    requires forall part :: part in parts ==> part.Said?
    ensures WrittenAll(parts) == Kept(parts)
  {
    if |parts| > 0 {
      assert parts[0] in parts;
      OnlySaid(parts[1..]);
    }
  }

  lemma OnePass(kind: Kind, parts: seq<Part>)
    requires Plain(parts)
    ensures Plain(Without(kind, parts)) && Kept(Without(kind, parts)) == Kept(parts)
    ensures |Open(kind)| > 0 && |Close(kind)| > 0
    ensures StripTagBlocks(WrittenAll(parts), Open(kind), Close(kind)) == WrittenAll(Without(kind, parts))
  {
    hide StripTagBlocks, Lacks, IsTag, Open, Close, BlocksPlain;
    WithoutKeeps(kind, parts);
    assert "" + Kept(parts) == Kept(parts) && "" + WrittenAll(parts) == WrittenAll(parts);
    PassDrops(kind, "", parts);
    assert "" + WrittenAll(Without(kind, parts)) == WrittenAll(Without(kind, parts));
  }

  /** Of a reply with blocks of any kinds, in any number and order, what was said is left, trimmed; a block
      that is never closed hides the rest. */
  lemma StripKeepsSaid(parts: seq<Part>)
    requires Plain(parts)
    ensures StripThinking(WrittenAll(parts)) == Trim(Kept(parts))
  {
    hide StripTagBlocks, Trim, Plain, Without;
    var one := Without(Think, parts);
    var two := Without(Thought, one);
    var three := Without(Thinking, two);
    var four := Without(Reasoning, three);
    OnePass(Think, parts);
    OnePass(Thought, one);
    OnePass(Thinking, two);
    OnePass(Reasoning, three);
    AllDropped(parts);
    OnlySaid(four);
  }

  lemma AllDropped(parts: seq<Part>)
    requires Plain(parts)
    ensures var four := Without(Reasoning, Without(Thinking, Without(Thought, Without(Think, parts))));
      forall part :: part in four ==> part.Said?
  {
    hide Without, Lacks, Open, Close, Kept, BlocksPlain;
    WithoutKeeps(Think, parts);
    WithoutKeeps(Thought, Without(Think, parts));
    WithoutKeeps(Thinking, Without(Thought, Without(Think, parts)));
    WithoutKeeps(Reasoning, Without(Thinking, Without(Thought, Without(Think, parts))));
  }

  // ---------------------------------------------------------------- white space around a reply

  lemma {:induction false} TrimStartPadded(a: string, x: string)
    requires IsBlank(a)
    ensures TrimStart(a + x) == TrimStart(x)
  {
    hide TrimStart, IsWhitespace, IsBlank;
    if |a| == 0 {
      assert a + x == x;
    } else {
      BlankTail(a);
      TrimStartPadded(a[1..], x);
      assert (a + x)[0] == a[0] && (a + x)[1..] == a[1..] + x;
      TrimStartStep(a + x);
    }
  }

  lemma BlankTail(a: string)
    requires IsBlank(a) && |a| > 0
    ensures IsWhitespace(a[0]) && IsBlank(a[1..])
  {
    hide IsWhitespace;
    forall i | 0 <= i < |a[1..]| ensures IsWhitespace(a[1..][i]) { assert a[1..][i] == a[i + 1]; }
  }

  lemma {:induction false} TrimStartThen(x: string, b: string)
    requires !IsBlank(x)
    ensures TrimStart(x + b) == TrimStart(x) + b
  {
    hide TrimStart, IsWhitespace;
    if IsWhitespace(x[0]) {
      assert (x + b)[1..] == x[1..] + b;
      assert !IsBlank(x[1..]) by {
        var i :| 0 <= i < |x| && !IsWhitespace(x[i]);
        assert x[1..][i - 1] == x[i];
      }
      TrimStartThen(x[1..], b);
      TrimStartStep(x);
      TrimStartStep(x + b);
    } else {
      TrimStartKept(x);
      TrimStartKept(x + b);
    }
  }

  lemma TrimStartKept(x: string)
    requires |x| > 0 && !IsWhitespace(x[0])
    ensures TrimStart(x) == x
  {
    hide IsWhitespace;
  }

  lemma {:induction false} TrimEndPadded(x: string, b: string)
    requires IsBlank(b)
    ensures TrimEnd(x + b) == TrimEnd(x)
  {
    hide IsWhitespace;
    if |b| == 0 {
      assert x + b == x;
    } else {
      TrimEndPadded(x, b[..|b| - 1]);
      assert (x + b)[..|x + b| - 1] == x + b[..|b| - 1];
    }
  }

  /** White space around a text is trimmed away with it. */
  lemma TrimPadded(a: string, x: string, b: string)
    requires IsBlank(a) && IsBlank(b)
    ensures Trim(a + x + b) == Trim(x)
  {
    hide TrimStart, TrimEnd, IsWhitespace;
    assert a + x + b == a + (x + b);
    TrimStartPadded(a, x + b);
    if IsBlank(x) {
      assert IsBlank(a + x + b);
    } else {
      TrimStartThen(x, b);
      TrimEndPadded(TrimStart(x), b);
    }
  }

  lemma BracketsAreNoSpace()
    ensures !IsWhitespace('<') && !IsWhitespace('>')
  {
  }

  lemma BlankFront(w: string, s: string, tag: string, i: nat)
    requires IsBlank(w) && |tag| > 0 && !IsWhitespace(tag[0]) && i < |w|
    ensures !OccursAt(w + s, tag, i)
  {
    hide IsWhitespace;
    if i + |tag| <= |w + s| { assert (w + s)[i..i + |tag|][0] == w[i]; }
  }

  lemma BlankEnd(s: string, w: string, tag: string, i: nat)
    requires IsBlank(w) && |tag| > 0 && !IsWhitespace(tag[|tag| - 1])
    ensures OccursAt(s + w, tag, i) <==> OccursAt(s, tag, i)
  {
    hide IsWhitespace;
    if i + |tag| <= |s| {
      assert (s + w)[i..i + |tag|] == s[i..i + |tag|];
    } else if i + |tag| <= |s + w| {
      assert (s + w)[i..i + |tag|][|tag| - 1] == w[i + |tag| - 1 - |s|];
    }
  }

  lemma FoundBehindSpace(w: string, s: string, tag: string)
    requires IsBlank(w) && |tag| > 0 && !IsWhitespace(tag[0])
    ensures FindFrom(w + s, tag, 0) == After(w, FindFrom(s, tag, 0))
  {
    hide FindFrom, OccursAt, IsWhitespace, IsBlank;
    forall j: nat | j < |w| ensures !OccursAt(w + s, tag, j) { BlankFront(w, s, tag, j); }
    FoundLater(w, s, tag, 0);
    var all, later := FindFrom(w + s, tag, 0), FindFrom(w + s, tag, |w|);
  }

  lemma PassAfterSpace(w: string, s: string, kind: Kind)
    requires IsBlank(w)
    ensures |Open(kind)| > 0 && |Close(kind)| > 0
    ensures StripTagBlocks(w + s, Open(kind), Close(kind)) == w + StripTagBlocks(s, Open(kind), Close(kind))
  {
    hide FindFrom, StripTagBlocks, IsTag, Open, Close, IsWhitespace, IsBlank;
    TagsAreTags(kind);
    TagStarts(Open(kind));
    TagStarts(Close(kind));
    BracketsAreNoSpace();
    FoundBehindSpace(w, s, Open(kind));
    PassFrom(w, s, Open(kind), Close(kind));
  }

  lemma FoundBeforeSpace(s: string, w: string, tag: string, from: nat)
    requires IsBlank(w) && |tag| > 0 && !IsWhitespace(tag[|tag| - 1]) && from <= |s|
    ensures FindFrom(s + w, tag, from) == FindFrom(s, tag, from)
  {
    hide FindFrom, OccursAt, IsWhitespace, IsBlank;
    forall j: nat ensures OccursAt(s + w, tag, j) <==> OccursAt(s, tag, j) { BlankEnd(s, w, tag, j); }
    var there, here := FindFrom(s + w, tag, from), FindFrom(s, tag, from);
  }

  lemma {:induction false} PassBeforeSpace(s: string, w: string, kind: Kind) returns (left: string)
    requires IsBlank(w)
    ensures |Open(kind)| > 0 && |Close(kind)| > 0 && IsBlank(left)
    ensures StripTagBlocks(s + w, Open(kind), Close(kind)) == StripTagBlocks(s, Open(kind), Close(kind)) + left
    decreases |s|
  {
    hide FindFrom, StripTagBlocks, IsTag, Open, Close, IsWhitespace, OccursAt;
    var open, close := Open(kind), Close(kind);
    TagsAreTags(kind);
    TagStarts(open);
    TagStarts(close);
    BracketsAreNoSpace();
    StripUnfolds(s + w, open, close);
    StripUnfolds(s, open, close);
    FoundBeforeSpace(s, w, open, 0);
    var found := FindFrom(s, open, 0);
    if found.None? { return w; }
    Ends(s, open, 0);
    FoundBeforeSpace(s, w, close, found.value);
    assert (s + w)[..found.value] == s[..found.value];
    var end := FindFrom(s, close, found.value);
    if end.None? { return ""; }
    Ends(s, close, found.value);
    var rest := s[end.value + |close|..];
    assert (s + w)[end.value + |close|..] == rest + w;
    left := PassBeforeSpace(rest, w, kind);
    Assoc(s[..found.value], StripTagBlocks(rest, open, close), left);
  }

  /** So a pass over a padded text is the padded pass. */
  lemma PassOverSpace(a: string, s: string, b: string, kind: Kind) returns (left: string)
    requires IsBlank(a) && IsBlank(b)
    ensures |Open(kind)| > 0 && |Close(kind)| > 0 && IsBlank(left)
    ensures StripTagBlocks(a + s + b, Open(kind), Close(kind)) ==
      a + StripTagBlocks(s, Open(kind), Close(kind)) + left
  {
    hide StripTagBlocks, Open, Close, IsBlank;
    assert a + s + b == a + (s + b);
    PassAfterSpace(a, s + b, kind);
    left := PassBeforeSpace(s, b, kind);
  }

  /** Trimming a reply first changes nothing. */
  lemma StripOfPadded(a: string, s: string, b: string)
    requires IsBlank(a) && IsBlank(b)
    ensures StripThinking(a + s + b) == StripThinking(s)
  {
    hide StripTagBlocks, Trim, IsBlank;
    var one := StripTagBlocks(s, "<think>", "</think>");
    var two := StripTagBlocks(one, "<thought>", "</thought>");
    var three := StripTagBlocks(two, "<thinking>", "</thinking>");
    var four := StripTagBlocks(three, "<reasoning>", "</reasoning>");
    var b1 := PassOverSpace(a, s, b, Think);
    var b2 := PassOverSpace(a, one, b1, Thought);
    var b3 := PassOverSpace(a, two, b2, Thinking);
    var b4 := PassOverSpace(a, three, b3, Reasoning);
    TrimPadded(a, four, b4);
  }

  /** What the user sees of a reply: what it says, trimmed. */
  lemma VisibleTextShows(content: string, shown: string)
    requires Shows(content, shown)
    ensures VisibleText(content) == Trim(shown)
    ensures IsBlank(VisibleText(content)) <==> IsBlank(shown)
  {
    hide StripThinking, Trim, Plain, IsBlank;
    var parts :| Plain(parts) && content == WrittenAll(parts) && shown == Kept(parts);
    StripKeepsSaid(parts);
    var a, b := TrimSplits(content);
    StripOfPadded(a, Trim(content), b);
    TrimOfBlank(shown);
  }

  lemma TrimOfBlank(s: string)
    ensures IsBlank(Trim(s)) <==> IsBlank(s)
  {
  }

  lemma SaidShows(text: string)
    requires forall kind: Kind :: Lacks(text, Open(kind))
    ensures Shows(text, text)
  {
    hide Lacks, Open, Close, WrittenAll, Kept, BlocksPlain;
    NoParts();
    Unfold(Think, Said(text), []);
    PlainCons(Said(text), []);
    assert [Said(text)] + [] == [Said(text)] && text + "" == text;
    assert Plain([Said(text)]);
  }

  /** A reply with one block of thinking in it. */
  lemma OneBlockShows(kind: Kind, pre: string, hidden: string, post: string)
    requires forall k: Kind :: Lacks(pre + post, Open(k)) && Lacks(hidden, Open(k))
    requires Lacks(hidden, Close(kind))
    ensures Shows(pre + Open(kind) + hidden + Close(kind) + post, pre + post)
  {
    hide Lacks, Open, Close, WrittenAll, Kept, BlocksPlain;
    var first, block, last := Said(pre), Block(kind, hidden), Said(post);
    NoParts();
    Unfold(kind, last, []);
    Unfold(kind, block, [last]);
    Unfold(kind, first, [block] + [last]);
    PlainCons(last, []);
    PlainCons(block, [last]);
    PlainCons(first, [block] + [last]);
    assert [last] + [] == [last] && post + "" == post && "" + post == post;
    var parts := [first] + ([block] + [last]);
    assert WrittenAll(parts) == pre + Open(kind) + hidden + Close(kind) + post;
    assert Plain(parts);
  }

  /** A block that is never closed. */
  lemma UnclosedShows(kind: Kind, pre: string, hidden: string)
    requires forall k: Kind :: Lacks(pre, Open(k)) && Lacks(hidden, Open(k))
    requires Lacks(hidden, Close(kind))
    ensures Shows(pre + Open(kind) + hidden, pre)
  {
    hide Lacks, Open, Close, WrittenAll, Kept, BlocksPlain;
    var first, block := Said(pre), Unclosed(kind, hidden);
    NoParts();
    Unfold(kind, block, []);
    Unfold(kind, first, [block]);
    PlainCons(block, []);
    PlainCons(first, [block]);
    assert [block] + [] == [block] && pre + "" == pre;
    var parts := [first] + [block];
    assert WrittenAll(parts) == pre + Open(kind) + hidden;
    assert Plain(parts);
  }
}
