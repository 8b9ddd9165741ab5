/** Strings as the program sees them: sequences of Unicode scalar values with a UTF-8 byte length,
    `char::is_whitespace`, `str::trim`, `str::split_once`, `str::rfind` and `str::split`. */
module Text {
  datatype Option<+T> = None | Some(value: T)

  datatype Result<+T, +E> = Ok(value: T) | Err(error: E)

  predicate IsWhitespace(c: char) {
    var n := c as int;
    9 <= n <= 13 || n == 0x20 || n == 0x85 || n == 0xA0 || n == 0x1680 || 0x2000 <= n <= 0x200A ||
    n == 0x2028 || n == 0x2029 || n == 0x202F || n == 0x205F || n == 0x3000
  }

  predicate IsBlank(s: string) {
    forall i :: 0 <= i < |s| ==> IsWhitespace(s[i])
  }

  /** `str::len`: the number of UTF-8 bytes. */
  function ByteLen(s: string): nat {
    if s == [] then 0 else Utf8Len(s[0]) + ByteLen(s[1..])
  }

  function Utf8Len(c: char): (n: nat)
    ensures 1 <= n <= 4
  {
    if c as int < 0x80 then 1 else if c as int < 0x800 then 2 else if c as int < 0x10000 then 3 else 4
  }

  /** All of `s` lies in `lo..hi`. */
  predicate Within(s: string, lo: int, hi: int) {
    forall i :: 0 <= i < |s| ==> lo <= s[i] as int < hi
  }

  /** Seven bits take one byte, eleven two, sixteen three, and more four. */
  lemma {:induction false} ByteLenWithin(s: string)
    ensures |s| <= ByteLen(s) <= 4 * |s|
    ensures Within(s, 0, 0x80) ==> ByteLen(s) == |s|
    ensures Within(s, 0x80, 0x800) ==> ByteLen(s) == 2 * |s|
    ensures Within(s, 0x800, 0x10000) ==> ByteLen(s) == 3 * |s|
    ensures Within(s, 0x10000, 0x110000) ==> ByteLen(s) == 4 * |s|
  {
    if |s| > 0 {
      ByteLenWithin(s[1..]);
      forall lo, hi | Within(s, lo, hi) ensures Within(s[1..], lo, hi) {
      }
    }
  }

  lemma {:induction false} ByteLenConcat(a: string, b: string)
    ensures ByteLen(a + b) == ByteLen(a) + ByteLen(b)
  {
    if a == [] {
      assert a + b == b;
    } else {
      assert (a + b)[1..] == a[1..] + b;
      ByteLenConcat(a[1..], b);
    }
  }

  lemma ByteLenPrefix(s: string, i: nat, j: nat)
    requires i <= j <= |s|
    ensures ByteLen(s[..i]) <= ByteLen(s[..j]) <= ByteLen(s)
  {
    assert s[..j] == s[..i] + s[i..j];
    ByteLenConcat(s[..i], s[i..j]);
    assert s == s[..j] + s[j..];
    ByteLenConcat(s[..j], s[j..]);
  }

  function TrimStart(s: string): (r: string)
    ensures r == s || (s != [] && IsWhitespace(s[0]))
    ensures r == [] || !IsWhitespace(r[0])
    ensures |r| <= |s| && r == s[|s| - |r|..]
    ensures r == [] <==> IsBlank(s)
  {
    if s != [] && IsWhitespace(s[0]) then
      var r := TrimStart(s[1..]);
      assert r == s[1..][|s| - 1 - |r|..] == s[|s| - |r|..];
      assert IsBlank(s[1..]) <==> IsBlank(s) by { assert forall i :: 1 <= i < |s| ==> s[i] == s[1..][i - 1]; }
      r
    else s
  }

  lemma BlankSnoc(s: string, n: nat)
    requires n < |s| && IsBlank(s[..|s| - 1][n..]) && IsWhitespace(s[|s| - 1])
    ensures IsBlank(s[n..])
  {
    hide IsWhitespace;
    forall i | 0 <= i < |s[n..]| ensures IsWhitespace(s[n..][i]) {
      if n + i < |s| - 1 { assert s[..|s| - 1][n..][i] == s[n..][i]; }
    }
  }

  function TrimEnd(s: string): (r: string)
    ensures r == s || (s != [] && IsWhitespace(s[|s| - 1]))
    ensures r == [] || !IsWhitespace(r[|r| - 1])
    ensures r <= s
    ensures IsBlank(s[|r|..])
  {
    if s != [] && IsWhitespace(s[|s| - 1]) then
      var r := TrimEnd(s[..|s| - 1]);
      BlankSnoc(s, |r|);
      r
    else s
  }

  lemma PartIn(s: string, tail: string, r: string)
    requires |tail| <= |s| && tail == s[|s| - |tail|..] && r <= tail
    ensures forall c :: c in r ==> c in s
    ensures |r| > 0 ==> r[0] == tail[0]
  {
  }

  function Trim(s: string): (r: string)
    ensures r == [] || (!IsWhitespace(r[0]) && !IsWhitespace(r[|r| - 1]))
    ensures r == [] <==> IsBlank(s)
    ensures forall c :: c in r ==> c in s
  {
    PartIn(s, TrimStart(s), TrimEnd(TrimStart(s)));
    TrimEnd(TrimStart(s))
  }

  lemma TrimStartUnfold(x: string)
    requires |x| > 0
    ensures TrimStart(x) == if IsWhitespace(x[0]) then TrimStart(x[1..]) else x
  {
  }

  lemma {:induction false} TrimStartFront(x: string)
    ensures IsBlank(x[..|x| - |TrimStart(x)|])
  {
    hide TrimStart, IsWhitespace;
    if |x| > 0 {
      TrimStartUnfold(x);
      if IsWhitespace(x[0]) {
        TrimStartFront(x[1..]);
        var n := |x| - |TrimStart(x)|;
        assert forall i :: 1 <= i < n ==> x[..n][i] == x[1..][..n - 1][i - 1];
      }
    }
  }

  lemma TrimIs(x: string)
    ensures Trim(x) == TrimEnd(TrimStart(x))
  {
    hide TrimStart, TrimEnd;
  }

  lemma TrimSplits(x: string) returns (a: string, b: string)
    ensures IsBlank(a) && IsBlank(b) && x == a + Trim(x) + b
  {
    hide TrimStart, TrimEnd, IsBlank, Trim;
    var started := TrimStart(x);
    var ended := TrimEnd(started);
    TrimStartFront(x);
    TrimIs(x);
    a, b := x[..|x| - |started|], started[|ended|..];
    assert started == ended + b && x == a + started;
  }

  predicate IsTrimmed(s: string) {
    s == [] || (!IsWhitespace(s[0]) && !IsWhitespace(s[|s| - 1]))
  }

  predicate OccursAt(s: string, pat: string, i: int) {
    0 <= i && i + |pat| <= |s| && s[i..i + |pat|] == pat
  }

  predicate Contains(s: string, pat: string) {
    exists i {:trigger OccursAt(s, pat, i)} | 0 <= i <= |s| :: OccursAt(s, pat, i)
  }

  /** `str::find`: the first occurrence at or after `from`. */
  function FindFrom(s: string, pat: string, from: nat): (r: Option<nat>)
    requires from <= |s|
    ensures r.Some? ==> from <= r.value && OccursAt(s, pat, r.value)
    ensures r.Some? ==> forall j :: from <= j < r.value ==> !OccursAt(s, pat, j)
    ensures r.None? ==> forall j :: from <= j ==> !OccursAt(s, pat, j)
    decreases |s| - from
  {
    if OccursAt(s, pat, from) then Some(from)
    else if from == |s| then None
    else FindFrom(s, pat, from + 1)
  }

  /** `str::rfind`: the last occurrence at or before `upto`. */
  function FindLast(s: string, pat: string, upto: nat): (r: Option<nat>)
    ensures r.Some? ==> r.value <= upto && OccursAt(s, pat, r.value)
    ensures r.Some? ==> forall j :: r.value < j <= upto ==> !OccursAt(s, pat, j)
    ensures r.None? ==> forall j :: j <= upto ==> !OccursAt(s, pat, j)
  {
    if OccursAt(s, pat, upto) then Some(upto)
    else if upto == 0 then None
    else FindLast(s, pat, upto - 1)
  }

  /** `str::split(sep)`: the pieces between separators, always at least one. */
  function Split(s: string, sep: char): (r: seq<string>)
    ensures |r| >= 1
    ensures forall i :: 0 <= i < |r| ==> sep !in r[i]
  {
    if s == [] then [[]]
    else
      var tail := Split(s[1..], sep);
      if s[0] == sep then [[]] + tail else [[s[0]] + tail[0]] + tail[1..]
  }

  /** `[T]::join(sep)`. */
  function Join(parts: seq<string>, sep: string): string {
    if parts == [] then [] else if |parts| == 1 then parts[0] else parts[0] + sep + Join(parts[1..], sep)
  }
}
