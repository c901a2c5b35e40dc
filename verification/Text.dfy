/** The string operations the parsers rely on, with the laws their proofs use. Strings are
    sequences of Unicode scalar values; every character the code compares against is ASCII. */
module Text {
  import opened Options

  /** Unicode `White_Space`. */
  predicate IsWhitespace(c: char) {
    var n := c as int;
    || 9 <= n <= 13 || n == 32 || n == 0x85 || n == 0xA0 || n == 0x1680
    || 0x2000 <= n <= 0x200A || n == 0x2028 || n == 0x2029 || n == 0x202F || n == 0x205F
    || n == 0x3000
  }

  predicate IsQuote(c: char) {
    c == '"'
  }

  predicate IsDash(c: char) {
    c == '-'
  }

  /** ASCII lower case. */
  function LowerChar(c: char): char {
    if 'A' <= c <= 'Z' then (c as int - 'A' as int + 'a' as int) as char else c
  }

  predicate All(s: string, p: char -> bool) {
    forall i :: 0 <= i < |s| ==> p(s[i])
  }

  // ---------------------------------------------------------------------------------------
  // Trimming

  function StripStart(s: string, p: char -> bool): string {
    if s != "" && p(s[0]) then StripStart(s[1..], p) else s
  }

  function StripEnd(s: string, p: char -> bool): string {
    if s != "" && p(s[|s| - 1]) then StripEnd(s[..|s| - 1], p) else s
  }

  function Strip(s: string, p: char -> bool): string {
    StripEnd(StripStart(s, p), p)
  }

  function Trim(s: string): string {
    Strip(s, IsWhitespace)
  }

  /** Neither end of `s` would be stripped. */
  predicate Tight(s: string, p: char -> bool) {
    s != "" ==> !p(s[0]) && !p(s[|s| - 1])
  }

  lemma {:induction false} StripStartPadding(a: string, s: string, p: char -> bool)
    requires All(a, p) && (s != "" ==> !p(s[0]))
    ensures StripStart(a + s, p) == s
    decreases |a|
  {
    if a == "" {
      assert a + s == s;
    } else {
      assert (a + s)[1..] == a[1..] + s;
      StripStartPadding(a[1..], s, p);
    }
  }

  lemma {:induction false} StripEndPadding(s: string, b: string, p: char -> bool)
    requires All(b, p) && (s != "" ==> !p(s[|s| - 1]))
    ensures StripEnd(s + b, p) == s
    decreases |b|
  {
    if b == "" {
      assert s + b == s;
    } else {
      assert (s + b)[..|s + b| - 1] == s + b[..|b| - 1];
      StripEndPadding(s, b[..|b| - 1], p);
    }
  }

  lemma {:induction false} StripTight(s: string, p: char -> bool)
    requires Tight(s, p)
    ensures Strip(s, p) == s
  {
  }

  /** Stripping removes exactly the padding on both sides. */
  lemma {:induction false} StripPadding(a: string, s: string, b: string, p: char -> bool)
    requires All(a, p) && All(b, p) && Tight(s, p)
    ensures Strip(a + s + b, p) == s
  {
    if s == "" {
      assert All(a + b, p) && a + s + b == (a + b) + "";
      StripStartPadding(a + b, "", p);
    } else {
      assert a + s + b == a + (s + b);
      StripStartPadding(a, s + b, p);
      StripEndPadding(s, b, p);
    }
  }

  lemma {:induction false} StripStartParts(s: string, p: char -> bool) returns (a: string)
    ensures All(a, p) && s == a + StripStart(s, p)
    ensures StripStart(s, p) != "" ==> !p(StripStart(s, p)[0])
    decreases |s|
  {
    if s != "" && p(s[0]) {
      a := StripStartParts(s[1..], p);
      a := [s[0]] + a;
    } else {
      a := "";
    }
  }

  lemma {:induction false} StripEndParts(s: string, p: char -> bool) returns (b: string)
    ensures All(b, p) && s == StripEnd(s, p) + b
    ensures StripEnd(s, p) != "" ==> !p(StripEnd(s, p)[|StripEnd(s, p)| - 1])
    decreases |s|
  {
    if s != "" && p(s[|s| - 1]) {
      b := StripEndParts(s[..|s| - 1], p);
      b := b + [s[|s| - 1]];
    } else {
      b := "";
    }
  }

  /** What is stripped is padding, and the rest is tight. */
  lemma {:induction false} StripParts(s: string, p: char -> bool) returns (a: string, b: string)
    ensures All(a, p) && All(b, p) && s == a + Strip(s, p) + b && Tight(Strip(s, p), p)
  {
    a := StripStartParts(s, p);
    var mid := StripStart(s, p);
    b := StripEndParts(mid, p);
    if Strip(s, p) != "" {
      assert Strip(s, p)[0] == mid[0];
    }
  }

  // ---------------------------------------------------------------------------------------
  // Searching

  predicate Occurs(s: string, pat: string, i: int) {
    0 <= i && i + |pat| <= |s| && s[i..i + |pat|] == pat
  }

  /** The first occurrence of `pat` at or after `from`. */
  function FindFrom(s: string, pat: string, from: nat): (r: Option<nat>)
    requires from <= |s|
    ensures r.Some? ==> from <= r.value && Occurs(s, pat, r.value)
                        && forall j :: from <= j < r.value ==> !Occurs(s, pat, j)
    ensures r.None? ==> forall j :: from <= j ==> !Occurs(s, pat, j)
    decreases |s| - from
  {
    if Occurs(s, pat, from) then Some(from)
    else if from == |s| then None
    else FindFrom(s, pat, from + 1)
  }

  function Find(s: string, pat: string): (r: Option<nat>)
    ensures r.Some? ==> Occurs(s, pat, r.value) && forall j :: 0 <= j < r.value ==> !Occurs(s, pat, j)
    ensures r.None? ==> forall j :: 0 <= j ==> !Occurs(s, pat, j)
  {
    FindFrom(s, pat, 0)
  }

  /** The position of the first `c`. */
  function FindChar(s: string, c: char): (r: Option<nat>)
    ensures r.Some? ==> r.value < |s| && s[r.value] == c && c !in s[..r.value]
    ensures r.None? ==> c !in s
  {
    if s == "" then None
    else if s[0] == c then Some(0)
    else
      var r := FindChar(s[1..], c);
      if r.None? then None else Some(r.value + 1)
  }

  lemma {:induction false} FindCharAt(a: string, c: char, b: string)
    requires c !in a
    ensures FindChar(a + [c] + b, c) == Some(|a|)
    ensures (a + [c] + b)[..|a|] == a && (a + [c] + b)[|a| + 1..] == b
  {
    if a != "" {
      assert (a + [c] + b)[1..] == a[1..] + [c] + b;
      FindCharAt(a[1..], c, b);
    }
  }

  // ---------------------------------------------------------------------------------------
  // Splitting

  function SplitOnce(s: string, c: char): Option<(string, string)> {
    var r := FindChar(s, c);
    if r.None? then None else Some((s[..r.value], s[r.value + 1..]))
  }

  lemma {:induction false} SplitOnceAt(a: string, c: char, b: string)
    requires c !in a
    ensures SplitOnce(a + [c] + b, c) == Some((a, b))
  {
    FindCharAt(a, c, b);
  }

  /** All pieces between occurrences of `c`; a string without `c` is its own single piece. */
  function Split(s: string, c: char): (r: seq<string>)
    ensures |r| >= 1
    decreases |s|
  {
    var r := FindChar(s, c);
    if r.None? then [s] else [s[..r.value]] + Split(s[r.value + 1..], c)
  }

  function Join(parts: seq<string>, sep: string): string {
    if parts == [] then ""
    else if |parts| == 1 then parts[0]
    else parts[0] + sep + Join(parts[1..], sep)
  }

  lemma {:induction false} SplitAt(a: string, c: char, b: string)
    requires c !in a
    ensures Split(a + [c] + b, c) == [a] + Split(b, c)
  {
    FindCharAt(a, c, b);
  }

  lemma {:induction false} SplitNone(a: string, c: char)
    requires c !in a
    ensures Split(a, c) == [a]
  {
  }

  /** Lines as `str::lines` yields them: terminators `\n` and `\r\n`, the last one optional. */
  function Lines(s: string): seq<string>
    decreases |s|
  {
    if s == "" then []
    else
      var r := FindChar(s, '\n');
      if r.None? then [s] else [DropCr(s[..r.value])] + Lines(s[r.value + 1..])
  }

  function DropCr(s: string): string {
    if s != "" && s[|s| - 1] == '\r' then s[..|s| - 1] else s
  }

  function Unlines(lines: seq<string>): string {
    if lines == [] then "" else lines[0] + "\n" + Unlines(lines[1..])
  }

  /** A line that `Lines` hands back unchanged. */
  predicate PlainLine(l: string) {
    '\n' !in l && (l != "" ==> l[|l| - 1] != '\r')
  }

  lemma {:induction false} LinesStep(l: string, rest: string)
    requires PlainLine(l)
    ensures Lines(l + ['\n'] + rest) == [l] + Lines(rest)
  {
    FindCharAt(l, '\n', rest);
  }

  lemma {:induction false} LinesOfUnlines(lines: seq<string>, tail: string)
    requires forall i :: 0 <= i < |lines| ==> PlainLine(lines[i])
    ensures Lines(Unlines(lines) + tail) == lines + Lines(tail)
  {
    if lines == [] {
      assert Unlines(lines) + tail == tail;
    } else {
      var l, rest := lines[0], Unlines(lines[1..]) + tail;
      calc {
        Lines(Unlines(lines) + tail);
        { assert Unlines(lines) + tail == l + ['\n'] + rest; }
        Lines(l + ['\n'] + rest);
        { LinesStep(l, rest); }
        [l] + Lines(rest);
        { LinesOfUnlines(lines[1..], tail); }
        [l] + (lines[1..] + Lines(tail));
        lines + Lines(tail);
      }
    }
  }

  lemma {:induction false} UnlinesConcat(a: seq<string>, b: seq<string>)
    ensures Unlines(a + b) == Unlines(a) + Unlines(b)
  {
    if a == [] {
      assert a + b == b;
    } else {
      assert (a + b)[1..] == a[1..] + b;
      UnlinesConcat(a[1..], b);
    }
  }
}
