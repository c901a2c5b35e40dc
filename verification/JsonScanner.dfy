/** Pulling the first balanced `{...}` object out of a model's reply. */
module JsonScanner {
  import opened Options
  import opened Text

  /** What the scanner remembers: inside a string, just after a backslash, brace depth. */
  datatype Scan = Scan(inString: bool, escaped: bool, depth: int)

  const START := Scan(false, false, 0)

  function Outside(depth: int): Scan {
    Scan(false, false, depth)
  }

  function Advance(s: Scan, c: char): Scan {
    if s.inString then
      if s.escaped then s.(escaped := false)
      else if c == '\\' then s.(escaped := true)
      else if c == '"' then s.(inString := false)
      else s
    else if c == '"' then s.(inString := true)
    else if c == '{' then s.(depth := s.depth + 1)
    else if c == '}' then s.(depth := s.depth - 1)
    else s
  }

  function Run(s: Scan, text: string): Scan {
    if text == "" then s else Advance(Run(s, text[..|text| - 1]), text[|text| - 1])
  }

  /** Braces opened minus braces closed, counting only those outside string literals. */
  function Depth(text: string): int {
    Run(START, text).depth
  }

  /** Opens with a brace that is closed by the last character and not before. */
  ghost predicate Balanced(t: string) {
    && t != "" && t[0] == '{' && Depth(t) == 0
    && forall k :: 0 < k < |t| ==> Depth(t[..k]) >= 1
  }

  function DropOpeningFence(s: string): string {
    if "```json" <= s then s[7..] else if "```" <= s then s[3..] else s
  }

  function DropClosingFence(s: string): string {
    if |s| >= 3 && s[|s| - 3..] == "```" then s[..|s| - 3] else s
  }

  /** The reply without surrounding whitespace and code fences. */
  function Unfence(raw: string): string {
    Trim(DropClosingFence(DropOpeningFence(Trim(raw))))
  }

  /** `r` is the balanced slice at the first brace, or `None` when there is no such slice. */
  ghost predicate IsExtraction(raw: string, r: Option<string>) {
    var s := Unfence(raw);
    var start := FindChar(s, '{');
    match r
    case Some(t) => start.Some? && t <= s[start.value..] && Balanced(t)
    case None => start.Some? ==> forall t :: t <= s[start.value..] ==> !Balanced(t)
  }

  /** No balanced text extends another, so there is at most one balanced slice. */
  lemma BalancedIsUnique(t: string, u: string, s: string)
    requires Balanced(t) && Balanced(u) && t <= s && u <= s
    ensures t == u
  {
    forall n | 0 < n < |u| ensures !Balanced(s[..n]) { assert u[..n] == s[..n]; }
    forall n | 0 < n < |t| ensures !Balanced(s[..n]) { assert t[..n] == s[..n]; }
    assert t == s[..|t|] && u == s[..|u|];
  }

  lemma {:induction false} RunStep(text: string, n: nat)
    requires n < |text|
    ensures Run(START, text[..n + 1]) == Advance(Run(START, text[..n]), text[n])
  {
    assert text[..n + 1][..n] == text[..n];
  }

  /** The first `n` characters open a brace that none of them closes again. */
  ghost predicate Open(rest: string, n: nat)
    requires n <= |rest|
  {
    forall k :: 0 < k <= n ==> Depth(rest[..k]) >= 1
  }

  /** The loop has read `n` characters and is in state `at`. */
  ghost predicate Reading(rest: string, n: int, at: Scan) {
    0 <= n <= |rest| && at == Run(START, rest[..n]) && Open(rest, n)
  }

  lemma {:induction false} ReadNext(rest: string, n: nat, at: Scan)
    requires Reading(rest, n, at) && n < |rest| && rest[0] == '{'
    ensures var next := Advance(at, rest[n]);
            if next.depth == 0 then Balanced(rest[..n + 1]) else Reading(rest, n + 1, next)
  {
    RunStep(rest, n);
    assert rest[..0] == "";
    if Depth(rest[..n + 1]) == 0 {
      FirstReturn(rest, n + 1);
    }
  }

  /** Depth stays positive until the position where it first returns to zero. */
  lemma {:induction false} FirstReturn(rest: string, n: nat)
    requires 0 < n <= |rest| && rest[0] == '{' && Depth(rest[..n]) == 0 && Open(rest, n - 1)
    ensures Balanced(rest[..n])
  {
    forall k | 0 < k < n ensures Depth(rest[..n][..k]) >= 1 {
      assert rest[..n][..k] == rest[..k];
    }
  }

  lemma {:induction false} NeverClosed(rest: string, t: string)
    requires Open(rest, |rest|) && t <= rest
    ensures !Balanced(t)
  {
    assert t == rest[..|t|];
  }

  method ExtractJsonObject(raw: string) returns (r: Option<string>)
    ensures IsExtraction(raw, r)
  {
    var s := Unfence(raw);
    var first := FindChar(s, '{');
    if first.None? {
      return None;
    }
    var start := first.value;
    ghost var rest := s[start..];
    var depth, inString, escaped := 0, false, false;
    var i := start;
    while i < |s|
      invariant start <= i <= |s|
      invariant Reading(rest, i - start, Scan(inString, escaped, depth))
    {
      var b := s[i];
      ReadNext(rest, i - start, Scan(inString, escaped, depth));
      if inString {
        if escaped {
          escaped := false;
        } else if b == '\\' {
          escaped := true;
        } else if b == '"' {
          inString := false;
        }
      } else if b == '"' {
        inString := true;
      } else if b == '{' {
        depth := depth + 1;
      } else if b == '}' {
        depth := depth - 1;
        if depth == 0 {
          assert rest[..i + 1 - start] == s[start..i + 1];
          return Some(s[start..i + 1]);
        }
      }
      i := i + 1;
    }
    forall t | t <= rest ensures !Balanced(t) {
      NeverClosed(rest, t);
    }
    r := None;
  }

  // ---------------------------------------------------------------------------------------
  // Prose and fences around an object do not matter

  /** Cutting text without an opening brace from the front and text without a closing brace
      from the back leaves an object in place. */
  lemma CutKeepsObject(p: string, t: string, tail: string, i: nat, j: nat)
    requires t != "" && t[0] == '{' && t[|t| - 1] == '}'
    requires i <= j <= |p + t + tail|
    requires '{' !in (p + t + tail)[..i] && '}' !in (p + t + tail)[j..]
    ensures i <= |p| && |p| + |t| <= j
    ensures (p + t + tail)[i..j] == p[i..] + t + tail[..j - |p| - |t|]
  {
    var s := p + t + tail;
    assert s[|p|] == '{' && s[|p| + |t| - 1] == '}';
    forall k | 0 <= k < i ensures s[k] != '{' { assert s[k] in s[..i]; }
    forall k | j <= k < |s| ensures s[k] != '}' { assert s[j..][k - j] == s[k]; }
  }

  /** `s` is an object between brace-free prose and any tail. */
  ghost predicate Holds(s: string, t: string, p: string, tail: string) {
    && '{' !in p && t != "" && t[0] == '{' && t[|t| - 1] == '}'
    && s == p + t + tail
  }

  lemma OpeningFence(s: string, t: string, p: string, tail: string) returns (p': string)
    requires Holds(s, t, p, tail)
    ensures Holds(DropOpeningFence(s), t, p', tail)
  {
    var i := if "```json" <= s then 7 else if "```" <= s then 3 else 0;
    assert i == 7 ==> s[..7] == "```json";
    assert i == 3 ==> s[..3] == "```";
    assert '{' !in s[..i] && s[|s|..] == "";
    CutKeepsObject(p, t, tail, i, |s|);
    p' := p[i..];
    assert tail[..|tail|] == tail && s[i..|s|] == s[i..] && s[0..] == s;
  }

  lemma ClosingFence(s: string, t: string, p: string, tail: string) returns (tail': string)
    requires Holds(s, t, p, tail)
    ensures Holds(DropClosingFence(s), t, p, tail')
  {
    var j := if |s| >= 3 && s[|s| - 3..] == "```" then |s| - 3 else |s|;
    assert '}' !in s[j..];
    assert p[0..] == p && s[0..j] == s[..j] && s[..|s|] == s;
    CutKeepsObject(p, t, tail, 0, j);
    tail' := tail[..j - |p| - |t|];
  }

  lemma Trimmed(s: string, t: string, p: string, tail: string) returns (p': string, tail': string)
    requires Holds(s, t, p, tail)
    ensures Holds(Trim(s), t, p', tail')
  {
    var a, b := StripParts(s, IsWhitespace);
    assert s[..|a|] == a && s[|s| - |b|..] == b;
    CutKeepsObject(p, t, tail, |a|, |s| - |b|);
    p', tail' := p[|a|..], tail[..|s| - |b| - |p| - |t|];
    assert s[|a|..|s| - |b|] == Trim(s);
  }

  /** The scanner returns exactly the object, whatever brace-free prose comes before it and
      whatever comes after it, code fences included. */
  lemma ExtractionFindsObject(p: string, t: string, tail: string, r: Option<string>)
    requires '{' !in p && Balanced(t) && t[|t| - 1] == '}'
    requires IsExtraction(p + t + tail, r)
    ensures r == Some(t)
  {
    var s := p + t + tail;
    var p', tail' := Trimmed(s, t, p, tail);
    p' := OpeningFence(Trim(s), t, p', tail');
    tail' := ClosingFence(DropOpeningFence(Trim(s)), t, p', tail');
    p', tail' := Trimmed(DropClosingFence(DropOpeningFence(Trim(s))), t, p', tail');
    s := Unfence(s);
    assert s == p' + ['{'] + (t[1..] + tail');
    FindCharAt(p', '{', t[1..] + tail');
    assert t <= s[|p'|..];
    if r.Some? {
      BalancedIsUnique(t, r.value, s[|p'|..]);
    }
  }
}
