/** Expanding the shell markers of a prompt: "!", a backquote, a command, a backquote. */
module ShellExpansion {
  import opened Options
  import opened Text

  const OPEN := "!`"

  /** What running a command produced. */
  datatype Outcome = Success(stdout: string) | Failure(stderr: string) | NotRun(error: string)

  /** The shell: the outcome of the n-th command run. Depending on `n` lets the same command
      behave differently each time. */
  type Shell = (nat, string) -> Outcome

  function Rendered(o: Outcome): string {
    match o
    case Success(stdout) => StripEnd(stdout, IsWhitespace)
    case Failure(stderr) => "[shell error: " + Trim(stderr) + "]"
    case NotRun(error) => "[shell exec failed: " + error + "]"
  }

  // ---------------------------------------------------------------------------------------
  // Prompts as alternating literals and commands

  /** A prompt: literal text before each command, and the text after the last one. */
  datatype Prompt = End(text: string) | Command(text: string, command: string, rest: Prompt)

  function Print(p: Prompt): string {
    match p
    case End(text) => text
    case Command(text, command, rest) => text + OPEN + command + "`" + Print(rest)
  }

  /** A literal ends where the first marker starts; the last literal has no closed marker. */
  ghost predicate Canonical(p: Prompt) {
    match p
    case End(text) => !HasClosedMarker(text)
    case Command(text, command, rest) =>
      && (forall j :: 0 <= j < |text| ==> !Occurs(text + OPEN, OPEN, j))
      && '`' !in command
      && Canonical(rest)
  }

  /** Some marker is followed by a closing backquote. */
  ghost predicate HasClosedMarker(s: string) {
    exists j :: Occurs(s, OPEN, j) && '`' in s[j + 2..]
  }

  /** Each command replaced by its rendered outcome, commands numbered from `n`. */
  function Interpret(p: Prompt, shell: Shell, n: nat): string {
    match p
    case End(text) => text
    case Command(text, command, rest) =>
      text + Rendered(shell(n, command)) + Interpret(rest, shell, n + 1)
  }

  /** The tokenisation of a text. */
  function Tokens(s: string): Prompt
    decreases |s|
  {
    match Find(s, OPEN)
    case None => End(s)
    case Some(start) =>
      var after := s[start + 2..];
      match FindChar(after, '`')
      case None => End(s)
      case Some(end) => Command(s[..start], after[..end], Tokens(after[end + 1..]))
  }

  // The three ways a text tokenises.

  lemma {:induction false} TokensClosed(s: string, start: nat, end: nat)
    requires Find(s, OPEN) == Some(start) && FindChar(s[start + 2..], '`') == Some(end)
    ensures Tokens(s) == Command(s[..start], s[start + 2..][..end], Tokens(s[start + 2..][end + 1..]))
  {
  }

  lemma {:induction false} TokensUnclosed(s: string, start: nat)
    requires Find(s, OPEN) == Some(start) && FindChar(s[start + 2..], '`') == None
    ensures Tokens(s) == End(s)
  {
  }

  lemma {:induction false} TokensNone(s: string)
    requires Find(s, OPEN) == None
    ensures Tokens(s) == End(s)
  {
  }

  /** Splitting at a marker found first, and closed first, loses nothing. */
  lemma {:induction false} MarkerSplits(s: string, start: nat, end: nat)
    requires Occurs(s, OPEN, start) && start + 2 + end < |s| && s[start + 2 + end] == '`'
    ensures s == s[..start] + OPEN + s[start + 2..][..end] + "`" + s[start + 2..][end + 1..]
  {
  }

  lemma {:induction false} OccursInPrefix(s: string, n: nat, j: nat)
    requires n + 2 <= |s| && j + 2 <= n + 2
    ensures Occurs(s[..n + 2], OPEN, j) == Occurs(s, OPEN, j)
  {
    assert s[..n + 2][j..j + 2] == s[j..j + 2];
  }

  /** The tokenisation prints back to the text it came from and is canonical. */
  lemma {:induction false} TokensPrintBack(s: string)
    ensures Print(Tokens(s)) == s && Canonical(Tokens(s))
    decreases |s|
  {
    var found := Find(s, OPEN);
    if found.None? {
      TokensNone(s);
    } else {
      var start := found.value;
      var closed := FindChar(s[start + 2..], '`');
      if closed.Some? {
        TokensClosed(s, start, closed.value);
        TokensPrintBack(s[start + 2..][closed.value + 1..]);
        MarkerSplits(s, start, closed.value);
        FirstMarker(s, start);
      } else {
        TokensUnclosed(s, start);
        UnclosedHasNone(s, start);
      }
    }
  }

  lemma {:induction false} FirstMarker(s: string, start: nat)
    requires Find(s, OPEN) == Some(start)
    ensures forall j :: 0 <= j < start ==> !Occurs(s[..start] + OPEN, OPEN, j)
  {
    assert s[..start] + OPEN == s[..start + 2];
    forall j | 0 <= j < start ensures !Occurs(s[..start] + OPEN, OPEN, j) {
      OccursInPrefix(s, start, j);
    }
  }

  lemma {:induction false} UnclosedHasNone(s: string, start: nat)
    requires Occurs(s, OPEN, start) && forall j :: 0 <= j < start ==> !Occurs(s, OPEN, j)
    requires '`' !in s[start + 2..]
    ensures !HasClosedMarker(s)
  {
    forall j | Occurs(s, OPEN, j) ensures '`' !in s[j + 2..] {
      assert s[j + 2..] == s[start + 2..][j - start..];
    }
  }

  /** There is only one canonical reading of a text. */
  lemma {:induction false} TokensAreUnique(p: Prompt)
    requires Canonical(p)
    ensures Tokens(Print(p)) == p
    decreases p
  {
    match p {
      case End(text) =>
        EndTokens(text);
      case Command(text, command, rest) =>
        var tail := command + ['`'] + Print(rest);
        assert Print(p) == text + OPEN + tail;
        MarkerIsFound(text, tail);
        FindCharAt(command, '`', Print(rest));
        TokensClosed(text + OPEN + tail, |text|, |command|);
        TokensAreUnique(rest);
    }
  }

  lemma {:induction false} EndTokens(text: string)
    requires !HasClosedMarker(text)
    ensures Tokens(text) == End(text)
  {
    var found := Find(text, OPEN);
    if found.None? {
      TokensNone(text);
    } else {
      assert '`' !in text[found.value + 2..];
      TokensUnclosed(text, found.value);
    }
  }

  lemma {:induction false} MarkerIsFound(text: string, tail: string)
    requires forall j :: 0 <= j < |text| ==> !Occurs(text + OPEN, OPEN, j)
    ensures var s := text + OPEN + tail;
            Find(s, OPEN) == Some(|text|) && s[..|text|] == text && s[|text| + 2..] == tail
  {
    var s, start := text + OPEN + tail, |text|;
    assert s[..start + 2] == text + OPEN;
    assert Occurs(s, OPEN, start) by { assert s[start..start + 2] == OPEN; }
    forall j | 0 <= j < start ensures !Occurs(s, OPEN, j) {
      OccursInPrefix(s, start, j);
    }
  }

  // ---------------------------------------------------------------------------------------
  // The expander

  /** The expansion is the prompt with every closed marker replaced, left to right; what the
      shell printed is never looked at again. */
  method ExpandShellCommands(prompt: string, shell: Shell) returns (result: string)
    ensures result == Interpret(Tokens(prompt), shell, 0)
  {
    result := "";
    var remaining := prompt;
    var calls := 0;
    while true
      invariant result + Interpret(Tokens(remaining), shell, calls) == Interpret(Tokens(prompt), shell, 0)
      decreases |remaining|
    {
      var start := Find(remaining, OPEN);
      if start.None? {
        break;
      }
      var afterMarker := remaining[start.value + 2..];
      var end := FindChar(afterMarker, '`');
      if end.Some? {
        ClosedStep(result, remaining, start.value, end.value, shell, calls);
        result := result + remaining[..start.value];
        result := result + Rendered(shell(calls, afterMarker[..end.value]));
        remaining := afterMarker[end.value + 1..];
        calls := calls + 1;
      } else {
        UnclosedStep(result, remaining, start.value, shell, calls);
        result := result + remaining[..start.value];
        result := result + OPEN;
        remaining := afterMarker;
      }
    }
    result := result + remaining;
  }

  /** Handling the first closed marker after `done` has been emitted. */
  lemma {:induction false} ClosedStep(done: string, s: string, start: nat, end: nat, shell: Shell, n: nat)
    requires Find(s, OPEN) == Some(start) && FindChar(s[start + 2..], '`') == Some(end)
    ensures done + Interpret(Tokens(s), shell, n)
         == done + s[..start] + Rendered(shell(n, s[start + 2..][..end]))
            + Interpret(Tokens(s[start + 2..][end + 1..]), shell, n + 1)
  {
    TokensClosed(s, start, end);
  }

  /** Passing over a marker that is never closed. */
  lemma {:induction false} UnclosedStep(done: string, s: string, start: nat, shell: Shell, n: nat)
    requires Find(s, OPEN) == Some(start) && FindChar(s[start + 2..], '`') == None
    ensures done + Interpret(Tokens(s), shell, n)
         == done + s[..start] + OPEN + Interpret(Tokens(s[start + 2..]), shell, n)
  {
    calc {
      done + Interpret(Tokens(s), shell, n);
      { TokensUnclosed(s, start); }
      done + s;
      { MarkerRejoins(done, s, start); }
      done + s[..start] + OPEN + s[start + 2..];
      { NoMarkerAfterUnclosed(s, start); }
      done + s[..start] + OPEN + Interpret(Tokens(s[start + 2..]), shell, n);
    }
  }

  lemma {:induction false} MarkerRejoins(done: string, s: string, start: nat)
    requires Occurs(s, OPEN, start)
    ensures done + s == done + s[..start] + OPEN + s[start + 2..]
  {
    assert s == s[..start] + OPEN + s[start + 2..];
  }

  lemma {:induction false} NoMarkerAfterUnclosed(s: string, start: nat)
    requires Occurs(s, OPEN, start) && '`' !in s[start + 2..]
    ensures Tokens(s[start + 2..]) == End(s[start + 2..])
  {
    var after := s[start + 2..];
    forall j | 0 <= j && j + 2 <= |after| ensures !Occurs(after, OPEN, j) {
      assert after[j + 1] in after;
      assert after[j..j + 2][1] == after[j + 1];
    }
  }

  /** A prompt without a closed marker is returned as it is, and only such a prompt runs
      nothing. */
  lemma {:induction false} NothingToExpand(prompt: string, shell: Shell)
    ensures !HasClosedMarker(prompt) <==> Tokens(prompt).End?
    ensures !HasClosedMarker(prompt) ==> Interpret(Tokens(prompt), shell, 0) == prompt
  {
    TokensPrintBack(prompt);
    if Tokens(prompt).Command? {
      var start := Find(prompt, OPEN).value;
      assert Occurs(prompt, OPEN, start) && '`' in prompt[start + 2..];
    }
  }

  // ---------------------------------------------------------------------------------------
  // What an expansion consists of

  /** How an outcome shows: output without the whitespace at its end, and only that is taken away;
      an error between brackets, trimmed on both sides; a command that could not run by its cause. */
  lemma {:induction false} OutcomeShows(o: Outcome)
    ensures o.Success? ==>
              var r := Rendered(o);
              && r <= o.stdout && All(o.stdout[|r|..], IsWhitespace)
              && (r != "" ==> !IsWhitespace(r[|r| - 1]))
    ensures o.Failure? ==>
              exists a, said, b ::
                && All(a, IsWhitespace) && All(b, IsWhitespace) && Tight(said, IsWhitespace)
                && o.stderr == a + said + b && Rendered(o) == "[shell error: " + said + "]"
    ensures o.NotRun? ==> Rendered(o) == "[shell exec failed: " + o.error + "]"
  {
    match o {
      case Success(stdout) =>
        var b := StripEndParts(stdout, IsWhitespace);
        assert stdout[|StripEnd(stdout, IsWhitespace)|..] == b;
      case Failure(stderr) =>
        var a, b := StripParts(stderr, IsWhitespace);
      case NotRun(_) =>
    }
  }

  function Commands(p: Prompt): seq<string> {
    match p
    case End(_) => []
    case Command(_, command, rest) => [command] + Commands(rest)
  }

  /** The shell is asked for each command once, in order: shells that agree on the k-th command as
      the k-th one run give the same expansion. */
  lemma {:induction false} CommandsRunInOrder(p: Prompt, a: Shell, b: Shell, n: nat)
    requires forall k :: 0 <= k < |Commands(p)| ==> a(n + k, Commands(p)[k]) == b(n + k, Commands(p)[k])
    ensures Interpret(p, a, n) == Interpret(p, b, n)
  {
    match p
    case End(_) =>
    case Command(_, command, rest) =>
      assert a(n + 0, Commands(p)[0]) == b(n + 0, Commands(p)[0]);
      forall k | 0 <= k < |Commands(rest)|
        ensures a(n + 1 + k, Commands(rest)[k]) == b(n + 1 + k, Commands(rest)[k])
      {
        assert Commands(p)[k + 1] == Commands(rest)[k];
        assert a(n + (k + 1), Commands(p)[k + 1]) == b(n + (k + 1), Commands(p)[k + 1]);
      }
      CommandsRunInOrder(rest, a, b, n + 1);
  }

  /** Everything but the markers is kept where it is: were each command shown as its own marker,
      the expansion would be the prompt. */
  lemma {:induction false} TextIsKept(p: Prompt, shell: Shell, n: nat)
    requires forall k: nat, command :: Rendered(shell(k, command)) == OPEN + command + "`"
    ensures Interpret(p, shell, n) == Print(p)
  {
    match p
    case End(_) =>
    case Command(text, command, rest) =>
      TextIsKept(rest, shell, n + 1);
      assert text + (OPEN + command + "`") + Print(rest) == text + OPEN + command + "`" + Print(rest);
  }
}
