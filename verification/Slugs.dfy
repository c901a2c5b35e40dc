/** Two slug algorithms: quest ids through split, filter and join, and browser evidence through
    a one-pass loop with a flag. */
module Slugs {
  import opened Options
  import opened Text

  predicate IsAlnum(c: char) {
    'a' <= c <= 'z' || 'A' <= c <= 'Z' || '0' <= c <= '9'
  }

  function Mapped(s: string): string {
    seq(|s|, i requires 0 <= i < |s| => if IsAlnum(s[i]) then LowerChar(s[i]) else '-')
  }

  function NonEmpty(parts: seq<string>): seq<string> {
    if parts == [] then []
    else NonEmpty(parts[..|parts| - 1]) + if parts[|parts| - 1] == "" then [] else [parts[|parts| - 1]]
  }

  /** The slug before the fallback for an empty one. */
  function Core(s: string): string {
    Join(NonEmpty(Split(Mapped(s), '-')), "-")
  }

  function QuestSlug(s: string): string {
    if Core(s) == "" then "quest" else Core(s)
  }

  // ---------------------------------------------------------------------------------------
  // One more character

  /** One more character for the last piece of a split, or one more piece. */
  function Grow(parts: seq<string>, c: char, sep: char): seq<string>
    requires parts != []
  {
    var n := |parts| - 1;
    if c == sep then parts + [""] else parts[..n] + [parts[n] + [c]]
  }

  lemma {:induction false} GrowCons(a: string, more: seq<string>, c: char, sep: char)
    requires more != []
    ensures Grow([a] + more, c, sep) == [a] + Grow(more, c, sep)
  {
    assert ([a] + more)[..|more|] == [a] + more[..|more| - 1];
  }

  /** The split of a string with one more character at its end. */
  lemma {:induction false} SplitSnoc(x: string, c: char, sep: char)
    ensures Split(x + [c], sep) == Grow(Split(x, sep), c, sep)
    decreases |x|
  {
    var r := FindChar(x, sep);
    if r.None? {
      SplitNone(x, sep);
      UnsplitSnoc(x, c, sep);
    } else {
      var a, b := x[..r.value], x[r.value + 1..];
      calc {
        Split(x + [c], sep);
        { assert x + [c] == a + [sep] + (b + [c]); }
        Split(a + [sep] + (b + [c]), sep);
        { SplitAt(a, sep, b + [c]); }
        [a] + Split(b + [c], sep);
        { SplitSnoc(b, c, sep); }
        [a] + Grow(Split(b, sep), c, sep);
        { GrowCons(a, Split(b, sep), c, sep); }
        Grow([a] + Split(b, sep), c, sep);
      }
    }
  }

  lemma {:induction false} UnsplitSnoc(x: string, c: char, sep: char)
    requires sep !in x
    ensures Split(x + [c], sep) == Grow([x], c, sep)
  {
    if c == sep {
      SplitAt(x, sep, "");
      assert x + [c] == x + [sep] + "";
      SplitNone("", sep);
    } else {
      SplitNone(x + [c], sep);
      assert [x][..0] == [];
    }
  }

  lemma {:induction false} JoinSnoc(ws: seq<string>, w: string)
    ensures Join(ws + [w], "-") == if ws == [] then w else Join(ws, "-") + "-" + w
  {
    if |ws| == 1 {
      assert (ws + [w])[1..] == [w];
    } else if |ws| > 1 {
      assert (ws + [w])[1..] == ws[1..] + [w];
      JoinSnoc(ws[1..], w);
    }
  }

  function Words(s: string): seq<string> {
    NonEmpty(Split(Mapped(s), '-'))
  }

  /** Whether the next letter or digit would continue the last word. */
  predicate InWord(s: string) {
    s != "" && IsAlnum(s[|s| - 1])
  }

  /** The last piece of the split is empty exactly outside a word. */
  lemma {:induction false} LastPiece(s: string)
    ensures var parts := Split(Mapped(s), '-');
            parts[|parts| - 1] != "" <==> InWord(s)
  {
    if s == "" {
      SplitNone("", '-');
      assert Mapped(s) == "";
    } else {
      var c := s[|s| - 1];
      MappedSnoc(s[..|s| - 1], c);
      assert s == s[..|s| - 1] + [c];
      SplitSnoc(Mapped(s[..|s| - 1]), if IsAlnum(c) then LowerChar(c) else '-', '-');
    }
  }

  lemma {:induction false} WordsSnoc(s: string, c: char)
    ensures !IsAlnum(c) ==> Words(s + [c]) == Words(s)
    ensures IsAlnum(c) && !InWord(s) ==> Words(s + [c]) == Words(s) + [[LowerChar(c)]]
    ensures IsAlnum(c) && InWord(s) ==>
              var n := |Words(s)| - 1;
              n >= 0 && Words(s + [c]) == Words(s)[..n] + [Words(s)[n] + [LowerChar(c)]]
  {
    var d := if IsAlnum(c) then LowerChar(c) else '-';
    var parts := Split(Mapped(s), '-');
    MappedSnoc(s, c);
    SplitSnoc(Mapped(s), d, '-');
    LastPiece(s);
    NonEmptyGrow(parts, d);
  }

  lemma {:induction false} MappedSnoc(s: string, c: char)
    ensures Mapped(s + [c]) == Mapped(s) + [if IsAlnum(c) then LowerChar(c) else '-']
  {
  }

  /** How the non-empty pieces grow with the last one. */
  lemma {:induction false} NonEmptyGrow(parts: seq<string>, d: char)
    requires parts != []
    ensures d == '-' ==> NonEmpty(Grow(parts, d, '-')) == NonEmpty(parts)
    ensures d != '-' ==>
              var n, last, kept := |parts| - 1, parts[|parts| - 1], NonEmpty(parts);
              if last == "" then NonEmpty(Grow(parts, d, '-')) == kept + [[d]]
              else kept != [] && NonEmpty(Grow(parts, d, '-')) == kept[..|kept| - 1] + [kept[|kept| - 1] + [d]]
  {
    var n := |parts| - 1;
    NonEmptySnoc(parts[..n], parts[n]);
    assert parts == parts[..n] + [parts[n]];
    NonEmptySnoc(parts[..n], parts[n] + [d]);
    NonEmptySnoc(parts, "");
    assert "" + [d] == [d];
  }

  lemma {:induction false} NonEmptySnoc(parts: seq<string>, last: string)
    ensures NonEmpty(parts + [last]) == NonEmpty(parts) + if last == "" then [] else [last]
  {
    assert (parts + [last])[..|parts|] == parts;
  }

  /** How the slug grows by one character. */
  lemma {:induction false} CoreSnoc(s: string, c: char)
    ensures !IsAlnum(c) ==> Core(s + [c]) == Core(s)
    ensures IsAlnum(c) && InWord(s) ==> Core(s + [c]) == Core(s) + [LowerChar(c)]
    ensures IsAlnum(c) && !InWord(s) ==>
              Core(s + [c]) == if Words(s) == [] then [LowerChar(c)] else Core(s) + "-" + [LowerChar(c)]
  {
    WordsSnoc(s, c);
    var ws := Words(s);
    if IsAlnum(c) && InWord(s) {
      var n := |ws| - 1;
      assert ws == ws[..n] + [ws[n]];
      JoinSnoc(ws[..n], ws[n]);
      JoinSnoc(ws[..n], ws[n] + [LowerChar(c)]);
    } else if IsAlnum(c) {
      JoinSnoc(ws, [LowerChar(c)]);
    }
  }

  // ---------------------------------------------------------------------------------------
  // Normal form

  predicate IsSlugChar(c: char) {
    'a' <= c <= 'z' || '0' <= c <= '9' || c == '-'
  }

  /** Lower-case letters, digits and dashes; no dash first, last or doubled. */
  predicate Normal(t: string) {
    && All(t, IsSlugChar)
    && (t != "" ==> t[0] != '-' && t[|t| - 1] != '-')
    && forall i :: 0 <= i < |t| - 1 ==> !(t[i] == '-' && t[i + 1] == '-')
  }

  lemma {:induction false} EmptySlug()
    ensures Words("") == [] && Core("") == ""
  {
    assert Mapped("") == "";
    SplitNone("", '-');
    assert NonEmpty([""]) == [] by { assert NonEmpty([""][..0]) == []; }
  }

  /** Letters and digits extend a normal form, after a dash or directly. */
  lemma {:induction false} NormalSnoc(t: string, c: char)
    requires Normal(t) && IsAlnum(c)
    ensures Normal(t + [LowerChar(c)]) && (t != "" ==> Normal(t + "-" + [LowerChar(c)]))
  {
    var u, v := t + [LowerChar(c)], t + "-" + [LowerChar(c)];
    assert All(u, IsSlugChar) && All(v, IsSlugChar);
    assert t != "" ==> u[|t| - 1] == t[|t| - 1] && v[|t| - 1] == t[|t| - 1];
  }

  lemma {:induction false} CoreIsNormal(s: string)
    ensures Normal(Core(s))
    ensures Core(s) == "" <==> Words(s) == []
    ensures InWord(s) ==> Core(s) != ""
  {
    if s == "" {
      EmptySlug();
    } else {
      var init, c := s[..|s| - 1], s[|s| - 1];
      assert s == init + [c];
      CoreIsNormal(init);
      CoreSnoc(init, c);
      WordsSnoc(init, c);
      if IsAlnum(c) {
        NormalSnoc(Core(init), c);
        assert Core(init) == "" ==> "" + [LowerChar(c)] == [LowerChar(c)];
      }
    }
  }

  /** A string in normal form is its own slug. */
  lemma {:induction false} NormalIsFixed(t: string, n: nat)
    requires Normal(t) && n <= |t|
    ensures Core(t[..n]) == if n > 0 && t[n - 1] == '-' then t[..n - 1] else t[..n]
    decreases n
  {
    if n == 0 {
      EmptySlug();
    } else {
      NormalIsFixed(t, n - 1);
      CoreIsNormal(t[..n - 1]);
      CoreSnoc(t[..n - 1], t[n - 1]);
      NormalStep(t, n);
    }
  }

  lemma {:induction false} NormalStep(t: string, n: nat)
    requires Normal(t) && 0 < n <= |t|
    ensures t[..n] == t[..n - 1] + [t[n - 1]]
    ensures IsAlnum(t[n - 1]) <==> t[n - 1] != '-'
    ensures t[n - 1] != '-' ==> LowerChar(t[n - 1]) == t[n - 1]
    ensures n == 1 ==> t[0] != '-' && t[..1] == [t[0]]
    ensures n >= 2 ==> (InWord(t[..n - 1]) <==> t[n - 2] != '-') && !(t[n - 2] == '-' && t[n - 1] == '-')
    ensures n >= 2 && t[n - 2] == '-' ==> n >= 3 && t[..n] == t[..n - 2] + "-" + [t[n - 1]]
  {
    assert IsSlugChar(t[n - 1]);
    if n >= 2 {
      assert IsSlugChar(t[n - 2]);
    }
  }

  /** The strings a quest slug leaves alone are exactly the non-empty normal forms. */
  lemma {:induction false} QuestSlugFixedPoints(t: string)
    ensures QuestSlug(t) == t <==> t != "" && Normal(t)
  {
    CoreIsNormal(t);
    if Normal(t) && t != "" {
      NormalIsFixed(t, |t|);
      assert t[..|t|] == t;
    }
  }

  /** Every quest slug is a non-empty normal form, and slugging again changes nothing. */
  lemma {:induction false} QuestSlugIsIdempotent(s: string)
    ensures QuestSlug(s) != "" && Normal(QuestSlug(s))
    ensures QuestSlug(QuestSlug(s)) == QuestSlug(s)
  {
    CoreIsNormal(s);
    QuestSlugFixedPoints(QuestSlug(s));
  }

  // ---------------------------------------------------------------------------------------
  // Contents

  /** An ASCII letter or digit in lower case, and nothing of any other character. */
  function KeptOf(c: char): string {
    if 'a' <= c <= 'z' || '0' <= c <= '9' then [c]
    else if 'A' <= c <= 'Z' then [('a' as int + (c as int - 'A' as int)) as char]
    else ""
  }

  function Kept(s: string): string {
    if s == "" then "" else Kept(s[..|s| - 1]) + KeptOf(s[|s| - 1])
  }

  function NoDashes(t: string): string {
    if t == "" then ""
    else NoDashes(t[..|t| - 1]) + if t[|t| - 1] == '-' then "" else [t[|t| - 1]]
  }

  lemma {:induction false} NoDashesSnoc(t: string, c: char)
    ensures NoDashes(t + [c]) == NoDashes(t) + if c == '-' then "" else [c]
  {
    assert (t + [c])[..|t|] == t;
  }

  lemma {:induction false} NoDashesNext(t: string, c: char)
    requires c != '-'
    ensures NoDashes(t + [c]) == NoDashes(t) + [c] && NoDashes(t + "-" + [c]) == NoDashes(t) + [c]
  {
    NoDashesSnoc(t, c);
    NoDashesSnoc(t, '-');
    NoDashesSnoc(t + "-", c);
  }

  lemma {:induction false} KeptIsLower(c: char)
    ensures KeptOf(c) == if IsAlnum(c) then [LowerChar(c)] else ""
    ensures IsAlnum(c) ==> LowerChar(c) != '-'
  {
  }

  lemma {:induction false} NextKept(s: string, c: char)
    ensures NoDashes(Core(s + [c])) == NoDashes(Core(s)) + KeptOf(c)
  {
    CoreSnoc(s, c);
    KeptIsLower(c);
    if IsAlnum(c) {
      CoreIsNormal(s);
      NoDashesNext(Core(s), LowerChar(c));
      assert Words(s) == [] ==> Core(s) + [LowerChar(c)] == [LowerChar(c)];
    }
  }

  /** A slug keeps every letter and digit, in order, and nothing else but dashes. */
  lemma {:induction false} SlugKeepsLetters(s: string)
    ensures NoDashes(Core(s)) == Kept(s)
  {
    if s == "" {
      EmptySlug();
    } else {
      var init, c := s[..|s| - 1], s[|s| - 1];
      assert s == init + [c];
      SlugKeepsLetters(init);
      NextKept(init, c);
    }
  }

  /** The fallback is for strings of which nothing is kept, and for those only. */
  lemma {:induction false} NothingKeptIsQuest(s: string)
    ensures Kept(s) == "" ==> QuestSlug(s) == "quest"
    ensures Kept(s) != "" ==> QuestSlug(s) == Core(s) && NoDashes(QuestSlug(s)) == Kept(s)
  {
    SlugKeepsLetters(s);
    CoreIsNormal(s);
    var t := Core(s);
    if t != "" {
      NoDashesSnoc(t[..|t| - 1], t[|t| - 1]);
      assert t == t[..|t| - 1] + [t[|t| - 1]];
    }
  }

  // ---------------------------------------------------------------------------------------
  // The one-pass loop

  const SLUG_LIMIT := 64

  /** What the loop has written after `s`: the slug, with a dash on each side where a separator
      has been seen. */
  function Written(s: string): string {
    if s == "" then "" else Framed(IsAlnum(s[0]), Core(s), InWord(s))
  }

  function Framed(startsWord: bool, core: string, inWord: bool): string {
    if core == "" then "-"
    else (if startsWord then "" else "-") + core + (if inWord then "" else "-")
  }

  lemma {:induction false} FramedSnoc(startsWord: bool, core: string, ch: char)
    ensures core != "" ==> Framed(startsWord, core + [ch], true) == Framed(startsWord, core, true) + [ch]
    ensures core != "" ==> Framed(startsWord, core + "-" + [ch], true) == Framed(startsWord, core, false) + [ch]
    ensures core != "" ==> Framed(startsWord, core, false) == Framed(startsWord, core, true) + "-"
    ensures Framed(false, [ch], true) == "-" + [ch] && Framed(true, [ch], true) == [ch]
  {
  }

  lemma {:induction false} WrittenSnoc(s: string, c: char)
    ensures Written(s + [c]) ==
              if IsAlnum(c) then Written(s) + [LowerChar(c)]
              else if s != "" && !InWord(s) then Written(s) else Written(s) + "-"
  {
    CoreIsNormal(s);
    CoreSnoc(s, c);
    assert InWord(s + [c]) == IsAlnum(c);
    if s == "" {
      EmptySlug();
      FramedSnoc(true, "", LowerChar(c));
      assert (s + [c])[0] == c && "" + [LowerChar(c)] == [LowerChar(c)];
    } else {
      assert (s + [c])[0] == s[0];
      FramedSnoc(IsAlnum(s[0]), Core(s), LowerChar(c));
      AllSeparators(s);
      assert Core(s) == "" ==> !IsAlnum(s[0]) && !InWord(s);
    }
  }

  /** Nothing has been kept of a string only when it has no letter or digit. */
  lemma {:induction false} AllSeparators(s: string)
    ensures Core(s) == "" <==> forall i :: 0 <= i < |s| ==> !IsAlnum(s[i])
  {
    if s == "" {
      EmptySlug();
    } else {
      var init, c := s[..|s| - 1], s[|s| - 1];
      assert s == init + [c];
      AllSeparators(init);
      CoreSnoc(init, c);
      CoreIsNormal(init);
      assert forall i :: 0 <= i < |init| ==> s[i] == init[i];
    }
  }

  method OnePass(raw: string) returns (slug: string)
    ensures slug == Written(raw)
  {
    slug := "";
    var lastDash := false;
    for i := 0 to |raw|
      invariant slug == Written(raw[..i])
      invariant lastDash <==> i > 0 && !IsAlnum(raw[i - 1])
    {
      var ch := raw[i];
      assert raw[..i + 1] == raw[..i] + [ch];
      WrittenSnoc(raw[..i], ch);
      if IsAlnum(ch) {
        slug := slug + [LowerChar(ch)];
        lastDash := false;
      } else if !lastDash {
        slug := slug + "-";
        lastDash := true;
      }
    }
    assert raw[..|raw|] == raw;
  }

  /** The evidence slug is the first 64 characters of the split/filter/join slug. */
  method BrowserEvidenceSlug(url: Option<string>) returns (r: string)
    ensures var core := Core(if url.Some? then url.value else "capture");
            r == if |core| <= SLUG_LIMIT then core else core[..SLUG_LIMIT]
  {
    var raw := if url.Some? then url.value else "capture";
    var slug := OnePass(raw);
    TrimmedIsCore(raw);
    var trimmed := Strip(slug, IsDash);
    r := if |trimmed| <= SLUG_LIMIT then trimmed else trimmed[..SLUG_LIMIT];
  }

  lemma {:induction false} FramedTrims(startsWord: bool, core: string, inWord: bool)
    requires Normal(core)
    ensures Strip(Framed(startsWord, core, inWord), IsDash) == core
  {
    if core == "" {
      StripPadding("-", "", "", IsDash);
      assert "-" + "" + "" == "-";
    } else {
      StripPadding(if startsWord then "" else "-", core, if inWord then "" else "-", IsDash);
    }
  }

  lemma {:induction false} TrimmedIsCore(s: string)
    ensures Strip(Written(s), IsDash) == Core(s)
  {
    if s == "" {
      EmptySlug();
      StripTight("", IsDash);
    } else {
      CoreIsNormal(s);
      FramedTrims(IsAlnum(s[0]), Core(s), InWord(s));
    }
  }
}
