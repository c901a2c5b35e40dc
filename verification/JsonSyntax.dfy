/** JSON texts by the grammar of RFC 8259: whitespace (section 2), values (section 3), objects
    (section 4), arrays (section 5) and strings (section 7). */
module JsonSyntax {
  import opened Options
  import opened Text
  import opened JsonScanner

  datatype Unit = Plain(c: char) | Escape(c: char) | Hex(digits: string)

  /** `Literal` is `true`, `false`, `null` or a number. */
  datatype Node =
    | Literal(text: string)
    | Str(units: seq<Unit>)
    | Arr(pad: string, items: seq<Item>)
    | Obj(pad: string, members: seq<Member>)

  datatype Item = Item(before: string, node: Node, after: string)
  datatype Member = Member(before: string, key: seq<Unit>, beforeColon: string, value: Item)

  predicate IsBlank(c: char) {
    c == ' ' || c == '\t' || c == '\n' || c == '\r'
  }

  /** A superset of the characters of `true`, `false`, `null` and numbers. */
  predicate IsLiteralChar(c: char) {
    'a' <= c <= 'z' || c == 'E' || '0' <= c <= '9' || c == '-' || c == '+' || c == '.'
  }

  predicate IsHexDigit(c: char) {
    '0' <= c <= '9' || 'a' <= c <= 'f' || 'A' <= c <= 'F'
  }

  predicate ValidUnit(u: Unit) {
    match u
    case Plain(c) => c != '"' && c != '\\' && c as int >= 0x20
    case Escape(c) => c in "\"\\/bfnrt"
    case Hex(digits) => |digits| == 4 && All(digits, IsHexDigit)
  }

  predicate ValidUnits(us: seq<Unit>) {
    forall i :: 0 <= i < |us| ==> ValidUnit(us[i])
  }

  predicate Valid(n: Node)
    decreases n, 1
  {
    match n
    case Literal(text) => All(text, IsLiteralChar)
    case Str(units) => ValidUnits(units)
    case Arr(pad, items) => All(pad, IsBlank) && forall i :: 0 <= i < |items| ==> ValidItem(items[i])
    case Obj(pad, ms) => All(pad, IsBlank) && forall i :: 0 <= i < |ms| ==> ValidMember(ms[i])
  }

  predicate ValidItem(it: Item)
    decreases it, 1
  {
    All(it.before, IsBlank) && Valid(it.node) && All(it.after, IsBlank)
  }

  predicate ValidMember(m: Member)
    decreases m, 1
  {
    All(m.before, IsBlank) && ValidUnits(m.key) && All(m.beforeColon, IsBlank) && ValidItem(m.value)
  }

  function PrintUnit(u: Unit): string {
    match u
    case Plain(c) => [c]
    case Escape(c) => ['\\', c]
    case Hex(digits) => ['\\', 'u'] + digits
  }

  function PrintUnits(us: seq<Unit>): string {
    if us == [] then "" else PrintUnits(us[..|us| - 1]) + PrintUnit(us[|us| - 1])
  }

  function Quoted(us: seq<Unit>): string {
    ['"'] + PrintUnits(us) + ['"']
  }

  function Print(n: Node): string
    decreases n, 1
  {
    match n
    case Literal(text) => text
    case Str(units) => Quoted(units)
    case Arr(pad, items) => ['['] + (if items == [] then pad else PrintItems(items)) + [']']
    case Obj(pad, ms) => ['{'] + (if ms == [] then pad else PrintMembers(ms)) + ['}']
  }

  function PrintItem(it: Item): string
    decreases it, 1
  {
    it.before + Print(it.node) + it.after
  }

  function PrintItems(items: seq<Item>): string
    decreases items, 0
  {
    if items == [] then ""
    else if |items| == 1 then PrintItem(items[0])
    else PrintItem(items[0]) + [','] + PrintItems(items[1..])
  }

  function PrintMember(m: Member): string
    decreases m, 1
  {
    m.before + Quoted(m.key) + m.beforeColon + [':'] + PrintItem(m.value)
  }

  function PrintMembers(ms: seq<Member>): string
    decreases ms, 0
  {
    if ms == [] then ""
    else if |ms| == 1 then PrintMember(ms[0])
    else PrintMember(ms[0]) + [','] + PrintMembers(ms[1..])
  }

  // ---------------------------------------------------------------------------------------
  // Printed values leave the scanner where they found it

  /** Scanned from `s`, the text ends at `s` again and never dips below its depth. */
  ghost predicate Neutral(s: Scan, text: string) {
    && Run(s, text) == s
    && forall k :: 0 <= k <= |text| ==> Run(s, text[..k]).depth >= s.depth
  }

  lemma {:induction false} RunConcat(s: Scan, a: string, b: string)
    ensures Run(s, a + b) == Run(Run(s, a), b)
    decreases |b|
  {
    if b == "" {
      assert a + b == a;
    } else {
      assert (a + b)[..|a + b| - 1] == a + b[..|b| - 1];
      RunConcat(s, a, b[..|b| - 1]);
    }
  }

  lemma {:induction false} NeutralConcat(s: Scan, a: string, b: string)
    requires Neutral(s, a) && Neutral(s, b)
    ensures Neutral(s, a + b)
  {
    RunConcat(s, a, b);
    forall k | 0 <= k <= |a + b| ensures Run(s, (a + b)[..k]).depth >= s.depth {
      if k <= |a| {
        assert (a + b)[..k] == a[..k];
      } else {
        assert (a + b)[..k] == a + b[..k - |a|];
        RunConcat(s, a, b[..k - |a|]);
      }
    }
  }

  /** Characters without a meaning for the scanner outside strings. */
  predicate Inert(c: char) {
    c != '"' && c != '{' && c != '}'
  }

  lemma {:induction false} InertIsNeutral(s: Scan, text: string)
    requires !s.inString && forall i :: 0 <= i < |text| ==> Inert(text[i])
    ensures Neutral(s, text)
  {
    if text != "" {
      var init := text[..|text| - 1];
      InertIsNeutral(s, init);
      assert forall k :: 0 <= k <= |init| ==> text[..k] == init[..k];
      assert text[..|text|] == text;
    }
  }

  lemma {:induction false} UnitIsNeutral(s: Scan, u: Unit)
    requires s.inString && !s.escaped && ValidUnit(u)
    ensures Neutral(s, PrintUnit(u))
  {
    match u {
      case Plain(c) =>
        StringCharsAreNeutral(s, [c]);
      case Escape(c) =>
        EscapePairIsNeutral(s, c);
      case Hex(digits) =>
        forall i | 0 <= i < |digits| ensures digits[i] != '"' && digits[i] != '\\' {
          assert IsHexDigit(digits[i]);
        }
        EscapePairIsNeutral(s, 'u');
        StringCharsAreNeutral(s, digits);
        NeutralConcat(s, ['\\', 'u'], digits);
    }
  }

  lemma {:induction false} EscapePairIsNeutral(s: Scan, c: char)
    requires s.inString && !s.escaped
    ensures Neutral(s, ['\\', c])
  {
    var t := ['\\', c];
    assert t[..1] == ['\\'] && ['\\'][..0] == "";
    assert Run(s, ['\\']) == s.(escaped := true);
    assert t[..|t|] == t && t[..0] == "";
  }

  lemma {:induction false} StringCharsAreNeutral(s: Scan, text: string)
    requires s.inString && !s.escaped
    requires forall i :: 0 <= i < |text| ==> text[i] != '"' && text[i] != '\\'
    ensures Neutral(s, text)
  {
    if text != "" {
      var init := text[..|text| - 1];
      StringCharsAreNeutral(s, init);
      assert forall k :: 0 <= k <= |init| ==> text[..k] == init[..k];
      assert text[..|text|] == text;
    }
  }

  lemma {:induction false} UnitsAreNeutral(s: Scan, us: seq<Unit>)
    requires s.inString && !s.escaped && ValidUnits(us)
    ensures Neutral(s, PrintUnits(us))
  {
    if us != [] {
      UnitsAreNeutral(s, us[..|us| - 1]);
      UnitIsNeutral(s, us[|us| - 1]);
      NeutralConcat(s, PrintUnits(us[..|us| - 1]), PrintUnit(us[|us| - 1]));
    }
  }

  /** `open` takes the scanner to a state in which `body` is neutral, `close` takes it back. */
  lemma {:induction false} BracketIsNeutral(s: Scan, open: char, body: string, close: char)
    requires Neutral(Advance(s, open), body) && Advance(s, open).depth >= s.depth
    requires Advance(Advance(s, open), close) == s
    ensures Neutral(s, [open] + body + [close])
    ensures forall k :: 0 < k <= |body| + 1 ==>
                          Run(s, ([open] + body + [close])[..k]).depth >= Advance(s, open).depth
  {
    var t := [open] + body + [close];
    assert [open][..0] == "" && Run(s, [open]) == Advance(s, open);
    forall k | 0 < k <= |body| + 1 ensures Run(s, t[..k]).depth >= Advance(s, open).depth {
      assert t[..k] == [open] + body[..k - 1];
      RunConcat(s, [open], body[..k - 1]);
    }
    assert t[..|t| - 1] == [open] + body;
    RunConcat(s, [open], body);
    assert t[..|t|] == t && t[..0] == "";
  }

  lemma {:induction false} QuotedIsNeutral(s: Scan, us: seq<Unit>)
    requires !s.inString && !s.escaped && ValidUnits(us)
    ensures Neutral(s, Quoted(us))
  {
    UnitsAreNeutral(s.(inString := true), us);
    BracketIsNeutral(s, '"', PrintUnits(us), '"');
  }

  lemma {:induction false} ArrayBrackets(d: int, body: string)
    requires Neutral(Outside(d), body)
    ensures Neutral(Outside(d), ['['] + body + [']'])
  {
    BracketIsNeutral(Outside(d), '[', body, ']');
  }

  lemma {:induction false} ObjectBrackets(d: int, body: string)
    requires Neutral(Outside(d + 1), body)
    ensures Neutral(Outside(d), ['{'] + body + ['}'])
  {
    BracketIsNeutral(Outside(d), '{', body, '}');
  }

  lemma {:induction false} NodeIsNeutral(d: int, n: Node)
    requires Valid(n)
    ensures Neutral(Outside(d), Print(n))
    decreases n, 1
  {
    match n {
      case Literal(text) =>
        LiteralIsNeutral(d, text);
      case Str(units) =>
        QuotedIsNeutral(Outside(d), units);
      case Arr(pad, items) =>
        ArrayBody(d, n);
        ArrayBrackets(d, if items == [] then pad else PrintItems(items));
      case Obj(pad, ms) =>
        ObjectBody(d + 1, n);
        ObjectBrackets(d, if ms == [] then pad else PrintMembers(ms));
    }
  }

  lemma {:induction false} LiteralIsNeutral(d: int, text: string)
    requires All(text, IsLiteralChar)
    ensures Neutral(Outside(d), text)
  {
    forall i | 0 <= i < |text| ensures Inert(text[i]) { assert IsLiteralChar(text[i]); }
    InertIsNeutral(Outside(d), text);
  }

  lemma {:induction false} ArrayBody(d: int, n: Node)
    requires Valid(n) && n.Arr?
    ensures Neutral(Outside(d), if n.items == [] then n.pad else PrintItems(n.items))
    decreases n, 0
  {
    if n.items == [] {
      BlankIsNeutral(d, n.pad);
    } else {
      ItemsAreNeutral(d, n.items);
    }
  }

  lemma {:induction false} ObjectBody(d: int, n: Node)
    requires Valid(n) && n.Obj?
    ensures Neutral(Outside(d), if n.members == [] then n.pad else PrintMembers(n.members))
    decreases n, 0
  {
    if n.members == [] {
      BlankIsNeutral(d, n.pad);
    } else {
      MembersAreNeutral(d, n.members);
    }
  }

  lemma {:induction false} BlankIsNeutral(d: int, blank: string)
    requires All(blank, IsBlank)
    ensures Neutral(Outside(d), blank)
  {
    forall i | 0 <= i < |blank| ensures Inert(blank[i]) { assert IsBlank(blank[i]); }
    InertIsNeutral(Outside(d), blank);
  }

  lemma {:induction false} ItemIsNeutral(d: int, it: Item)
    requires ValidItem(it)
    ensures Neutral(Outside(d), PrintItem(it))
    decreases it, 1
  {
    BlankIsNeutral(d, it.before);
    NodeIsNeutral(d, it.node);
    BlankIsNeutral(d, it.after);
    NeutralConcat(Outside(d), it.before, Print(it.node));
    NeutralConcat(Outside(d), it.before + Print(it.node), it.after);
  }

  lemma {:induction false} ItemsAreNeutral(d: int, items: seq<Item>)
    requires items != [] && forall i :: 0 <= i < |items| ==> ValidItem(items[i])
    ensures Neutral(Outside(d), PrintItems(items))
    decreases items, 0
  {
    ItemIsNeutral(d, items[0]);
    if |items| > 1 {
      ItemsAreNeutral(d, items[1..]);
      InertIsNeutral(Outside(d), [',']);
      NeutralConcat(Outside(d), PrintItem(items[0]), [',']);
      NeutralConcat(Outside(d), PrintItem(items[0]) + [','], PrintItems(items[1..]));
    }
  }

  lemma {:induction false} MemberIsNeutral(d: int, m: Member)
    requires ValidMember(m)
    ensures Neutral(Outside(d), PrintMember(m))
    decreases m, 1
  {
    var s := Outside(d);
    BlankIsNeutral(d, m.before);
    QuotedIsNeutral(s, m.key);
    BlankIsNeutral(d, m.beforeColon);
    InertIsNeutral(s, [':']);
    ItemIsNeutral(d, m.value);
    NeutralConcat(s, m.before, Quoted(m.key));
    NeutralConcat(s, m.before + Quoted(m.key), m.beforeColon);
    NeutralConcat(s, m.before + Quoted(m.key) + m.beforeColon, [':']);
    NeutralConcat(s, m.before + Quoted(m.key) + m.beforeColon + [':'], PrintItem(m.value));
  }

  lemma {:induction false} MembersAreNeutral(d: int, ms: seq<Member>)
    requires ms != [] && forall i :: 0 <= i < |ms| ==> ValidMember(ms[i])
    ensures Neutral(Outside(d), PrintMembers(ms))
    decreases ms, 0
  {
    MemberIsNeutral(d, ms[0]);
    if |ms| > 1 {
      MembersAreNeutral(d, ms[1..]);
      InertIsNeutral(Outside(d), [',']);
      NeutralConcat(Outside(d), PrintMember(ms[0]), [',']);
      NeutralConcat(Outside(d), PrintMember(ms[0]) + [','], PrintMembers(ms[1..]));
    }
  }

  /** Every JSON object text is balanced. */
  lemma {:induction false} ObjectTextIsBalanced(n: Node)
    requires Valid(n) && n.Obj?
    ensures Balanced(Print(n)) && Print(n)[|Print(n)| - 1] == '}'
  {
    var body := if n.members == [] then n.pad else PrintMembers(n.members);
    ObjectBody(1, n);
    BracketIsNeutral(START, '{', body, '}');
  }

  /** For every JSON object text, every brace-free prefix and every tail, with or without code
      fences, the scanner hands back exactly the object text. */
  lemma {:induction false} ScannerRoundTrip(prefix: string, n: Node, tail: string, r: Option<string>)
    requires '{' !in prefix && Valid(n) && n.Obj?
    requires IsExtraction(prefix + Print(n) + tail, r)
    ensures r == Some(Print(n))
  {
    ObjectTextIsBalanced(n);
    ExtractionFindsObject(prefix, Print(n), tail, r);
  }
}
