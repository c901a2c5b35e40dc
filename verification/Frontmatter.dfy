/** The frontmatter parser for agent and prompt files: a header of `key: value` lines between
    `---` markers, with typed scalars, inline arrays, nested maps and lists of maps. */
module Frontmatter {
  import opened Options
  import opened Text
  import opened Json

  /** What parsing a string as a 64-bit float yields; the float grammar itself is a parameter. */
  datatype F64 = NotAFloat | NonFinite | Finite(x: real)
  type FloatParser = string -> F64

  datatype Error = MissingHeader | MissingClose

  const U64_LIMIT: nat := 0x1_0000_0000_0000_0000

  predicate IsDigit(c: char) {
    '0' <= c <= '9'
  }

  function DigitsValue(s: string): nat
    requires All(s, IsDigit)
  {
    if s == "" then 0
    else DigitsValue(s[..|s| - 1]) * 10 + (s[|s| - 1] as int - '0' as int)
  }

  /** Decimal digits with an optional plus sign, below 2^64. */
  function ParseU64(s: string): Option<nat> {
    var digits := if s != "" && s[0] == '+' then s[1..] else s;
    if digits != "" && All(digits, IsDigit) && DigitsValue(digits) < U64_LIMIT
    then Some(DigitsValue(digits)) else None
  }

  /** The typed value of a scalar's text. A float that is not finite has no JSON number. */
  function Typed(text: string, f64: FloatParser): Value {
    if text == "true" then Bool(true)
    else if text == "false" then Bool(false)
    else
      match ParseU64(text)
      case Some(n) => Num(Unsigned(n))
      case None =>
        match f64(text)
        case Finite(x) => Num(Float(x))
        case NonFinite => Null
        case NotAFloat => Str(text)
  }

  predicate Indented(line: string) {
    line != "" && (line[0] == ' ' || line[0] == '\t')
  }

  /** Add the `k: v` pair of a trimmed line, if it has a colon. */
  function InsertPair(m: Fields, line: string, f64: FloatParser): Fields {
    match SplitOnce(line, ':')
    case None => m
    case Some((k, v)) => m[Trim(k) := Typed(Strip(Trim(v), IsQuote), f64)]
  }

  /** Consume the indented lines of a nested map; return it with the lines left. */
  function NestedBlock(lines: seq<string>, m: Fields, f64: FloatParser): (r: (Fields, seq<string>))
    ensures |r.1| <= |lines|
    decreases |lines|
  {
    if lines == [] then (m, [])
    else
      var line := Trim(lines[0]);
      if !Indented(lines[0]) && line != "" then (m, lines)
      else if line == "" then NestedBlock(lines[1..], m, f64)
      else NestedBlock(lines[1..], InsertPair(m, line, f64), f64)
  }

  /** Consume the further lines of one list item. */
  function ItemBody(lines: seq<string>, m: Fields, f64: FloatParser): (r: (Fields, seq<string>))
    ensures |r.1| <= |lines|
    decreases |lines|
  {
    if lines == [] then (m, [])
    else
      var line := Trim(lines[0]);
      if line == "" then ItemBody(lines[1..], m, f64)
      else if "- " <= line || !Indented(lines[0]) then (m, lines)
      else ItemBody(lines[1..], InsertPair(m, line, f64), f64)
  }

  /** Consume the items of a list of maps. */
  function ListBlock(lines: seq<string>, items: seq<Value>, f64: FloatParser): (r: (seq<Value>, seq<string>))
    ensures |r.1| <= |lines|
    decreases |lines|
  {
    if lines == [] then (items, [])
    else
      var line := Trim(lines[0]);
      if !Indented(lines[0]) && line != "" then (items, lines)
      else if line == "" then ListBlock(lines[1..], items, f64)
      else if "- " <= line then
        var item := ItemBody(lines[1..], InsertPair(map[], line[2..], f64), f64);
        ListBlock(item.1, items + [Obj(item.0)], f64)
      else ListBlock(lines[1..], items, f64)
  }

  predicate Bracketed(s: string) {
    s != "" && s[0] == '[' && s[|s| - 1] == ']'
  }

  function ArrayItems(parts: seq<string>): seq<Value> {
    seq(|parts|, i requires 0 <= i < |parts| => Str(Strip(Trim(parts[i]), IsQuote)))
  }

  /** The value written after the colon of a top-level line. */
  function InlineValue(val: string, f64: FloatParser): Value {
    var val := Strip(val, IsQuote);
    if Bracketed(val) then
      var inner := val[1..|val| - 1];
      if Trim(inner) == "" then Arr([]) else Arr(ArrayItems(Split(inner, ',')))
    else Typed(val, f64)
  }

  /** The map the remaining lines add to `m`. */
  function Top(lines: seq<string>, m: Fields, f64: FloatParser): Fields
    decreases |lines|
  {
    if lines == [] then m
    else
      var line := Trim(lines[0]);
      if line == "" || line[0] == '#' then Top(lines[1..], m, f64)
      else
        match SplitOnce(line, ':')
        case None => Top(lines[1..], m, f64)
        case Some((k, v)) =>
          var key, val := Trim(k), Trim(v);
          if val != "" then Top(lines[1..], m[key := InlineValue(val, f64)], f64)
          else if "- " <= (if |lines| > 1 then Trim(lines[1]) else "") then
            var block := ListBlock(lines[1..], [], f64);
            Top(block.1, m[key := Arr(block.0)], f64)
          else
            var block := NestedBlock(lines[1..], map[], f64);
            Top(block.1, m[key := Obj(block.0)], f64)
  }

  /** The header block and the body of a file. */
  function Sections(content: string): Result<(string, string), Error> {
    var trimmed := Trim(content);
    if !("---" <= trimmed) then Err(MissingHeader)
    else
      match Find(trimmed[3..], "\n---")
      case None => Err(MissingClose)
      case Some(end) => Ok((Trim(trimmed[3..3 + end]), Trim(trimmed[3 + end + 4..])))
  }

  /** The meaning of a file: its metadata and its body. */
  function Meaning(content: string, f64: FloatParser): Result<(Value, string), Error> {
    match Sections(content)
    case Err(e) => Err(e)
    case Ok((yaml, body)) => Ok((Obj(Top(Lines(yaml), map[], f64)), body))
  }

  /** Which marker is missed, and that nothing else is an error. */
  lemma {:induction false} FailsIff(content: string, f64: FloatParser)
    ensures Meaning(content, f64) == Err(MissingHeader) <==> !("---" <= Trim(content))
    ensures Meaning(content, f64) == Err(MissingClose) <==>
              "---" <= Trim(content) && forall j :: !Occurs(Trim(content)[3..], "\n---", j)
    ensures Meaning(content, f64).Err? ==> Meaning(content, f64).error in {MissingHeader, MissingClose}
  {
  }

  // ---------------------------------------------------------------------------------------
  // The parser: three nested loops over one shared cursor

  method InsertTyped(m: Fields, key: string, text: string, f64: FloatParser) returns (m': Fields)
    ensures m' == m[key := Typed(text, f64)]
  {
    if text == "true" {
      m' := m[key := Bool(true)];
    } else if text == "false" {
      m' := m[key := Bool(false)];
    } else {
      var n := ParseU64(text);
      if n.Some? {
        m' := m[key := Num(Unsigned(n.value))];
      } else {
        match f64(text) {
          case Finite(x) => m' := m[key := Num(Float(x))];
          case NonFinite => m' := m[key := Null];
          case NotAFloat => m' := m[key := Str(text)];
        }
      }
    }
  }

  method ParseYaml(text: string, f64: FloatParser) returns (m: Fields)
    ensures m == Top(Lines(text), map[], f64)
  {
    m := map[];
    var lines := Lines(text);
    var i := 0;
    assert lines[0..] == lines;
    while i < |lines|
      invariant 0 <= i <= |lines|
      invariant Top(lines[i..], m, f64) == Top(lines, map[], f64)
    {
      assert lines[i..][1..] == lines[i + 1..];
      var line := Trim(lines[i]);
      if line == "" || line[0] == '#' {
        i := i + 1;
        continue;
      }
      var pair := SplitOnce(line, ':');
      if pair.Some? {
        var key, val := Trim(pair.value.0), Trim(pair.value.1);
        if val == "" {
          var next := if i + 1 < |lines| then Trim(lines[i + 1]) else "";
          if "- " <= next {
            var items: seq<Value>;
            i, items := ParseList(lines, i + 1, f64);
            m := m[key := Arr(items)];
          } else {
            var nested: Fields;
            i, nested := ParseNested(lines, i + 1, f64);
            m := m[key := Obj(nested)];
          }
          continue;
        }
        m := m[key := InlineValue(val, f64)];
      }
      i := i + 1;
    }
    assert lines[i..] == [];
  }

  /** The middle loop for lists of maps, with the innermost loop over one item's lines. */
  method ParseList(lines: seq<string>, from: nat, f64: FloatParser) returns (i: nat, items: seq<Value>)
    requires from <= |lines|
    ensures from <= i <= |lines|
    ensures ListBlock(lines[from..], [], f64) == (items, lines[i..])
  {
    items := [];
    i := from;
    while i < |lines|
      invariant from <= i <= |lines|
      invariant ListBlock(lines[i..], items, f64) == ListBlock(lines[from..], [], f64)
    {
      assert lines[i..][1..] == lines[i + 1..];
      var sub, trimmed := lines[i], Trim(lines[i]);
      if !Indented(sub) && trimmed != "" {
        return;
      }
      if trimmed == "" {
        i := i + 1;
        continue;
      }
      if "- " <= trimmed {
        var obj: Fields;
        i, obj := ParseItem(lines, i, trimmed[2..], f64);
        items := items + [Obj(obj)];
      } else {
        i := i + 1;
      }
    }
  }

  method ParseItem(lines: seq<string>, at: nat, first: string, f64: FloatParser) returns (i: nat, obj: Fields)
    requires at < |lines|
    ensures at < i <= |lines|
    ensures ItemBody(lines[at + 1..], InsertPair(map[], first, f64), f64) == (obj, lines[i..])
  {
    obj := map[];
    var pair := SplitOnce(first, ':');
    if pair.Some? {
      obj := InsertTyped(obj, Trim(pair.value.0), Strip(Trim(pair.value.1), IsQuote), f64);
    }
    i := at + 1;
    while i < |lines|
      invariant at < i <= |lines|
      invariant ItemBody(lines[i..], obj, f64) == ItemBody(lines[at + 1..], InsertPair(map[], first, f64), f64)
    {
      assert lines[i..][1..] == lines[i + 1..];
      var inner := Trim(lines[i]);
      if inner == "" {
        i := i + 1;
        continue;
      }
      if "- " <= inner || !Indented(lines[i]) {
        return;
      }
      pair := SplitOnce(inner, ':');
      if pair.Some? {
        obj := InsertTyped(obj, Trim(pair.value.0), Strip(Trim(pair.value.1), IsQuote), f64);
      }
      i := i + 1;
    }
  }

  method ParseNested(lines: seq<string>, from: nat, f64: FloatParser) returns (i: nat, nested: Fields)
    requires from <= |lines|
    ensures from <= i <= |lines|
    ensures NestedBlock(lines[from..], map[], f64) == (nested, lines[i..])
  {
    nested := map[];
    i := from;
    while i < |lines|
      invariant from <= i <= |lines|
      invariant NestedBlock(lines[i..], nested, f64) == NestedBlock(lines[from..], map[], f64)
    {
      assert lines[i..][1..] == lines[i + 1..];
      var sub, trimmed := lines[i], Trim(lines[i]);
      if !Indented(sub) && trimmed != "" {
        return;
      }
      if trimmed == "" {
        i := i + 1;
        continue;
      }
      var pair := SplitOnce(trimmed, ':');
      if pair.Some? {
        nested := InsertTyped(nested, Trim(pair.value.0), Strip(Trim(pair.value.1), IsQuote), f64);
      }
      i := i + 1;
    }
  }

  method ParseFrontmatter(content: string, f64: FloatParser) returns (r: Result<(Value, string), Error>)
    ensures r == Meaning(content, f64)
  {
    var sections := Sections(content);
    if sections.Err? {
      return Err(sections.error);
    }
    var fields := ParseYaml(sections.value.0, f64);
    r := Ok((Obj(fields), sections.value.1));
  }
}
