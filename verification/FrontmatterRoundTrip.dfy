/** Printing a metadata tree as frontmatter and parsing it back. */
module FrontmatterRoundTrip {
  import opened Options
  import opened Text
  import opened Json
  import opened Frontmatter

  /** A text as it is written: blanks before it, and quotes around it or not. */
  datatype Written = Written(gap: string, quoted: bool, text: string)

  /** An indented `key: value` line inside a map, with blanks before the colon or not, and the lines
      after it that say nothing. */
  datatype Pair = Pair(indent: string, key: string, pad: string, value: Written, after: seq<string>)

  /** What can stand behind a top-level key. */
  datatype Node =
    | Scalar(value: Written)
    | Inline(gap: string, quoted: bool, items: seq<Written>)
    | Block(lead: seq<string>, pairs: seq<Pair>)
    | List(maps: seq<seq<Pair>>)

  /** A top-level entry, with comments and other lines that say nothing before it, and blank lines
      after it. */
  datatype Entry = Entry(before: seq<string>, key: string, pad: string, node: Node, blanks: seq<string>)

  // ---------------------------------------------------------------------------------------
  // The printable class

  predicate Clean(s: string) {
    Tight(s, IsWhitespace) && '\n' !in s
  }

  predicate KeyOk(key: string) {
    Clean(key) && ':' !in key && !("- " <= key)
  }

  /** A top-level key must not read as a comment or as the closing marker. */
  predicate TopKeyOk(key: string) {
    KeyOk(key) && !("#" <= key) && !("---" <= key)
  }

  const QUOTE := ['"']

  function Body(w: Written): string {
    if w.quoted then QUOTE + w.text + QUOTE else w.text
  }

  function Shown(w: Written): string {
    w.gap + Body(w)
  }

  predicate GapOk(gap: string) {
    All(gap, IsWhitespace) && '\n' !in gap
  }

  /** Blanks at the ends of the text need quotes; quotes at its ends cannot be written. */
  predicate WrittenOk(w: Written) {
    && GapOk(w.gap) && '\n' !in w.text && Tight(w.text, IsQuote)
    && (w.quoted || Tight(w.text, IsWhitespace))
    && (Body(w) == "" ==> w.gap == "")
  }

  predicate Blank(l: string) {
    PlainLine(l) && Trim(l) == ""
  }

  /** A line inside a map that says nothing: blank, or without a colon. */
  predicate SkipOk(l: string) {
    Blank(l) || (PlainLine(l) && Indented(l) && ':' !in l && !("- " <= Trim(l)))
  }

  /** A line between entries that says nothing: blank, a comment, or without a colon. */
  predicate NoiseOk(l: string) {
    || Blank(l)
    || (&& PlainLine(l) && l != "" && !IsWhitespace(l[0]) && (l[0] == '#' || ':' !in l)
        && !("- " <= l) && !("---" <= l))
  }

  /** A key with the blanks before its colon. */
  predicate LabelOk(key: string, pad: string) {
    KeyOk(key) && GapOk(pad) && (key == "" ==> pad == "") && !("- " <= key + pad)
  }

  predicate IndentOk(indent: string) {
    indent != "" && (indent[0] == ' ' || indent[0] == '\t') && GapOk(indent)
  }

  predicate PairOk(p: Pair) {
    IndentOk(p.indent) && LabelOk(p.key, p.pad) && WrittenOk(p.value) && forall i :: 0 <= i < |p.after| ==> SkipOk(p.after[i])
  }

  predicate PairsOk(ps: seq<Pair>) {
    forall i :: 0 <= i < |ps| ==> PairOk(ps[i])
  }

  predicate ItemsOk(items: seq<Written>) {
    forall i :: 0 <= i < |items| ==> WrittenOk(items[i]) && ',' !in items[i].text && ',' !in items[i].gap
  }

  predicate MapsOk(maps: seq<seq<Pair>>) {
    forall i :: 0 <= i < |maps| ==> maps[i] != [] && PairsOk(maps[i])
  }

  predicate NodeOk(n: Node) {
    match n
    case Scalar(w) => WrittenOk(w) && Body(w) != "" && !Bracketed(w.text)
    case Inline(gap, _, items) => GapOk(gap) && ItemsOk(items) && (|items| == 1 ==> Body(items[0]) != "")
    case Block(lead, ps) => PairsOk(ps) && forall i :: 0 <= i < |lead| ==> SkipOk(lead[i])
    case List(maps) => maps != [] && MapsOk(maps)
  }

  /** Blank lines after a map or a list belong to its last line. */
  predicate EntryOk(e: Entry) {
    && TopKeyOk(e.key) && LabelOk(e.key, e.pad) && NodeOk(e.node)
    && (forall i :: 0 <= i < |e.before| ==> NoiseOk(e.before[i]))
    && (e.before != [] ==> !Blank(e.before[0]))
    && (forall i :: 0 <= i < |e.blanks| ==> Blank(e.blanks[i]))
    && (e.node.Block? || e.node.List? ==> e.blanks == [])
  }

  predicate EntriesOk(es: seq<Entry>) {
    forall i :: 0 <= i < |es| ==> EntryOk(es[i])
  }

  /** A document ends in a line that does not end in a blank. */
  predicate DocOk(es: seq<Entry>) {
    EntriesOk(es) && EndsTight(DocLines(es))
  }

  predicate EndsTight(ls: seq<string>) {
    ls != [] ==> TightEnd(ls[|ls| - 1])
  }

  predicate TightEnd(l: string) {
    l != "" && !IsWhitespace(l[|l| - 1])
  }

  // ---------------------------------------------------------------------------------------
  // Printing

  function PairText(p: Pair): string {
    p.key + p.pad + [':'] + Shown(p.value)
  }

  function PairLine(p: Pair): string {
    p.indent + PairText(p)
  }

  /** The first line of a list item. */
  function DashLine(p: Pair): string {
    p.indent + ("- " + PairText(p))
  }

  function PairLines(ps: seq<Pair>): seq<string> {
    if ps == [] then [] else [PairLine(ps[0])] + ps[0].after + PairLines(ps[1..])
  }

  function MapLines(ps: seq<Pair>): seq<string>
    requires ps != []
  {
    [DashLine(ps[0])] + (ps[0].after + PairLines(ps[1..]))
  }

  function ListLines(maps: seq<seq<Pair>>): seq<string>
    requires forall i :: 0 <= i < |maps| ==> maps[i] != []
  {
    if maps == [] then [] else MapLines(maps[0]) + ListLines(maps[1..])
  }

  function ShownAll(items: seq<Written>): seq<string> {
    seq(|items|, i requires 0 <= i < |items| => Shown(items[i]))
  }

  function Array(quoted: bool, items: seq<Written>): string {
    var q := if quoted then QUOTE else "";
    q + (['['] + Join(ShownAll(items), ",") + [']']) + q
  }

  /** What stands on the first line behind the colon. */
  function Behind(n: Node): string {
    match n
    case Scalar(w) => Shown(w)
    case Inline(gap, quoted, items) => gap + Array(quoted, items)
    case _ => ""
  }

  function HeadLine(e: Entry): string {
    e.key + e.pad + [':'] + Behind(e.node)
  }

  /** The lines of an entry below its first. */
  function BelowLines(n: Node): seq<string>
    requires NodeOk(n)
  {
    match n
    case Block(lead, ps) => lead + PairLines(ps)
    case List(maps) => ListLines(maps)
    case _ => []
  }

  function EntryLines(e: Entry): seq<string>
    requires NodeOk(e.node)
  {
    e.before + ([HeadLine(e)] + (BelowLines(e.node) + e.blanks))
  }

  function DocLines(es: seq<Entry>): seq<string>
    requires EntriesOk(es)
  {
    if es == [] then [] else EntryLines(es[0]) + DocLines(es[1..])
  }

  /** The file: header, entries, closing marker, and whatever follows it. */
  function File(es: seq<Entry>, rest: string): string
    requires EntriesOk(es)
  {
    "---\n" + Unlines(DocLines(es)) + "---" + rest
  }

  // ---------------------------------------------------------------------------------------
  // Meaning

  function PairFields(m: Fields, ps: seq<Pair>, f64: FloatParser): Fields
    decreases |ps|
  {
    if ps == [] then m else PairFields(m[ps[0].key := Typed(ps[0].value.text, f64)], ps[1..], f64)
  }

  function ListValues(maps: seq<seq<Pair>>, f64: FloatParser): seq<Value> {
    seq(|maps|, i requires 0 <= i < |maps| => Obj(PairFields(map[], maps[i], f64)))
  }

  function Strings(items: seq<Written>): seq<Value> {
    seq(|items|, i requires 0 <= i < |items| => Str(items[i].text))
  }

  function NodeValue(n: Node, f64: FloatParser): Value {
    match n
    case Scalar(w) => Typed(w.text, f64)
    case Inline(_, _, items) => Arr(Strings(items))
    case Block(_, ps) => Obj(PairFields(map[], ps, f64))
    case List(maps) => Arr(ListValues(maps, f64))
  }

  /** Later entries with the same key win. */
  function DocFields(m: Fields, es: seq<Entry>, f64: FloatParser): Fields
    decreases |es|
  {
    if es == [] then m else DocFields(m[es[0].key := NodeValue(es[0].node, f64)], es[1..], f64)
  }

  // ---------------------------------------------------------------------------------------
  // One line

  lemma {:induction false} TrimIndented(indent: string, s: string)
    requires All(indent, IsWhitespace) && Tight(s, IsWhitespace)
    ensures Trim(indent + s) == s
  {
    StripPadding(indent, s, "", IsWhitespace);
    assert indent + s + "" == indent + s;
  }

  lemma {:induction false} NonBlank(s: string, c: char)
    requires c in s && !IsWhitespace(c)
    ensures Trim(s) != ""
  {
    var a, b := StripParts(s, IsWhitespace);
    assert forall d :: d in a + b ==> IsWhitespace(d);
    assert Trim(s) == "" ==> s == a + b;
  }

  lemma {:induction false} TrimIsWithin(s: string, c: char)
    requires c !in s
    ensures c !in Trim(s)
  {
    var a, b := StripParts(s, IsWhitespace);
    assert forall d :: d in Trim(s) ==> d in a + Trim(s) + b;
  }

  /** A line that starts with something keeps its start when trimmed. */
  lemma {:induction false} TrimKeepsStart(l: string)
    requires l != "" && !IsWhitespace(l[0])
    ensures Trim(l) != "" && Trim(l) <= l && Trim(l)[0] == l[0]
  {
    var b := StripEndParts(l, IsWhitespace);
    NonBlank(l, l[0]);
  }

  lemma {:induction false} BodyReads(w: Written)
    requires WrittenOk(w)
    ensures Tight(Body(w), IsWhitespace) && Strip(Body(w), IsQuote) == w.text && '\n' !in Body(w)
  {
    if w.quoted {
      StripPadding(QUOTE, w.text, QUOTE, IsQuote);
    } else {
      StripTight(w.text, IsQuote);
    }
  }

  lemma {:induction false} ShownReads(w: Written)
    requires WrittenOk(w)
    ensures Trim(Shown(w)) == Body(w) && Strip(Trim(Shown(w)), IsQuote) == w.text && '\n' !in Shown(w)
    ensures Shown(w) != "" ==> TightEnd(Shown(w))
  {
    BodyReads(w);
    TrimIndented(w.gap, Body(w));
    if Body(w) != "" {
      assert Shown(w)[|Shown(w)| - 1] == Body(w)[|Body(w)| - 1];
    }
  }

  lemma {:induction false} PairTextIsTight(p: Pair)
    requires PairOk(p)
    ensures PairText(p) != "" && Clean(PairText(p)) && !("- " <= PairText(p)) && TightEnd(PairText(p))
  {
    ShownReads(p.value);
    LabelledIsTight(p.key, p.pad, Shown(p.value));
  }

  /** A key, a colon and something that does not end in a blank. */
  lemma {:induction false} LabelledIsTight(key: string, pad: string, v: string)
    requires LabelOk(key, pad) && (v != "" ==> TightEnd(v))
    ensures var t := key + pad + [':'] + v;
            t != "" && Tight(t, IsWhitespace) && !("- " <= t) && TightEnd(t) && !IsWhitespace(t[0])
  {
    var front := key + pad;
    var t := front + [':'] + v;
    assert t[|front|] == ':';
    assert |front| >= 2 ==> t[..2] == front[..2];
    assert key != "" ==> front[0] == key[0];
    assert v != "" ==> t[|t| - 1] == v[|v| - 1];
  }

  lemma {:induction false} LabelReads(key: string, pad: string, v: string)
    requires LabelOk(key, pad)
    ensures SplitOnce(key + pad + [':'] + v, ':') == Some((key + pad, v)) && Trim(key + pad) == key
  {
    assert ':' !in pad;
    SplitOnceAt(key + pad, ':', v);
    StripPadding("", key, pad, IsWhitespace);
    assert "" + key + pad == key + pad;
  }

  lemma {:induction false} PairInserts(p: Pair, m: Fields, f64: FloatParser)
    requires PairOk(p)
    ensures InsertPair(m, PairText(p), f64) == m[p.key := Typed(p.value.text, f64)]
  {
    LabelReads(p.key, p.pad, Shown(p.value));
    ShownReads(p.value);
  }

  // ---------------------------------------------------------------------------------------
  // Blocks

  /** The lines after a block: none, or one that starts something new at the margin. */
  predicate Outdented(tail: seq<string>) {
    tail != [] ==> tail[0] != "" && !IsWhitespace(tail[0][0]) && !("- " <= tail[0])
  }

  lemma {:induction false} OutdentedStops(tail: seq<string>)
    requires Outdented(tail) && tail != []
    ensures !Indented(tail[0]) && Trim(tail[0]) != "" && !("- " <= Trim(tail[0]))
  {
    TrimKeepsStart(tail[0]);
  }

  /** A line that says nothing adds nothing. */
  lemma {:induction false} SkipInserts(l: string, m: Fields, f64: FloatParser)
    requires SkipOk(l)
    ensures Trim(l) == "" || (InsertPair(m, Trim(l), f64) == m && Indented(l) && !("- " <= Trim(l)))
  {
    if Trim(l) != "" {
      TrimIsWithin(l, ':');
    }
  }

  predicate SkipsOk(ls: seq<string>) {
    forall i :: 0 <= i < |ls| ==> SkipOk(ls[i])
  }

  lemma {:induction false} NestedSkips(ls: seq<string>, tail: seq<string>, m: Fields, f64: FloatParser)
    requires SkipsOk(ls)
    ensures NestedBlock(ls + tail, m, f64) == NestedBlock(tail, m, f64)
    decreases |ls|
  {
    if ls == [] {
      assert ls + tail == tail;
    } else {
      assert (ls + tail)[0] == ls[0] && (ls + tail)[1..] == ls[1..] + tail;
      SkipInserts(ls[0], m, f64);
      NestedSkips(ls[1..], tail, m, f64);
    }
  }

  lemma {:induction false} ItemSkips(ls: seq<string>, tail: seq<string>, m: Fields, f64: FloatParser)
    requires SkipsOk(ls)
    ensures ItemBody(ls + tail, m, f64) == ItemBody(tail, m, f64)
    decreases |ls|
  {
    if ls == [] {
      assert ls + tail == tail;
    } else {
      assert (ls + tail)[0] == ls[0] && (ls + tail)[1..] == ls[1..] + tail;
      SkipInserts(ls[0], m, f64);
      ItemSkips(ls[1..], tail, m, f64);
    }
  }

  lemma {:induction false} PairLinesCons(ps: seq<Pair>, tail: seq<string>)
    requires ps != []
    ensures PairLines(ps) + tail
         == [PairLine(ps[0])] + (ps[0].after + (PairLines(ps[1..]) + tail))
  {
  }

  lemma {:induction false} BlockParses(ps: seq<Pair>, tail: seq<string>, m: Fields, f64: FloatParser)
    requires PairsOk(ps) && Outdented(tail)
    ensures NestedBlock(PairLines(ps) + tail, m, f64) == (PairFields(m, ps, f64), tail)
    decreases |ps|
  {
    if ps == [] {
      assert PairLines(ps) + tail == tail;
      if tail != [] {
        OutdentedStops(tail);
      }
    } else {
      var line, m' := PairLine(ps[0]), m[ps[0].key := Typed(ps[0].value.text, f64)];
      var later := PairLines(ps[1..]) + tail;
      calc {
        NestedBlock(PairLines(ps) + tail, m, f64);
        { PairLinesCons(ps, tail); }
        NestedBlock([line] + (ps[0].after + later), m, f64);
        { NestedTakes(ps[0], ps[0].after + later, m, f64); }
        NestedBlock(ps[0].after + later, m', f64);
        { NestedSkips(ps[0].after, later, m', f64); }
        NestedBlock(later, m', f64);
        { BlockParses(ps[1..], tail, m', f64); }
        (PairFields(m', ps[1..], f64), tail);
      }
    }
  }

  /** An indented pair as the loops see it. */
  lemma {:induction false} IndentedPair(p: Pair)
    requires PairOk(p)
    ensures Indented(PairLine(p)) && Trim(PairLine(p)) == PairText(p) != "" && !("- " <= PairText(p))
  {
    PairTextIsTight(p);
    TrimIndented(p.indent, PairText(p));
  }

  lemma {:induction false} NestedTakes(p: Pair, later: seq<string>, m: Fields, f64: FloatParser)
    requires PairOk(p)
    ensures NestedBlock([PairLine(p)] + later, m, f64) == NestedBlock(later, m[p.key := Typed(p.value.text, f64)], f64)
  {
    var lines := [PairLine(p)] + later;
    assert lines[0] == PairLine(p) && lines[1..] == later;
    IndentedPair(p);
    PairInserts(p, m, f64);
  }

  lemma {:induction false} ItemTakes(p: Pair, later: seq<string>, m: Fields, f64: FloatParser)
    requires PairOk(p)
    ensures ItemBody([PairLine(p)] + later, m, f64) == ItemBody(later, m[p.key := Typed(p.value.text, f64)], f64)
  {
    var lines := [PairLine(p)] + later;
    assert lines[0] == PairLine(p) && lines[1..] == later;
    IndentedPair(p);
    PairInserts(p, m, f64);
  }

  /** The lines after an item: none, the next item, or something new at the margin. */
  predicate EndsItem(tail: seq<string>) {
    tail != [] ==> Trim(tail[0]) != "" && ("- " <= Trim(tail[0]) || !Indented(tail[0]))
  }

  lemma {:induction false} ItemParses(ps: seq<Pair>, tail: seq<string>, m: Fields, f64: FloatParser)
    requires PairsOk(ps) && EndsItem(tail)
    ensures ItemBody(PairLines(ps) + tail, m, f64) == (PairFields(m, ps, f64), tail)
    decreases |ps|
  {
    if ps == [] {
      assert PairLines(ps) + tail == tail;
    } else {
      var line, m' := PairLine(ps[0]), m[ps[0].key := Typed(ps[0].value.text, f64)];
      var later := PairLines(ps[1..]) + tail;
      calc {
        ItemBody(PairLines(ps) + tail, m, f64);
        { PairLinesCons(ps, tail); }
        ItemBody([line] + (ps[0].after + later), m, f64);
        { ItemTakes(ps[0], ps[0].after + later, m, f64); }
        ItemBody(ps[0].after + later, m', f64);
        { ItemSkips(ps[0].after, later, m', f64); }
        ItemBody(later, m', f64);
        { ItemParses(ps[1..], tail, m', f64); }
        (PairFields(m', ps[1..], f64), tail);
      }
    }
  }

  /** The dash line of an item, trimmed. */
  lemma {:induction false} DashLineReads(p: Pair)
    requires PairOk(p)
    ensures Trim(DashLine(p)) == "- " + PairText(p) && Indented(DashLine(p)) && "- " <= Trim(DashLine(p))
  {
    PairTextIsTight(p);
    var s := "- " + PairText(p);
    assert s[|s| - 1] == PairText(p)[|PairText(p)| - 1] && s[..2] == "- ";
    TrimIndented(p.indent, s);
  }

  lemma {:induction false} ListEndsItem(maps: seq<seq<Pair>>, tail: seq<string>)
    requires MapsOk(maps) && Outdented(tail)
    ensures EndsItem(ListLines(maps) + tail)
  {
    if maps == [] {
      assert ListLines(maps) + tail == tail;
      if tail != [] {
        OutdentedStops(tail);
      }
    } else {
      DashLineReads(maps[0][0]);
      assert (ListLines(maps) + tail)[0] == DashLine(maps[0][0]);
    }
  }

  lemma {:induction false} ListParses(maps: seq<seq<Pair>>, tail: seq<string>, items: seq<Value>, f64: FloatParser)
    requires MapsOk(maps) && Outdented(tail)
    ensures ListBlock(ListLines(maps) + tail, items, f64) == (items + ListValues(maps, f64), tail)
    decreases |maps|
  {
    if maps == [] {
      ListStops(tail, items, f64);
      assert ListLines(maps) + tail == tail && items + ListValues(maps, f64) == items;
    } else {
      var more := items + [Obj(PairFields(map[], maps[0], f64))];
      calc {
        ListBlock(ListLines(maps) + tail, items, f64);
        { ListTakesOne(maps, tail, items, f64); }
        ListBlock(ListLines(maps[1..]) + tail, more, f64);
        { ListParses(maps[1..], tail, more, f64); }
        (more + ListValues(maps[1..], f64), tail);
        { ListValuesCons(items, maps, f64); }
        (items + ListValues(maps, f64), tail);
      }
    }
  }

  lemma {:induction false} ListTakesOne(maps: seq<seq<Pair>>, tail: seq<string>, items: seq<Value>, f64: FloatParser)
    requires maps != [] && MapsOk(maps) && Outdented(tail)
    ensures ListBlock(ListLines(maps) + tail, items, f64)
         == ListBlock(ListLines(maps[1..]) + tail, items + [Obj(PairFields(map[], maps[0], f64))], f64)
  {
    ListLinesCons(maps, tail);
    ListEndsItem(maps[1..], tail);
    ListStep(maps[0], ListLines(maps[1..]) + tail, items, f64);
  }

  lemma {:induction false} ListLinesCons(maps: seq<seq<Pair>>, tail: seq<string>)
    requires maps != [] && MapsOk(maps)
    ensures ListLines(maps) + tail == MapLines(maps[0]) + (ListLines(maps[1..]) + tail)
  {
  }

  lemma {:induction false} ListStops(tail: seq<string>, items: seq<Value>, f64: FloatParser)
    requires Outdented(tail)
    ensures ListBlock(tail, items, f64) == (items, tail)
  {
    if tail != [] {
      OutdentedStops(tail);
    }
  }

  /** One item is consumed whole. */
  lemma {:induction false} ListStep(ps: seq<Pair>, later: seq<string>, items: seq<Value>, f64: FloatParser)
    requires ps != [] && PairsOk(ps) && EndsItem(later)
    ensures ListBlock(MapLines(ps) + later, items, f64)
         == ListBlock(later, items + [Obj(PairFields(map[], ps, f64))], f64)
  {
    var p, obj := ps[0], PairFields(map[], ps, f64);
    var line, body := DashLine(p), p.after + (PairLines(ps[1..]) + later);
    assert MapLines(ps) + later == [line] + body;
    DashLineReads(p);
    ItemBodyParses(ps, later, f64);
    ListUnfolds(line, PairText(p), body, obj, later, items, f64);
  }

  lemma {:induction false} ItemBodyParses(ps: seq<Pair>, later: seq<string>, f64: FloatParser)
    requires ps != [] && PairsOk(ps) && EndsItem(later)
    ensures ItemBody(ps[0].after + (PairLines(ps[1..]) + later), InsertPair(map[], PairText(ps[0]), f64), f64)
         == (PairFields(map[], ps, f64), later)
  {
    var p := ps[0];
    var first := map[p.key := Typed(p.value.text, f64)];
    PairInserts(p, map[], f64);
    ItemSkips(p.after, PairLines(ps[1..]) + later, first, f64);
    ItemParses(ps[1..], later, first, f64);
  }

  lemma {:induction false} ListUnfolds(
    line: string, first: string, body: seq<string>, obj: Fields, later: seq<string>, items: seq<Value>, f64: FloatParser)
    requires Indented(line) && Trim(line) == "- " + first
    requires ItemBody(body, InsertPair(map[], first, f64), f64) == (obj, later)
    ensures ListBlock([line] + body, items, f64) == ListBlock(later, items + [Obj(obj)], f64)
  {
    var lines := [line] + body;
    assert lines[0] == line && lines[1..] == body;
    assert ("- " + first)[..2] == "- " && ("- " + first)[2..] == first;
  }

  lemma {:induction false} ListValuesCons(items: seq<Value>, maps: seq<seq<Pair>>, f64: FloatParser)
    requires maps != []
    ensures items + [Obj(PairFields(map[], maps[0], f64))] + ListValues(maps[1..], f64) == items + ListValues(maps, f64)
  {
  }

  // ---------------------------------------------------------------------------------------
  // Inline arrays

  /** Splitting a joined list at its commas. */
  lemma {:induction false} JoinSplits(items: seq<string>)
    requires items != [] && forall i :: 0 <= i < |items| ==> ',' !in items[i]
    ensures Split(Join(items, ","), ',') == items
  {
    if |items| == 1 {
      SplitNone(items[0], ',');
    } else {
      var rest := Join(items[1..], ",");
      calc {
        Split(Join(items, ","), ',');
        { assert Join(items, ",") == items[0] + [','] + rest; }
        Split(items[0] + [','] + rest, ',');
        { SplitAt(items[0], ',', rest); }
        [items[0]] + Split(rest, ',');
        { JoinSplits(items[1..]); }
        [items[0]] + items[1..];
        items;
      }
    }
  }

  lemma {:induction false} ItemHasNo(w: Written, c: char)
    requires c != '"' && c !in w.text && c !in w.gap
    ensures c !in Shown(w)
  {
  }

  lemma {:induction false} ItemsRead(items: seq<Written>)
    requires items != [] && ItemsOk(items)
    ensures ArrayItems(Split(Join(ShownAll(items), ","), ',')) == Strings(items)
  {
    forall i | 0 <= i < |items|
      ensures ',' !in ShownAll(items)[i] && Strip(Trim(ShownAll(items)[i]), IsQuote) == items[i].text
    {
      ItemHasNo(items[i], ',');
      ShownReads(items[i]);
    }
    JoinSplits(ShownAll(items));
  }

  lemma {:induction false} JoinIsNotBlank(items: seq<Written>)
    requires items != [] && ItemsOk(items) && (|items| == 1 ==> Body(items[0]) != "")
    ensures Trim(Join(ShownAll(items), ",")) != ""
  {
    var inner := Join(ShownAll(items), ",");
    ShownReads(items[0]);
    if |items| > 1 {
      assert inner[|Shown(items[0])|] == ',';
      NonBlank(inner, ',');
    }
  }

  lemma {:induction false} ArrayIsTight(quoted: bool, items: seq<Written>)
    ensures var shown := Array(quoted, items);
            && TightEnd(shown) && Tight(shown, IsWhitespace)
            && Strip(shown, IsQuote) == ['['] + Join(ShownAll(items), ",") + [']']
  {
    var bare := ['['] + Join(ShownAll(items), ",") + [']'];
    if quoted {
      StripPadding(QUOTE, bare, QUOTE, IsQuote);
    } else {
      StripTight(bare, IsQuote);
      assert "" + bare + "" == bare;
    }
  }

  lemma {:induction false} InlineReads(gap: string, quoted: bool, items: seq<Written>, f64: FloatParser)
    requires NodeOk(Inline(gap, quoted, items))
    ensures InlineValue(Array(quoted, items), f64) == NodeValue(Inline(gap, quoted, items), f64)
  {
    var inner := Join(ShownAll(items), ",");
    ArrayIsTight(quoted, items);
    var val := ['['] + inner + [']'];
    assert val[1..|val| - 1] == inner && Bracketed(val);
    if items == [] {
      StripTight("", IsWhitespace);
    } else {
      ItemsRead(items);
      JoinIsNotBlank(items);
    }
  }

  /** Brackets around nothing but blanks are the empty array. */
  lemma {:induction false} BlankArrayReads(pad: string, f64: FloatParser)
    requires All(pad, IsWhitespace)
    ensures InlineValue(['['] + pad + [']'], f64) == Arr([])
  {
    var val := ['['] + pad + [']'];
    StripTight(val, IsQuote);
    assert val[1..|val| - 1] == pad;
    StripPadding(pad, "", "", IsWhitespace);
    assert pad + "" + "" == pad;
  }

  // ---------------------------------------------------------------------------------------
  // The whole document

  /** What stands behind the colon, trimmed. */
  function HeadText(n: Node): string {
    match n
    case Scalar(w) => Body(w)
    case Inline(_, quoted, items) => Array(quoted, items)
    case _ => ""
  }

  lemma {:induction false} BehindReads(n: Node)
    requires NodeOk(n)
    ensures Trim(Behind(n)) == HeadText(n)
    ensures Behind(n) != "" ==> TightEnd(Behind(n))
  {
    match n {
      case Scalar(w) => ShownReads(w);
      case Inline(gap, quoted, items) =>
        ArrayIsTight(quoted, items);
        TrimIndented(gap, Array(quoted, items));
        assert Behind(n)[|Behind(n)| - 1] == Array(quoted, items)[|Array(quoted, items)| - 1];
      case _ => StripTight("", IsWhitespace);
    }
  }

  /** A top-level line is neither a comment nor the closing marker. */
  lemma {:induction false} HeadIsNoMarker(key: string, pad: string, v: string)
    requires TopKeyOk(key) && LabelOk(key, pad)
    ensures var line := key + pad + [':'] + v;
            line[0] != '#' && !("---" <= line)
  {
    var line := key + (pad + ([':'] + v));
    assert line == key + pad + [':'] + v;
    var rest := pad + ([':'] + v);
    assert line[|key|] == rest[0] && (rest[0] == ':' || IsWhitespace(rest[0]));
    assert |key| >= 1 ==> key[..1] == [key[0]];
    assert |key| >= 3 ==> line[..3] == key[..3];
    assert |key| < 3 <= |line| ==> line[..3][|key|] == rest[0];
  }

  lemma {:induction false} HeadIsTight(e: Entry)
    requires EntryOk(e)
    ensures HeadLine(e) != "" && Tight(HeadLine(e), IsWhitespace) && TightEnd(HeadLine(e))
    ensures !IsWhitespace(HeadLine(e)[0]) && !("- " <= HeadLine(e)) && !("---" <= HeadLine(e))
  {
    BehindReads(e.node);
    LabelledIsTight(e.key, e.pad, Behind(e.node));
    HeadIsNoMarker(e.key, e.pad, Behind(e.node));
  }

  lemma {:induction false} EntryIsOutdented(e: Entry, tail: seq<string>)
    requires EntryOk(e)
    ensures Outdented(EntryLines(e) + tail)
  {
    HeadIsTight(e);
    var lines := EntryLines(e) + tail;
    assert lines[0] == if e.before == [] then HeadLine(e) else e.before[0];
    assert e.before != [] ==> NoiseOk(e.before[0]);
  }

  lemma {:induction false} DocIsOutdented(es: seq<Entry>)
    requires EntriesOk(es)
    ensures Outdented(DocLines(es))
  {
    if es != [] {
      EntryIsOutdented(es[0], DocLines(es[1..]));
    }
  }

  /** A first line as the parser reads it: key `k`, and `v` behind the colon. */
  predicate Heads(line: string, k: string, v: string) {
    && line != "" && Trim(line) == line && line[0] != '#'
    && var pair := SplitOnce(line, ':');
    && pair.Some? && Trim(pair.value.0) == k && Trim(pair.value.1) == v
  }

  lemma {:induction false} TopInline(head: string, k: string, v: string, tail: seq<string>, m: Fields, f64: FloatParser)
    requires Heads(head, k, v) && v != ""
    ensures Top([head] + tail, m, f64) == Top(tail, m[k := InlineValue(v, f64)], f64)
  {
    var lines := [head] + tail;
    assert lines[0] == head && lines[1..] == tail;
  }

  lemma {:induction false} TopNested(
    head: string, k: string, block: seq<string>, nested: Fields, tail: seq<string>, m: Fields, f64: FloatParser)
    requires Heads(head, k, "") && (block != [] ==> !("- " <= Trim(block[0])))
    requires NestedBlock(block, map[], f64) == (nested, tail)
    ensures Top([head] + block, m, f64) == Top(tail, m[k := Obj(nested)], f64)
  {
    var lines := [head] + block;
    assert lines[0] == head && lines[1..] == block && (block != [] ==> lines[1] == block[0]);
    assert !("- " <= "");
  }

  lemma {:induction false} TopList(
    head: string, k: string, block: seq<string>, items: seq<Value>, tail: seq<string>, m: Fields, f64: FloatParser)
    requires Heads(head, k, "") && block != [] && "- " <= Trim(block[0])
    requires ListBlock(block, [], f64) == (items, tail)
    ensures Top([head] + block, m, f64) == Top(tail, m[k := Arr(items)], f64)
  {
    var lines := [head] + block;
    assert lines[0] == head && lines[1..] == block && lines[1] == block[0];
  }

  lemma {:induction false} EntryHeads(e: Entry)
    requires EntryOk(e)
    ensures Heads(HeadLine(e), e.key, HeadText(e.node))
  {
    HeadIsTight(e);
    StripTight(HeadLine(e), IsWhitespace);
    HeadIsNoMarker(e.key, e.pad, Behind(e.node));
    LabelReads(e.key, e.pad, Behind(e.node));
    BehindReads(e.node);
  }

  /** Between entries, lines that say nothing change nothing. */
  lemma {:induction false} TopSkips(ls: seq<string>, tail: seq<string>, m: Fields, f64: FloatParser)
    requires forall i :: 0 <= i < |ls| ==> NoiseOk(ls[i])
    ensures Top(ls + tail, m, f64) == Top(tail, m, f64)
    decreases |ls|
  {
    if ls == [] {
      assert ls + tail == tail;
    } else {
      assert (ls + tail)[0] == ls[0] && (ls + tail)[1..] == ls[1..] + tail;
      NoiseIsSkipped(ls[0]);
      TopSkips(ls[1..], tail, m, f64);
    }
  }

  lemma {:induction false} NoiseIsSkipped(l: string)
    requires NoiseOk(l)
    ensures Trim(l) == "" || Trim(l)[0] == '#' || SplitOnce(Trim(l), ':') == None
  {
    if !Blank(l) {
      TrimKeepsStart(l);
      if l[0] != '#' {
        TrimIsWithin(l, ':');
      }
    }
  }

  lemma {:induction false} InlineEntryParses(e: Entry, tail: seq<string>, m: Fields, f64: FloatParser)
    requires EntryOk(e) && (e.node.Scalar? || e.node.Inline?)
    ensures Top([HeadLine(e)] + (e.blanks + tail), m, f64) == Top(tail, m[e.key := NodeValue(e.node, f64)], f64)
  {
    EntryHeads(e);
    TopInline(HeadLine(e), e.key, HeadText(e.node), e.blanks + tail, m, f64);
    match e.node {
      case Scalar(w) => BodyReads(w);
      case Inline(gap, quoted, items) => InlineReads(gap, quoted, items, f64);
    }
    TopSkips(e.blanks, tail, m[e.key := NodeValue(e.node, f64)], f64);
  }

  lemma {:induction false} BlockIsNoList(lead: seq<string>, ps: seq<Pair>, tail: seq<string>)
    requires SkipsOk(lead) && PairsOk(ps) && Outdented(tail)
    ensures var block := lead + (PairLines(ps) + tail);
            block != [] ==> !("- " <= Trim(block[0]))
  {
    var block := lead + (PairLines(ps) + tail);
    if lead != [] {
      assert block[0] == lead[0] && SkipOk(lead[0]);
    } else if ps != [] {
      assert block[0] == PairLine(ps[0]);
      IndentedPair(ps[0]);
    } else if tail != [] {
      assert block[0] == tail[0];
      OutdentedStops(tail);
    }
  }

  lemma {:induction false} BlockEntryParses(e: Entry, tail: seq<string>, m: Fields, f64: FloatParser)
    requires EntryOk(e) && e.node.Block? && Outdented(tail)
    ensures Top([HeadLine(e)] + (BelowLines(e.node) + tail), m, f64)
         == Top(tail, m[e.key := NodeValue(e.node, f64)], f64)
  {
    var lead, ps := e.node.lead, e.node.pairs;
    var block := lead + (PairLines(ps) + tail);
    assert BelowLines(e.node) + tail == block;
    EntryHeads(e);
    BlockIsNoList(lead, ps, tail);
    NestedSkips(lead, PairLines(ps) + tail, map[], f64);
    BlockParses(ps, tail, map[], f64);
    TopNested(HeadLine(e), e.key, block, PairFields(map[], ps, f64), tail, m, f64);
  }

  lemma {:induction false} ListIsList(maps: seq<seq<Pair>>, tail: seq<string>)
    requires maps != [] && MapsOk(maps)
    ensures var block := ListLines(maps) + tail;
            block != [] && "- " <= Trim(block[0])
  {
    assert (ListLines(maps) + tail)[0] == DashLine(maps[0][0]);
    DashLineReads(maps[0][0]);
  }

  lemma {:induction false} ListEntryParses(e: Entry, tail: seq<string>, m: Fields, f64: FloatParser)
    requires EntryOk(e) && e.node.List? && Outdented(tail)
    ensures Top([HeadLine(e)] + (BelowLines(e.node) + tail), m, f64)
         == Top(tail, m[e.key := NodeValue(e.node, f64)], f64)
  {
    var maps := e.node.maps;
    EntryHeads(e);
    ListIsList(maps, tail);
    ListParses(maps, tail, [], f64);
    assert [] + ListValues(maps, f64) == ListValues(maps, f64);
    TopList(HeadLine(e), e.key, ListLines(maps) + tail, ListValues(maps, f64), tail, m, f64);
  }

  lemma {:induction false} EntryParses(e: Entry, tail: seq<string>, m: Fields, f64: FloatParser)
    requires EntryOk(e) && Outdented(tail)
    ensures Top(EntryLines(e) + tail, m, f64) == Top(tail, m[e.key := NodeValue(e.node, f64)], f64)
  {
    var below := [HeadLine(e)] + (BelowLines(e.node) + (e.blanks + tail));
    EntryLinesSplit(e, tail);
    TopSkips(e.before, below, m, f64);
    EntryBelowParses(e, tail, m, f64);
  }

  lemma {:induction false} EntryLinesSplit(e: Entry, tail: seq<string>)
    requires NodeOk(e.node)
    ensures EntryLines(e) + tail == e.before + ([HeadLine(e)] + (BelowLines(e.node) + (e.blanks + tail)))
  {
    ConcatRegroups(e.before, [HeadLine(e)], BelowLines(e.node), e.blanks, tail);
  }

  lemma {:induction false} ConcatRegroups(a: seq<string>, b: seq<string>, c: seq<string>, d: seq<string>, t: seq<string>)
    ensures a + (b + (c + d)) + t == a + (b + (c + (d + t)))
  {
  }

  lemma {:induction false} EntryBelowParses(e: Entry, tail: seq<string>, m: Fields, f64: FloatParser)
    requires EntryOk(e) && Outdented(tail)
    ensures Top([HeadLine(e)] + (BelowLines(e.node) + (e.blanks + tail)), m, f64)
         == Top(tail, m[e.key := NodeValue(e.node, f64)], f64)
  {
    if e.node.Block? {
      assert e.blanks + tail == tail;
      BlockEntryParses(e, tail, m, f64);
    } else if e.node.List? {
      assert e.blanks + tail == tail;
      ListEntryParses(e, tail, m, f64);
    } else {
      assert BelowLines(e.node) + (e.blanks + tail) == e.blanks + tail;
      InlineEntryParses(e, tail, m, f64);
    }
  }

  lemma {:induction false} DocParses(es: seq<Entry>, m: Fields, f64: FloatParser)
    requires EntriesOk(es)
    ensures Top(DocLines(es), m, f64) == DocFields(m, es, f64)
    decreases |es|
  {
    if es != [] {
      DocIsOutdented(es[1..]);
      EntryParses(es[0], DocLines(es[1..]), m, f64);
      DocParses(es[1..], m[es[0].key := NodeValue(es[0].node, f64)], f64);
    }
  }

  /** A blank line right below a key does matter: it turns a list into a map, whose key starts
      with the dash. */
  lemma {:induction false} BlankTurnsListIntoMap(key: string, p: Pair, f64: FloatParser)
    requires TopKeyOk(key) && PairOk(p) && p.after == [] && p.key != ""
    ensures var head, line, v := key + [':'], DashLine(p), Typed(p.value.text, f64);
            && Top([head, line], map[], f64) == map[key := Arr([Obj(map[p.key := v])])]
            && Top([head, "", line], map[], f64) == map[key := Obj(map["- " + p.key := v])]
  {
    var head, line, v := key + [':'], DashLine(p), Typed(p.value.text, f64);
    EntryHeads(Entry([], key, "", Block([], []), []));
    assert HeadLine(Entry([], key, "", Block([], []), [])) == head;
    assert [head, line] == [head] + [line] && [head, "", line] == [head] + ["", line];
    OneItem(p, f64);
    OneDashField(p, f64);
    TopList(head, key, [line], [Obj(map[p.key := v])], [], map[], f64);
    TopNested(head, key, ["", line], map["- " + p.key := v], [], map[], f64);
  }

  lemma {:induction false} OneItem(p: Pair, f64: FloatParser)
    requires PairOk(p) && p.after == []
    ensures var line := DashLine(p);
            && "- " <= Trim(line)
            && ListBlock([line], [], f64) == ([Obj(map[p.key := Typed(p.value.text, f64)])], [])
  {
    var line, obj := DashLine(p), map[p.key := Typed(p.value.text, f64)];
    DashLineReads(p);
    assert ("- " + PairText(p))[..2] == "- ";
    PairInserts(p, map[], f64);
    ListUnfolds(line, PairText(p), [], obj, [], [], f64);
    assert [line] + [] == [line] && [] + [Obj(obj)] == [Obj(obj)];
    assert ListBlock([], [Obj(obj)], f64) == ([Obj(obj)], []);
  }

  lemma {:induction false} OneDashField(p: Pair, f64: FloatParser)
    requires PairOk(p) && p.key != ""
    ensures Trim("") == ""
    ensures NestedBlock(["", DashLine(p)], map[], f64)
         == (map["- " + p.key := Typed(p.value.text, f64)], [])
  {
    var line := DashLine(p);
    DashInserts(p, f64);
    StripTight("", IsWhitespace);
    assert ["", line][1..] == [line] && [line][1..] == [];
    var obj := map["- " + p.key := Typed(p.value.text, f64)];
    assert NestedBlock([], obj, f64) == (obj, []);
    assert NestedBlock([line], map[], f64) == (obj, []);
  }

  /** Read as a pair, a dash line has the dash in its key. */
  lemma {:induction false} DashInserts(p: Pair, f64: FloatParser)
    requires PairOk(p) && p.key != ""
    ensures var line := DashLine(p);
            && Indented(line) && Trim(line) != ""
            && InsertPair(map[], Trim(line), f64) == map["- " + p.key := Typed(p.value.text, f64)]
  {
    DashLineReads(p);
    DashTextSplits(p);
    DashLabelReads(p.key, p.pad, Shown(p.value));
    ShownReads(p.value);
  }

  lemma {:induction false} DashTextSplits(p: Pair)
    ensures "- " + PairText(p) == "- " + (p.key + p.pad) + [':'] + Shown(p.value)
  {
  }

  lemma {:induction false} DashLabelReads(key: string, pad: string, v: string)
    requires LabelOk(key, pad) && key != ""
    ensures SplitOnce("- " + (key + pad) + [':'] + v, ':') == Some(("- " + (key + pad), v))
    ensures Trim("- " + (key + pad)) == "- " + key
  {
    assert ':' !in pad && ':' !in "- " + (key + pad);
    SplitOnceAt("- " + (key + pad), ':', v);
    var dashed := "- " + key;
    assert dashed[|dashed| - 1] == key[|key| - 1];
    StripPadding("", dashed, pad, IsWhitespace);
    assert "" + dashed + pad == "- " + (key + pad);
  }

  // ---------------------------------------------------------------------------------------
  // The file around the document

  /** A header line that survives splitting and does not close the header. */
  predicate LineOk(l: string) {
    PlainLine(l) && !("---" <= l)
  }

  predicate LinesOk(ls: seq<string>) {
    forall i :: 0 <= i < |ls| ==> LineOk(ls[i])
  }

  lemma {:induction false} SkipsAreLines(ls: seq<string>)
    requires SkipsOk(ls)
    ensures LinesOk(ls)
  {
    forall i | 0 <= i < |ls| ensures LineOk(ls[i]) {
      assert SkipOk(ls[i]);
      if "---" <= ls[i] {
        assert ls[i][0] == '-';
        NonBlank(ls[i], '-');
      }
    }
  }

  lemma {:induction false} NoiseIsLines(ls: seq<string>)
    requires forall i :: 0 <= i < |ls| ==> NoiseOk(ls[i])
    ensures LinesOk(ls)
  {
    forall i | 0 <= i < |ls| ensures LineOk(ls[i]) {
      assert NoiseOk(ls[i]);
      if "---" <= ls[i] {
        assert ls[i][0] == '-';
        NonBlank(ls[i], '-');
      }
    }
  }

  lemma {:induction false} PaddedIsLine(pad: string, text: string)
    requires IndentOk(pad) && TightEnd(text) && '\n' !in text
    ensures LineOk(pad + text) && TightEnd(pad + text)
  {
    var l := pad + text;
    assert l[0] == pad[0] && "---"[0] == '-' && l[|l| - 1] == text[|text| - 1];
  }

  lemma {:induction false} PairLineOk(p: Pair)
    requires PairOk(p)
    ensures LineOk(PairLine(p)) && TightEnd(PairLine(p))
    ensures LineOk(DashLine(p)) && TightEnd(DashLine(p))
  {
    PairTextIsTight(p);
    PaddedIsLine(p.indent, PairText(p));
    var s := "- " + PairText(p);
    assert s[|s| - 1] == PairText(p)[|PairText(p)| - 1];
    PaddedIsLine(p.indent, s);
  }

  lemma {:induction false} PairLinesOk(ps: seq<Pair>)
    requires PairsOk(ps)
    ensures LinesOk(PairLines(ps))
  {
    if ps != [] {
      PairLineOk(ps[0]);
      SkipsAreLines(ps[0].after);
      PairLinesOk(ps[1..]);
    }
  }

  lemma {:induction false} MapLinesOk(ps: seq<Pair>)
    requires ps != [] && PairsOk(ps)
    ensures LinesOk(MapLines(ps))
  {
    PairLineOk(ps[0]);
    SkipsAreLines(ps[0].after);
    PairLinesOk(ps[1..]);
  }

  lemma {:induction false} ListLinesOk(maps: seq<seq<Pair>>)
    requires MapsOk(maps)
    ensures LinesOk(ListLines(maps))
  {
    if maps != [] {
      MapLinesOk(maps[0]);
      ListLinesOk(maps[1..]);
    }
  }

  lemma {:induction false} BelowLinesOk(n: Node)
    requires NodeOk(n)
    ensures LinesOk(BelowLines(n))
  {
    match n {
      case Block(lead, ps) =>
        SkipsAreLines(lead);
        PairLinesOk(ps);
      case List(maps) => ListLinesOk(maps);
      case _ =>
    }
  }

  lemma {:induction false} HeadLineOk(e: Entry)
    requires EntryOk(e)
    ensures LineOk(HeadLine(e))
  {
    HeadIsTight(e);
    BehindHasNoNewline(e.node);
  }

  lemma {:induction false} LinesConcatOk(a: seq<string>, head: string, b: seq<string>, c: seq<string>)
    requires LinesOk(a) && LineOk(head) && LinesOk(b) && LinesOk(c)
    ensures LinesOk(a + ([head] + (b + c)))
  {
  }

  lemma {:induction false} EntryLinesOk(e: Entry)
    requires EntryOk(e)
    ensures LinesOk(EntryLines(e))
  {
    NoiseIsLines(e.before);
    NoiseIsLines(e.blanks);
    BelowLinesOk(e.node);
    HeadLineOk(e);
    LinesConcatOk(e.before, HeadLine(e), BelowLines(e.node), e.blanks);
  }

  lemma {:induction false} BehindHasNoNewline(n: Node)
    requires NodeOk(n)
    ensures '\n' !in Behind(n)
  {
    match n {
      case Scalar(w) => ShownReads(w);
      case Inline(gap, quoted, items) =>
        forall i | 0 <= i < |items| ensures '\n' !in ShownAll(items)[i] {
          ShownReads(items[i]);
        }
        JoinHasNoNewline(ShownAll(items));
      case _ =>
    }
  }

  lemma {:induction false} JoinHasNoNewline(items: seq<string>)
    requires forall i :: 0 <= i < |items| ==> '\n' !in items[i]
    ensures '\n' !in Join(items, ",")
  {
    if |items| > 1 {
      JoinHasNoNewline(items[1..]);
    }
  }

  lemma {:induction false} DocLinesOk(es: seq<Entry>)
    requires EntriesOk(es)
    ensures LinesOk(DocLines(es))
  {
    if es != [] {
      EntryLinesOk(es[0]);
      DocLinesOk(es[1..]);
    }
  }

  const CLOSE := "\n---"

  lemma {:induction false} OccursShift(s: string, pat: string, j: int, d: nat)
    requires d <= j && d <= |s|
    ensures Occurs(s, pat, j) == Occurs(s[d..], pat, j - d)
  {
    if j + |pat| <= |s| {
      assert s[d..][j - d..j - d + |pat|] == s[j..j + |pat|];
    }
  }

  lemma {:induction false} Mismatch(s: string, pat: string, j: nat, k: nat)
    requires k < |pat| && j + k < |s| && s[j + k] != pat[k]
    ensures !Occurs(s, pat, j)
  {
    if j + |pat| <= |s| {
      assert s[j..j + |pat|][k] == s[j + k];
    }
  }

  lemma {:induction false} PastLine(l: string, rest: string, j: nat)
    requires j > |l|
    ensures Occurs("\n" + l + "\n" + rest, CLOSE, j) == Occurs("\n" + rest, CLOSE, j - |l| - 1)
  {
    var s := "\n" + l + "\n" + rest;
    assert s[|l| + 1..] == "\n" + rest;
    OccursShift(s, CLOSE, j, |l| + 1);
  }

  lemma {:induction false} NotInLine(l: string, rest: string, j: nat)
    requires LineOk(l) && j <= |l|
    ensures !Occurs("\n" + l + "\n" + rest, CLOSE, j)
  {
    if j > 0 {
      var s := "\n" + l + "\n" + rest;
      assert s[j] == l[j - 1] && l[j - 1] in l;
      Mismatch(s, CLOSE, j, 0);
    } else {
      FirstLineDoesNotClose(l, rest);
    }
  }

  lemma {:induction false} UnlinesHead(ls: seq<string>, tail: string)
    requires ls != []
    ensures "\n" + Unlines(ls) + tail == "\n" + ls[0] + "\n" + (Unlines(ls[1..]) + tail)
    ensures |Unlines(ls)| == |ls[0]| + 1 + |Unlines(ls[1..])|
    ensures "\n" + (Unlines(ls[1..]) + tail) == "\n" + Unlines(ls[1..]) + tail
  {
  }

  /** The closing marker does not occur before the header lines end. */
  lemma {:induction false} NoEarlyClose(ls: seq<string>, tail: string, j: nat)
    requires LinesOk(ls) && j < |Unlines(ls)|
    ensures !Occurs("\n" + Unlines(ls) + tail, CLOSE, j)
    decreases |ls|
  {
    var l, rest := ls[0], Unlines(ls[1..]) + tail;
    UnlinesHead(ls, tail);
    if j > |l| {
      PastLine(l, rest, j);
      NoEarlyClose(ls[1..], tail, j - |l| - 1);
    } else {
      NotInLine(l, rest, j);
    }
  }

  lemma {:induction false} FirstLineDoesNotClose(l: string, tail: string)
    requires LineOk(l)
    ensures !Occurs("\n" + l + "\n" + tail, CLOSE, 0)
  {
    var s := "\n" + l + "\n" + tail;
    if |l| >= 3 {
      assert l[..3] == [l[0], l[1], l[2]];
      assert s[1] == l[0] && s[2] == l[1] && s[3] == l[2];
      Mismatch(s, CLOSE, 0, if l[0] != '-' then 1 else if l[1] != '-' then 2 else 3);
    } else {
      assert s[1 + |l|] == '\n';
      Mismatch(s, CLOSE, 0, 1 + |l|);
    }
  }

  /** The header lines joined, without the last line break. */
  function Header(ls: seq<string>): string {
    if ls == [] then "" else Unlines(ls[..|ls| - 1]) + ls[|ls| - 1]
  }

  lemma {:induction false} HeaderReads(ls: seq<string>)
    requires LinesOk(ls) && EndsTight(ls)
    ensures Lines(Header(ls)) == ls
  {
    if ls != [] {
      var init, last := ls[..|ls| - 1], ls[|ls| - 1];
      forall i | 0 <= i < |init| ensures PlainLine(init[i]) { assert LineOk(ls[i]); }
      assert Lines(last) == [last] by { assert LineOk(ls[|ls| - 1]); }
      LinesOfUnlines(init, last);
      assert init + [last] == ls;
    }
  }

  lemma {:induction false} HeaderEnds(ls: seq<string>)
    requires ls != []
    ensures Unlines(ls) == Header(ls) + "\n"
  {
    var init, last := ls[..|ls| - 1], ls[|ls| - 1];
    UnlinesConcat(init, [last]);
    assert init + [last] == ls;
    assert Unlines([last]) == last + "\n" by { assert Unlines([last][1..]) == ""; }
  }

  lemma {:induction false} HeaderTrims(ls: seq<string>)
    requires Outdented(ls) && EndsTight(ls)
    ensures Trim(("\n" + Unlines(ls))[..|Unlines(ls)|]) == Header(ls)
  {
    if ls == [] {
      StripTight("", IsWhitespace);
    } else {
      HeaderEnds(ls);
      HeaderIsTight(ls);
      TrimIndented("\n", Header(ls));
      assert ("\n" + Unlines(ls))[..|Unlines(ls)|] == "\n" + Header(ls);
    }
  }

  lemma {:induction false} HeaderIsTight(ls: seq<string>)
    requires Outdented(ls) && EndsTight(ls) && ls != []
    ensures Header(ls) != "" && Tight(Header(ls), IsWhitespace)
  {
    var init, last := ls[..|ls| - 1], ls[|ls| - 1];
    var h := Header(ls);
    assert h[|h| - 1] == last[|last| - 1];
    if init != [] {
      assert Unlines(init)[0] == ls[0][0];
    }
  }

  /** Trimming the end first changes nothing. */
  lemma {:induction false} TrimAfterTrimEnd(s: string)
    ensures Trim(StripEnd(s, IsWhitespace)) == Trim(s)
  {
    var s' := StripEnd(s, IsWhitespace);
    var b := StripEndParts(s, IsWhitespace);
    var a', b' := StripParts(s', IsWhitespace);
    StripPadding(a', Trim(s'), b' + b, IsWhitespace);
    assert s == a' + Trim(s') + (b' + b);
  }

  /** Any lines that cannot be mistaken for markers come back from between them. */
  lemma {:induction false} SectionsOfFile(ls: seq<string>, rest: string)
    requires LinesOk(ls) && Outdented(ls) && EndsTight(ls)
    ensures Sections("---\n" + Unlines(ls) + "---" + rest) == Ok((Header(ls), Trim(rest)))
  {
    var u, rest' := Unlines(ls), StripEnd(rest, IsWhitespace);
    FileTrims(u, rest);
    var s := "\n" + u + ("---" + rest');
    assert "---\n" + u + "---" + rest' == "---" + s;
    FindsClose(ls, "---" + rest');
    SectionsAt("---\n" + u + "---" + rest, s, |u|);
    assert s[..|u|] == ("\n" + u)[..|u|];
    HeaderTrims(ls);
    assert s[|u| + 4..] == rest';
    TrimAfterTrimEnd(rest);
  }

  lemma {:induction false} SectionsAt(content: string, s: string, n: nat)
    requires Trim(content) == "---" + s && Find(s, CLOSE) == Some(n)
    ensures Sections(content) == Ok((Trim(s[..n]), Trim(s[n + 4..])))
  {
    var trimmed := "---" + s;
    assert trimmed[..3] == "---" && trimmed[3..] == s;
    assert trimmed[3..3 + n] == s[..n] && trimmed[3 + n + 4..] == s[n + 4..];
  }

  lemma {:induction false} FileTrims(u: string, rest: string)
    ensures Trim("---\n" + u + "---" + rest) == "---\n" + u + "---" + StripEnd(rest, IsWhitespace)
  {
    var rest' := StripEnd(rest, IsWhitespace);
    var b := StripEndParts(rest, IsWhitespace);
    var front := "---\n" + u + "---";
    var t := front + rest';
    assert front[0] == '-' && front[|front| - 1] == '-' && t[0] == '-';
    assert rest' == "" ==> t == front;
    StripEndPadding(t, b, IsWhitespace);
    assert t + b == front + rest && (t + b)[0] == '-';
  }

  lemma {:induction false} FindsClose(ls: seq<string>, tail: string)
    requires LinesOk(ls) && "---" <= tail
    ensures Find("\n" + Unlines(ls) + tail, CLOSE) == Some(|Unlines(ls)|)
  {
    var u := Unlines(ls);
    var s := "\n" + u + tail;
    assert Occurs(s, CLOSE, |u|) by {
      LastCharIsNewline(ls);
      assert s[|u|] == '\n' && s[|u| + 1..|u| + 4] == tail[..3];
      assert s[|u|..|u| + 4] == [s[|u|]] + s[|u| + 1..|u| + 4];
    }
    forall j: nat | j < |u| ensures !Occurs(s, CLOSE, j) {
      NoEarlyClose(ls, tail, j);
    }
  }

  lemma {:induction false} LastCharIsNewline(ls: seq<string>)
    ensures ("\n" + Unlines(ls))[|Unlines(ls)|] == '\n'
  {
    if ls != [] {
      HeaderEnds(ls);
    }
  }

  // ---------------------------------------------------------------------------------------
  // The round trip

  /** Parsing the printed file returns the metadata and the trimmed body, for every printable
      document and everything that may follow the closing marker. */
  lemma {:induction false} RoundTrip(es: seq<Entry>, rest: string, f64: FloatParser)
    requires DocOk(es)
    ensures Meaning(File(es, rest), f64) == Ok((Obj(DocFields(map[], es, f64)), Trim(rest)))
  {
    DocLinesOk(es);
    DocIsOutdented(es);
    SectionsOfFile(DocLines(es), rest);
    HeaderReads(DocLines(es));
    DocParses(es, map[], f64);
  }

  predicate KeyIn(es: seq<Entry>, k: string) {
    exists i :: 0 <= i < |es| && es[i].key == k
  }

  lemma {:induction false} KeyInCons(es: seq<Entry>, k: string)
    requires es != []
    ensures KeyIn(es, k) <==> es[0].key == k || KeyIn(es[1..], k)
  {
    if KeyIn(es[1..], k) {
      var i :| 0 <= i < |es[1..]| && es[1..][i].key == k;
      assert es[i + 1].key == k;
    }
    if KeyIn(es, k) {
      var i :| 0 <= i < |es| && es[i].key == k;
      assert i > 0 ==> es[1..][i - 1].key == k;
    }
  }

  /** The metadata has exactly the keys of the document, plus what was there before. */
  lemma {:induction false} DocKeys(m: Fields, es: seq<Entry>, f64: FloatParser, k: string)
    ensures k in DocFields(m, es, f64) <==> k in m || KeyIn(es, k)
    ensures k in m && !KeyIn(es, k) ==> DocFields(m, es, f64)[k] == m[k]
    decreases |es|
  {
    if es != [] {
      KeyInCons(es, k);
      DocKeys(m[es[0].key := NodeValue(es[0].node, f64)], es[1..], f64, k);
    }
  }

  /** An entry no later one overrides has its own value. */
  lemma {:induction false} DocLookup(m: Fields, es: seq<Entry>, f64: FloatParser, i: nat)
    requires i < |es| && !KeyIn(es[i + 1..], es[i].key)
    ensures es[i].key in DocFields(m, es, f64)
    ensures DocFields(m, es, f64)[es[i].key] == NodeValue(es[i].node, f64)
    decreases |es|
  {
    var m' := m[es[0].key := NodeValue(es[0].node, f64)];
    if i == 0 {
      DocKeys(m', es[1..], f64, es[0].key);
    } else {
      assert es[1..][i..] == es[i + 1..];
      DocLookup(m', es[1..], f64, i - 1);
    }
  }

}
