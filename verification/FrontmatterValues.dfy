/** The frontmatter round trip on metadata values: whatever order a map's keys are printed in, with
    quotes or without, the parsed file holds the very values. */
module FrontmatterValues {
  import opened Options
  import opened Text
  import opened Json
  import opened Frontmatter
  import opened FrontmatterRoundTrip

  // ---------------------------------------------------------------------------------------
  // Scalars

  function Digit(d: nat): (c: char)
    requires d < 10
    ensures IsDigit(c) && c as int == '0' as int + d
  {
    ('0' as int + d) as char
  }

  function ShowU64(n: nat): string {
    if n < 10 then [Digit(n)] else ShowU64(n / 10) + [Digit(n % 10)]
  }

  lemma {:induction false} ShownDigits(n: nat)
    ensures ShowU64(n) != "" && All(ShowU64(n), IsDigit) && DigitsValue(ShowU64(n)) == n
  {
    if n < 10 {
      assert [Digit(n)][..0] == "";
    } else {
      var head, digit := ShowU64(n / 10), Digit(n % 10);
      ShownDigits(n / 10);
      assert (head + [digit])[..|head|] == head;
    }
  }

  /** A decimal numeral reads as its number when that fits 64 bits, with a plus sign or without,
      and as no integer otherwise. */
  lemma {:induction false} NumeralReads(n: nat)
    ensures ParseU64(ShowU64(n)) == if n < U64_LIMIT then Some(n) else None
    ensures ParseU64("+" + ShowU64(n)) == if n < U64_LIMIT then Some(n) else None
  {
    ShownDigits(n);
    assert IsDigit(ShowU64(n)[0]);
    assert ("+" + ShowU64(n))[1..] == ShowU64(n);
  }

  /** Neither a boolean nor a number. */
  predicate PlainText(text: string, f64: FloatParser) {
    text != "true" && text != "false" && ParseU64(text) == None && f64(text) == NotAFloat
  }

  predicate FloatText(text: string, f64: FloatParser) {
    text != "true" && text != "false" && ParseU64(text) == None && f64(text) != NotAFloat
  }

  /** The texts of a scalar value. `nan` and `inf` are texts of null, since the float parser
      accepts both and JSON has no number for them. */
  predicate IsTextOf(text: string, v: Value, f64: FloatParser) {
    match v
    case Bool(b) => text == if b then "true" else "false"
    case Num(Unsigned(n)) => n < U64_LIMIT && (text == ShowU64(n) || text == "+" + ShowU64(n))
    case Num(Float(x)) => FloatText(text, f64) && f64(text) == Finite(x)
    case Null => FloatText(text, f64) && f64(text) == NonFinite
    case Str(t) => text == t && PlainText(t, f64)
    case _ => false
  }

  /** A scalar reads back from any of its texts. */
  lemma {:induction false} ScalarReadsBack(text: string, v: Value, f64: FloatParser)
    requires IsTextOf(text, v, f64)
    ensures Typed(text, f64) == v
  {
    match v
    case Num(Unsigned(n)) =>
      NumeralReads(n);
      NumeralIsNoWord(text, n);
    case _ =>
  }

  lemma {:induction false} NumeralIsNoWord(text: string, n: nat)
    requires text == ShowU64(n) || text == "+" + ShowU64(n)
    ensures text != "true" && text != "false"
  {
    ShownDigits(n);
    var s := ShowU64(n);
    assert text[|text| - 1] == s[|s| - 1] && IsDigit(s[|s| - 1]);
    assert "true"[3] == 'e' && "false"[4] == 'e';
  }

  lemma {:induction false} TextReadsBack(text: string, f64: FloatParser)
    ensures Typed(text, f64) == Str(text) <==> PlainText(text, f64)
  {
  }

  // ---------------------------------------------------------------------------------------
  // Printed forms of a value

  ghost predicate PrintsFields(ps: seq<Pair>, m: Fields, f64: FloatParser) {
    && (forall i, j :: 0 <= i < j < |ps| ==> ps[i].key != ps[j].key)
    && (forall i :: 0 <= i < |ps| ==> ps[i].key in m && IsTextOf(ps[i].value.text, m[ps[i].key], f64))
    && (forall k :: k in m ==> exists i :: 0 <= i < |ps| && ps[i].key == k)
  }

  ghost predicate Prints(n: Node, v: Value, f64: FloatParser) {
    match n
    case Scalar(w) => IsTextOf(w.text, v, f64)
    case Inline(_, _, items) =>
      && v.Arr? && |v.items| == |items|
      && forall i :: 0 <= i < |items| ==> v.items[i] == Str(items[i].text)
    case Block(_, ps) => v.Obj? && PrintsFields(ps, v.fields, f64)
    case List(maps) =>
      && v.Arr? && |v.items| == |maps|
      && forall i :: 0 <= i < |maps| ==> v.items[i].Obj? && PrintsFields(maps[i], v.items[i].fields, f64)
  }

  ghost predicate PrintsMeta(es: seq<Entry>, m: Fields, f64: FloatParser) {
    && (forall i, j :: 0 <= i < j < |es| ==> es[i].key != es[j].key)
    && (forall i :: 0 <= i < |es| ==> es[i].key in m && Prints(es[i].node, m[es[i].key], f64))
    && (forall k :: k in m ==> exists i :: 0 <= i < |es| && es[i].key == k)
  }

  // ---------------------------------------------------------------------------------------
  // Maps of scalars read back

  predicate KeyAmong(ps: seq<Pair>, k: string) {
    exists i :: 0 <= i < |ps| && ps[i].key == k
  }

  lemma {:induction false} KeyAmongCons(ps: seq<Pair>, k: string)
    requires ps != []
    ensures KeyAmong(ps, k) <==> ps[0].key == k || KeyAmong(ps[1..], k)
  {
    if i :| 0 <= i < |ps[1..]| && ps[1..][i].key == k {
      assert ps[i + 1].key == k;
    }
    if i :| 0 <= i < |ps| && ps[i].key == k {
      assert i > 0 ==> ps[1..][i - 1].key == k;
    }
  }

  /** The pairs add exactly their keys and keep what they do not mention. */
  lemma {:induction false} PairKeys(m: Fields, ps: seq<Pair>, f64: FloatParser, k: string)
    ensures k in PairFields(m, ps, f64) <==> k in m || KeyAmong(ps, k)
    ensures k in m && !KeyAmong(ps, k) ==> PairFields(m, ps, f64)[k] == m[k]
    decreases |ps|
  {
    if ps != [] {
      KeyAmongCons(ps, k);
      PairKeys(m[ps[0].key := Typed(ps[0].value.text, f64)], ps[1..], f64, k);
    }
  }

  /** A pair no later one overrides decides its key's value. */
  lemma {:induction false} PairLookup(m: Fields, ps: seq<Pair>, f64: FloatParser, i: nat)
    requires i < |ps| && !KeyAmong(ps[i + 1..], ps[i].key)
    ensures ps[i].key in PairFields(m, ps, f64)
    ensures PairFields(m, ps, f64)[ps[i].key] == Typed(ps[i].value.text, f64)
    decreases |ps|
  {
    var m' := m[ps[0].key := Typed(ps[0].value.text, f64)];
    if i == 0 {
      PairKeys(m', ps[1..], f64, ps[0].key);
    } else {
      assert ps[1..][i..] == ps[i + 1..];
      PairLookup(m', ps[1..], f64, i - 1);
    }
  }

  lemma {:induction false} PrintedOnce(ps: seq<Pair>, i: nat)
    requires i < |ps| && forall i, j :: 0 <= i < j < |ps| ==> ps[i].key != ps[j].key
    ensures !KeyAmong(ps[i + 1..], ps[i].key)
  {
    var later := ps[i + 1..];
    assert forall j :: 0 <= j < |later| ==> later[j] == ps[i + 1 + j];
  }

  lemma {:induction false} FieldReadsAt(ps: seq<Pair>, m: Fields, f64: FloatParser, k: string)
    requires PrintsFields(ps, m, f64)
    ensures var r := PairFields(map[], ps, f64);
            (k in r <==> k in m) && (k in m ==> r[k] == m[k])
  {
    PairKeys(map[], ps, f64, k);
    assert KeyAmong(ps, k) <==> k in m;
    if k in m {
      var i :| 0 <= i < |ps| && ps[i].key == k;
      PrintedOnce(ps, i);
      PairLookup(map[], ps, f64, i);
      ScalarReadsBack(ps[i].value.text, m[k], f64);
    }
  }

  lemma {:induction false} FieldsRead(ps: seq<Pair>, m: Fields, f64: FloatParser)
    requires PrintsFields(ps, m, f64)
    ensures PairFields(map[], ps, f64) == m
  {
    var r := PairFields(map[], ps, f64);
    forall k ensures (k in r <==> k in m) && (k in m ==> r[k] == m[k]) {
      FieldReadsAt(ps, m, f64, k);
    }
  }

  // ---------------------------------------------------------------------------------------
  // Every value reads back from each of its printed forms

  lemma {:induction false} ValueReads(n: Node, v: Value, f64: FloatParser)
    requires Prints(n, v, f64)
    ensures NodeValue(n, f64) == v
  {
    match n {
      case Scalar(w) => ScalarReadsBack(w.text, v, f64);
      case Inline(_, _, items) => assert Strings(items) == v.items;
      case Block(_, ps) => FieldsRead(ps, v.fields, f64);
      case List(maps) =>
        forall i | 0 <= i < |maps| ensures ListValues(maps, f64)[i] == v.items[i] {
          FieldsRead(maps[i], v.items[i].fields, f64);
        }
        assert ListValues(maps, f64) == v.items;
    }
  }

  /** Parsing any printed form of metadata returns exactly that metadata and the trimmed body. */
  lemma {:induction false} ValueRoundTrip(es: seq<Entry>, m: Fields, rest: string, f64: FloatParser)
    requires DocOk(es) && PrintsMeta(es, m, f64)
    ensures Meaning(File(es, rest), f64) == Ok((Obj(m), Trim(rest)))
  {
    forall i | 0 <= i < |es| ensures NodeValue(es[i].node, f64) == m[es[i].key] {
      ValueReads(es[i].node, m[es[i].key], f64);
    }
    RoundTrip(es, rest, f64);
    MetaReads(es, m, f64);
  }

  lemma {:induction false} MetaReads(es: seq<Entry>, m: Fields, f64: FloatParser)
    requires PrintsMeta(es, m, f64)
    requires forall i :: 0 <= i < |es| ==> NodeValue(es[i].node, f64) == m[es[i].key]
    ensures DocFields(map[], es, f64) == m
  {
    var r := DocFields(map[], es, f64);
    forall k ensures (k in r <==> k in m) && (k in m ==> r[k] == m[k]) {
      DocKeys(map[], es, f64, k);
      if k in m {
        var i :| 0 <= i < |es| && es[i].key == k;
        DocLookup(map[], es, f64, i);
      }
    }
  }

  // ---------------------------------------------------------------------------------------
  // Which metadata can be printed

  /** Between quotes everything can be written that has no line break and no quote at its ends. */
  predicate Quotable(text: string) {
    '\n' !in text && Tight(text, IsQuote)
  }

  ghost predicate FieldOk(v: Value, f64: FloatParser) {
    exists text :: Quotable(text) && IsTextOf(text, v, f64)
  }

  /** Behind a top-level key, brackets would read as an array. */
  ghost predicate ScalarOk(v: Value, f64: FloatParser) {
    exists text :: Quotable(text) && !Bracketed(text) && IsTextOf(text, v, f64)
  }

  ghost predicate FieldsOk(m: Fields, f64: FloatParser) {
    forall k :: k in m ==> KeyOk(k) && FieldOk(m[k], f64)
  }

  /** An array of maps, which prints as a list. */
  predicate IsList(items: seq<Value>) {
    items != [] && forall i :: 0 <= i < |items| ==> items[i].Obj? && items[i].fields != map[]
  }

  predicate ItemOk(v: Value) {
    v.Str? && Quotable(v.s) && ',' !in v.s
  }

  ghost predicate Printable(v: Value, f64: FloatParser) {
    match v
    case Obj(m) => FieldsOk(m, f64)
    case Arr(items) =>
      if IsList(items) then forall i :: 0 <= i < |items| ==> FieldsOk(items[i].fields, f64)
      else forall i :: 0 <= i < |items| ==> ItemOk(items[i])
    case _ => ScalarOk(v, f64)
  }

  ghost predicate MetaOk(m: Fields, f64: FloatParser) {
    forall k :: k in m ==> TopKeyOk(k) && Printable(m[k], f64)
  }

  /** Which scalars that lets in: both booleans, all 64-bit unsigned integers, and every plain text
      that can be quoted. */
  lemma {:induction false} ScalarsArePrintable(f64: FloatParser)
    ensures forall b :: ScalarOk(Bool(b), f64)
    ensures forall n: nat :: n < U64_LIMIT ==> ScalarOk(Num(Unsigned(n)), f64)
    ensures forall t :: Quotable(t) && !Bracketed(t) && PlainText(t, f64) ==> ScalarOk(Str(t), f64)
  {
    forall b ensures ScalarOk(Bool(b), f64) {
      var text := if b then "true" else "false";
      assert Quotable(text) && !Bracketed(text) && IsTextOf(text, Bool(b), f64);
    }
    forall n: nat | n < U64_LIMIT ensures ScalarOk(Num(Unsigned(n)), f64) {
      NumeralIsQuotable(n);
      assert IsTextOf(ShowU64(n), Num(Unsigned(n)), f64);
    }
    forall t | Quotable(t) && !Bracketed(t) && PlainText(t, f64) ensures ScalarOk(Str(t), f64) {
      assert IsTextOf(t, Str(t), f64);
    }
  }

  lemma {:induction false} NumeralIsQuotable(n: nat)
    ensures Quotable(ShowU64(n)) && !Bracketed(ShowU64(n))
  {
    var s := ShowU64(n);
    ShownDigits(n);
    assert IsDigit(s[0]) && IsDigit(s[|s| - 1]);
    assert '\n' !in s by { assert !IsDigit('\n'); }
  }

  // ---------------------------------------------------------------------------------------
  // And it can be

  ghost function InSomeOrder(keys: set<string>): seq<string> {
    if keys == {} then []
    else
      var k :| k in keys;
      [k] + InSomeOrder(keys - {k})
  }

  lemma {:induction false} OrderHasEachOnce(keys: set<string>)
    ensures forall k :: k in InSomeOrder(keys) <==> k in keys
    ensures forall i, j :: 0 <= i < j < |InSomeOrder(keys)| ==> InSomeOrder(keys)[i] != InSomeOrder(keys)[j]
    decreases keys
  {
    if keys != {} {
      var k :| k in keys && InSomeOrder(keys) == [k] + InSomeOrder(keys - {k});
      OrderHasEachOnce(keys - {k});
      var rest := InSomeOrder(keys - {k});
      assert forall i :: 0 <= i < |rest| ==> rest[i] in rest;
    }
  }

  /** Each key has its place in the order. */
  lemma {:induction false} PlaceOf(keys: set<string>, k: string) returns (i: nat)
    requires k in keys
    ensures i < |InSomeOrder(keys)| && InSomeOrder(keys)[i] == k
  {
    OrderHasEachOnce(keys);
    i :| 0 <= i < |InSomeOrder(keys)| && InSomeOrder(keys)[i] == k;
  }

  function Quoted(text: string): Written {
    Written(" ", true, text)
  }

  ghost function TextOf(v: Value, f64: FloatParser): string {
    if ScalarOk(v, f64) then
      var text :| Quotable(text) && !Bracketed(text) && IsTextOf(text, v, f64);
      text
    else if FieldOk(v, f64) then
      var text :| Quotable(text) && IsTextOf(text, v, f64);
      text
    else ""
  }

  ghost function PairsOf(m: Fields, f64: FloatParser): seq<Pair> {
    var keys := InSomeOrder(m.Keys);
    seq(|keys|, i requires 0 <= i < |keys| => Pair("  ", keys[i], "", Quoted(if keys[i] in m then TextOf(m[keys[i]], f64) else ""), []))
  }

  lemma {:induction false} PairsOfPrints(m: Fields, f64: FloatParser)
    requires FieldsOk(m, f64)
    ensures PrintsFields(PairsOf(m, f64), m, f64) && PairsOk(PairsOf(m, f64))
  {
    OrderHasEachOnce(m.Keys);
    var ps := PairsOf(m, f64);
    forall i | 0 <= i < |ps|
      ensures ps[i].key in m && IsTextOf(ps[i].value.text, m[ps[i].key], f64) && PairOk(ps[i])
    {
      PairAt(m, f64, i);
    }
    forall k | k in m ensures exists i :: 0 <= i < |ps| && ps[i].key == k {
      var i := PlaceOf(m.Keys, k);
      assert ps[i].key == k;
    }
  }

  lemma {:induction false} PairAt(m: Fields, f64: FloatParser, i: nat)
    requires FieldsOk(m, f64) && i < |PairsOf(m, f64)|
    ensures var p := PairsOf(m, f64)[i];
            PairOk(p) && p.key in m && IsTextOf(p.value.text, m[p.key], f64)
  {
    var keys := InSomeOrder(m.Keys);
    OrderHasEachOnce(m.Keys);
    assert keys[i] in keys;
    QuotedIsOk(TextOf(m[keys[i]], f64));
    PlainPairOk(keys[i], Quoted(TextOf(m[keys[i]], f64)));
  }

  lemma {:induction false} PlainPairOk(key: string, w: Written)
    requires KeyOk(key) && WrittenOk(w)
    ensures PairOk(Pair("  ", key, "", w, []))
  {
    assert key + "" == key;
  }

  lemma {:induction false} QuotedIsOk(text: string)
    requires Quotable(text)
    ensures WrittenOk(Quoted(text)) && Body(Quoted(text)) != ""
  {
  }

  ghost function NodeOf(v: Value, f64: FloatParser): Node {
    match v
    case Obj(m) => Block([], PairsOf(m, f64))
    case Arr(items) =>
      if IsList(items) then List(seq(|items|, i requires 0 <= i < |items| => PairsOf(items[i].fields, f64)))
      else Inline(" ", false, seq(|items|, i requires 0 <= i < |items| => Quoted(if items[i].Str? then items[i].s else "")))
    case _ => Scalar(Quoted(TextOf(v, f64)))
  }

  lemma {:induction false} NodeOfPrints(v: Value, f64: FloatParser)
    requires Printable(v, f64)
    ensures NodeOk(NodeOf(v, f64)) && Prints(NodeOf(v, f64), v, f64)
  {
    match v {
      case Obj(m) => PairsOfPrints(m, f64);
      case Arr(items) =>
        if IsList(items) {
          ListOfPrints(items, f64);
        } else {
          forall i | 0 <= i < |items| ensures ItemOk(items[i]) && WrittenOk(Quoted(items[i].s)) {
            QuotedIsOk(items[i].s);
          }
        }
      case _ => QuotedIsOk(TextOf(v, f64));
    }
  }

  lemma {:induction false} ListOfPrints(items: seq<Value>, f64: FloatParser)
    requires IsList(items) && forall i :: 0 <= i < |items| ==> FieldsOk(items[i].fields, f64)
    ensures var n := NodeOf(Arr(items), f64);
            NodeOk(n) && Prints(n, Arr(items), f64)
  {
    var n := NodeOf(Arr(items), f64);
    forall i | 0 <= i < |items|
      ensures n.maps[i] != [] && PairsOk(n.maps[i]) && PrintsFields(n.maps[i], items[i].fields, f64)
    {
      PairsOfPrints(items[i].fields, f64);
      SomePair(n.maps[i], items[i].fields, f64);
    }
  }

  lemma {:induction false} SomePair(ps: seq<Pair>, m: Fields, f64: FloatParser)
    requires PrintsFields(ps, m, f64) && m != map[]
    ensures ps != []
  {
    var k :| k in m;
  }

  ghost function DocOf(m: Fields, f64: FloatParser): seq<Entry> {
    var keys := InSomeOrder(m.Keys);
    seq(|keys|, i requires 0 <= i < |keys| =>
      Entry([], keys[i], "", if keys[i] in m then NodeOf(m[keys[i]], f64) else Block([], []), []))
  }

  lemma {:induction false} EntryPrints(m: Fields, f64: FloatParser, i: nat)
    requires MetaOk(m, f64) && i < |DocOf(m, f64)|
    ensures var e := DocOf(m, f64)[i];
            EntryOk(e) && Tidy(e) && e.key in m && Prints(e.node, m[e.key], f64)
  {
    var keys := InSomeOrder(m.Keys);
    OrderHasEachOnce(m.Keys);
    assert keys[i] in keys;
    NodeOfPrints(m[keys[i]], f64);
    PlainEntryOk(keys[i], NodeOf(m[keys[i]], f64));
    NodeOfIsTidy(m[keys[i]], f64);
  }

  lemma {:induction false} PlainEntryOk(key: string, n: Node)
    requires TopKeyOk(key) && NodeOk(n)
    ensures EntryOk(Entry([], key, "", n, []))
  {
    assert key + "" == key;
  }

  lemma {:induction false} NodeOfIsTidy(v: Value, f64: FloatParser)
    ensures TidyNode(NodeOf(v, f64))
  {
  }

  lemma {:induction false} DocOfPrints(m: Fields, f64: FloatParser)
    requires MetaOk(m, f64)
    ensures PrintsMeta(DocOf(m, f64), m, f64) && DocOk(DocOf(m, f64))
  {
    var es := DocOf(m, f64);
    OrderHasEachOnce(m.Keys);
    forall i | 0 <= i < |es|
      ensures EntryOk(es[i]) && Tidy(es[i]) && es[i].key in m && Prints(es[i].node, m[es[i].key], f64)
    {
      EntryPrints(m, f64, i);
    }
    forall k | k in m ensures exists i :: 0 <= i < |es| && es[i].key == k {
      var i := PlaceOf(m.Keys, k);
      assert es[i].key == k;
    }
    TidyEndsTight(es);
  }

  /** All printable metadata can be printed, and parsing it returns exactly that metadata. */
  lemma {:induction false} MetadataRoundTrip(m: Fields, rest: string, f64: FloatParser)
    requires MetaOk(m, f64)
    ensures DocOk(DocOf(m, f64)) && Meaning(File(DocOf(m, f64), rest), f64) == Ok((Obj(m), Trim(rest)))
  {
    DocOfPrints(m, f64);
    ValueRoundTrip(DocOf(m, f64), m, rest, f64);
  }

  // ---------------------------------------------------------------------------------------
  // Documents without lines that say nothing end as they should

  predicate Bare(ps: seq<Pair>) {
    forall i :: 0 <= i < |ps| ==> ps[i].after == []
  }

  predicate Tidy(e: Entry) {
    e.before == [] && e.blanks == [] && TidyNode(e.node)
  }

  predicate TidyNode(n: Node) {
    match n
    case Block(lead, ps) => lead == [] && Bare(ps)
    case List(maps) => forall i :: 0 <= i < |maps| ==> Bare(maps[i])
    case _ => true
  }

  predicate AllTight(ls: seq<string>) {
    forall i :: 0 <= i < |ls| ==> TightEnd(ls[i])
  }

  lemma {:induction false} BareLinesAreTight(ps: seq<Pair>)
    requires PairsOk(ps) && Bare(ps)
    ensures AllTight(PairLines(ps))
  {
    if ps != [] {
      PairLineOk(ps[0]);
      BareLinesAreTight(ps[1..]);
      var first, later := PairLine(ps[0]), PairLines(ps[1..]);
      assert PairLines(ps) == [first] + later;
      TightCons(first, later);
    }
  }

  lemma {:induction false} TightCons(first: string, later: seq<string>)
    requires TightEnd(first) && AllTight(later)
    ensures AllTight([first] + later)
  {
  }

  lemma {:induction false} MapLinesAreTight(ps: seq<Pair>)
    requires ps != [] && PairsOk(ps) && Bare(ps)
    ensures AllTight(MapLines(ps))
  {
    PairLineOk(ps[0]);
    BareLinesAreTight(ps[1..]);
    TightCons(DashLine(ps[0]), PairLines(ps[1..]));
    BareMapLines(ps);
  }

  lemma {:induction false} BareMapLines(ps: seq<Pair>)
    requires ps != [] && ps[0].after == []
    ensures MapLines(ps) == [DashLine(ps[0])] + PairLines(ps[1..])
  {
  }

  lemma {:induction false} ListLinesAreTight(maps: seq<seq<Pair>>)
    requires MapsOk(maps) && forall i :: 0 <= i < |maps| ==> Bare(maps[i])
    ensures AllTight(ListLines(maps))
  {
    if maps != [] {
      MapLinesAreTight(maps[0]);
      ListLinesAreTight(maps[1..]);
    }
  }

  lemma {:induction false} TidyLinesAreTight(e: Entry)
    requires EntryOk(e) && Tidy(e)
    ensures AllTight(EntryLines(e))
  {
    HeadIsTight(e);
    match e.node {
      case Block(_, ps) => BareLinesAreTight(ps);
      case List(maps) => ListLinesAreTight(maps);
      case _ =>
    }
  }

  lemma {:induction false} TidyDocIsTight(es: seq<Entry>)
    requires EntriesOk(es) && forall i :: 0 <= i < |es| ==> Tidy(es[i])
    ensures AllTight(DocLines(es))
  {
    if es != [] {
      TidyLinesAreTight(es[0]);
      TidyDocIsTight(es[1..]);
    }
  }

  lemma {:induction false} TidyEndsTight(es: seq<Entry>)
    requires EntriesOk(es) && forall i :: 0 <= i < |es| ==> Tidy(es[i])
    ensures DocOk(es)
  {
    TidyDocIsTight(es);
  }
}
