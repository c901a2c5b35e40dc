/** The setup command's agent files, and how they parse back. */
module AgentFiles {
  import opened Options
  import opened Text
  import opened Json
  import opened Frontmatter
  import opened FrontmatterRoundTrip
  import opened FrontmatterValues

  datatype Field = Field(key: string, text: string)

  /** `key: text` as an entry. */
  function Line(key: string, text: string): Entry {
    Entry([], key, "", Scalar(Written(" ", false, text)), [])
  }

  /** A text without line breaks or blanks and quotes at its ends, and not in brackets. */
  predicate AgentTextOk(text: string) {
    NodeOk(Scalar(Written(" ", false, text)))
  }

  /** `key: value` lines, one after the other. */
  function FieldLines(ps: seq<Field>): string {
    if ps == [] then "" else ps[0].key + ": " + ps[0].text + "\n" + FieldLines(ps[1..])
  }

  function RenderAgentMd(
    name: string, prefix: string, role: string, voice: string, runtime: string, body: string): string
  {
    "---\n" +
    FieldLines([Field("name", name), Field("prefix", prefix), Field("role", role), Field("voice", voice),
                Field("runtime", runtime), Field("max_workers", "1")]) +
    "---" + ("\n\n# " + name + "\n\n" + body + "\n")
  }

  function AgentEntries(name: string, prefix: string, role: string, voice: string, runtime: string): seq<Entry> {
    [Line("name", name), Line("prefix", prefix), Line("role", role), Line("voice", voice),
     Line("runtime", runtime), Line("max_workers", "1")]
  }

  /** The setup command's agent files parse back to the typed readings of the texts they were
      made from. */
  lemma {:induction false} RenderedAgentParses(
    name: string, prefix: string, role: string, voice: string, runtime: string, body: string, f64: FloatParser)
    requires AgentTextOk(name) && AgentTextOk(prefix) && AgentTextOk(role)
    requires AgentTextOk(voice) && AgentTextOk(runtime)
    ensures Meaning(RenderAgentMd(name, prefix, role, voice, runtime, body), f64) ==
            Ok((Obj(map[
                  "name" := Typed(name, f64), "prefix" := Typed(prefix, f64), "role" := Typed(role, f64),
                  "voice" := Typed(voice, f64), "runtime" := Typed(runtime, f64),
                  "max_workers" := Num(Unsigned(1))]),
                Trim("\n\n# " + name + "\n\n" + body + "\n")))
  {
    var es := AgentEntries(name, prefix, role, voice, runtime);
    var rest := "\n\n# " + name + "\n\n" + body + "\n";
    AgentEntriesOk(name, prefix, role, voice, runtime);
    AgentFileIsRendered(name, prefix, role, voice, runtime, body);
    RoundTrip(es, rest, f64);
    AgentFields(name, prefix, role, voice, runtime, f64);
  }

  /** The five texts come back as texts exactly when none of them is a boolean or a number. */
  lemma {:induction false} AgentTextsReadBackIff(
    name: string, prefix: string, role: string, voice: string, runtime: string, body: string, f64: FloatParser)
    requires AgentTextOk(name) && AgentTextOk(prefix) && AgentTextOk(role)
    requires AgentTextOk(voice) && AgentTextOk(runtime)
    ensures Meaning(RenderAgentMd(name, prefix, role, voice, runtime, body), f64) ==
            Ok((Obj(map["name" := Str(name), "prefix" := Str(prefix), "role" := Str(role), "voice" := Str(voice),
                        "runtime" := Str(runtime), "max_workers" := Num(Unsigned(1))]),
                Trim("\n\n# " + name + "\n\n" + body + "\n"))) <==>
            && PlainText(name, f64) && PlainText(prefix, f64) && PlainText(role, f64)
            && PlainText(voice, f64) && PlainText(runtime, f64)
  {
    RenderedAgentParses(name, prefix, role, voice, runtime, body, f64);
    TextReadsBack(name, f64);
    TextReadsBack(prefix, f64);
    TextReadsBack(role, f64);
    TextReadsBack(voice, f64);
    TextReadsBack(runtime, f64);
    SameAgentFields(
      [Typed(name, f64), Typed(prefix, f64), Typed(role, f64), Typed(voice, f64), Typed(runtime, f64)],
      [Str(name), Str(prefix), Str(role), Str(voice), Str(runtime)]);
  }

  function AgentMeta(vs: seq<Value>): Fields
    requires |vs| == 5
  {
    map["name" := vs[0], "prefix" := vs[1], "role" := vs[2], "voice" := vs[3], "runtime" := vs[4],
        "max_workers" := Num(Unsigned(1))]
  }

  lemma {:induction false} SameAgentFields(a: seq<Value>, b: seq<Value>)
    requires |a| == |b| == 5
    ensures AgentMeta(a) == AgentMeta(b) <==> a[0] == b[0] && a[1] == b[1] && a[2] == b[2] && a[3] == b[3] && a[4] == b[4]
  {
    assert |"name"| == 4 && |"prefix"| == 6 && |"role"| == 4 && |"voice"| == 5 && |"runtime"| == 7 && |"max_workers"| == 11;
    assert "name"[0] != "role"[0];
    var m, n := AgentMeta(a), AgentMeta(b);
    assert m["name"] == a[0] && m["prefix"] == a[1] && m["role"] == a[2] && m["voice"] == a[3] && m["runtime"] == a[4];
    assert n["name"] == b[0] && n["prefix"] == b[1] && n["role"] == b[2] && n["voice"] == b[3] && n["runtime"] == b[4];
  }

  lemma {:induction false} AgentEntriesOk(name: string, prefix: string, role: string, voice: string, runtime: string)
    requires AgentTextOk(name) && AgentTextOk(prefix) && AgentTextOk(role)
    requires AgentTextOk(voice) && AgentTextOk(runtime)
    ensures DocOk(AgentEntries(name, prefix, role, voice, runtime))
  {
    AgentKeysOk();
    NumeralIsText();
    LinesAreOk([Field("name", name), Field("prefix", prefix), Field("role", role), Field("voice", voice),
                Field("runtime", runtime), Field("max_workers", "1")],
               AgentEntries(name, prefix, role, voice, runtime));
  }

  lemma {:induction false} LinesAreOk(fs: seq<Field>, es: seq<Entry>)
    requires |es| == |fs| && forall i :: 0 <= i < |fs| ==> es[i] == Line(fs[i].key, fs[i].text)
    requires forall i :: 0 <= i < |fs| ==> TopKeyOk(fs[i].key) && AgentTextOk(fs[i].text)
    ensures DocOk(es)
  {
    forall i | 0 <= i < |es| ensures EntryOk(es[i]) && Tidy(es[i]) {
      LineIsOk(fs[i].key, fs[i].text);
    }
    TidyEndsTight(es);
  }

  lemma {:induction false} LineIsOk(key: string, text: string)
    requires TopKeyOk(key) && AgentTextOk(text)
    ensures EntryOk(Line(key, text)) && Tidy(Line(key, text))
  {
  }

  lemma {:induction false} NumeralIsText()
    ensures AgentTextOk("1")
  {
  }

  lemma {:induction false} AgentKeysOk()
    ensures TopKeyOk("name") && TopKeyOk("prefix") && TopKeyOk("role")
    ensures TopKeyOk("voice") && TopKeyOk("runtime") && TopKeyOk("max_workers")
  {
    WordKey("name");
    WordKey("prefix");
    WordKey("role");
    WordKey("voice");
    WordKey("runtime");
    WordKey("max_workers");
  }

  lemma {:induction false} WordKey(key: string)
    requires key != "" && forall i :: 0 <= i < |key| ==> 'a' <= key[i] <= 'z' || key[i] == '_'
    ensures TopKeyOk(key)
  {
    assert "- "[0] == '-' && "#"[0] == '#' && "---"[0] == '-';
  }

  lemma {:induction false} AgentFields(
    name: string, prefix: string, role: string, voice: string, runtime: string, f64: FloatParser)
    ensures DocFields(map[], AgentEntries(name, prefix, role, voice, runtime), f64) == map[
              "name" := Typed(name, f64), "prefix" := Typed(prefix, f64), "role" := Typed(role, f64),
              "voice" := Typed(voice, f64), "runtime" := Typed(runtime, f64),
              "max_workers" := Num(Unsigned(1))]
  {
    var es := AgentEntries(name, prefix, role, voice, runtime);
    var m1 := map["name" := Typed(name, f64)];
    var m2 := m1["prefix" := Typed(prefix, f64)];
    var m3 := m2["role" := Typed(role, f64)];
    var m4 := m3["voice" := Typed(voice, f64)];
    var m5 := m4["runtime" := Typed(runtime, f64)];
    assert "1"[..0] == "" && DigitsValue("1") == 1;
    var m6 := m5["max_workers" := Typed("1", f64)];
    calc {
      DocFields(map[], es, f64);
      DocFields(m1, es[1..], f64);
      { assert es[1..][1..] == es[2..]; }
      DocFields(m2, es[2..], f64);
      { assert es[2..][1..] == es[3..]; }
      DocFields(m3, es[3..], f64);
      { assert es[3..][1..] == es[4..]; }
      DocFields(m4, es[4..], f64);
      { assert es[4..][1..] == es[5..]; }
      DocFields(m5, es[5..], f64);
      { assert es[5..][1..] == []; }
      m6;
    }
  }

  lemma {:induction false} ScalarLines(es: seq<Entry>, ps: seq<Field>)
    requires EntriesOk(es) && |es| == |ps|
    requires forall i :: 0 <= i < |es| ==> es[i] == Line(ps[i].key, ps[i].text)
    ensures Unlines(DocLines(es)) == FieldLines(ps)
  {
    if es != [] {
      calc {
        Unlines(DocLines(es));
        { OneLineEntry(es[0], DocLines(es[1..])); }
        HeadLine(es[0]) + "\n" + Unlines(DocLines(es[1..]));
        { ScalarLines(es[1..], ps[1..]); }
        HeadLine(es[0]) + "\n" + FieldLines(ps[1..]);
        { LineShows(ps[0].key, ps[0].text); }
        FieldLines(ps);
      }
    }
  }

  lemma {:induction false} LineShows(key: string, text: string)
    ensures HeadLine(Line(key, text)) == key + ": " + text
  {
    assert key + "" + [':'] + (" " + text) == key + ": " + text;
  }

  lemma {:induction false} OneLineEntry(e: Entry, later: seq<string>)
    requires NodeOk(e.node) && e.node.Scalar? && e.before == [] && e.blanks == []
    ensures Unlines(EntryLines(e) + later) == HeadLine(e) + "\n" + Unlines(later)
  {
    var lines := EntryLines(e) + later;
    assert lines[0] == HeadLine(e) && lines[1..] == later;
  }

  lemma {:induction false} AgentFileIsRendered(
    name: string, prefix: string, role: string, voice: string, runtime: string, body: string)
    requires EntriesOk(AgentEntries(name, prefix, role, voice, runtime))
    ensures File(AgentEntries(name, prefix, role, voice, runtime), "\n\n# " + name + "\n\n" + body + "\n")
         == RenderAgentMd(name, prefix, role, voice, runtime, body)
  {
    ScalarLines(
      AgentEntries(name, prefix, role, voice, runtime),
      [Field("name", name), Field("prefix", prefix), Field("role", role), Field("voice", voice),
       Field("runtime", runtime), Field("max_workers", "1")]);
  }
}
