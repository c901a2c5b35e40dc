/** From a model's reply to a complete blueprint: back-filling required fields, capping texts
    and snapping enum-typed fields to canonical values. */
module Blueprint {
  import opened Text
  import opened Json

  const STUB_TEMPLATE := "trust"
  const TAGLINE := "Drafted from your brief."

  function Root(prompt: string, greeting: string): Value {
    Obj(map["name" := Str("founder"), "model" := Str("deepseek/deepseek-v4-flash"),
            "color" := Str("#0a0a0b"), "system_prompt" := Str(prompt), "proactive_greeting" := Str(greeting)])
  }

  function DefaultRoot(brief: string): Value {
    Root("You are the founder's primary agent. The founder's brief: " + brief,
         "Hi \U{2014} your Architect drafted this Company from your brief.")
  }

  // ---------------------------------------------------------------------------------------
  // Back-filling

  predicate IsScalarKey(k: string) {
    || k == "slug" || k == "name" || k == "template" || k == "category"
    || k == "tagline" || k == "description"
  }

  predicate IsArrayKey(k: string) {
    || k == "seed_views" || k == "seed_agents" || k == "seed_events" || k == "seed_ideas"
    || k == "seed_quests" || k == "seed_roles" || k == "seed_role_edges"
  }

  /** The keys the normaliser guarantees. */
  predicate Required(k: string) {
    IsScalarKey(k) || k == "root" || IsArrayKey(k)
  }

  predicate HasText(m: Fields, k: string) {
    k in m && m[k].Str? && m[k].s != ""
  }

  /** Insert a default unless the key holds a non-empty string. */
  function NeedText(m: Fields, k: string, default: string): Fields {
    if HasText(m, k) then m else m[k := Str(default)]
  }

  /** Insert a default unless the key is there. */
  function NeedKey(m: Fields, k: string, default: Value): Fields {
    if k in m then m else m[k := default]
  }

  /** The first `max` characters. */
  function Truncated(s: string, max: nat): (r: string)
    ensures r <= s && |r| == if |s| <= max then |s| else max
  {
    if |s| > max then s[..max] else s
  }

  function TruncateField(m: Fields, k: string, max: nat): Fields {
    if k in m && m[k].Str? && |m[k].s| > max then m[k := Str(Truncated(m[k].s, max))] else m
  }

  function Capped(v: Value, max: nat): Value {
    if v.Str? then Str(Truncated(v.s, max)) else v
  }

  function TextOr(m: Fields, k: string, default: string): string {
    if HasText(m, k) then m[k].s else default
  }

  function ValueOr(m: Fields, k: string, default: Value): Value {
    if k in m then m[k] else default
  }

  /** What a scalar key holds once defaults are in. */
  function ScalarAfter(m: Fields, k: string): Value
    requires IsScalarKey(k) || k in m
  {
    if k == "slug" then Str(TextOr(m, k, "architect-llm"))
    else if k == "name" then Str(TextOr(m, k, "Founder's Company"))
    else if k == "template" then Str(TextOr(m, k, STUB_TEMPLATE))
    else if k == "category" then Str(TextOr(m, k, "company"))
    else if k == "tagline" then ValueOr(m, k, Str(TAGLINE))
    else if k == "description" then ValueOr(m, k, Str(""))
    else m[k]
  }

  /** The hard caps. */
  function CapOf(k: string, v: Value): Value {
    if k == "name" || k == "slug" then Capped(v, 32)
    else if k == "tagline" then Capped(v, 80)
    else if k == "description" then Capped(v, 240)
    else v
  }

  /** What each key of a normalised blueprint holds. */
  function FieldAfter(m: Fields, brief: string, k: string): Value
    requires Required(k) || k in m
  {
    if k == "root" then ValueOr(m, k, DefaultRoot(brief))
    else if IsArrayKey(k) then ValueOr(m, k, Arr([]))
    else CapOf(k, ScalarAfter(m, k))
  }

  ghost predicate IsNormalized(r: Fields, m: Fields, brief: string) {
    && (forall k :: k in r <==> Required(k) || k in m)
    && (forall k :: k in r ==> r[k] == FieldAfter(m, brief, k))
  }

  /** Distinguishes the required keys. */
  function Rank(k: string): nat {
    |k| + (if k == "" then 0 else 20 * k[0] as int) + (if |k| <= 5 then 0 else 3000 * k[5] as int)
  }

  lemma {:induction false} Ranks()
    ensures Rank("slug") == 4 + 20 * 115 && Rank("name") == 4 + 20 * 110 && Rank("root") == 4 + 20 * 114
    ensures Rank("template") == 8 + 20 * 116 + 3000 * 97 && Rank("category") == 8 + 20 * 99 + 3000 * 111
    ensures Rank("tagline") == 7 + 20 * 116 + 3000 * 110 && Rank("description") == 11 + 20 * 100 + 3000 * 105
    ensures Rank("seed_views") == 10 + 20 * 115 + 3000 * 118 && Rank("seed_agents") == 11 + 20 * 115 + 3000 * 97
    ensures Rank("seed_events") == 11 + 20 * 115 + 3000 * 101 && Rank("seed_ideas") == 10 + 20 * 115 + 3000 * 105
    ensures Rank("seed_quests") == 11 + 20 * 115 + 3000 * 113 && Rank("seed_roles") == 10 + 20 * 115 + 3000 * 114
    ensures Rank("seed_role_edges") == 15 + 20 * 115 + 3000 * 114
  {
  }

  function Scalars(m: Fields): Fields {
    var m := NeedText(m, "slug", "architect-llm");
    var m := NeedText(m, "name", "Founder's Company");
    var m := NeedText(m, "template", STUB_TEMPLATE);
    var m := NeedText(m, "category", "company");
    var m := NeedKey(m, "tagline", Str(TAGLINE));
    NeedKey(m, "description", Str(""))
  }

  lemma {:induction false} ScalarsAt(m: Fields, k: string)
    ensures k in Scalars(m) <==> IsScalarKey(k) || k in m
    ensures k in Scalars(m) ==> Scalars(m)[k] == ScalarAfter(m, k)
  {
    Ranks();
    var m1 := NeedText(m, "slug", "architect-llm");
    var m2 := NeedText(m1, "name", "Founder's Company");
    var m3 := NeedText(m2, "template", STUB_TEMPLATE);
    var m4 := NeedText(m3, "category", "company");
    var m5 := NeedKey(m4, "tagline", Str(TAGLINE));
    assert k in m1 <==> k == "slug" || k in m;
    assert k in m2 <==> k == "name" || k in m1;
    assert k in m3 <==> k == "template" || k in m2;
    assert k in m4 <==> k == "category" || k in m3;
    assert k in m5 <==> k == "tagline" || k in m4;
  }

  function Truncations(m: Fields): Fields {
    var m := TruncateField(m, "name", 32);
    var m := TruncateField(m, "slug", 32);
    var m := TruncateField(m, "tagline", 80);
    TruncateField(m, "description", 240)
  }

  lemma {:induction false} TruncationsAt(m: Fields, k: string)
    ensures k in Truncations(m) <==> k in m
    ensures k in m ==> Truncations(m)[k] == CapOf(k, m[k])
  {
    Ranks();
    var m1 := TruncateField(m, "name", 32);
    var m2 := TruncateField(m1, "slug", 32);
    var m3 := TruncateField(m2, "tagline", 80);
    assert (k in m1 <==> k in m) && (k in m2 <==> k in m) && (k in m3 <==> k in m);
  }

  const ARRAY_KEYS := ["seed_views", "seed_agents", "seed_events", "seed_ideas", "seed_quests",
                       "seed_roles", "seed_role_edges"]

  lemma ArrayKeys()
    ensures forall k :: k in ARRAY_KEYS <==> IsArrayKey(k)
  {
    assert ARRAY_KEYS[0] == "seed_views" && ARRAY_KEYS[1] == "seed_agents" && ARRAY_KEYS[2] == "seed_events";
    assert ARRAY_KEYS[3] == "seed_ideas" && ARRAY_KEYS[4] == "seed_quests" && ARRAY_KEYS[5] == "seed_roles";
    assert ARRAY_KEYS[6] == "seed_role_edges";
  }

  method EnsureArrays(m: Fields) returns (r: Fields)
    ensures forall k :: k in r <==> k in m || IsArrayKey(k)
    ensures forall k :: k in r ==> r[k] == ValueOr(m, k, Arr([]))
  {
    r := m;
    var keys := ARRAY_KEYS;
    for i := 0 to |keys|
      invariant forall k :: k in r <==> k in m || k in keys[..i]
      invariant forall k :: k in r ==> r[k] == ValueOr(m, k, Arr([]))
    {
      assert keys[..i + 1] == keys[..i] + [keys[i]];
      if keys[i] !in r {
        r := r[keys[i] := Arr([])];
      }
    }
    assert keys[..|keys|] == keys;
    ArrayKeys();
  }

  /** The kinds of key exclude each other. */
  lemma {:induction false} KeyKinds(k: string)
    ensures k == "root" ==> !IsScalarKey(k) && !IsArrayKey(k)
    ensures IsArrayKey(k) ==> !IsScalarKey(k)
  {
    Ranks();
  }

  lemma {:induction false} UncappedKeys(k: string, v: Value)
    requires !IsScalarKey(k)
    ensures CapOf(k, v) == v
  {
  }

  lemma {:induction false} StagesAgree(m: Fields, capped: Fields, k: string)
    requires capped == Truncations(Scalars(m))
    ensures k in capped <==> IsScalarKey(k) || k in m
    ensures k in capped ==> capped[k] == CapOf(k, ScalarAfter(m, k))
    ensures !IsScalarKey(k) && k in m ==> capped[k] == m[k]
  {
    ScalarsAt(m, k);
    TruncationsAt(Scalars(m), k);
    if !IsScalarKey(k) && k in m {
      UncappedKeys(k, m[k]);
    }
  }

  lemma {:induction false} AllStagesAgree(m: Fields, brief: string, rooted: Fields, k: string)
    requires rooted == NeedKey(Truncations(Scalars(m)), "root", DefaultRoot(brief))
    ensures k in rooted || IsArrayKey(k) <==> Required(k) || k in m
    ensures k in rooted || IsArrayKey(k) ==> ValueOr(rooted, k, Arr([])) == FieldAfter(m, brief, k)
  {
    StagesAgree(m, Truncations(Scalars(m)), k);
    KeyKinds(k);
  }

  /** Back-fill, cap, add a root agent and default the arrays; a reply that is no object is
      replaced by the stub blueprint. */
  method NormalizeBlueprint(bp: Value, brief: string) returns (r: Value)
    ensures bp.Obj? ==> r.Obj? && IsNormalized(r.fields, bp.fields, brief)
    ensures !bp.Obj? ==> r == Foundation(brief)
  {
    if !bp.Obj? {
      return Foundation(brief);
    }
    var m := Truncations(Scalars(bp.fields));
    m := NeedKey(m, "root", DefaultRoot(brief));
    ghost var rooted := m;
    m := EnsureArrays(m);
    forall k
      ensures k in m <==> Required(k) || k in bp.fields
      ensures k in m ==> m[k] == FieldAfter(bp.fields, brief, k)
    {
      AllStagesAgree(bp.fields, brief, rooted, k);
    }
    r := Obj(m);
  }

  // ---------------------------------------------------------------------------------------
  // The stub blueprint

  function Described(brief: string): string {
    "Architect-drafted foundation from brief: "
    + if |brief| <= 200 then brief else brief[..200] + "\U{2026}"
  }

  function FoundationRoot(brief: string): Value {
    Root(
      "You are the founder's primary agent inside a freshly drafted Foundation Company. The founder's brief, verbatim:\n\n"
      + brief + "\n\nAnchor every decision against this brief. Propose two or three concrete first quests when the operator surfaces intent. Default to action over asking permission for the obvious.",
      "Hi \U{2014} your Architect drafted this Foundation from your brief. Open the kickoff quest to see the first three moves I'd take, or tell me what's actually on your mind and I'll re-cut it.")
  }

  function SessionsView(): Value {
    Obj(map["key" := Str("my-sessions"), "label" := Str("My sessions"), "path" := Str("sessions"),
            "search" := Str("?view=mine"), "pinned" := Bool(true)])
  }

  function BriefTags(): Value {
    Arr([Str("identity"), Str("priorities"), Str("evergreen")])
  }

  function BootstrapEvent(): Value {
    Obj(map["owner" := Str("root"), "name" := Str("session_bootstrap"), "pattern" := Str("session:start"),
            "cooldown_secs" := Num(Unsigned(0)),
            "query_template" := Str("founder priorities and recent decisions"),
            "query_top_k" := Num(Unsigned(6)), "query_tag_filter" := BriefTags(), "tool_calls" := Arr([])])
  }

  function BriefIdea(brief: string): Value {
    Obj(map["owner" := Str("root"), "name" := Str("Founder brief"), "content" := Str(brief), "tags" := BriefTags()])
  }

  function QuestText(brief: string): (r: string)
    ensures "The founder said:\n\n" + brief <= r
  {
    "The founder said:\n\n" + brief + "\n\nWrite down the three highest-leverage first moves. Capture each as a follow-up quest with a clear acceptance criterion."
  }

  function Quest(description: string): Value {
    Obj(map["owner" := Str("root"), "subject" := Str("Kickoff: read the brief, propose three first moves"),
            "labels" := Arr([Str("kickoff")]), "description" := Str(description)])
  }

  function KickoffQuest(brief: string): Value {
    Quest(QuestText(brief))
  }

  const REQUIRED_KEYS: set<string> :=
    {"slug", "name", "template", "category", "tagline", "description", "root",
     "seed_views", "seed_agents", "seed_events", "seed_ideas", "seed_quests", "seed_roles", "seed_role_edges"}

  function FoundationText(brief: string, k: string): string {
    if k == "slug" then "architect-foundation"
    else if k == "name" then "Founder's Foundation"
    else if k == "tagline" then TAGLINE
    else if k == "description" then Described(brief)
    else if k == "category" then "company"
    else STUB_TEMPLATE
  }

  function FoundationSeed(brief: string, k: string): seq<Value> {
    if k == "seed_views" then [SessionsView()]
    else if k == "seed_events" then [BootstrapEvent()]
    else if k == "seed_ideas" then [BriefIdea(brief)]
    else if k == "seed_quests" then [KickoffQuest(brief)]
    else if k == "seed_roles" then [FounderRole()]
    else []
  }

  function Foundation(brief: string): Value {
    Obj(map k | k in REQUIRED_KEYS ::
      if IsScalarKey(k) then Str(FoundationText(brief, k))
      else if k == "root" then FoundationRoot(brief)
      else Arr(FoundationSeed(brief, k)))
  }

  function FounderRole(): Value {
    Obj(map["key" := Str("founder"), "title" := Str("Founder"),
            "default_occupant_agent" := Str("root"), "role_type" := Str("director")])
  }

  // ---------------------------------------------------------------------------------------
  // The schema gate

  function Lower(s: string): string {
    seq(|s|, i requires 0 <= i < |s| => LowerChar(s[i]))
  }

  /** A text modulo surrounding whitespace and ASCII case. */
  function Folded(s: string): string {
    Lower(Trim(s))
  }

  predicate ValidRoleType(s: string) {
    s == "director" || s == "operational" || s == "advisor"
  }

  predicate ValidTemplate(s: string) {
    s == "trust" || s == "venture"
  }

  /** Paid contributors. */
  const OPERATIONAL_WORDS :=
    ["contractor", "freelancer", "consultant", "employee", "contract", "staff", "operator", "worker", "ic"]

  /** Board members, advisors and mentors. */
  const ADVISOR_WORDS := ["board", "advisors", "advisory", "mentor", "investor", "observer"]

  /** Founders and executives. */
  const DIRECTOR_WORDS :=
    ["founder", "cofounder", "co-founder", "ceo", "cto", "cfo", "coo", "chair", "chairman", "president",
     "executive", "exec", "owner"]

  const VENTURE_WORDS := ["startup", "vc", "venture", "company-vc", "tokenized"]

  /** The canonical role type, and whether the text needed snapping. */
  function SnapRoleType(raw: string): (r: (string, bool))
    ensures ValidRoleType(r.0) && (r.1 <==> !ValidRoleType(Folded(raw)))
  {
    var lower := Folded(raw);
    if ValidRoleType(lower) then (lower, false)
    else if lower in OPERATIONAL_WORDS then ("operational", true)
    else if lower in ADVISOR_WORDS then ("advisor", true)
    else if lower in DIRECTOR_WORDS then ("director", true)
    else ("operational", true)
  }

  function SnapTemplate(raw: string): (r: (string, bool))
    ensures ValidTemplate(r.0) && (r.1 <==> !ValidTemplate(Folded(raw)))
  {
    var lower := Folded(raw);
    if ValidTemplate(lower) then (lower, false)
    else if lower in VENTURE_WORDS then ("venture", true)
    else ("trust", true)
  }

  /** What the gate makes of one entry of `seed_roles`. */
  function GatedRole(role: Value): Value {
    if !role.Obj? || "role_type" !in role.fields then role
    else
      var rt := role.fields["role_type"];
      if !rt.Str? || Trim(rt.s) == "" then Obj(role.fields - {"role_type"})
      else if SnapRoleType(rt.s).1 then Obj(role.fields["role_type" := Str(SnapRoleType(rt.s).0)])
      else role
  }

  function GatedRoles(roles: seq<Value>): seq<Value> {
    seq(|roles|, i requires 0 <= i < |roles| => GatedRole(roles[i]))
  }

  function GatedTemplate(v: Value): Value {
    if v.Str? && v.s != "" && SnapTemplate(v.s).1 then Str(SnapTemplate(v.s).0) else v
  }

  function GatedField(k: string, v: Value): Value {
    if k == "template" then GatedTemplate(v)
    else if k == "seed_roles" && v.Arr? then Arr(GatedRoles(v.items))
    else v
  }

  function Gated(bp: Value): Value {
    if bp.Obj? then Obj(map k | k in bp.fields :: GatedField(k, bp.fields[k])) else bp
  }

  method GateRoles(roles: seq<Value>) returns (r: seq<Value>)
    ensures r == GatedRoles(roles)
  {
    r := [];
    for i := 0 to |roles|
      invariant |r| == i && forall j :: 0 <= j < i ==> r[j] == GatedRole(roles[j])
    {
      var role := roles[i];
      if role.Obj? && "role_type" in role.fields {
        match role.fields["role_type"] {
          case Str(raw) =>
            if Trim(raw) == "" {
              role := Obj(role.fields - {"role_type"});
            } else {
              var (snapped, didSnap) := SnapRoleType(raw);
              if didSnap {
                role := Obj(role.fields["role_type" := Str(snapped)]);
              }
            }
          case _ =>
            role := Obj(role.fields - {"role_type"});
        }
      }
      r := r + [role];
    }
  }

  method SchemaGate(bp: Value) returns (r: Value)
    ensures r == Gated(bp)
  {
    if !bp.Obj? {
      return bp;
    }
    var m := bp.fields;
    assert "template"[0] != "seed_roles"[0];
    if "template" in m && m["template"].Str? && m["template"].s != "" {
      var (snapped, didSnap) := SnapTemplate(m["template"].s);
      if didSnap {
        m := m["template" := Str(snapped)];
      }
    }
    if "seed_roles" in m && m["seed_roles"].Arr? {
      var roles := GateRoles(m["seed_roles"].items);
      m := m["seed_roles" := Arr(roles)];
    }
    r := Obj(m);
  }
}
