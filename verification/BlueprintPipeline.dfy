/** What normalising and then gating a blueprint guarantees, and the whole reply parser. */
module BlueprintPipeline {
  import opened Options
  import opened Text
  import opened Json
  import opened Blueprint
  import JsonScanner

  /** `r` is what the normaliser makes of `bp`. */
  ghost predicate IsNormalForm(r: Value, bp: Value, brief: string) {
    if bp.Obj? then r.Obj? && IsNormalized(r.fields, bp.fields, brief) else r == Foundation(brief)
  }

  predicate RoleOk(role: Value) {
    role.Obj? && "role_type" in role.fields ==>
      role.fields["role_type"].Str? && ValidRoleType(Folded(role.fields["role_type"].s))
  }

  /** All required keys, a template and role types that are canonical up to blanks and case. */
  ghost predicate SnappedUpToCase(bp: Value) {
    && bp.Obj?
    && (forall k :: Required(k) ==> k in bp.fields)
    && bp.fields["template"].Str? && ValidTemplate(Folded(bp.fields["template"].s))
    && (bp.fields["seed_roles"].Arr? ==>
          forall i :: 0 <= i < |bp.fields["seed_roles"].items| ==> RoleOk(bp.fields["seed_roles"].items[i]))
  }

  /** Canonical as written, which is what the orchestrator's lower-case enum accepts. */
  predicate RoleCanonical(role: Value) {
    role.Obj? && "role_type" in role.fields ==>
      role.fields["role_type"].Str? && ValidRoleType(role.fields["role_type"].s)
  }

  predicate RolesCanonical(v: Value) {
    v.Arr? ==> forall i :: 0 <= i < |v.items| ==> RoleCanonical(v.items[i])
  }

  predicate TemplateCanonical(v: Value) {
    v.Str? && ValidTemplate(v.s)
  }

  predicate EnumsCanonical(m: Fields) {
    "template" in m && TemplateCanonical(m["template"]) && "seed_roles" in m && RolesCanonical(m["seed_roles"])
  }

  /** A template or role type that is canonical but for blanks or case: the gate takes it for
      canonical and leaves it as written. */
  predicate TemplateSlips(v: Value) {
    v.Str? && ValidTemplate(Folded(v.s)) && !ValidTemplate(v.s)
  }

  predicate RoleSlips(role: Value) {
    && role.Obj? && "role_type" in role.fields && role.fields["role_type"].Str?
    && ValidRoleType(Folded(role.fields["role_type"].s)) && !ValidRoleType(role.fields["role_type"].s)
  }

  predicate SomeRoleSlips(v: Value) {
    v.Arr? && exists i :: 0 <= i < |v.items| && RoleSlips(v.items[i])
  }

  /** The replies whose blueprint comes out with an enum value that is not canonical as written. */
  predicate Slips(bp: Value) {
    && bp.Obj?
    && (|| ("template" in bp.fields && TemplateSlips(bp.fields["template"]))
        || ("seed_roles" in bp.fields && SomeRoleSlips(bp.fields["seed_roles"])))
  }

  // ---------------------------------------------------------------------------------------
  // The gate

  /** Lower-case words fold to themselves. */
  lemma {:induction false} FoldedWord(s: string)
    requires s != "" && forall i :: 0 <= i < |s| ==> 'a' <= s[i] <= 'z'
    ensures Folded(s) == s && Trim(s) == s
  {
    StripTight(s, IsWhitespace);
  }

  lemma {:induction false} CanonicalFolds(s: string)
    requires ValidTemplate(s) || ValidRoleType(s)
    ensures Folded(s) == s && Trim(s) != "" && s != ""
  {
    FoldedWord("trust");
    FoldedWord("venture");
    FoldedWord("director");
    FoldedWord("operational");
    FoldedWord("advisor");
  }

  lemma {:induction false} FoldedTwice(s: string)
    ensures Folded(Folded(s)) == Folded(s)
  {
    var _, _ := StripParts(s, IsWhitespace);
    StripTight(Folded(s), IsWhitespace);
    assert Lower(Folded(s)) == Folded(s);
  }

  /** No word belongs to two tiers, so the order in which they are tried does not matter. */
  lemma {:induction false} TiersAreDisjoint(w: string)
    ensures !(w in DIRECTOR_WORDS && w in ADVISOR_WORDS)
    ensures !(w in DIRECTOR_WORDS && w in OPERATIONAL_WORDS)
    ensures !(w in ADVISOR_WORDS && w in OPERATIONAL_WORDS)
    ensures ValidRoleType(w) ==> w !in DIRECTOR_WORDS && w !in ADVISOR_WORDS && w !in OPERATIONAL_WORDS
  {
  }

  /** Only the folded text matters, and each tier is reached by its own words and no others:
      a text is a director's exactly when it folds to `director` or one of the director words,
      likewise for advisors, and everything else is operational. */
  lemma {:induction false} RoleTiers(raw: string)
    ensures SnapRoleType(Folded(raw)) == SnapRoleType(raw)
    ensures SnapRoleType(raw).0 == "director" <==> Folded(raw) == "director" || Folded(raw) in DIRECTOR_WORDS
    ensures SnapRoleType(raw).0 == "advisor" <==> Folded(raw) == "advisor" || Folded(raw) in ADVISOR_WORDS
  {
    FoldedTwice(raw);
    TiersAreDisjoint(Folded(raw));
  }

  lemma {:induction false} TemplateTiers(raw: string)
    ensures SnapTemplate(Folded(raw)) == SnapTemplate(raw)
    ensures SnapTemplate(raw).0 == "venture" <==> Folded(raw) in VENTURE_WORDS
  {
    FoldedTwice(raw);
    assert VENTURE_WORDS[2] == "venture";
  }

  /** A gated role is in order, has kept everything but its role type, and is gated already. The
      gate leaves alone exactly the roles that are in order, and drops a role type exactly when it
      is no text or a blank one. */
  lemma {:induction false} GatedRoleOk(role: Value)
    ensures RoleOk(GatedRole(role)) && GatedRole(GatedRole(role)) == GatedRole(role)
    ensures RoleOk(role) <==> GatedRole(role) == role
    ensures role.Obj? ==> GatedRole(role).Obj? && GatedRole(role).fields - {"role_type"} == role.fields - {"role_type"}
    ensures role.Obj? && "role_type" in role.fields ==>
              var rt := role.fields["role_type"];
              ("role_type" in GatedRole(role).fields <==> rt.Str? && Trim(rt.s) != "")
    ensures role.Obj? && "role_type" in GatedRole(role).fields ==> "role_type" in role.fields
  {
    if role.Obj? && "role_type" in role.fields && role.fields["role_type"].Str? {
      CanonicalFolds(SnapRoleType(role.fields["role_type"].s).0);
      if Trim(role.fields["role_type"].s) == "" {
        BlankIsNoRole(role.fields["role_type"].s);
      }
    }
  }

  lemma {:induction false} BlankIsNoRole(s: string)
    requires Trim(s) == ""
    ensures !ValidRoleType(Folded(s))
  {
  }

  lemma {:induction false} GatedTemplateOk(v: Value)
    requires v.Str? && v.s != ""
    ensures GatedTemplate(v).Str? && GatedTemplate(v).s != "" && ValidTemplate(Folded(GatedTemplate(v).s))
    ensures GatedTemplate(GatedTemplate(v)) == GatedTemplate(v)
    ensures GatedTemplate(v) == v <==> ValidTemplate(Folded(v.s))
  {
    CanonicalFolds(SnapTemplate(v.s).0);
  }

  /** The gate makes a template canonical exactly when it does not slip. */
  lemma {:induction false} GatedTemplateCanonicalIff(v: Value)
    requires v.Str? && v.s != ""
    ensures TemplateCanonical(GatedTemplate(v)) <==> !TemplateSlips(v)
  {
    GatedTemplateOk(v);
  }

  /** Likewise for the role type of a role. */
  lemma {:induction false} GatedRoleCanonicalIff(role: Value)
    ensures RoleCanonical(GatedRole(role)) <==> !RoleSlips(role)
  {
    GatedRoleOk(role);
    if role.Obj? && "role_type" in role.fields && role.fields["role_type"].Str? {
      RoleTextCanonicalIff(role);
    }
  }

  lemma {:induction false} RoleTextCanonicalIff(role: Value)
    requires role.Obj? && "role_type" in role.fields && role.fields["role_type"].Str?
    ensures RoleCanonical(GatedRole(role)) <==> !RoleSlips(role)
  {
    var raw := role.fields["role_type"].s;
    if Trim(raw) == "" {
      BlankIsNoRole(raw);
    }
  }

  lemma {:induction false} GatedRolesCanonicalIff(v: Value)
    requires v.Arr?
    ensures RolesCanonical(Arr(GatedRoles(v.items))) <==> !SomeRoleSlips(v)
  {
    forall i | 0 <= i < |v.items|
      ensures RoleCanonical(GatedRoles(v.items)[i]) <==> !RoleSlips(v.items[i])
    {
      GatedRoleCanonicalIff(v.items[i]);
    }
  }

  /** Capitals pass the gate untouched and are not canonical. */
  lemma {:induction false} CapitalVentureStays()
    ensures GatedTemplate(Str("Venture")) == Str("Venture") && !TemplateCanonical(Str("Venture"))
  {
    assert Lower("Venture") == "venture";
    StripTight("Venture", IsWhitespace);
  }

  /** So does padding. */
  lemma {:induction false} PaddedDirectorStays()
    ensures var role := Obj(map["role_type" := Str(" Director ")]);
            GatedRole(role) == role && !RoleCanonical(role)
  {
    assert Folded(" Director ") == "director" by {
      StripPadding(" ", "Director", " ", IsWhitespace);
      assert " " + "Director" + " " == " Director " && Lower("Director") == "director";
    }
    assert |" Director "| == 10 && |"director"| == 8 && |"operational"| == 11 && |"advisor"| == 7;
    GatedRoleOk(Obj(map["role_type" := Str(" Director ")]));
  }

  /** The gate looks at two keys only and acts once. */
  lemma {:induction false} GateIsLocal(k: string, v: Value)
    ensures k != "template" && k != "seed_roles" ==> GatedField(k, v) == v
    ensures GatedField(k, GatedField(k, v)) == GatedField(k, v)
  {
    assert "template"[0] != "seed_roles"[0];
    if k == "template" && v.Str? && v.s != "" {
      GatedTemplateOk(v);
    } else if k == "seed_roles" && v.Arr? {
      forall i | 0 <= i < |v.items| ensures GatedRole(GatedRole(v.items[i])) == GatedRole(v.items[i]) {
        GatedRoleOk(v.items[i]);
      }
      assert GatedRoles(GatedRoles(v.items)) == GatedRoles(v.items);
    }
  }

  lemma {:induction false} GateIsIdempotent(bp: Value)
    ensures Gated(Gated(bp)) == Gated(bp)
  {
    if bp.Obj? {
      forall k | k in bp.fields ensures GatedField(k, GatedField(k, bp.fields[k])) == GatedField(k, bp.fields[k]) {
        GateIsLocal(k, bp.fields[k]);
      }
    }
  }

  /** Gating keeps a map's keys, and its values everywhere but at the two enum-typed keys. */
  lemma {:induction false} GatedAt(m: Fields, k: string)
    ensures k in Gated(Obj(m)).fields <==> k in m
    ensures k in m ==> Gated(Obj(m)).fields[k] == GatedField(k, m[k])
    ensures k in m && k != "template" && k != "seed_roles" ==> Gated(Obj(m)).fields[k] == m[k]
  {
    if k in m {
      GateIsLocal(k, m[k]);
    }
  }

  // ---------------------------------------------------------------------------------------
  // After normalising an object

  /** The four texts the normaliser insists on are there and not empty. */
  ghost predicate HasTexts(m: Fields) {
    HasText(m, "slug") && HasText(m, "name") && HasText(m, "template") && HasText(m, "category")
  }

  /** Nothing left to do for the normaliser. */
  ghost predicate Settled(m: Fields) {
    && (forall k :: Required(k) ==> k in m)
    && HasTexts(m)
    && (forall k :: k in m ==> CapOf(k, m[k]) == m[k])
  }

  lemma {:induction false} CapTwice(k: string, v: Value)
    ensures CapOf(k, CapOf(k, v)) == CapOf(k, v)
    ensures v.Str? && v.s != "" ==> CapOf(k, v).Str? && CapOf(k, v).s != ""
  {
  }

  lemma {:induction false} NormalizedIsSettled(r: Fields, m: Fields, brief: string)
    requires IsNormalized(r, m, brief)
    ensures Settled(r)
  {
    forall k | k in r ensures CapOf(k, r[k]) == r[k] {
      KeyKinds(k);
      if IsScalarKey(k) {
        CapTwice(k, ScalarAfter(m, k));
      } else {
        UncappedKeys(k, r[k]);
      }
    }
    NormalizedHasText(r, m, brief, "slug");
    NormalizedHasText(r, m, brief, "name");
    NormalizedHasText(r, m, brief, "template");
    NormalizedHasText(r, m, brief, "category");
  }

  lemma {:induction false} NormalizedHasText(r: Fields, m: Fields, brief: string, k: string)
    requires IsNormalized(r, m, brief)
    requires k == "slug" || k == "name" || k == "template" || k == "category"
    ensures HasText(r, k)
  {
    KeyKinds(k);
    CapTwice(k, ScalarAfter(m, k));
  }

  /** The gate leaves a settled map settled. */
  lemma {:induction false} GateKeepsSettled(m: Fields)
    requires Settled(m)
    ensures Settled(Gated(Obj(m)).fields)
  {
    var g := Gated(Obj(m)).fields;
    forall k ensures (k in g <==> k in m) && (k in g ==> CapOf(k, g[k]) == g[k]) {
      GatedAt(m, k);
      GatedKeysAreUncapped(k);
    }
    GatedTexts(m);
  }

  lemma {:induction false} GatedTexts(m: Fields)
    requires HasTexts(m)
    ensures HasTexts(Gated(Obj(m)).fields)
  {
    Ranks();
    GatedAt(m, "slug");
    GatedAt(m, "name");
    GatedAt(m, "template");
    GatedAt(m, "category");
    GatedTemplateOk(m["template"]);
  }

  lemma {:induction false} GatedKeysAreUncapped(k: string)
    ensures k == "template" || k == "seed_roles" ==> forall v :: CapOf(k, v) == v
  {
    Ranks();
  }

  /** A settled map is a fixed point of the normaliser. */
  lemma {:induction false} SettledIsFixed(g: Fields, r: Fields, brief: string)
    requires Settled(g) && IsNormalized(r, g, brief)
    ensures r == g
  {
    forall k | k in g ensures FieldAfter(g, brief, k) == g[k] {
      FieldIsKept(g, brief, k);
    }
    assert forall k :: k in r <==> k in g;
  }

  lemma {:induction false} FieldIsKept(g: Fields, brief: string, k: string)
    requires HasTexts(g) && k in g && CapOf(k, g[k]) == g[k]
    ensures FieldAfter(g, brief, k) == g[k]
  {
    ScalarIsKept(g, k);
  }

  lemma {:induction false} ScalarIsKept(g: Fields, k: string)
    requires HasTexts(g) && k in g
    ensures ScalarAfter(g, k) == g[k]
  {
  }

  // ---------------------------------------------------------------------------------------
  // The pipeline

  /** Whatever the reply contained, the outcome is complete and canonical up to blanks and case. */
  lemma {:induction false} PipelineSnapsUpToCase(bp: Value, brief: string, r: Value)
    requires IsNormalForm(r, bp, brief)
    ensures SnappedUpToCase(Gated(r))
  {
    if bp.Obj? {
      NormalizedIsSettled(r.fields, bp.fields, brief);
      CompleteIsSnapped(r.fields);
    } else {
      FoundationIsComplete(brief);
      CompleteIsSnapped(r.fields);
    }
  }

  /** The outcome's enum values are canonical as written exactly when the reply does not slip. */
  lemma {:induction false} PipelineCanonicalIff(bp: Value, brief: string, r: Value)
    requires IsNormalForm(r, bp, brief)
    ensures EnumsCanonical(Gated(r).fields) <==> !Slips(bp)
  {
    if bp.Obj? {
      NormalizedHasText(r.fields, bp.fields, brief, "template");
      GatedCanonicalIff(r.fields);
      NormalizedEnums(r.fields, bp.fields, brief);
    } else {
      StubIsCanonical(brief);
    }
  }

  lemma {:induction false} GatedCanonicalIff(m: Fields)
    requires HasText(m, "template") && "seed_roles" in m
    ensures EnumsCanonical(Gated(Obj(m)).fields) <==> !Slips(Obj(m))
  {
    GatedAt(m, "template");
    GatedAt(m, "seed_roles");
    GatedTemplateCanonicalIff(m["template"]);
    assert "template"[0] != "seed_roles"[0];
    if m["seed_roles"].Arr? {
      GatedRolesCanonicalIff(m["seed_roles"]);
    }
  }

  /** Normalising neither makes nor mends a slip. */
  lemma {:induction false} NormalizedEnums(r: Fields, m: Fields, brief: string)
    requires IsNormalized(r, m, brief)
    ensures "seed_roles" in r && (Slips(Obj(r)) <==> Slips(Obj(m)))
  {
    EnumFieldsAfter(r, m, brief);
    DefaultsDoNotSlip(m);
  }

  lemma {:induction false} EnumFieldsAfter(r: Fields, m: Fields, brief: string)
    requires IsNormalized(r, m, brief)
    ensures "template" in r && r["template"] == Str(TextOr(m, "template", STUB_TEMPLATE))
    ensures "seed_roles" in r && r["seed_roles"] == ValueOr(m, "seed_roles", Arr([]))
  {
    NormalizedAt(r, m, brief, "template");
    NormalizedAt(r, m, brief, "seed_roles");
    TemplateAfter(m, brief);
    RolesAfter(m, brief);
  }

  lemma {:induction false} NormalizedAt(r: Fields, m: Fields, brief: string, k: string)
    requires IsNormalized(r, m, brief) && Required(k)
    ensures k in r && r[k] == FieldAfter(m, brief, k)
  {
  }

  lemma {:induction false} RolesAfter(m: Fields, brief: string)
    ensures FieldAfter(m, brief, "seed_roles") == ValueOr(m, "seed_roles", Arr([]))
  {
    Ranks();
  }

  lemma {:induction false} TemplateAfter(m: Fields, brief: string)
    ensures FieldAfter(m, brief, "template") == Str(TextOr(m, "template", STUB_TEMPLATE))
  {
    Ranks();
  }

  lemma {:induction false} DefaultsDoNotSlip(m: Fields)
    ensures TemplateSlips(Str(TextOr(m, "template", STUB_TEMPLATE))) <==>
              "template" in m && TemplateSlips(m["template"])
    ensures SomeRoleSlips(ValueOr(m, "seed_roles", Arr([]))) <==>
              "seed_roles" in m && SomeRoleSlips(m["seed_roles"])
  {
    EmptyIsNoTemplate();
  }

  lemma {:induction false} EmptyIsNoTemplate()
    ensures !ValidTemplate(Folded(""))
  {
    assert Folded("") == "";
  }

  lemma {:induction false} StubIsCanonical(brief: string)
    ensures EnumsCanonical(Gated(Foundation(brief)).fields)
  {
    StubEnums(brief);
    FounderMapIsCanonical(Foundation(brief).fields);
  }

  lemma {:induction false} FounderMapIsCanonical(f: Fields)
    requires "template" in f && f["template"] == Str(STUB_TEMPLATE)
    requires "seed_roles" in f && f["seed_roles"] == Arr([FounderRole()])
    ensures EnumsCanonical(Gated(Obj(f)).fields)
  {
    assert |STUB_TEMPLATE| == 5;
    GatedCanonicalIff(f);
    FounderIsCanonical();
  }

  lemma {:induction false} FounderIsCanonical()
    ensures !RoleSlips(FounderRole())
    ensures "role_type" in FounderRole().fields && FounderRole().fields["role_type"] == Str("director")
  {
    assert FounderRole().fields["role_type"] == Str("director");
  }

  lemma {:induction false} StubEnums(brief: string)
    ensures var f := Foundation(brief).fields;
            && "template" in f && f["template"] == Str(STUB_TEMPLATE)
            && "seed_roles" in f && f["seed_roles"] == Arr([FounderRole()])
  {
    FoundationKeys(brief, "template");
    FoundationKeys(brief, "seed_roles");
    StubTemplate(brief);
    StubRoles(brief);
  }

  lemma {:induction false} StubTemplate(brief: string)
    ensures FoundationText(brief, "template") == STUB_TEMPLATE
  {
    Ranks();
  }

  lemma {:induction false} StubRoles(brief: string)
    ensures Foundation(brief).fields["seed_roles"] == Arr([FounderRole()])
  {
    Ranks();
    KeyKinds("seed_roles");
    assert FoundationSeed(brief, "seed_roles") == [FounderRole()];
  }

  lemma {:induction false} CompleteIsSnapped(m: Fields)
    requires HasText(m, "template") && forall k :: Required(k) ==> k in m
    ensures SnappedUpToCase(Gated(Obj(m)))
  {
    forall k | Required(k) ensures k in Gated(Obj(m)).fields {
      GatedAt(m, k);
    }
    GatedTemplateOk(m["template"]);
    assert Gated(Obj(m)).fields["template"] == GatedTemplate(m["template"]);
    assert Gated(Obj(m)).fields["seed_roles"] == GatedField("seed_roles", m["seed_roles"]);
    if Gated(Obj(m)).fields["seed_roles"].Arr? {
      RolesAreOk(m["seed_roles"]);
    }
  }

  lemma {:induction false} RolesAreOk(v: Value)
    requires GatedField("seed_roles", v).Arr?
    ensures forall i :: 0 <= i < |GatedField("seed_roles", v).items| ==> RoleOk(GatedField("seed_roles", v).items[i])
  {
    assert "template"[0] != "seed_roles"[0];
    forall i | 0 <= i < |v.items| ensures RoleOk(GatedRole(v.items[i])) {
      GatedRoleOk(v.items[i]);
    }
  }

  /** For object replies: texts are within their caps, and keys outside the required ones are
      exactly those of the reply, with their values. */
  lemma {:induction false} PipelineCapsAndKeeps(m: Fields, brief: string, r: Value)
    requires IsNormalForm(r, Obj(m), brief)
    ensures var out := Gated(r).fields;
            && "name" in out && out["name"].Str? && 1 <= |out["name"].s| <= 32
            && "slug" in out && out["slug"].Str? && 1 <= |out["slug"].s| <= 32
            && "tagline" in out && (out["tagline"].Str? ==> |out["tagline"].s| <= 80)
            && "description" in out && (out["description"].Str? ==> |out["description"].s| <= 240)
    ensures forall k :: !Required(k) ==>
              (k in Gated(r).fields <==> k in m) && (k in m ==> Gated(r).fields[k] == m[k])
  {
    assert Gated(r) == Gated(Obj(r.fields));
    NormalizedIsSettled(r.fields, m, brief);
    GateKeepsSettled(r.fields);
    SettledCaps(Gated(r).fields);
    forall k | !Required(k)
      ensures (k in Gated(r).fields <==> k in m) && (k in m ==> Gated(r).fields[k] == m[k])
    {
      OtherKeysKept(m, brief, r.fields, k);
    }
  }

  lemma {:induction false} OtherKeysKept(m: Fields, brief: string, r: Fields, k: string)
    requires IsNormalized(r, m, brief) && !Required(k)
    ensures k in Gated(Obj(r)).fields <==> k in m
    ensures k in m ==> Gated(Obj(r)).fields[k] == m[k]
  {
    GatedAt(r, k);
    if k in m {
      UncappedKeys(k, m[k]);
    }
  }

  lemma {:induction false} SettledCaps(g: Fields)
    requires Settled(g)
    ensures "name" in g && g["name"].Str? && 1 <= |g["name"].s| <= 32
    ensures "slug" in g && g["slug"].Str? && 1 <= |g["slug"].s| <= 32
    ensures "tagline" in g && (g["tagline"].Str? ==> |g["tagline"].s| <= 80)
    ensures "description" in g && (g["description"].Str? ==> |g["description"].s| <= 240)
  {
    Ranks();
    assert Required("tagline") && Required("description");
    assert CapOf("name", g["name"]) == g["name"] && CapOf("slug", g["slug"]) == g["slug"];
    assert CapOf("tagline", g["tagline"]) == g["tagline"];
    assert CapOf("description", g["description"]) == g["description"];
  }

  /** Running an object's outcome through the pipeline again changes nothing. */
  lemma {:induction false} PipelineIsIdempotent(m: Fields, brief: string, r: Value, again: Value)
    requires IsNormalForm(r, Obj(m), brief) && IsNormalForm(again, Gated(r), brief)
    ensures Gated(again) == Gated(r)
  {
    NormalizedIsSettled(r.fields, m, brief);
    GateKeepsSettled(r.fields);
    SettledIsFixed(Gated(r).fields, again.fields, brief);
    GateIsIdempotent(r);
  }

  // ---------------------------------------------------------------------------------------
  // The stub blueprint

  lemma {:induction false} FoundationKeys(brief: string, k: string)
    ensures k in Foundation(brief).fields <==> Required(k)
    ensures IsScalarKey(k) ==> Foundation(brief).fields[k] == Str(FoundationText(brief, k))
  {
    assert k in REQUIRED_KEYS <==> Required(k);
  }

  lemma {:induction false} FoundationIsComplete(brief: string)
    ensures HasTexts(Foundation(brief).fields)
    ensures forall k :: Required(k) <==> k in Foundation(brief).fields
  {
    forall k ensures k in Foundation(brief).fields <==> Required(k) {
      FoundationKeys(brief, k);
    }
    FoundationHasText(brief, "slug");
    FoundationHasText(brief, "name");
    FoundationHasText(brief, "template");
    FoundationHasText(brief, "category");
  }

  lemma {:induction false} FoundationHasText(brief: string, k: string)
    requires k == "slug" || k == "name" || k == "template" || k == "category"
    ensures HasText(Foundation(brief).fields, k)
  {
    FoundationKeys(brief, k);
    FoundationTextLength(brief, k);
  }

  lemma {:induction false} FoundationTextLength(brief: string, k: string)
    ensures k != "description" ==> 1 <= |FoundationText(brief, k)| <= 24
    ensures FoundationText(brief, "description") == Described(brief)
  {
    Ranks();
    assert |"architect-foundation"| == 20 && |"Founder's Foundation"| == 20 && |TAGLINE| == 24;
    assert |"company"| == 7 && |STUB_TEMPLATE| == 5;
  }

  /** The stub's description is within the cap exactly for briefs of at most 199 characters. */
  lemma {:induction false} StubCapIff(brief: string)
    ensures |Described(brief)| <= 240 <==> |brief| <= 199
  {
    assert |"Architect-drafted foundation from brief: "| == 41;
  }

  /** For replies that are no object, the pipeline is idempotent exactly when the stub's
      description is within the cap. */
  lemma {:induction false} StubIdempotentIff(bp: Value, brief: string, r: Value, again: Value)
    requires !bp.Obj? && IsNormalForm(r, bp, brief) && IsNormalForm(again, Gated(r), brief)
    ensures Gated(again) == Gated(r) <==> |brief| <= 199
  {
    var f := Foundation(brief).fields;
    FoundationIsComplete(brief);
    FoundationKeys(brief, "description");
    FoundationTextLength(brief, "description");
    StubCapIff(brief);
    GateIsIdempotent(r);
    if |brief| <= 199 {
      FoundationIsSettled(brief);
      GateKeepsSettled(f);
      SettledIsFixed(Gated(r).fields, again.fields, brief);
    } else {
      LongDescriptionIsCut(f, brief, again.fields);
    }
  }

  lemma {:induction false} LongDescriptionIsCut(f: Fields, brief: string, again: Fields)
    requires "description" in f && f["description"].Str? && |f["description"].s| > 240
    requires IsNormalized(again, Gated(Obj(f)).fields, brief)
    ensures Gated(Obj(again)) != Gated(Obj(f))
  {
    Ranks();
    GatedAt(f, "description");
    GatedAt(again, "description");
    assert again["description"] == Capped(f["description"], 240);
  }

  lemma {:induction false} FoundationIsSettled(brief: string)
    requires |brief| <= 199
    ensures Settled(Foundation(brief).fields)
  {
    var f := Foundation(brief).fields;
    FoundationIsComplete(brief);
    forall k | k in f ensures CapOf(k, f[k]) == f[k] {
      FoundationWithinCap(brief, k);
    }
  }

  lemma {:induction false} FoundationWithinCap(brief: string, k: string)
    requires |brief| <= 199
    ensures k in Foundation(brief).fields ==> CapOf(k, Foundation(brief).fields[k]) == Foundation(brief).fields[k]
  {
    FoundationKeys(brief, k);
    if IsScalarKey(k) {
      ShortText(brief, k);
    } else if k in Foundation(brief).fields {
      UncappedKeys(k, Foundation(brief).fields[k]);
    }
  }

  lemma {:induction false} ShortText(brief: string, k: string)
    requires |brief| <= 199
    ensures CapOf(k, Str(FoundationText(brief, k))) == Str(FoundationText(brief, k))
  {
    FoundationTextLength(brief, k);
    StubCapIff(brief);
    Ranks();
  }

  // ---------------------------------------------------------------------------------------
  // What is given is kept

  /** `v`, or its first `n` characters when it is a longer text. */
  predicate FirstOf(r: Value, v: Value, n: nat) {
    if v.Str? then r.Str? && r.s <= v.s && |r.s| == (if |v.s| <= n then |v.s| else n) else r == v
  }

  lemma {:induction false} CappedIsFirstOf(v: Value, n: nat)
    ensures FirstOf(Capped(v, n), v, n)
  {
  }

  lemma {:induction false} CapsOfKeys(v: Value)
    ensures CapOf("name", v) == Capped(v, 32) && CapOf("slug", v) == Capped(v, 32)
    ensures CapOf("tagline", v) == Capped(v, 80) && CapOf("description", v) == Capped(v, 240)
    ensures CapOf("template", v) == v && CapOf("category", v) == v
  {
    Ranks();
  }

  /** Tagline and description are kept whatever they are, up to their caps; so are the root agent
      and the seeds, without caps. The four texts are kept, the first two up to their caps, when
      they are texts and not empty; otherwise the default takes their place. */
  lemma {:induction false} GivenIsKept(m: Fields, brief: string, k: string)
    requires k in m
    ensures (k == "tagline" ==> FirstOf(FieldAfter(m, brief, k), m[k], 80))
    ensures (k == "description" ==> FirstOf(FieldAfter(m, brief, k), m[k], 240))
    ensures k == "name" || k == "slug" ==>
              if m[k].Str? && m[k].s != "" then FirstOf(FieldAfter(m, brief, k), m[k], 32)
              else FieldAfter(m, brief, k) == FieldAfter(map[], brief, k)
    ensures k == "template" || k == "category" ==>
              if m[k].Str? && m[k].s != "" then FieldAfter(m, brief, k) == m[k]
              else FieldAfter(m, brief, k) == FieldAfter(map[], brief, k)
    ensures !IsScalarKey(k) ==> FieldAfter(m, brief, k) == m[k]
  {
    if IsScalarKey(k) {
      GivenScalarIsKept(m, brief, k);
    } else {
      UncappedKeys(k, m[k]);
    }
  }

  lemma {:induction false} GivenScalarIsKept(m: Fields, brief: string, k: string)
    requires k in m && IsScalarKey(k)
    ensures FieldAfter(m, brief, k) == CapOf(k, ScalarAfter(m, k))
    ensures (k == "tagline" ==> FirstOf(CapOf(k, ScalarAfter(m, k)), m[k], 80))
    ensures (k == "description" ==> FirstOf(CapOf(k, ScalarAfter(m, k)), m[k], 240))
    ensures k == "name" || k == "slug" ==>
              if m[k].Str? && m[k].s != "" then FirstOf(CapOf(k, ScalarAfter(m, k)), m[k], 32)
              else FieldAfter(m, brief, k) == FieldAfter(map[], brief, k)
    ensures k == "template" || k == "category" ==>
              if m[k].Str? && m[k].s != "" then CapOf(k, ScalarAfter(m, k)) == m[k]
              else FieldAfter(m, brief, k) == FieldAfter(map[], brief, k)
  {
    KeyKinds(k);
    CapsOfKeys(m[k]);
    ScalarsGiven(m, k);
    CappedIsFirstOf(m[k], 32);
    CappedIsFirstOf(m[k], 80);
    CappedIsFirstOf(m[k], 240);
  }

  lemma {:induction false} ScalarsGiven(m: Fields, k: string)
    requires k in m && IsScalarKey(k)
    ensures k == "tagline" || k == "description" ==> ScalarAfter(m, k) == m[k]
    ensures k != "tagline" && k != "description" ==>
              if m[k].Str? && m[k].s != "" then ScalarAfter(m, k) == m[k] else ScalarAfter(m, k) == ScalarAfter(map[], k)
  {
    Ranks();
  }

  // ---------------------------------------------------------------------------------------
  // Defaults

  lemma {:induction false} TextDefaults(brief: string)
    ensures FieldAfter(map[], brief, "slug") == Str("architect-llm")
    ensures FieldAfter(map[], brief, "name") == Str("Founder's Company")
    ensures FieldAfter(map[], brief, "template") == Str("trust")
    ensures FieldAfter(map[], brief, "category") == Str("company")
    ensures FieldAfter(map[], brief, "tagline") == Str("Drafted from your brief.")
    ensures FieldAfter(map[], brief, "description") == Str("")
  {
    Ranks();
  }

  lemma {:induction false} RootDefault(brief: string)
    ensures var root := FieldAfter(map[], brief, "root");
            && root.Obj? && "name" in root.fields && root.fields["name"] == Str("founder")
            && "system_prompt" in root.fields && root.fields["system_prompt"].Str?
            && EndsWith(root.fields["system_prompt"].s, brief)
  {
    Ranks();
    var prompt := "You are the founder's primary agent. The founder's brief: " + brief;
    assert prompt[|prompt| - |brief|..] == brief;
    assert FieldAfter(map[], brief, "root") == DefaultRoot(brief);
    RootFields(prompt, "Hi \U{2014} your Architect drafted this Company from your brief.");
  }

  predicate EndsWith(s: string, tail: string) {
    |s| >= |tail| && s[|s| - |tail|..] == tail
  }

  lemma {:induction false} RootFields(prompt: string, greeting: string)
    ensures var m := Root(prompt, greeting).fields;
            && "name" in m && m["name"] == Str("founder")
            && "system_prompt" in m && m["system_prompt"] == Str(prompt)
            && "proactive_greeting" in m && m["proactive_greeting"] == Str(greeting)
  {
    assert |"name"| == 4 && |"model"| == 5 && |"color"| == 5 && |"system_prompt"| == 13 && |"proactive_greeting"| == 18;
  }

  /** What an empty object becomes: the default texts, a founder whose prompt ends in the brief, and
      empty seeds. */
  lemma {:induction false} EmptyObjectDefaults(brief: string, r: Fields, k: string)
    requires IsNormalized(r, map[], brief)
    ensures k in r <==> Required(k)
    ensures k == "slug" ==> r[k] == Str("architect-llm")
    ensures k == "name" ==> r[k] == Str("Founder's Company")
    ensures k == "template" ==> r[k] == Str("trust")
    ensures k == "category" ==> r[k] == Str("company")
    ensures k == "tagline" ==> r[k] == Str("Drafted from your brief.")
    ensures k == "description" ==> r[k] == Str("")
    ensures IsArrayKey(k) ==> r[k] == Arr([])
    ensures k == "root" ==> r[k].Obj? && "system_prompt" in r[k].fields && r[k].fields["system_prompt"].Str?
                            && EndsWith(r[k].fields["system_prompt"].s, brief)
  {
    KeyKinds(k);
    TextDefaults(brief);
    RootDefault(brief);
  }

  lemma {:induction false} SeedsAt(brief: string, k: string)
    requires IsArrayKey(k)
    ensures k in Foundation(brief).fields && Foundation(brief).fields[k] == Arr(FoundationSeed(brief, k))
  {
    KeyKinds(k);
    FoundationKeys(brief, k);
  }

  lemma {:induction false} NoSeeds(brief: string)
    ensures FoundationSeed(brief, "seed_agents") == [] && FoundationSeed(brief, "seed_role_edges") == []
  {
    Ranks();
  }

  lemma {:induction false} IdeaSeed(brief: string)
    ensures FoundationSeed(brief, "seed_ideas") == [BriefIdea(brief)]
    ensures var idea := BriefIdea(brief).fields;
            "content" in idea && idea["content"] == Str(brief)
  {
    Ranks();
    assert |"name"| == 4 && |"content"| == 7 && |"tags"| == 4;
  }

  lemma {:induction false} QuestFields(text: string)
    ensures Quest(text).Obj? && "description" in Quest(text).fields && Quest(text).fields["description"] == Str(text)
  {
  }

  lemma {:induction false} QuestSeed(brief: string)
    ensures FoundationSeed(brief, "seed_quests") == [KickoffQuest(brief)]
  {
    Ranks();
  }

  lemma {:induction false} ViewSeed(brief: string)
    ensures FoundationSeed(brief, "seed_views") == [SessionsView()] && "path" in SessionsView().fields
  {
    Ranks();
  }

  lemma {:induction false} EventSeed(brief: string)
    ensures FoundationSeed(brief, "seed_events") == [BootstrapEvent()] && "pattern" in BootstrapEvent().fields
  {
    Ranks();
  }

  /** The stub carries the brief, as an idea and in the kickoff quest; it has one view, one event and
      one role, and neither further agents nor role edges. */
  lemma {:induction false} StubSeeds(brief: string, k: string)
    requires IsArrayKey(k)
    ensures k in Foundation(brief).fields && Foundation(brief).fields[k].Arr?
    ensures var seeds := Foundation(brief).fields[k].items;
            && (k == "seed_agents" || k == "seed_role_edges" <==> seeds == [])
            && (seeds != [] ==> |seeds| == 1 && seeds[0].Obj?)
            && (k == "seed_ideas" ==> "content" in seeds[0].fields && seeds[0].fields["content"] == Str(brief))
            && (k == "seed_quests" ==> seeds[0] == KickoffQuest(brief))
            && (k == "seed_views" ==> "path" in seeds[0].fields)
            && (k == "seed_events" ==> "pattern" in seeds[0].fields)
            && (k == "seed_roles" ==> "role_type" in seeds[0].fields && seeds[0].fields["role_type"] == Str("director"))
  {
    SeedsAt(brief, k);
    NoSeeds(brief);
    IdeaSeed(brief);
    QuestSeed(brief);
    ViewSeed(brief);
    EventSeed(brief);
    StubRoles(brief);
    FounderIsCanonical();
  }

  lemma {:induction false} StubTexts(brief: string)
    ensures FoundationText(brief, "slug") == "architect-foundation"
    ensures FoundationText(brief, "name") == "Founder's Foundation"
    ensures FoundationText(brief, "category") == "company" && FoundationText(brief, "template") == "trust"
    ensures FoundationText(brief, "tagline") == "Drafted from your brief."
    ensures var d := FoundationText(brief, "description");
            && "Architect-drafted foundation from brief: " <= d
            && (|brief| <= 200 ==> EndsWith(d, brief)) && (|brief| > 200 ==> EndsWith(d, brief[..200] + "\U{2026}"))
  {
    Ranks();
    var lead := "Architect-drafted foundation from brief: ";
    var tail := if |brief| <= 200 then brief else brief[..200] + "\U{2026}";
    assert Described(brief) == lead + tail && (lead + tail)[|lead|..] == tail && (lead + tail)[..|lead|] == lead;
  }

  // One word of each tier.

  lemma {:induction false} ContractorIsOperational()
    ensures SnapRoleType("contractor") == ("operational", true)
  {
    FoldedWord("contractor");
    RoleTiers("contractor");
    TiersAreDisjoint("contractor");
  }

  lemma {:induction false} MentorIsAdvisor()
    ensures SnapRoleType("mentor") == ("advisor", true)
  {
    FoldedWord("mentor");
    RoleTiers("mentor");
  }

  lemma {:induction false} CeoIsDirector()
    ensures SnapRoleType("ceo") == ("director", true)
  {
    FoldedWord("ceo");
    RoleTiers("ceo");
  }

  lemma {:induction false} FoundationIsTrust()
    ensures SnapTemplate("startup") == ("venture", true) && SnapTemplate("foundation") == ("trust", true)
  {
    FoldedWord("startup");
    FoldedWord("foundation");
  }

  // ---------------------------------------------------------------------------------------
  // The whole reply parser

  const DEFAULT_RATIONALE := "Architect-drafted via LLM; rationale field omitted by the model."

  /** The rationale and the blueprint of a parsed reply; a reply without the wrapper is the
      blueprint itself. */
  function SplitReply(v: Value): (string, Value) {
    if !v.Obj? || "blueprint" !in v.fields then (DEFAULT_RATIONALE, v)
    else
      var rationale :=
        if "rationale" in v.fields && v.fields["rationale"].Str? then v.fields["rationale"].s
        else DEFAULT_RATIONALE;
      (rationale, v.fields["blueprint"])
  }

  datatype Failure = NoJsonObject | NotJson

  /** `r` carries the rationale `why` and what normalising and gating make of `bp`. */
  ghost predicate Yields(r: Result<(string, Value), Failure>, why: string, bp: Value, brief: string) {
    r.Ok? && r.value.0 == why && exists n :: IsNormalForm(n, bp, brief) && r.value.1 == Gated(n)
  }

  /** What becomes of the text the scanner found: a wrapper's inner blueprint with its rationale,
      anything else as the blueprint itself. */
  ghost predicate IsReply(r: Result<(string, Value), Failure>, parsed: Option<Value>, brief: string) {
    match parsed
    case None => r == Err(NotJson)
    case Some(Obj(m)) =>
      if "blueprint" !in m then Yields(r, DEFAULT_RATIONALE, Obj(m), brief)
      else if "rationale" in m && m["rationale"].Str? then Yields(r, m["rationale"].s, m["blueprint"], brief)
      else Yields(r, DEFAULT_RATIONALE, m["blueprint"], brief)
    case Some(v) => Yields(r, DEFAULT_RATIONALE, v, brief)
  }

  /** Scan, parse, split, normalise, gate. `parse` is the JSON parser. */
  method ParseLlmResponse(raw: string, brief: string, parse: string -> Option<Value>)
    returns (r: Result<(string, Value), Failure>)
    ensures JsonScanner.IsExtraction(raw, None) ==> r == Err(NoJsonObject)
    ensures forall t :: JsonScanner.IsExtraction(raw, Some(t)) ==> IsReply(r, parse(t), brief)
    ensures r.Ok? ==> SnappedUpToCase(r.value.1)
  {
    var text := JsonScanner.ExtractJsonObject(raw);
    ExtractionIsUnique(raw, text);
    if text.None? {
      return Err(NoJsonObject);
    }
    var parsed := parse(text.value);
    if parsed.None? {
      return Err(NotJson);
    }
    var (rationale, bp) := SplitReply(parsed.value);
    var normal := NormalizeBlueprint(bp, brief);
    PipelineSnapsUpToCase(bp, brief, normal);
    var gated := SchemaGate(normal);
    r := Ok((rationale, gated));
    SplitYields(parsed.value, normal, brief);
  }

  lemma {:induction false} SplitYields(v: Value, n: Value, brief: string)
    requires IsNormalForm(n, SplitReply(v).1, brief)
    ensures IsReply(Ok((SplitReply(v).0, Gated(n))), Some(v), brief)
  {
    var r: Result<(string, Value), Failure> := Ok((SplitReply(v).0, Gated(n)));
    assert Yields(r, SplitReply(v).0, SplitReply(v).1, brief);
  }

  lemma {:induction false} ExtractionIsUnique(raw: string, r: Option<string>)
    requires JsonScanner.IsExtraction(raw, r)
    ensures forall t :: JsonScanner.IsExtraction(raw, t) ==> t == r
  {
    var s := JsonScanner.Unfence(raw);
    var start := FindChar(s, '{');
    forall t | JsonScanner.IsExtraction(raw, t) ensures t == r {
      if t.Some? && r.Some? {
        JsonScanner.BalancedIsUnique(t.value, r.value, s[start.value..]);
      }
    }
  }
}
