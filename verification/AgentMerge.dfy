/** Discovering agents on disk and merging them over the agents of the TOML config. */
module AgentMerge {
  import opened Options

  /** An agent; `settings` stands for everything but the name. */
  datatype Agent = Agent(name: string, settings: string)

  // ---------------------------------------------------------------------------------------
  // Sorting by name

  /** Lexicographic order by character, as strings compare. */
  predicate Le(a: string, b: string)
    decreases |a|
  {
    if a == "" then true
    else if b == "" then false
    else if a[0] != b[0] then a[0] < b[0]
    else Le(a[1..], b[1..])
  }

  lemma {:induction false} LeTotal(a: string, b: string)
    ensures Le(a, b) || Le(b, a)
    ensures Le(a, b) && Le(b, a) ==> a == b
    decreases |a|
  {
    if a != "" && b != "" && a[0] == b[0] {
      LeTotal(a[1..], b[1..]);
      assert a == [a[0]] + a[1..] && b == [b[0]] + b[1..];
    }
  }

  lemma {:induction false} LeTransitive(a: string, b: string, c: string)
    requires Le(a, b) && Le(b, c)
    ensures Le(a, c)
    decreases |a|
  {
    if a != "" && a[0] == b[0] && b[0] == c[0] {
      LeTransitive(a[1..], b[1..], c[1..]);
    }
  }

  /** The order is the one of strings: a prefix comes first, and otherwise the first character that
      differs decides. */
  lemma {:induction false} LeIsLexicographic(p: string, a: string, b: string)
    ensures Le(p, p + a)
    ensures a != "" && b != "" && a[0] != b[0] ==> (Le(p + a, p + b) <==> a[0] < b[0])
    decreases |p|
  {
    if p == "" {
      assert p + a == a && p + b == b;
    } else {
      assert (p + a)[0] == p[0] && (p + b)[0] == p[0];
      assert (p + a)[1..] == p[1..] + a && (p + b)[1..] == p[1..] + b;
      LeIsLexicographic(p[1..], a, b);
    }
  }

  predicate Sorted(s: seq<Agent>) {
    forall i, j :: 0 <= i < j < |s| ==> Le(s[i].name, s[j].name)
  }

  /** The agents with a given name, in order. */
  function Named(s: seq<Agent>, name: string): seq<Agent> {
    if s == [] then []
    else (if s[0].name == name then [s[0]] else []) + Named(s[1..], name)
  }

  /** A stable sort keeps agents of equal name in their order. */
  ghost predicate IsStableSort(r: seq<Agent>, s: seq<Agent>) {
    Sorted(r) && forall name :: Named(r, name) == Named(s, name)
  }

  function Insert(x: Agent, s: seq<Agent>): seq<Agent> {
    if s == [] || Le(x.name, s[0].name) then [x] + s else [s[0]] + Insert(x, s[1..])
  }

  function Sort(s: seq<Agent>): seq<Agent> {
    if s == [] then [] else Insert(s[0], Sort(s[1..]))
  }

  lemma {:induction false} InsertKeeps(x: Agent, s: seq<Agent>)
    requires Sorted(s)
    ensures Sorted(Insert(x, s))
    ensures forall a :: a in Insert(x, s) <==> a == x || a in s
    ensures forall name :: Named(Insert(x, s), name) == Named([x] + s, name)
  {
    if s == [] {
    } else if Le(x.name, s[0].name) {
      forall j | 0 <= j < |s| ensures Le(x.name, s[j].name) {
        if j > 0 {
          LeTransitive(x.name, s[0].name, s[j].name);
        }
      }
    } else {
      var r := Insert(x, s[1..]);
      InsertKeeps(x, s[1..]);
      LeTotal(x.name, s[0].name);
      forall a | a in r ensures Le(s[0].name, a.name) {
        if a != x {
          var j :| 0 <= j < |s[1..]| && s[1..][j] == a;
          assert s[j + 1] == a;
        }
      }
      assert Sorted([s[0]] + r);
      forall name ensures Named([s[0]] + r, name) == Named([x] + s, name) {
        assert ([s[0]] + r)[1..] == r && ([x] + s[1..])[1..] == s[1..] && ([x] + s)[1..] == s;
      }
    }
  }

  lemma {:induction false} SortIsStable(s: seq<Agent>)
    ensures IsStableSort(Sort(s), s)
  {
    if s != [] {
      SortIsStable(s[1..]);
      InsertKeeps(s[0], Sort(s[1..]));
      forall name ensures Named(Sort(s), name) == Named(s, name) {
        assert ([s[0]] + Sort(s[1..]))[1..] == Sort(s[1..]);
      }
    }
  }

  lemma {:induction false} NamedHas(s: seq<Agent>, i: nat)
    requires i < |s|
    ensures Named(s, s[i].name) != []
  {
    if i > 0 {
      NamedHas(s[1..], i - 1);
    }
  }

  lemma {:induction false} NamedFrom(s: seq<Agent>, name: string) returns (i: nat)
    requires Named(s, name) != []
    ensures i < |s| && s[i] == Named(s, name)[0] && s[i].name == name
  {
    if s[0].name == name {
      i := 0;
    } else {
      i := NamedFrom(s[1..], name);
      i := i + 1;
    }
  }

  /** The head of a sorted list has the least name among all names that occur. */
  lemma {:induction false} HeadIsLeast(a: seq<Agent>, b: seq<Agent>)
    requires Sorted(b) && a != [] && b != [] && Named(b, a[0].name) != []
    ensures Le(b[0].name, a[0].name)
  {
    var i := NamedFrom(b, a[0].name);
    LeTotal(b[0].name, b[0].name);
  }

  /** Stably sorting leaves no choice. */
  lemma {:induction false} StableSortIsUnique(a: seq<Agent>, b: seq<Agent>)
    requires Sorted(a) && Sorted(b) && forall name :: Named(a, name) == Named(b, name)
    ensures a == b
  {
    if a == [] {
      assert forall name :: Named(b, name) == [];
      if b != [] {
        NamedHas(b, 0);
      }
    } else {
      NamedHas(a, 0);
      assert b != [] by { assert Named(b, a[0].name) != []; }
      NamedHas(b, 0);
      HeadIsLeast(a, b);
      HeadIsLeast(b, a);
      LeTotal(a[0].name, b[0].name);
      assert Named(a, a[0].name)[0] == a[0] && Named(b, b[0].name)[0] == b[0];
      forall name ensures Named(a[1..], name) == Named(b[1..], name) {
        assert Named(a, name) == Named(b, name);
        if name == a[0].name {
          assert Named(a, name)[1..] == Named(a[1..], name) && Named(b, name)[1..] == Named(b[1..], name);
        } else {
          assert Named(a, name) == Named(a[1..], name) && Named(b, name) == Named(b[1..], name);
        }
      }
      StableSortIsUnique(a[1..], b[1..]);
      assert a == [a[0]] + a[1..] && b == [b[0]] + b[1..];
    }
  }

  lemma {:induction false} NamedConcat(a: seq<Agent>, b: seq<Agent>, name: string)
    ensures Named(a + b, name) == Named(a, name) + Named(b, name)
  {
    if a == [] {
      assert a + b == b;
    } else {
      var head := if a[0].name == name then [a[0]] else [];
      calc {
        Named(a + b, name);
        { assert (a + b)[1..] == a[1..] + b && (a + b)[0] == a[0]; }
        head + Named(a[1..] + b, name);
        { NamedConcat(a[1..], b, name); }
        head + (Named(a[1..], name) + Named(b, name));
        (head + Named(a[1..], name)) + Named(b, name);
        Named(a, name) + Named(b, name);
      }
    }
  }

  // ---------------------------------------------------------------------------------------
  // Discovery

  /** A subdirectory of the agents directory: its name and its parsed `agent.md`, if any. */
  datatype Dir = Dir(name: string, agent: Option<Agent>)

  function Loaded(d: Dir): seq<Agent> {
    if d.name != "shared" && d.agent.Some? then [d.agent.value.(name := d.name)] else []
  }

  function AllLoaded(dirs: seq<Dir>): seq<Agent> {
    if dirs == [] then [] else AllLoaded(dirs[..|dirs| - 1]) + Loaded(dirs[|dirs| - 1])
  }

  function Discovered(dirs: seq<Dir>): seq<Agent> {
    Sort(AllLoaded(dirs))
  }

  /** What reading the agents directory yields; a directory that does not exist lists nothing. */
  datatype Listing = Unreadable | Listed(dirs: seq<Dir>)

  method DiscoverAgents(listing: Listing) returns (r: Option<seq<Agent>>)
    ensures r == if listing.Unreadable? then None else Some(Discovered(listing.dirs))
  {
    if listing.Unreadable? {
      return None;
    }
    var dirs, agents := listing.dirs, [];
    for i := 0 to |dirs|
      invariant agents == AllLoaded(dirs[..i])
    {
      assert dirs[..i + 1][..i] == dirs[..i];
      if dirs[i].name == "shared" {
        continue;
      }
      if dirs[i].agent.Some? {
        var config := dirs[i].agent.value;
        if config.name != dirs[i].name {
          config := config.(name := dirs[i].name);
        }
        agents := agents + [config];
      }
    }
    assert dirs[..|dirs|] == dirs;
    r := Some(Sort(agents));
  }

  /** An agent is discovered exactly when some directory other than `shared` loads it, under that
      directory's name and with the settings of its file. */
  lemma {:induction false} DiscoveredIff(dirs: seq<Dir>, a: Agent)
    ensures a in Discovered(dirs) <==>
              exists i :: && 0 <= i < |dirs| && dirs[i].name != "shared" && dirs[i].agent.Some?
                          && a.name == dirs[i].name && a.settings == dirs[i].agent.value.settings
  {
    SortIsStable(AllLoaded(dirs));
    SameMembers(Discovered(dirs), AllLoaded(dirs), a);
    LoadedIff(dirs, a);
  }

  lemma {:induction false} LoadedIff(dirs: seq<Dir>, a: Agent)
    ensures a in AllLoaded(dirs) <==>
              exists i :: && 0 <= i < |dirs| && dirs[i].name != "shared" && dirs[i].agent.Some?
                          && a.name == dirs[i].name && a.settings == dirs[i].agent.value.settings
  {
    if dirs != [] {
      var init, last := dirs[..|dirs| - 1], dirs[|dirs| - 1];
      LoadedIff(init, a);
      assert forall i :: 0 <= i < |init| ==> init[i] == dirs[i];
      assert a in AllLoaded(dirs) <==> a in AllLoaded(init) || a in Loaded(last);
    }
  }

  lemma {:induction false} NamedMembers(s: seq<Agent>, a: Agent)
    ensures a in s <==> a in Named(s, a.name)
  {
    if s != [] {
      NamedMembers(s[1..], a);
      assert s == [s[0]] + s[1..];
    }
  }

  lemma {:induction false} SameMembers(r: seq<Agent>, s: seq<Agent>, a: Agent)
    requires Named(r, a.name) == Named(s, a.name)
    ensures a in r <==> a in s
  {
    NamedMembers(r, a);
    NamedMembers(s, a);
  }

  ghost predicate DistinctDirs(dirs: seq<Dir>) {
    forall i, j :: 0 <= i < j < |dirs| ==> dirs[i].name != dirs[j].name
  }

  /** With distinct directory names, the agent of a name is the one its directory loads. */
  lemma {:induction false} LoadedByName(dirs: seq<Dir>, name: string)
    requires DistinctDirs(dirs)
    ensures (forall i :: 0 <= i < |dirs| ==> dirs[i].name != name) ==> Named(AllLoaded(dirs), name) == []
    ensures forall i :: 0 <= i < |dirs| && dirs[i].name == name ==> Named(AllLoaded(dirs), name) == Loaded(dirs[i])
  {
    if dirs != [] {
      var init, last := dirs[..|dirs| - 1], dirs[|dirs| - 1];
      assert forall i :: 0 <= i < |init| ==> init[i] == dirs[i];
      LoadedByName(init, name);
      NamedConcat(AllLoaded(init), Loaded(last), name);
      assert Named(Loaded(last), name) == if last.name == name then Loaded(last) else [];
      if last.name == name {
        assert forall i :: 0 <= i < |init| ==> init[i].name != name;
        assert [] + Loaded(last) == Loaded(last);
      }
    }
  }

  /** Discovery does not depend on the order in which the directory is read. */
  lemma {:induction false} DiscoveryIsDeterministic(dirs: seq<Dir>, dirs': seq<Dir>)
    requires DistinctDirs(dirs) && DistinctDirs(dirs')
    requires forall d :: d in dirs <==> d in dirs'
    ensures Discovered(dirs) == Discovered(dirs')
  {
    SortIsStable(AllLoaded(dirs));
    SortIsStable(AllLoaded(dirs'));
    forall name ensures Named(Discovered(dirs), name) == Named(Discovered(dirs'), name) {
      LoadedByName(dirs, name);
      LoadedByName(dirs', name);
      if i :| 0 <= i < |dirs| && dirs[i].name == name {
        assert dirs[i] in dirs';
      } else {
        forall j | 0 <= j < |dirs'| ensures dirs'[j].name != name {
          assert dirs'[j] in dirs;
        }
      }
    }
    StableSortIsUnique(Discovered(dirs), Discovered(dirs'));
  }

  // ---------------------------------------------------------------------------------------
  // Merging

  predicate HasName(s: seq<Agent>, name: string) {
    exists i :: 0 <= i < |s| && s[i].name == name
  }

  /** The agents whose names are not taken. */
  function Without(s: seq<Agent>, taken: seq<Agent>): seq<Agent> {
    if s == [] then []
    else Without(s[..|s| - 1], taken) + if HasName(taken, s[|s| - 1].name) then [] else [s[|s| - 1]]
  }

  function Merged(toml: seq<Agent>, disk: seq<Agent>): seq<Agent> {
    if disk == [] then toml else Sort(Without(toml, disk) + disk)
  }

  datatype Warning = DiscoveryFailed | Replaced(name: string)

  /** One warning for each agent of the config that the disk replaces, in the config's order. */
  function Overlaps(toml: seq<Agent>, disk: seq<Agent>): (r: seq<Warning>)
    ensures disk == [] ==> r == []
  {
    if toml == [] then []
    else
      var last := toml[|toml| - 1];
      Overlaps(toml[..|toml| - 1], disk) + if HasName(disk, last.name) then [Replaced(last.name)] else []
  }

  class Config {
    var agents: seq<Agent>

    constructor (agents: seq<Agent>)
      ensures this.agents == agents
    {
      this.agents := agents;
    }

    method DiscoverAndMergeAgents(listing: Listing) returns (warnings: seq<Warning>)
      modifies this
      ensures listing.Unreadable? ==> agents == old(agents) && warnings == [DiscoveryFailed]
      ensures listing.Listed? ==>
                && agents == Merged(old(agents), Discovered(listing.dirs))
                && warnings == Overlaps(old(agents), Discovered(listing.dirs))
    {
      var found := DiscoverAgents(listing);
      if found.None? {
        return [DiscoveryFailed];
      }
      var disk := found.value;
      if disk == [] {
        return [];
      }
      warnings := [];
      for i := 0 to |agents|
        invariant agents == old(agents) && warnings == Overlaps(agents[..i], disk)
      {
        assert agents[..i + 1][..i] == agents[..i];
        if HasName(disk, agents[i].name) {
          warnings := warnings + [Replaced(agents[i].name)];
        }
      }
      var merged: seq<Agent> := [];
      for i := 0 to |agents|
        invariant agents == old(agents) && merged == Without(agents[..i], disk)
      {
        assert agents[..i + 1][..i] == agents[..i];
        if !HasName(disk, agents[i].name) {
          merged := merged + [agents[i]];
        }
      }
      assert agents[..|agents|] == agents;
      agents := Sort(merged + disk);
    }
  }

  /** A name is warned about exactly when both sides have it. */
  lemma {:induction false} WarnedIff(toml: seq<Agent>, disk: seq<Agent>, name: string)
    ensures Replaced(name) in Overlaps(toml, disk) <==> HasName(toml, name) && HasName(disk, name)
  {
    if toml != [] {
      var init, last := toml[..|toml| - 1], toml[|toml| - 1];
      WarnedIff(init, disk, name);
      assert HasName(toml, name) <==> HasName(init, name) || last.name == name by {
        if HasName(init, name) {
          var i :| 0 <= i < |init| && init[i].name == name;
          assert toml[i].name == name;
        }
        if HasName(toml, name) && last.name != name {
          var i :| 0 <= i < |toml| && toml[i].name == name;
          assert init[i].name == name;
        }
      }
    }
  }

  /** Warnings come in the order of the config's agents. */
  lemma {:induction false} WarningsAreInOrder(a: seq<Agent>, b: seq<Agent>, disk: seq<Agent>)
    ensures Overlaps(a + b, disk) == Overlaps(a, disk) + Overlaps(b, disk)
    ensures |a| == 1 ==> Overlaps(a, disk) == if HasName(disk, a[0].name) then [Replaced(a[0].name)] else []
    decreases |b|
  {
    assert |a| == 1 ==> a[..0] == [];
    if b == [] {
      assert a + b == a;
    } else {
      assert (a + b)[..|a + b| - 1] == a + b[..|b| - 1];
      WarningsAreInOrder(a, b[..|b| - 1], disk);
    }
  }

  lemma {:induction false} NamedWithout(s: seq<Agent>, taken: seq<Agent>, name: string)
    ensures Named(Without(s, taken), name) == if HasName(taken, name) then [] else Named(s, name)
  {
    if s != [] {
      var init, last := s[..|s| - 1], s[|s| - 1];
      NamedWithout(init, taken, name);
      NamedConcat(Without(init, taken), if HasName(taken, last.name) then [] else [last], name);
      NamedConcat(init, [last], name);
      assert s == init + [last];
    }
  }

  lemma {:induction false} NoneNamed(s: seq<Agent>, name: string)
    ensures HasName(s, name) <==> Named(s, name) != []
  {
    if HasName(s, name) {
      var i :| 0 <= i < |s| && s[i].name == name;
      NamedHas(s, i);
    }
    if Named(s, name) != [] {
      var i := NamedFrom(s, name);
    }
  }

  /** Every name keeps its agents: the disk's where the disk has the name, the config's
      elsewhere, in their order. */
  lemma {:induction false} MergedByName(toml: seq<Agent>, disk: seq<Agent>, name: string)
    ensures Named(Merged(toml, disk), name) == if HasName(disk, name) then Named(disk, name) else Named(toml, name)
  {
    if disk != [] {
      SortIsStable(Without(toml, disk) + disk);
      NamedConcat(Without(toml, disk), disk, name);
      NamedWithout(toml, disk, name);
      NoneNamed(disk, name);
      assert !HasName(disk, name) ==> Named(toml, name) + [] == Named(toml, name);
    }
  }

  /** Lookup by name, as `agent` does it. */
  function Lookup(s: seq<Agent>, name: string): (r: Option<Agent>)
    ensures r.Some? ==> exists i :: 0 <= i < |s| && s[i] == r.value && r.value.name == name
                                    && forall j :: 0 <= j < i ==> s[j].name != name
    ensures r.None? ==> !HasName(s, name)
  {
    if s == [] then None
    else if s[0].name == name then
      assert s[0] == s[0];
      Some(s[0])
    else
      var r := Lookup(s[1..], name);
      assert r.Some? ==> exists i :: 1 <= i < |s| && s[i] == r.value && forall j :: 0 <= j < i ==> s[j].name != name by {
        if r.Some? {
          var i :| 0 <= i < |s[1..]| && s[1..][i] == r.value && forall j :: 0 <= j < i ==> s[1..][j].name != name;
          assert s[i + 1] == r.value && forall j :: 1 <= j < i + 1 ==> s[j] == s[1..][j - 1];
        }
      }
      assert r.None? ==> forall i :: 1 <= i < |s| ==> s[i] == s[1..][i - 1];
      r
  }

  lemma {:induction false} LookupIsFirstNamed(s: seq<Agent>, name: string)
    ensures Lookup(s, name) == if Named(s, name) == [] then None else Some(Named(s, name)[0])
  {
    if s != [] {
      LookupIsFirstNamed(s[1..], name);
    }
  }

  ghost predicate DistinctNames(s: seq<Agent>) {
    forall name :: |Named(s, name)| <= 1
  }

  /** Disk over TOML: the merged list is sorted, looks up like an override, keeps every agent of
      the config that the disk does not replace, and has no duplicates the inputs did not have. */
  lemma {:induction false} MergeIsOverride(toml: seq<Agent>, disk: seq<Agent>)
    ensures disk != [] ==> Sorted(Merged(toml, disk))
    ensures forall name :: Lookup(Merged(toml, disk), name) ==
              if Lookup(disk, name).Some? then Lookup(disk, name) else Lookup(toml, name)
    ensures forall name :: !HasName(disk, name) ==> Named(Merged(toml, disk), name) == Named(toml, name)
    ensures DistinctNames(toml) && DistinctNames(disk) ==> DistinctNames(Merged(toml, disk))
  {
    if disk != [] {
      SortIsStable(Without(toml, disk) + disk);
    }
    forall name
      ensures Lookup(Merged(toml, disk), name) ==
                if Lookup(disk, name).Some? then Lookup(disk, name) else Lookup(toml, name)
      ensures !HasName(disk, name) ==> Named(Merged(toml, disk), name) == Named(toml, name)
      ensures DistinctNames(toml) && DistinctNames(disk) ==> |Named(Merged(toml, disk), name)| <= 1
    {
      MergedByName(toml, disk, name);
      NoneNamed(disk, name);
      LookupIsFirstNamed(toml, name);
      LookupIsFirstNamed(disk, name);
      LookupIsFirstNamed(Merged(toml, disk), name);
    }
  }

  /** Discovery yields each name once, since a directory lists each name once. */
  lemma {:induction false} DiscoveredNamesAreDistinct(dirs: seq<Dir>)
    requires DistinctDirs(dirs)
    ensures DistinctNames(Discovered(dirs))
  {
    SortIsStable(AllLoaded(dirs));
    forall name ensures |Named(Discovered(dirs), name)| <= 1 {
      LoadedByName(dirs, name);
      if i :| 0 <= i < |dirs| && dirs[i].name == name {
        assert Named(AllLoaded(dirs), name) == Loaded(dirs[i]);
      }
    }
  }

  /** Names stay pairwise distinct whenever those of the config were. */
  lemma {:induction false} MergedNamesAreDistinct(toml: seq<Agent>, dirs: seq<Dir>)
    requires DistinctNames(toml) && DistinctDirs(dirs)
    ensures DistinctNames(Merged(toml, Discovered(dirs)))
  {
    DiscoveredNamesAreDistinct(dirs);
    MergeIsOverride(toml, Discovered(dirs));
  }

  /** Merging the same disk agents again changes nothing. */
  lemma {:induction false} MergeIsIdempotent(toml: seq<Agent>, disk: seq<Agent>)
    ensures Merged(Merged(toml, disk), disk) == Merged(toml, disk)
  {
    if disk != [] {
      var once := Merged(toml, disk);
      SortIsStable(Without(toml, disk) + disk);
      SortIsStable(Without(once, disk) + disk);
      forall name ensures Named(Merged(once, disk), name) == Named(once, name) {
        MergedByName(toml, disk, name);
        MergedByName(once, disk, name);
      }
      StableSortIsUnique(Merged(once, disk), once);
    }
  }
}
