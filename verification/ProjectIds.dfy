/** Stable project ids: assigned once per project name and kept in a file across config loads. */
module ProjectIds {
  import opened Options

  datatype Project = Project(id: Option<string>, name: string)

  type Ids = map<string, string>

  /** `project_ids.json`. */
  datatype File = Absent | Corrupt | Stored(ids: Ids)

  datatype Error = Unreadable | WriteFailed

  /** The n-th identifier the generator hands out. */
  type Generator = nat -> string

  function IdsIn(file: File): Ids {
    if file.Stored? then file.ids else map[]
  }

  /** The projects with ids, the map and the number of identifiers drawn so far. */
  datatype Assignment = Assignment(projects: seq<Project>, ids: Ids, drawn: nat)

  function AssignOne(p: Project, ids: Ids, drawn: nat, uuid: Generator): Assignment {
    if p.id.Some? then Assignment([p], ids, drawn)
    else if p.name in ids then Assignment([p.(id := Some(ids[p.name]))], ids, drawn)
    else Assignment([p.(id := Some(uuid(drawn)))], ids[p.name := uuid(drawn)], drawn + 1)
  }

  function Assign(ps: seq<Project>, ids: Ids, drawn: nat, uuid: Generator): Assignment {
    if ps == [] then Assignment([], ids, drawn)
    else
      var before := Assign(ps[..|ps| - 1], ids, drawn, uuid);
      var one := AssignOne(ps[|ps| - 1], before.ids, before.drawn, uuid);
      Assignment(before.projects + one.projects, one.ids, one.drawn)
  }

  class Config {
    var projects: seq<Project>

    constructor (projects: seq<Project>)
      ensures this.projects == projects
    {
      this.projects := projects;
    }

    /** One load against the id file. Writing may fail; the ids given out stay in memory then. */
    method EnsureProjectIds(file: File, drawn: nat, uuid: Generator, writable: bool)
      returns (r: Result<bool, Error>, file': File, drawn': nat)
      modifies this
      ensures Load(old(projects), file, drawn, uuid, writable) == Loaded(projects, r, file', drawn')
    {
      if file.Corrupt? {
        return Err(Unreadable), file, drawn;
      }
      var ids, changed := IdsIn(file), false;
      drawn' := drawn;
      var done: seq<Project> := [];
      for i := 0 to |projects|
        invariant projects == old(projects)
        invariant Assign(projects[..i], IdsIn(file), drawn, uuid) == Assignment(done, ids, drawn')
        invariant changed <==> drawn' > drawn
        invariant drawn' >= drawn
      {
        assert projects[..i + 1][..i] == projects[..i];
        var p := projects[i];
        if p.id.None? {
          if p.name !in ids {
            ids := ids[p.name := uuid(drawn')];
            drawn' := drawn' + 1;
            changed := true;
          }
          p := p.(id := Some(ids[p.name]));
        }
        done := done + [p];
      }
      assert projects[..|projects|] == projects;
      projects := done;
      if changed {
        if !writable {
          return Err(WriteFailed), file, drawn';
        }
        return Ok(true), Stored(ids), drawn';
      }
      return Ok(false), file, drawn';
    }
  }

  // ---------------------------------------------------------------------------------------
  // One load

  /** `r` tells whether the file was written. */
  datatype LoadResult = Loaded(projects: seq<Project>, r: Result<bool, Error>, file: File, drawn: nat)

  function Load(ps: seq<Project>, file: File, drawn: nat, uuid: Generator, writable: bool): LoadResult {
    if file.Corrupt? then Loaded(ps, Err(Unreadable), file, drawn)
    else
      var a := Assign(ps, IdsIn(file), drawn, uuid);
      if a.drawn == drawn then Loaded(a.projects, Ok(false), file, a.drawn)
      else if writable then Loaded(a.projects, Ok(true), Stored(a.ids), a.drawn)
      else Loaded(a.projects, Err(WriteFailed), file, a.drawn)
  }

  ghost predicate Extends(later: Ids, earlier: Ids) {
    forall name :: name in earlier ==> name in later && later[name] == earlier[name]
  }

  lemma {:induction false} AssignOneKeeps(p: Project, ids: Ids, drawn: nat, uuid: Generator)
    ensures var a := AssignOne(p, ids, drawn, uuid);
            && Extends(a.ids, ids) && |a.projects| == 1 && drawn <= a.drawn <= drawn + 1
            && |a.ids| == |ids| + (a.drawn - drawn)
            && a.projects[0].name == p.name
            && (p.id.Some? ==> a.projects[0] == p)
            && (p.id.None? ==> p.name in a.ids && a.projects[0].id == Some(a.ids[p.name]))
  {
  }

  /** Assignment never changes an id, adds only names without one, and gives every project
      without an explicit id the id of its name. */
  lemma {:induction false} AssignKeeps(ps: seq<Project>, ids: Ids, drawn: nat, uuid: Generator)
    ensures var a := Assign(ps, ids, drawn, uuid);
            && Extends(a.ids, ids) && |a.projects| == |ps| && a.drawn >= drawn
            && |a.ids| == |ids| + (a.drawn - drawn)
            && (a.drawn == drawn ==> a.ids == ids)
            && forall i :: 0 <= i < |ps| ==>
                 && a.projects[i].name == ps[i].name
                 && (ps[i].id.Some? ==> a.projects[i] == ps[i])
                 && (ps[i].id.None? ==> ps[i].name in a.ids && a.projects[i].id == Some(a.ids[ps[i].name]))
  {
    if ps != [] {
      var init, last := ps[..|ps| - 1], ps[|ps| - 1];
      AssignKeeps(init, ids, drawn, uuid);
      var before := Assign(init, ids, drawn, uuid);
      AssignOneKeeps(last, before.ids, before.drawn, uuid);
      assert forall i :: 0 <= i < |init| ==> init[i] == ps[i];
    }
  }

  /** Some project needs an id that is not on file. */
  ghost predicate Missing(ps: seq<Project>, file: File) {
    exists i :: 0 <= i < |ps| && ps[i].id.None? && ps[i].name !in IdsIn(file)
  }

  lemma {:induction false} NothingMissing(ps: seq<Project>, ids: Ids, drawn: nat, uuid: Generator)
    requires forall i :: 0 <= i < |ps| && ps[i].id.None? ==> ps[i].name in ids
    ensures Assign(ps, ids, drawn, uuid).drawn == drawn && Assign(ps, ids, drawn, uuid).ids == ids
  {
    if ps != [] {
      var init := ps[..|ps| - 1];
      assert forall i :: 0 <= i < |init| ==> init[i] == ps[i];
      NothingMissing(init, ids, drawn, uuid);
    }
  }

  /** The file is written exactly when the map grew, and what was stored is never altered. */
  lemma {:induction false} LoadKeepsIds(ps: seq<Project>, file: File, drawn: nat, uuid: Generator, writable: bool)
    ensures var l := Load(ps, file, drawn, uuid, writable);
            && Extends(IdsIn(l.file), IdsIn(file))
            && (l.r == Err(Unreadable) <==> file.Corrupt?)
            && (l.r == Err(WriteFailed) <==> !file.Corrupt? && !writable && Missing(ps, file))
            && (l.r == Ok(true) <==> !file.Corrupt? && writable && Missing(ps, file))
            && (l.r == Ok(true) <==> |IdsIn(l.file)| > |IdsIn(file)|)
            && (l.r != Ok(true) ==> l.file == file)
            && (l.r.Ok? ==> forall i :: 0 <= i < |ps| && ps[i].id.None? ==>
                  |l.projects| == |ps| && ps[i].name in IdsIn(l.file)
                  && l.projects[i].id == Some(IdsIn(l.file)[ps[i].name]))
  {
    AssignKeeps(ps, IdsIn(file), drawn, uuid);
    if !Missing(ps, file) {
      NothingMissing(ps, IdsIn(file), drawn, uuid);
    }
  }

  // ---------------------------------------------------------------------------------------
  // Any sequence of loads

  datatype Attempt = Attempt(projects: seq<Project>, writable: bool)

  datatype Store = Store(file: File, drawn: nat)

  function Next(s: Store, a: Attempt, uuid: Generator): Store {
    var l := Load(a.projects, s.file, s.drawn, uuid, a.writable);
    Store(l.file, l.drawn)
  }

  function After(s: Store, loads: seq<Attempt>, uuid: Generator): Store {
    if loads == [] then s else Next(After(s, loads[..|loads| - 1], uuid), loads[|loads| - 1], uuid)
  }

  /** Over any loads, failed or not, the stored map only grows and no stored id changes. */
  lemma {:induction false} StoredIdsAreStable(s: Store, loads: seq<Attempt>, n: nat, uuid: Generator)
    requires n <= |loads|
    ensures Extends(IdsIn(After(s, loads, uuid).file), IdsIn(After(s, loads[..n], uuid).file))
    decreases |loads|
  {
    if n == |loads| {
      assert loads[..n] == loads;
    } else {
      var init, last := loads[..|loads| - 1], loads[|loads| - 1];
      StoredIdsAreStable(s, init, n, uuid);
      assert init[..n] == loads[..n];
      var before := After(s, init, uuid);
      LoadKeepsIds(last.projects, before.file, before.drawn, uuid, last.writable);
    }
  }

  /** What the k-th load of a sequence gives out. */
  function LoadAt(s: Store, loads: seq<Attempt>, k: nat, uuid: Generator): LoadResult
    requires k < |loads|
  {
    var before := After(s, loads[..k], uuid);
    Load(loads[k].projects, before.file, before.drawn, uuid, loads[k].writable)
  }

  /** Whether a load against `file` keeps the id it gives to `name`. */
  predicate Keeps(file: File, writable: bool, name: string) {
    !file.Corrupt? && (writable || name in IdsIn(file))
  }

  predicate IsStored(file: File, name: string, id: Option<string>) {
    name in IdsIn(file) && id == Some(IdsIn(file)[name])
  }

  /** The id a project without an explicit one gets is the stored one afterwards exactly when the
      file could be read and either could be written or had the name already. */
  lemma {:induction false} GivenIdIsStoredIff(
    ps: seq<Project>, file: File, drawn: nat, uuid: Generator, writable: bool, i: nat)
    requires i < |ps| && ps[i].id.None?
    ensures var l := Load(ps, file, drawn, uuid, writable);
            && |l.projects| == |ps|
            && (IsStored(l.file, ps[i].name, l.projects[i].id) <==> Keeps(file, writable, ps[i].name))
  {
    AssignKeeps(ps, IdsIn(file), drawn, uuid);
  }

  /** The ids a load adds are ones it has drawn. */
  lemma {:induction false} AssignDraws(ps: seq<Project>, ids: Ids, drawn: nat, uuid: Generator, name: string)
    ensures var a := Assign(ps, ids, drawn, uuid);
            && drawn <= a.drawn
            && (name in a.ids && name !in ids ==> Drawn(a.ids[name], drawn, a.drawn, uuid))
            && (name in ids ==> name in a.ids)
  {
    if ps != [] {
      var init, last := ps[..|ps| - 1], ps[|ps| - 1];
      AssignDraws(init, ids, drawn, uuid, name);
      var before := Assign(init, ids, drawn, uuid);
      assert Drawn(uuid(before.drawn), drawn, before.drawn + 1, uuid);
    }
  }

  ghost predicate Drawn(id: string, from: nat, to: nat, uuid: Generator) {
    exists n: nat :: from <= n < to && id == uuid(n)
  }

  ghost predicate NoRepeats(uuid: Generator) {
    forall m: nat, n: nat :: uuid(m) == uuid(n) ==> m == n
  }

  /** A name that is not on file and comes to be is given an identifier drawn meanwhile. */
  lemma {:induction false} LoadsDraw(s: Store, loads: seq<Attempt>, uuid: Generator, name: string)
    requires name !in IdsIn(s.file)
    ensures var s' := After(s, loads, uuid);
            && s.drawn <= s'.drawn
            && (name in IdsIn(s'.file) ==> Drawn(IdsIn(s'.file)[name], s.drawn, s'.drawn, uuid))
    decreases |loads|
  {
    if loads != [] {
      var init, last := loads[..|loads| - 1], loads[|loads| - 1];
      LoadsDraw(s, init, uuid, name);
      var before := After(s, init, uuid);
      AssignKeeps(last.projects, IdsIn(before.file), before.drawn, uuid);
      AssignDraws(last.projects, IdsIn(before.file), before.drawn, uuid, name);
    }
  }

  lemma {:induction false} AfterSplits(s: Store, loads: seq<Attempt>, n: nat, uuid: Generator)
    requires n <= |loads|
    ensures After(s, loads, uuid) == After(After(s, loads[..n], uuid), loads[n..], uuid)
    decreases |loads|
  {
    if n == |loads| {
      assert loads[..n] == loads && loads[n..] == [];
    } else {
      var init := loads[..|loads| - 1];
      AfterSplits(s, init, n, uuid);
      assert init[..n] == loads[..n] && loads[n..][..|loads[n..]| - 1] == init[n..];
    }
  }

  lemma {:induction false} CorruptStays(s: Store, loads: seq<Attempt>, uuid: Generator)
    ensures After(s, loads, uuid).file.Corrupt? <==> s.file.Corrupt?
  {
    if loads != [] {
      CorruptStays(s, loads[..|loads| - 1], uuid);
    }
  }

  /** What one load of a sequence gives to a project without an explicit id: nothing from a
      corrupt file, the stored id when the load keeps it, and otherwise an identifier drawn by
      this very load. */
  lemma {:induction false} GivenAt(s: Store, loads: seq<Attempt>, k: nat, i: nat, uuid: Generator)
    requires k < |loads| && i < |loads[k].projects| && loads[k].projects[i].id.None?
    ensures var p, before, next := loads[k].projects[i], After(s, loads[..k], uuid), After(s, loads[..k + 1], uuid);
            var l := LoadAt(s, loads, k, uuid);
            && |l.projects| == |loads[k].projects| && before.drawn <= next.drawn
            && (before.file.Corrupt? ==> l.projects[i].id == None)
            && (Keeps(before.file, loads[k].writable, p.name) ==> IsStored(next.file, p.name, l.projects[i].id))
            && (!before.file.Corrupt? && !Keeps(before.file, loads[k].writable, p.name) ==>
                  && p.name !in IdsIn(next.file)
                  && l.projects[i].id.Some? && Drawn(l.projects[i].id.value, before.drawn, next.drawn, uuid))
  {
    var p, before := loads[k].projects[i], After(s, loads[..k], uuid);
    assert loads[..k + 1][..k] == loads[..k];
    GivenIdIsStoredIff(loads[k].projects, before.file, before.drawn, uuid, loads[k].writable, i);
    AssignKeeps(loads[k].projects, IdsIn(before.file), before.drawn, uuid);
    AssignDraws(loads[k].projects, IdsIn(before.file), before.drawn, uuid, p.name);
  }

  /** Two projects of the same name without explicit ids get the same id in one load, and in two
      loads of which the first keeps the id it gives. */
  lemma {:induction false} SameNameSameId(s: Store, loads: seq<Attempt>, k: nat, i: nat, l: nat, j: nat, uuid: Generator)
    requires k <= l < |loads| && i < |loads[k].projects| && j < |loads[l].projects|
    requires loads[k].projects[i].id.None? && loads[l].projects[j].id.None?
    requires loads[k].projects[i].name == loads[l].projects[j].name
    ensures |LoadAt(s, loads, k, uuid).projects| == |loads[k].projects|
    ensures |LoadAt(s, loads, l, uuid).projects| == |loads[l].projects|
    ensures s.file.Corrupt? || k == l
            || Keeps(After(s, loads[..k], uuid).file, loads[k].writable, loads[k].projects[i].name) ==>
              LoadAt(s, loads, k, uuid).projects[i].id == LoadAt(s, loads, l, uuid).projects[j].id
  {
    GivenAt(s, loads, k, i, uuid);
    GivenAt(s, loads, l, j, uuid);
    CorruptStays(s, loads[..k], uuid);
    CorruptStays(s, loads[..l], uuid);
    if k == l {
      SameLoadSameId(s, loads, k, i, j, uuid);
    } else if Keeps(After(s, loads[..k], uuid).file, loads[k].writable, loads[k].projects[i].name) {
      StoredIdsAreStable(s, loads[..l], k + 1, uuid);
      StoredIdsAreStable(s, loads[..l + 1], l, uuid);
      assert loads[..l][..k + 1] == loads[..k + 1] && loads[..l + 1][..l] == loads[..l];
    }
  }

  lemma {:induction false} SameLoadSameId(s: Store, loads: seq<Attempt>, k: nat, i: nat, j: nat, uuid: Generator)
    requires k < |loads| && i < |loads[k].projects| && j < |loads[k].projects|
    requires loads[k].projects[i].id.None? && loads[k].projects[j].id.None?
    requires loads[k].projects[i].name == loads[k].projects[j].name
    ensures |LoadAt(s, loads, k, uuid).projects| == |loads[k].projects|
    ensures LoadAt(s, loads, k, uuid).projects[i].id == LoadAt(s, loads, k, uuid).projects[j].id
  {
    var before := After(s, loads[..k], uuid);
    AssignKeeps(loads[k].projects, IdsIn(before.file), before.drawn, uuid);
  }

  /** And only then: with a generator that does not repeat itself, an id the first load does not
      keep is never given to that name again. */
  lemma {:induction false} SameNameSameIdIff(s: Store, loads: seq<Attempt>, k: nat, i: nat, l: nat, j: nat, uuid: Generator)
    requires k <= l < |loads| && i < |loads[k].projects| && j < |loads[l].projects|
    requires loads[k].projects[i].id.None? && loads[l].projects[j].id.None?
    requires loads[k].projects[i].name == loads[l].projects[j].name
    requires NoRepeats(uuid)
    ensures |LoadAt(s, loads, k, uuid).projects| == |loads[k].projects|
    ensures |LoadAt(s, loads, l, uuid).projects| == |loads[l].projects|
    ensures LoadAt(s, loads, k, uuid).projects[i].id == LoadAt(s, loads, l, uuid).projects[j].id <==>
              || s.file.Corrupt? || k == l
              || Keeps(After(s, loads[..k], uuid).file, loads[k].writable, loads[k].projects[i].name)
  {
    SameNameSameId(s, loads, k, i, l, j, uuid);
    if !s.file.Corrupt? && k < l
       && !Keeps(After(s, loads[..k], uuid).file, loads[k].writable, loads[k].projects[i].name) {
      ForgottenId(s, loads, k, i, l, j, uuid);
    }
  }

  lemma {:induction false} ForgottenId(s: Store, loads: seq<Attempt>, k: nat, i: nat, l: nat, j: nat, uuid: Generator)
    requires k < l < |loads| && i < |loads[k].projects| && j < |loads[l].projects|
    requires loads[k].projects[i].id.None? && loads[l].projects[j].id.None?
    requires loads[k].projects[i].name == loads[l].projects[j].name
    requires NoRepeats(uuid) && !s.file.Corrupt?
    requires !Keeps(After(s, loads[..k], uuid).file, loads[k].writable, loads[k].projects[i].name)
    ensures |LoadAt(s, loads, k, uuid).projects| == |loads[k].projects|
    ensures |LoadAt(s, loads, l, uuid).projects| == |loads[l].projects|
    ensures LoadAt(s, loads, k, uuid).projects[i].id != LoadAt(s, loads, l, uuid).projects[j].id
  {
    var name, next := loads[k].projects[i].name, After(s, loads[..k + 1], uuid);
    CorruptStays(s, loads[..k], uuid);
    GivenAt(s, loads, k, i, uuid);
    LaterId(s, loads, k + 1, l, j, uuid);
    var first, second := LoadAt(s, loads, k, uuid).projects[i].id, LoadAt(s, loads, l, uuid).projects[j].id;
    var m: nat :| After(s, loads[..k], uuid).drawn <= m < next.drawn && first.value == uuid(m);
    var n: nat :| next.drawn <= n < After(s, loads[..l + 1], uuid).drawn && second.value == uuid(n);
  }

  /** A name that is not on file before load `k` gets, at load `l`, an identifier drawn since. */
  lemma {:induction false} LaterId(s: Store, loads: seq<Attempt>, k: nat, l: nat, j: nat, uuid: Generator)
    requires k <= l < |loads| && j < |loads[l].projects| && loads[l].projects[j].id.None?
    requires !s.file.Corrupt? && loads[l].projects[j].name !in IdsIn(After(s, loads[..k], uuid).file)
    ensures |LoadAt(s, loads, l, uuid).projects| == |loads[l].projects|
    ensures var id := LoadAt(s, loads, l, uuid).projects[j].id;
            id.Some? && Drawn(id.value, After(s, loads[..k], uuid).drawn, After(s, loads[..l + 1], uuid).drawn, uuid)
  {
    var name, from := loads[l].projects[j].name, After(s, loads[..k], uuid);
    CorruptStays(s, loads[..l], uuid);
    GivenAt(s, loads, l, j, uuid);
    LoadsDraw(from, loads[..l + 1][k..], uuid, name);
    AfterSplits(s, loads[..l + 1], k, uuid);
    assert loads[..l + 1][..k] == loads[..k];
    LoadsDraw(from, loads[..l][k..], uuid, name);
    AfterSplits(s, loads[..l], k, uuid);
    assert loads[..l][..k] == loads[..k];
  }

  /** Success matters: when the write fails, the caller keeps going with an id that is not
      stored, and the next load gives the same name another one. */
  lemma {:induction false} FailedWriteForgets(name: string, uuid: Generator)
    requires uuid(0) != uuid(1)
    ensures var p := Project(None, name);
            var loads := [Attempt([p], false), Attempt([p], true)];
            var first, second := LoadAt(Store(Absent, 0), loads, 0, uuid), LoadAt(Store(Absent, 0), loads, 1, uuid);
            && first.r == Err(WriteFailed) && |first.projects| == 1 && |second.projects| == 1
            && first.projects[0].id != second.projects[0].id
  {
    var p := Project(None, name);
    var loads := [Attempt([p], false), Attempt([p], true)];
    assert [p][..0] == [] && loads[..0] == [] && loads[..1] == [loads[0]];
    assert Assign([p][..0], map[], 0, uuid) == Assignment([], map[], 0);
    assert Assign([p][..0], map[], 1, uuid) == Assignment([], map[], 1);
    assert [loads[0]][..0] == [];
    assert After(Store(Absent, 0), loads[..1], uuid) == Store(Absent, 1);
  }
}
