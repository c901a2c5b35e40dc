/** Merging the tags of a snapshot database into the live one. */
module TagRecovery {
  import opened Options

  datatype MatchMode = ByName | ById

  datatype Idea = Idea(id: string, name: string, active: bool, createdAt: nat)

  /** A database: idea rows in scan order, and the (idea, tag) relation. */
  datatype Db = Db(ideas: seq<Idea>, tags: set<(string, string)>)

  datatype Summary = Summary(
    snapshotIdeas: nat, liveIdeas: nat, matched: nat, unmatched: nat, added: nat, alreadyPresent: nat)

  datatype Refusal = SnapshotBiggerThanLive

  // ---------------------------------------------------------------------------------------
  // Harvesting the snapshot

  /** The tags of the rows for one key, in row order. */
  function TagsOf(rows: seq<(string, string)>, key: string): seq<string> {
    if rows == [] then []
    else
      var last := rows[|rows| - 1];
      TagsOf(rows[..|rows| - 1], key) + if last.0 == key then [last.1] else []
  }

  type Harvest = map<string, seq<string>>

  function Grouped(rows: seq<(string, string)>): Harvest {
    if rows == [] then map[] else Group(Grouped(rows[..|rows| - 1]), rows[|rows| - 1])
  }

  function Group(h: Harvest, row: (string, string)): Harvest {
    h[row.0 := (if row.0 in h then h[row.0] else []) + [row.1]]
  }

  /** Exactly the keys that occur, each with all its tags in row order. */
  lemma {:induction false} GroupedTags(rows: seq<(string, string)>, key: string)
    ensures key in Grouped(rows) <==> exists i :: 0 <= i < |rows| && rows[i].0 == key
    ensures key in Grouped(rows) ==> Grouped(rows)[key] == TagsOf(rows, key) != []
    ensures key !in Grouped(rows) ==> TagsOf(rows, key) == []
  {
    if rows != [] {
      var init := rows[..|rows| - 1];
      GroupedTags(init, key);
      assert forall i :: 0 <= i < |init| ==> init[i] == rows[i];
    }
  }

  /** Group joined (key, tag) rows by key. */
  method HarvestSnapshotTags(rows: seq<(string, string)>) returns (count: nat, tags: Harvest)
    ensures tags == Grouped(rows) && count == |tags|
  {
    tags := map[];
    for n := 0 to |rows|
      invariant tags == Grouped(rows[..n])
    {
      assert rows[..n + 1][..n] == rows[..n];
      var (key, tag) := rows[n];
      assert [] + [tag] == [tag];
      if key in tags {
        tags := tags[key := tags[key] + [tag]];
      } else {
        tags := tags[key := [tag]];
      }
    }
    assert rows[..|rows|] == rows;
    count := |tags|;
  }

  // ---------------------------------------------------------------------------------------
  // Resolving a key to a live idea

  /** Active rows come first, then newer ones. */
  predicate Before(a: Idea, b: Idea) {
    (a.active && !b.active) || (a.active == b.active && a.createdAt > b.createdAt)
  }

  predicate Matches(idea: Idea, mode: MatchMode, key: string) {
    if mode == ById then idea.id == key else idea.name == key
  }

  /** The preferred matching row; the earliest in scan order among equals. */
  function Best(ideas: seq<Idea>, mode: MatchMode, key: string): (r: Option<Idea>)
    ensures r.Some? ==> r.value in ideas && Matches(r.value, mode, key)
                        && forall b :: b in ideas && Matches(b, mode, key) ==> !Before(b, r.value)
    ensures r.None? ==> forall b :: b in ideas ==> !Matches(b, mode, key)
  {
    if ideas == [] then None
    else
      var init, last := ideas[..|ideas| - 1], ideas[|ideas| - 1];
      assert forall b :: b in ideas <==> b in init || b == last;
      var r := Best(init, mode, key);
      if !Matches(last, mode, key) then r
      else if r.None? || Before(last, r.value) then Some(last) else r
  }

  function Resolve(live: Db, mode: MatchMode, key: string): Option<string> {
    match Best(live.ideas, mode, key)
    case Some(idea) => Some(idea.id)
    case None => None
  }

  /** Matching by id is an existence check. */
  lemma {:induction false} ResolveById(live: Db, key: string)
    ensures Resolve(live, ById, key) ==
              if exists i :: 0 <= i < |live.ideas| && live.ideas[i].id == key then Some(key) else None
  {
    if i :| 0 <= i < |live.ideas| && live.ideas[i].id == key {
      assert live.ideas[i] in live.ideas;
    }
  }

  /** Matching by name finds an idea of that name if there is one: an active one if any is active,
      and among those the newest. */
  lemma {:induction false} ResolveByName(live: Db, key: string)
    ensures Resolve(live, ByName, key).None? <==> forall i :: 0 <= i < |live.ideas| ==> live.ideas[i].name != key
    ensures Resolve(live, ByName, key).Some? ==>
              exists best :: && best in live.ideas && best.name == key && best.id == Resolve(live, ByName, key).value
                             && forall other :: other in live.ideas && other.name == key ==>
                                  && (other.active ==> best.active)
                                  && (other.active == best.active ==> other.createdAt <= best.createdAt)
  {
    var best := Best(live.ideas, ByName, key);
    if best.Some? {
      forall other | other in live.ideas && other.name == key
        ensures (other.active ==> best.value.active)
                && (other.active == best.value.active ==> other.createdAt <= best.value.createdAt)
      {
        assert Matches(other, ByName, key) && !Before(other, best.value);
      }
    } else {
      forall i | 0 <= i < |live.ideas| ensures live.ideas[i].name != key {
        assert live.ideas[i] in live.ideas && !Matches(live.ideas[i], ByName, key);
      }
    }
  }

  // ---------------------------------------------------------------------------------------
  // What a merge amounts to, without any order

  /** The rows a snapshot contributes: every tag of every key that resolves. */
  ghost function Contribution(live: Db, mode: MatchMode, tags: Harvest): set<(string, string)> {
    set key, tag | key in tags && tag in tags[key] && Resolve(live, mode, key).Some? ::
      (Resolve(live, mode, key).value, tag)
  }

  ghost function MatchedKeys(live: Db, mode: MatchMode, tags: Harvest): set<string> {
    set key | key in tags && Resolve(live, mode, key).Some?
  }

  /** Tag occurrences over a set of keys. */
  ghost function Occurrences(tags: Harvest, keys: set<string>): nat
    requires keys <= tags.Keys
  {
    if keys == {} then 0
    else
      var k :| k in keys;
      |tags[k]| + Occurrences(tags, keys - {k})
  }

  lemma {:induction false} OccurrencesRemove(tags: Harvest, keys: set<string>, k: string)
    requires keys <= tags.Keys && k in keys
    ensures Occurrences(tags, keys) == |tags[k]| + Occurrences(tags, keys - {k})
    decreases keys
  {
    var c :| c in keys && Occurrences(tags, keys) == |tags[c]| + Occurrences(tags, keys - {c});
    if c != k {
      OccurrencesRemove(tags, keys - {c}, k);
      OccurrencesRemove(tags, keys - {k}, c);
      assert keys - {c} - {k} == keys - {k} - {c};
    }
  }

  ghost predicate IsSummary(s: Summary, live: Db, mode: MatchMode, tags: Harvest) {
    && s.snapshotIdeas == |tags|
    && s.liveIdeas == |live.ideas|
    && s.matched == |MatchedKeys(live, mode, tags)|
    && s.matched + s.unmatched == |tags|
    && s.added == |live.tags + Contribution(live, mode, tags)| - |live.tags|
    && s.added + s.alreadyPresent == Occurrences(tags, MatchedKeys(live, mode, tags))
  }

  /** The summary is determined by the databases: it does not depend on any iteration order. */
  lemma SummaryIsUnique(s: Summary, t: Summary, live: Db, mode: MatchMode, tags: Harvest)
    requires IsSummary(s, live, mode, tags) && IsSummary(t, live, mode, tags)
    ensures s == t
  {
  }

  // ---------------------------------------------------------------------------------------
  // The merge loop

  ghost function Rows(id: string, tags: seq<string>): set<(string, string)> {
    set tag | tag in tags :: (id, tag)
  }

  /** `INSERT OR IGNORE` of one idea's tags. */
  method InsertTags(table: set<(string, string)>, id: string, tags: seq<string>)
    returns (table': set<(string, string)>, added: nat, present: nat)
    ensures table' == table + Rows(id, tags)
    ensures added == |table'| - |table| && added + present == |tags|
  {
    table', added, present := table, 0, 0;
    for i := 0 to |tags|
      invariant table' == table + Rows(id, tags[..i])
      invariant added == |table'| - |table| && added + present == i
    {
      var row := (id, tags[i]);
      assert tags[..i + 1] == tags[..i] + [tags[i]];
      assert Rows(id, tags[..i + 1]) == Rows(id, tags[..i]) + {row};
      if row in table' {
        present := present + 1;
      } else {
        table' := table' + {row};
        added := added + 1;
      }
    }
    assert tags[..|tags|] == tags;
  }

  /** The running table and counters. */
  datatype Tally = Tally(table: set<(string, string)>, matched: nat, unmatched: nat, added: nat, present: nat)

  /** The running table and counters once the keys of `done` have been handled. */
  ghost predicate Progress(live: Db, mode: MatchMode, done: Harvest, t: Tally) {
    && t.table == live.tags + Contribution(live, mode, done)
    && t.added == |t.table| - |live.tags|
    && t.matched == |MatchedKeys(live, mode, done)|
    && t.matched + t.unmatched == |done|
    && t.added + t.present == Occurrences(done, MatchedKeys(live, mode, done))
  }

  /** One key of the snapshot: resolve it and insert its tags, or count it as unmatched. */
  method MergeOne(live: Db, mode: MatchMode, ghost done: Harvest, key: string, tags: seq<string>, t: Tally)
    returns (t': Tally)
    requires key !in done && Progress(live, mode, done, t)
    ensures Progress(live, mode, done[key := tags], t')
  {
    var id := Resolve(live, mode, key);
    if id.None? {
      t' := t.(unmatched := t.unmatched + 1);
      SkipKey(live, mode, done, key, tags, t);
    } else {
      var table, added, present := InsertTags(t.table, id.value, tags);
      t' := Tally(table, t.matched + 1, t.unmatched, t.added + added, t.present + present);
      MergeKey(live, mode, done, key, tags, t, t');
    }
  }

  /** The loop over the snapshot's keys, in whatever order the hash map yields them. */
  method MergeKeys(live: Db, mode: MatchMode, harvested: Harvest) returns (t: Tally)
    ensures Progress(live, mode, harvested, t)
  {
    t := Tally(live.tags, 0, 0, 0, 0);
    var todo := harvested.Keys;
    ghost var done: Harvest := map[];
    NothingDone(live, mode);
    while todo != {}
      invariant Remaining(harvested, done, todo)
      invariant Progress(live, mode, done, t)
      decreases todo
    {
      var key :| key in todo;
      TakeKey(harvested, done, todo, key);
      t := MergeOne(live, mode, done, key, harvested[key], t);
      todo := todo - {key};
      done := done[key := harvested[key]];
    }
    AllDone(harvested, done);
  }

  /** The whole merge: the guard against swapped databases, then the loop inside one
      transaction that a dry run rolls back. */
  method RecoverTagsMerge(live: Db, rows: seq<(string, string)>, mode: MatchMode, dryRun: bool)
    returns (r: Result<Summary, Refusal>, live': Db)
    ensures r.Err? <==> |Grouped(rows)| > |live.ideas| + |live.ideas| / 10
    ensures r.Err? || dryRun ==> live' == live
    ensures r.Ok? && !dryRun ==> live' == live.(tags := live.tags + Contribution(live, mode, Grouped(rows)))
    ensures r.Ok? ==> IsSummary(r.value, live, mode, Grouped(rows))
  {
    var count, harvested := HarvestSnapshotTags(rows);
    if count > |live.ideas| + |live.ideas| / 10 {
      return Err(SnapshotBiggerThanLive), live;
    }
    var t := MergeKeys(live, mode, harvested);
    r := Ok(Summary(count, |live.ideas|, t.matched, t.unmatched, t.added, t.present));
    live' := if dryRun then live else live.(tags := t.table);
  }

  ghost predicate Remaining(all: Harvest, done: Harvest, todo: set<string>) {
    todo <= all.Keys && done.Keys == all.Keys - todo && forall k :: k in done ==> done[k] == all[k]
  }

  lemma {:induction false} TakeKey(all: Harvest, done: Harvest, todo: set<string>, key: string)
    requires Remaining(all, done, todo) && key in todo
    ensures key in all && key !in done && Remaining(all, done[key := all[key]], todo - {key})
  {
  }

  lemma {:induction false} AllDone(all: Harvest, done: Harvest)
    requires Remaining(all, done, {})
    ensures done == all
  {
  }

  lemma {:induction false} NothingDone(live: Db, mode: MatchMode)
    ensures Progress(live, mode, map[], Tally(live.tags, 0, 0, 0, 0))
  {
    assert Contribution(live, mode, map[]) == {};
    assert MatchedKeys(live, mode, map[]) == {};
    assert live.tags + {} == live.tags;
  }

  /** A key without a live match contributes nothing. */
  lemma {:induction false} SkipKey(
    live: Db, mode: MatchMode, done: Harvest, key: string, tags: seq<string>, t: Tally)
    requires key !in done && Resolve(live, mode, key).None?
    requires Progress(live, mode, done, t)
    ensures Progress(live, mode, done[key := tags], t.(unmatched := t.unmatched + 1))
  {
    SkippedKey(live, mode, done, key, tags);
  }

  lemma {:induction false} SkippedKey(live: Db, mode: MatchMode, done: Harvest, key: string, tags: seq<string>)
    requires key !in done && Resolve(live, mode, key).None?
    ensures var next := done[key := tags];
            && |next| == |done| + 1
            && Contribution(live, mode, next) == Contribution(live, mode, done)
            && MatchedKeys(live, mode, next) == MatchedKeys(live, mode, done)
            && Occurrences(next, MatchedKeys(live, mode, next)) == Occurrences(done, MatchedKeys(live, mode, done))
  {
    var next := done[key := tags];
    assert next.Keys == done.Keys + {key};
    assert MatchedKeys(live, mode, next) == MatchedKeys(live, mode, done);
    OccurrencesAgree(done, next, MatchedKeys(live, mode, done));
  }

  /** A key with a live match contributes its tags to that idea. */
  lemma {:induction false} MergeKey(
    live: Db, mode: MatchMode, done: Harvest, key: string, tags: seq<string>, t: Tally, t': Tally)
    requires key !in done && Resolve(live, mode, key).Some?
    requires Progress(live, mode, done, t)
    requires t'.table == t.table + Rows(Resolve(live, mode, key).value, tags)
    requires t'.added - t.added == |t'.table| - |t.table|
    requires t'.matched == t.matched + 1 && t'.unmatched == t.unmatched
    requires t'.added + t'.present == t.added + t.present + |tags|
    ensures Progress(live, mode, done[key := tags], t')
  {
    MergedKey(live, mode, done, key, tags);
    UnionAssociates(live.tags, Contribution(live, mode, done), Rows(Resolve(live, mode, key).value, tags));
  }

  lemma {:induction false} UnionAssociates(a: set<(string, string)>, b: set<(string, string)>, c: set<(string, string)>)
    ensures a + b + c == a + (b + c)
  {
  }

  lemma {:induction false} MergedKey(live: Db, mode: MatchMode, done: Harvest, key: string, tags: seq<string>)
    requires key !in done && Resolve(live, mode, key).Some?
    ensures var next := done[key := tags];
            && |next| == |done| + 1
            && Contribution(live, mode, next)
               == Contribution(live, mode, done) + Rows(Resolve(live, mode, key).value, tags)
            && |MatchedKeys(live, mode, next)| == |MatchedKeys(live, mode, done)| + 1
            && Occurrences(next, MatchedKeys(live, mode, next))
               == Occurrences(done, MatchedKeys(live, mode, done)) + |tags|
  {
    var next, keys := done[key := tags], MatchedKeys(live, mode, done);
    assert next.Keys == done.Keys + {key};
    MergeKeyRows(live, mode, done, key, tags);
    MatchedKeysGrow(live, mode, done, key, tags);
    assert Occurrences(next, keys + {key}) == Occurrences(done, keys) + |tags| by {
      OccurrencesAgree(done, next, keys);
      OccurrencesRemove(next, keys + {key}, key);
      assert keys + {key} - {key} == keys;
    }
  }

  lemma {:induction false} MatchedKeysGrow(live: Db, mode: MatchMode, done: Harvest, key: string, tags: seq<string>)
    requires key !in done && Resolve(live, mode, key).Some?
    ensures MatchedKeys(live, mode, done[key := tags]) == MatchedKeys(live, mode, done) + {key}
  {
  }

  lemma {:induction false} MergeKeyRows(live: Db, mode: MatchMode, done: Harvest, key: string, tags: seq<string>)
    requires key !in done && Resolve(live, mode, key).Some?
    ensures Contribution(live, mode, done[key := tags])
         == Contribution(live, mode, done) + Rows(Resolve(live, mode, key).value, tags)
  {
    var next, id := done[key := tags], Resolve(live, mode, key).value;
    forall row | row in Contribution(live, mode, next)
      ensures row in Contribution(live, mode, done) + Rows(id, tags)
    {
      var k, tag :| k in next && tag in next[k] && Resolve(live, mode, k).Some?
                    && row == (Resolve(live, mode, k).value, tag);
      assert k != key ==> k in done && tag in done[k];
    }
    forall row | row in Contribution(live, mode, done) + Rows(id, tags)
      ensures row in Contribution(live, mode, next)
    {
      if row in Rows(id, tags) {
        assert row.1 in next[key];
      } else {
        var k, tag :| k in done && tag in done[k] && Resolve(live, mode, k).Some?
                      && row == (Resolve(live, mode, k).value, tag);
        assert tag in next[k];
      }
    }
  }

  lemma {:induction false} OccurrencesAgree(a: Harvest, b: Harvest, keys: set<string>)
    requires keys <= a.Keys && keys <= b.Keys && forall k :: k in keys ==> a[k] == b[k]
    ensures Occurrences(a, keys) == Occurrences(b, keys)
    decreases keys
  {
    if keys != {} {
      var k :| k in keys;
      OccurrencesRemove(a, keys, k);
      OccurrencesRemove(b, keys, k);
      OccurrencesAgree(a, b, keys - {k});
    }
  }

  // ---------------------------------------------------------------------------------------
  // Running it again

  /** Tags do not take part in matching, so a merge never changes what keys resolve to; a second
      merge of the same snapshot adds nothing and changes nothing. */
  lemma SecondMergeAddsNothing(live: Db, mode: MatchMode, tags: Harvest, again: Summary)
    requires IsSummary(again, live.(tags := live.tags + Contribution(live, mode, tags)), mode, tags)
    ensures var merged := live.(tags := live.tags + Contribution(live, mode, tags));
            && again.added == 0
            && merged.tags + Contribution(merged, mode, tags) == merged.tags
            && again.alreadyPresent == Occurrences(tags, MatchedKeys(live, mode, tags))
  {
    var merged := live.(tags := live.tags + Contribution(live, mode, tags));
    assert forall key :: Resolve(merged, mode, key) == Resolve(live, mode, key);
    assert Contribution(merged, mode, tags) == Contribution(live, mode, tags);
    assert merged.tags + Contribution(merged, mode, tags) == merged.tags;
    assert MatchedKeys(merged, mode, tags) == MatchedKeys(live, mode, tags);
  }
}
