/** Reading the output of `git worktree list --porcelain`. */
module Worktrees {
  import opened Options
  import opened Text

  datatype Entry = Entry(path: string, branch: Option<string>)

  const PATH := "worktree "
  const BRANCH := "branch "
  const HEADS := "refs/heads/"

  function BranchName(value: string): string {
    if HEADS <= value then value[|HEADS|..] else value
  }

  /** The entries the remaining lines yield, given what is pending. */
  function Collect(lines: seq<string>, path: Option<string>, branch: Option<string>): seq<Entry>
    decreases |lines|
  {
    if lines == [] then []
    else
      var line := lines[0];
      if line == "" then
        if path.Some? then [Entry(path.value, branch)] + Collect(lines[1..], None, None)
        else Collect(lines[1..], path, branch)
      else if PATH <= line then Collect(lines[1..], Some(line[|PATH|..]), branch)
      else if BRANCH <= line then Collect(lines[1..], path, Some(BranchName(line[|BRANCH|..])))
      else Collect(lines[1..], path, branch)
  }

  /** What a listing means: its lines, closed by one more empty line. */
  function Meaning(input: string): seq<Entry> {
    Collect(Lines(input) + [""], None, None)
  }

  method ParseWorktreePorcelain(input: string) returns (entries: seq<Entry>)
    ensures entries == Meaning(input)
  {
    entries := [];
    var path: Option<string>, branch: Option<string> := None, None;
    var lines := Lines(input) + [""];
    for i := 0 to |lines|
      invariant entries + Collect(lines[i..], path, branch) == Collect(lines, None, None)
    {
      var line := lines[i];
      assert lines[i..][1..] == lines[i + 1..];
      if line == "" {
        if path.Some? {
          assert entries + ([Entry(path.value, branch)] + Collect(lines[i + 1..], None, None))
              == entries + [Entry(path.value, branch)] + Collect(lines[i + 1..], None, None);
          entries := entries + [Entry(path.value, branch)];
          path, branch := None, None;
        }
        continue;
      }
      if PATH <= line {
        path := Some(line[|PATH|..]);
      } else if BRANCH <= line {
        branch := Some(BranchName(line[|BRANCH|..]));
      }
    }
    assert lines[|lines|..] == [];
  }

  // ---------------------------------------------------------------------------------------
  // Printing

  /** One stanza: the path line, then attribute lines around an optional branch line, which gives
      a local branch by its full name and any other reference as it is. */
  datatype Stanza = Stanza(entry: Entry, asIs: bool, before: seq<string>, after: seq<string>)

  /** Any other attribute (`HEAD`, `bare`, `detached`, `locked`, `prunable`, ...). */
  predicate AttributeOk(l: string) {
    l != "" && PlainLine(l) && !(PATH <= l) && !(BRANCH <= l)
  }

  predicate AttributesOk(ls: seq<string>) {
    forall i :: 0 <= i < |ls| ==> AttributeOk(ls[i])
  }

  predicate BranchOk(asIs: bool, b: string) {
    asIs ==> !(HEADS <= b)
  }

  function BranchLine(asIs: bool, b: string): string {
    BRANCH + (if asIs then "" else HEADS) + b
  }

  function BranchLines(asIs: bool, branch: Option<string>): seq<string> {
    if branch.Some? then [BranchLine(asIs, branch.value)] else []
  }

  predicate StanzaOk(s: Stanza) {
    && '\n' !in s.entry.path
    && (s.entry.branch.Some? ==> '\n' !in s.entry.branch.value && BranchOk(s.asIs, s.entry.branch.value))
    && AttributesOk(s.before) && AttributesOk(s.after)
  }

  function StanzaLines(s: Stanza): seq<string> {
    [PATH + s.entry.path] + s.before
    + BranchLines(s.asIs, s.entry.branch)
    + s.after + [""]
  }

  function ListingLines(stanzas: seq<Stanza>): seq<string> {
    if stanzas == [] then [] else StanzaLines(stanzas[0]) + ListingLines(stanzas[1..])
  }

  function Print(stanzas: seq<Stanza>): string {
    Unlines(ListingLines(stanzas))
  }

  function EntriesOf(stanzas: seq<Stanza>): seq<Entry> {
    seq(|stanzas|, i requires 0 <= i < |stanzas| => stanzas[i].entry)
  }

  // ---------------------------------------------------------------------------------------
  // Round trip

  lemma {:induction false} AttributesAreSkipped(ls: seq<string>, tail: seq<string>, path: Option<string>, branch: Option<string>)
    requires AttributesOk(ls)
    ensures Collect(ls + tail, path, branch) == Collect(tail, path, branch)
    decreases |ls|
  {
    if ls == [] {
      assert ls + tail == tail;
    } else {
      assert AttributeOk(ls[0]);
      assert (ls + tail)[1..] == ls[1..] + tail;
      AttributesAreSkipped(ls[1..], tail, path, branch);
    }
  }

  lemma {:induction false} PathLineReads(p: string, tail: seq<string>, branch: Option<string>)
    ensures Collect([PATH + p] + tail, None, branch) == Collect(tail, Some(p), branch)
  {
    var line := PATH + p;
    assert line[..|PATH|] == PATH && line[|PATH|..] == p && ([line] + tail)[1..] == tail;
  }

  lemma {:induction false} BranchLineReads(asIs: bool, b: string, tail: seq<string>, path: Option<string>)
    requires BranchOk(asIs, b)
    ensures Collect([BranchLine(asIs, b)] + tail, path, None) == Collect(tail, path, Some(b))
  {
    var line, ref := BranchLine(asIs, b), (if asIs then "" else HEADS) + b;
    assert line == BRANCH + ref;
    assert line[..|BRANCH|] == BRANCH && line[0] == 'b' && PATH[0] == 'w' && ([line] + tail)[1..] == tail;
    assert line[|BRANCH|..] == ref;
    assert BranchName(ref) == b by {
      if asIs {
        assert ref == b;
      } else {
        assert ref[..|HEADS|] == HEADS && ref[|HEADS|..] == b;
      }
    }
  }

  /** A stanza yields its own entry and leaves nothing behind for the next. */
  lemma {:induction false} StanzaReads(s: Stanza, tail: seq<string>)
    requires AttributesOk(s.before) && AttributesOk(s.after)
    requires s.entry.branch.Some? ==> BranchOk(s.asIs, s.entry.branch.value)
    ensures Collect(StanzaLines(s) + tail, None, None) == [s.entry] + Collect(tail, None, None)
  {
    var path, b := Some(s.entry.path), s.entry.branch;
    var end := s.after + ([""] + tail);
    var mid := BranchLines(s.asIs, b) + end;
    calc {
      Collect(StanzaLines(s) + tail, None, None);
      { assert StanzaLines(s) + tail == [PATH + s.entry.path] + (s.before + mid); }
      Collect([PATH + s.entry.path] + (s.before + mid), None, None);
      { PathLineReads(s.entry.path, s.before + mid, None); }
      Collect(s.before + mid, path, None);
      { AttributesAreSkipped(s.before, mid, path, None); }
      Collect(mid, path, None);
      { if b.Some? { BranchLineReads(s.asIs, b.value, end, path); } else { assert mid == end; } }
      Collect(end, path, b);
      { AttributesAreSkipped(s.after, [""] + tail, path, b); }
      Collect([""] + tail, path, b);
      { assert ([""] + tail)[1..] == tail; }
      [s.entry] + Collect(tail, None, None);
    }
  }

  lemma {:induction false} ListingReads(stanzas: seq<Stanza>, tail: seq<string>)
    requires forall i :: 0 <= i < |stanzas| ==>
               && AttributesOk(stanzas[i].before) && AttributesOk(stanzas[i].after)
               && (stanzas[i].entry.branch.Some? ==> BranchOk(stanzas[i].asIs, stanzas[i].entry.branch.value))
    ensures Collect(ListingLines(stanzas) + tail, None, None) == EntriesOf(stanzas) + Collect(tail, None, None)
  {
    if stanzas == [] {
      assert ListingLines(stanzas) + tail == tail && EntriesOf(stanzas) == [];
    } else {
      var rest := ListingLines(stanzas[1..]) + tail;
      calc {
        Collect(ListingLines(stanzas) + tail, None, None);
        { ListingCons(stanzas, tail); }
        Collect(StanzaLines(stanzas[0]) + rest, None, None);
        { StanzaReads(stanzas[0], rest); }
        [stanzas[0].entry] + Collect(rest, None, None);
        { ListingReads(stanzas[1..], tail); }
        [stanzas[0].entry] + (EntriesOf(stanzas[1..]) + Collect(tail, None, None));
        { EntriesCons(stanzas, Collect(tail, None, None)); }
        EntriesOf(stanzas) + Collect(tail, None, None);
      }
    }
  }

  lemma {:induction false} ListingCons(stanzas: seq<Stanza>, tail: seq<string>)
    requires stanzas != []
    ensures ListingLines(stanzas) + tail == StanzaLines(stanzas[0]) + (ListingLines(stanzas[1..]) + tail)
  {
    var first := StanzaLines(stanzas[0]);
    assert ListingLines(stanzas) == first + ListingLines(stanzas[1..]);
  }

  lemma {:induction false} EntriesCons(stanzas: seq<Stanza>, more: seq<Entry>)
    requires stanzas != []
    ensures [stanzas[0].entry] + (EntriesOf(stanzas[1..]) + more) == EntriesOf(stanzas) + more
  {
  }

  lemma {:induction false} NothingIsLeft()
    ensures Collect([], None, None) == [] && Collect([""], None, None) == []
  {
    assert [""][1..] == [];
  }

  // ---------------------------------------------------------------------------------------
  // Carriage returns

  /** Splitting into lines takes a final carriage return for part of the line break. */
  function Cut(lines: seq<string>): seq<string> {
    seq(|lines|, i requires 0 <= i < |lines| => DropCr(lines[i]))
  }

  function CutEntry(e: Entry): Entry {
    Entry(DropCr(e.path), if e.branch.Some? then Some(DropCr(e.branch.value)) else None)
  }

  function CutStanzas(stanzas: seq<Stanza>): seq<Stanza> {
    seq(|stanzas|, i requires 0 <= i < |stanzas| => stanzas[i].(entry := CutEntry(stanzas[i].entry)))
  }

  predicate AllOk(stanzas: seq<Stanza>) {
    forall i :: 0 <= i < |stanzas| ==> StanzaOk(stanzas[i])
  }

  predicate OneLineEach(lines: seq<string>) {
    forall i :: 0 <= i < |lines| ==> '\n' !in lines[i]
  }

  lemma {:induction false} LinesAreCut(lines: seq<string>)
    requires OneLineEach(lines)
    ensures Lines(Unlines(lines)) == Cut(lines)
  {
    if lines != [] {
      var l, rest := lines[0], Unlines(lines[1..]);
      assert Unlines(lines) == l + ['\n'] + rest;
      calc {
        Lines(Unlines(lines));
        { FindCharAt(l, '\n', rest); }
        [DropCr(l)] + Lines(rest);
        { LinesAreCut(lines[1..]); }
        [DropCr(l)] + Cut(lines[1..]);
        Cut(lines);
      }
    }
  }

  lemma {:induction false} CutConcat(a: seq<string>, b: seq<string>)
    ensures Cut(a + b) == Cut(a) + Cut(b)
  {
  }

  lemma {:induction false} CutAfter(prefix: string, l: string)
    requires prefix != "" && prefix[|prefix| - 1] != '\r'
    ensures DropCr(prefix + l) == prefix + DropCr(l)
  {
    if l != "" {
      assert (prefix + l)[|prefix + l| - 1] == l[|l| - 1];
    } else {
      assert prefix + l == prefix;
    }
  }

  lemma {:induction false} AttributesAreNotCut(ls: seq<string>)
    requires AttributesOk(ls)
    ensures Cut(ls) == ls && OneLineEach(ls)
  {
    forall i | 0 <= i < |ls| ensures DropCr(ls[i]) == ls[i] && '\n' !in ls[i] {
      assert AttributeOk(ls[i]);
    }
  }

  lemma {:induction false} StanzaIsCut(s: Stanza)
    requires StanzaOk(s)
    ensures Cut(StanzaLines(s)) == StanzaLines(s.(entry := CutEntry(s.entry)))
  {
    var path, b := [PATH + s.entry.path], BranchLines(s.asIs, s.entry.branch);
    AttributesAreNotCut(s.before);
    AttributesAreNotCut(s.after);
    assert Cut(path) == [PATH + DropCr(s.entry.path)] by {
      CutAfter(PATH, s.entry.path);
    }
    assert Cut(b) == BranchLines(s.asIs, CutEntry(s.entry).branch) by {
      if s.entry.branch.Some? {
        CutAfter(BRANCH + if s.asIs then "" else HEADS, s.entry.branch.value);
      }
    }
    calc {
      Cut(StanzaLines(s));
      Cut(path + s.before + b + s.after + [""]);
      { CutConcat(path + s.before + b + s.after, [""]); }
      Cut(path + s.before + b + s.after) + Cut([""]);
      { CutConcat(path + s.before + b, s.after); }
      Cut(path + s.before + b) + s.after + [""];
      { CutConcat(path + s.before, b); }
      Cut(path + s.before) + Cut(b) + s.after + [""];
      { CutConcat(path, s.before); }
      Cut(path) + s.before + Cut(b) + s.after + [""];
    }
  }

  lemma {:induction false} StanzaIsLines(s: Stanza)
    requires StanzaOk(s)
    ensures OneLineEach(StanzaLines(s))
  {
    AttributesAreNotCut(s.before);
    AttributesAreNotCut(s.after);
  }

  lemma {:induction false} ListingIsCut(stanzas: seq<Stanza>)
    requires AllOk(stanzas)
    ensures Cut(ListingLines(stanzas)) == ListingLines(CutStanzas(stanzas))
    ensures OneLineEach(ListingLines(stanzas))
  {
    if stanzas != [] {
      StanzaIsCut(stanzas[0]);
      StanzaIsLines(stanzas[0]);
      ListingIsCut(stanzas[1..]);
      CutConcat(StanzaLines(stanzas[0]), ListingLines(stanzas[1..]));
      assert CutStanzas(stanzas)[1..] == CutStanzas(stanzas[1..]);
    }
  }

  /** Printing any entries without line breaks as stanzas, with any other attributes, and parsing
      the listing returns the entries in order, less one final carriage return per path or branch. */
  lemma {:induction false} ListingReadsBack(stanzas: seq<Stanza>)
    requires AllOk(stanzas)
    ensures Meaning(Print(stanzas)) == EntriesOf(CutStanzas(stanzas))
  {
    ListingIsCut(stanzas);
    LinesAreCut(ListingLines(stanzas));
    CutListingReads(stanzas, [""]);
    NothingIsLeft();
  }

  lemma {:induction false} CutListingReads(stanzas: seq<Stanza>, tail: seq<string>)
    requires AllOk(stanzas)
    ensures Collect(ListingLines(CutStanzas(stanzas)) + tail, None, None)
         == EntriesOf(CutStanzas(stanzas)) + Collect(tail, None, None)
  {
    forall i | 0 <= i < |stanzas| && stanzas[i].entry.branch.Some?
      ensures BranchOk(stanzas[i].asIs, DropCr(stanzas[i].entry.branch.value))
    {
      assert StanzaOk(stanzas[i]);
      CutBranchOk(stanzas[i].asIs, stanzas[i].entry.branch.value);
    }
    ListingReads(CutStanzas(stanzas), tail);
  }

  lemma {:induction false} ListingEndsBlank(stanzas: seq<Stanza>)
    requires stanzas != []
    ensures var lines := ListingLines(stanzas);
            lines != [] && lines == lines[..|lines| - 1] + [""]
  {
    if |stanzas| > 1 {
      ListingEndsBlank(stanzas[1..]);
    } else {
      assert ListingLines(stanzas) == StanzaLines(stanzas[0]) + [];
    }
  }

  /** The last stanza is read even when no empty line follows it. */
  lemma {:induction false} LastStanzaNeedsNoBlank(stanzas: seq<Stanza>)
    requires AllOk(stanzas) && stanzas != []
    ensures ListingLines(stanzas) != []
    ensures Meaning(Unlines(ListingLines(stanzas)[..|ListingLines(stanzas)| - 1])) == EntriesOf(CutStanzas(stanzas))
  {
    var lines := ListingLines(stanzas);
    ListingEndsBlank(stanzas);
    var init := lines[..|lines| - 1];
    ListingIsCut(stanzas);
    calc {
      Meaning(Unlines(init));
      { LinesAreCut(init); }
      Collect(Cut(init) + [""], None, None);
      { CutConcat(init, [""]); assert Cut([""]) == [""]; }
      Collect(Cut(lines), None, None);
      { assert Cut(lines) == ListingLines(CutStanzas(stanzas)) + []; }
      Collect(ListingLines(CutStanzas(stanzas)) + [], None, None);
      { CutListingReads(stanzas, []); NothingIsLeft(); }
      EntriesOf(CutStanzas(stanzas)) + [];
      EntriesOf(CutStanzas(stanzas));
    }
  }

  lemma {:induction false} CutBranchOk(asIs: bool, b: string)
    requires BranchOk(asIs, b)
    ensures BranchOk(asIs, DropCr(b))
  {
    assert DropCr(b) <= b;
    if HEADS <= DropCr(b) {
      assert b[..|HEADS|] == DropCr(b)[..|HEADS|];
    }
  }

  predicate NoFinalCr(e: Entry) {
    PlainEnd(e.path) && (e.branch.Some? ==> PlainEnd(e.branch.value))
  }

  predicate PlainEnd(s: string) {
    s == "" || s[|s| - 1] != '\r'
  }

  /** The round trip holds exactly for entries none of whose texts ends in a carriage return. */
  lemma {:induction false} RoundTripIff(stanzas: seq<Stanza>)
    requires AllOk(stanzas)
    ensures Meaning(Print(stanzas)) == EntriesOf(stanzas) <==>
              forall i :: 0 <= i < |stanzas| ==> NoFinalCr(stanzas[i].entry)
  {
    ListingReadsBack(stanzas);
    var cut := EntriesOf(CutStanzas(stanzas));
    forall i | 0 <= i < |stanzas| ensures cut[i] == stanzas[i].entry <==> NoFinalCr(stanzas[i].entry) {
      CutEntryIff(stanzas[i].entry);
    }
    if forall i :: 0 <= i < |stanzas| ==> NoFinalCr(stanzas[i].entry) {
      assert cut == EntriesOf(stanzas);
    } else {
      var i :| 0 <= i < |stanzas| && !NoFinalCr(stanzas[i].entry);
      assert cut[i] != EntriesOf(stanzas)[i];
    }
  }

  lemma {:induction false} CutEntryIff(e: Entry)
    ensures CutEntry(e) == e <==> NoFinalCr(e)
  {
    assert !PlainEnd(e.path) ==> |DropCr(e.path)| != |e.path|;
    if e.branch.Some? {
      assert !PlainEnd(e.branch.value) ==> |DropCr(e.branch.value)| != |e.branch.value|;
    }
  }

  // ---------------------------------------------------------------------------------------
  // What a block leaves behind

  /** The lines between two empty ones. */
  predicate IsBlock(b: seq<string>) {
    forall i :: 0 <= i < |b| ==> b[i] != ""
  }

  predicate HasPath(b: seq<string>) {
    exists i :: 0 <= i < |b| && PATH <= b[i]
  }

  predicate HasBranch(b: seq<string>) {
    exists i :: 0 <= i < |b| && BRANCH <= b[i]
  }

  /** What is pending after one line that is not empty. */
  function Note(line: string, path: Option<string>, branch: Option<string>): (Option<string>, Option<string>) {
    if PATH <= line then (Some(line[|PATH|..]), branch)
    else if BRANCH <= line then (path, Some(BranchName(line[|BRANCH|..])))
    else (path, branch)
  }

  /** What is pending after the lines of a block. */
  function Pending(b: seq<string>, path: Option<string>, branch: Option<string>): (Option<string>, Option<string>)
    decreases |b|
  {
    if b == [] then (path, branch)
    else
      var next := Note(b[0], path, branch);
      Pending(b[1..], next.0, next.1)
  }

  lemma {:induction false} BlockReads(b: seq<string>, tail: seq<string>, path: Option<string>, branch: Option<string>)
    requires IsBlock(b)
    ensures var pending := Pending(b, path, branch);
            Collect(b + tail, path, branch) == Collect(tail, pending.0, pending.1)
    decreases |b|
  {
    if b == [] {
      assert b + tail == tail;
    } else {
      assert (b + tail)[0] == b[0] && (b + tail)[1..] == b[1..] + tail;
      var next := Note(b[0], path, branch);
      BlockReads(b[1..], tail, next.0, next.1);
    }
  }

  lemma {:induction false} PendingIff(b: seq<string>, path: Option<string>, branch: Option<string>)
    ensures Pending(b, path, branch).0.Some? <==> path.Some? || HasPath(b)
    ensures Pending(b, path, branch).1.Some? <==> branch.Some? || HasBranch(b)
    decreases |b|
  {
    if b != [] {
      assert PATH[0] == 'w' && BRANCH[0] == 'b';
      assert b == [b[0]] + b[1..];
      var next := Note(b[0], path, branch);
      PendingIff(b[1..], next.0, next.1);
      assert HasPath(b) <==> PATH <= b[0] || HasPath(b[1..]) by {
        if i :| 0 <= i < |b[1..]| && PATH <= b[1..][i] {
          assert PATH <= b[i + 1];
        }
      }
      assert HasBranch(b) <==> BRANCH <= b[0] || HasBranch(b[1..]) by {
        if i :| 0 <= i < |b[1..]| && BRANCH <= b[1..][i] {
          assert BRANCH <= b[i + 1];
        }
      }
    }
  }

  /** The last path line and the last branch line of a block decide. */
  lemma {:induction false} LastLineDecides(b: seq<string>, i: nat, path: Option<string>, branch: Option<string>)
    requires i < |b|
    ensures PATH <= b[i] && !HasPath(b[i + 1..]) ==> Pending(b, path, branch).0 == Some(b[i][|PATH|..])
    ensures BRANCH <= b[i] && !HasBranch(b[i + 1..]) ==>
              Pending(b, path, branch).1 == Some(BranchName(b[i][|BRANCH|..]))
    decreases |b|
  {
    var next := Note(b[0], path, branch);
    assert PATH[0] == 'w' && BRANCH[0] == 'b';
    if i == 0 {
      PendingKeeps(b[1..], next.0, next.1);
    } else {
      assert b[1..][i..] == b[i + 1..];
      LastLineDecides(b[1..], i - 1, next.0, next.1);
    }
  }

  lemma {:induction false} PendingKeeps(b: seq<string>, path: Option<string>, branch: Option<string>)
    ensures !HasPath(b) ==> Pending(b, path, branch).0 == path
    ensures !HasBranch(b) ==> Pending(b, path, branch).1 == branch
    decreases |b|
  {
    if b != [] {
      var next := Note(b[0], path, branch);
      PendingKeeps(b[1..], next.0, next.1);
      assert HasPath(b[1..]) ==> HasPath(b) by {
        if i :| 0 <= i < |b[1..]| && PATH <= b[1..][i] {
          assert PATH <= b[i + 1];
        }
      }
      assert HasBranch(b[1..]) ==> HasBranch(b) by {
        if i :| 0 <= i < |b[1..]| && BRANCH <= b[1..][i] {
          assert BRANCH <= b[i + 1];
        }
      }
      assert PATH <= b[0] ==> HasPath(b);
      assert BRANCH <= b[0] ==> HasBranch(b);
    }
  }

  /** What follows a block is read as if the block were not there. */
  ghost predicate LeavesNothing(b: seq<string>) {
    forall rest :: Collect(b + ([""] + rest), None, None) == Collect(b + [""], None, None) + Collect(rest, None, None)
  }

  lemma {:induction false} BlockThenRest(b: seq<string>, rest: seq<string>)
    requires IsBlock(b)
    ensures var (path, branch) := Pending(b, None, None);
            && Collect(b + [""], None, None) == (if path.Some? then [Entry(path.value, branch)] else [])
            && Collect(b + ([""] + rest), None, None)
               == if path.Some? then [Entry(path.value, branch)] + Collect(rest, None, None)
                  else Collect(rest, None, branch)
  {
    BlockReads(b, [""], None, None);
    BlockReads(b, [""] + rest, None, None);
    assert ([""] + rest)[1..] == rest && [""][1..] == [];
    assert Collect([], None, None) == [] && Collect([], None, Pending(b, None, None).1) == [];
  }

  /** A block leaks into what follows exactly when it has a branch line and no path line. */
  lemma {:induction false} LeavesNothingIff(b: seq<string>)
    requires IsBlock(b)
    ensures LeavesNothing(b) <==> HasPath(b) || !HasBranch(b)
  {
    PendingIff(b, None, None);
    if HasPath(b) || !HasBranch(b) {
      forall rest
        ensures Collect(b + ([""] + rest), None, None) == Collect(b + [""], None, None) + Collect(rest, None, None)
      {
        BlockThenRest(b, rest);
      }
    } else {
      BlockLeaks(b);
    }
  }

  /** Whatever the path of the next entry, a leaking block gives it a branch it does not have. */
  lemma {:induction false} BlockLeaks(b: seq<string>)
    requires IsBlock(b) && !HasPath(b) && HasBranch(b)
    ensures !LeavesNothing(b)
  {
    PendingIff(b, None, None);
    var branch := Pending(b, None, None).1;
    var rest := [PATH + ""] + [""];
    BlockThenRest(b, rest);
    PathLineReads("", [""], branch);
    PathLineReads("", [""], None);
    assert [""][1..] == [] && Collect([], None, None) == [];
    assert Collect(rest, None, branch) == [Entry("", branch)] && Collect(rest, None, None) == [Entry("", None)];
    assert Collect(b + ([""] + rest), None, None)[0] != (Collect(b + [""], None, None) + Collect(rest, None, None))[0];
  }

  /** The shortest case: a branch line alone in its block is carried into the next entry. */
  lemma {:induction false} StrayBranchLeaks(b: string, p: string)
    ensures Collect([BRANCH + HEADS + b, "", PATH + p, ""], None, None) == [Entry(p, Some(b))]
  {
    var tail := ["", PATH + p, ""];
    assert [BRANCH + HEADS + b, "", PATH + p, ""] == [BRANCH + HEADS + b] + tail;
    assert BranchLine(false, b) == BRANCH + HEADS + b;
    BranchLineReads(false, b, tail, None);
    assert tail[1..] == [PATH + p] + [""];
    PathLineReads(p, [""], Some(b));
    assert [""][1..] == [] && Collect([], None, None) == [];
  }
}
