/** The checkpoint manager: filesystem snapshots in a shadow git repository whose work tree is
    the project directory. */
module Checkpoints {
  import opened Options

  type Path = string
  type Content = string

  /** A set of files with their contents. */
  type Files = map<Path, Content>

  datatype Error = NoCheckpoints | InvalidRollback | GitFailed

  /** The git call, if any, that the environment makes fail. */
  datatype Fault = NoFault | InitFails | AddFails | StatusFails | CommitFails | CheckoutFails

  /** A shadow repository with its work tree: commits oldest first, the staged files, the files
      on disk, and which paths the exclude file hides from `git add`. */
  datatype Repo = Repo(history: seq<Files>, index: Files, worktree: Files, excluded: set<Path>)

  /** The tree of the newest commit; empty before the first. */
  function Head(r: Repo): Files {
    if r.history == [] then map[] else r.history[|r.history| - 1]
  }

  /** `git add -A`: the index becomes what is on disk, minus excluded paths git does not track. */
  function Staged(r: Repo): Files {
    map p | p in r.worktree && (p !in r.excluded || p in r.index) :: r.worktree[p]
  }

  /** `HEAD~n`, when that many commits exist. */
  function Ancestor(r: Repo, n: nat): Option<Files> {
    if n < |r.history| then Some(r.history[|r.history| - 1 - n]) else None
  }

  /** The commit `git checkout HEAD~n -- .` restores; it fails on an empty tree, whose pathspec
      matches nothing. */
  function Restorable(r: Repo, n: nat): Option<Files> {
    match Ancestor(r, n)
    case Some(tree) => if tree == map[] then None else Some(tree)
    case None => None
  }

  class CheckpointManager {
    var repo: Repo
    var initialized: bool
    var count: nat
    const maxCheckpoints: nat
    var takenThisTurn: bool

    /** `existing` is whatever an earlier manager left in the same shadow repository. */
    constructor (existing: Repo, max: nat)
      ensures Current() == Fresh(existing, max)
    {
      repo, initialized, count, maxCheckpoints, takenThisTurn := existing, false, 0, max, false;
    }

    function Current(): Session
      reads this
    {
      Session(repo, initialized, count, takenThisTurn, maxCheckpoints)
    }

    method NewTurn()
      modifies this`takenThisTurn
      ensures Current() == Apply(old(Current()), NextTurn).0
    {
      takenThisTurn := false;
    }

    method Checkpoint(fault: Fault) returns (r: Result<bool, Error>)
      modifies this
      ensures (Current(), r) == Apply(old(Current()), Take(fault))
    {
      if takenThisTurn {
        return Ok(false);
      }
      if !initialized {
        if fault == InitFails {
          return Err(GitFailed);
        }
        initialized := true;
      }
      if fault == AddFails {
        return Err(GitFailed);
      }
      repo := repo.(index := Staged(repo));
      if fault == StatusFails {
        return Err(GitFailed);
      }
      if repo.index == Head(repo) {
        return Ok(false);
      }
      if fault == CommitFails {
        return Err(GitFailed);
      }
      repo := repo.(history := repo.history + [repo.index]);
      count := count + 1;
      takenThisTurn := true;
      // Beyond maxCheckpoints the manager only logs; nothing is pruned.
      return Ok(true);
    }

    method Rollback(stepsBack: nat, fault: Fault) returns (r: Result<bool, Error>)
      modifies this`repo
      ensures (Current(), r) == Apply(old(Current()), Back(stepsBack, fault))
    {
      if !initialized {
        return Err(NoCheckpoints);
      }
      if stepsBack == 0 || stepsBack > count {
        return Err(InvalidRollback);
      }
      var tree := Restorable(repo, stepsBack);
      if fault == CheckoutFails || tree.None? {
        return Err(GitFailed);
      }
      repo := repo.(index := repo.index + tree.value, worktree := repo.worktree + tree.value);
      return Ok(true);
    }
  }

  // ---------------------------------------------------------------------------------------
  // Runs

  /** A manager's state; `limit` is its constant `max_checkpoints`. */
  datatype Session = Session(repo: Repo, initialized: bool, count: nat, takenThisTurn: bool, limit: nat)

  /** Everything that can happen: the project's files change, a turn starts, a checkpoint or a
      rollback is asked for. */
  datatype Op = Edit(worktree: Files) | NextTurn | Take(fault: Fault) | Back(stepsBack: nat, fault: Fault)

  function TakeCheckpoint(s: Session, fault: Fault): (Session, Result<bool, Error>) {
    if s.takenThisTurn then (s, Ok(false))
    else if !s.initialized && fault == InitFails then (s, Err(GitFailed))
    else
      var ready := s.(initialized := true);
      if fault == AddFails then (ready, Err(GitFailed))
      else
        var staged := ready.(repo := s.repo.(index := Staged(s.repo)));
        if fault == StatusFails then (staged, Err(GitFailed))
        else if Staged(s.repo) == Head(s.repo) then (staged, Ok(false))
        else if fault == CommitFails then (staged, Err(GitFailed))
        else
          (staged.(repo := staged.repo.(history := s.repo.history + [Staged(s.repo)]),
                   count := s.count + 1, takenThisTurn := true),
           Ok(true))
  }

  function RollBack(s: Session, n: nat, fault: Fault): (Session, Result<bool, Error>) {
    if !s.initialized then (s, Err(NoCheckpoints))
    else if n == 0 || n > s.count then (s, Err(InvalidRollback))
    else
      match Restorable(s.repo, n)
      case None => (s, Err(GitFailed))
      case Some(tree) =>
        if fault == CheckoutFails then (s, Err(GitFailed))
        else
          (s.(repo := s.repo.(index := s.repo.index + tree, worktree := s.repo.worktree + tree)),
           Ok(true))
  }

  function Apply(s: Session, op: Op): (Session, Result<bool, Error>) {
    match op
    case Edit(files) => (s.(repo := s.repo.(worktree := files)), Ok(true))
    case NextTurn => (s.(takenThisTurn := false), Ok(true))
    case Take(fault) => TakeCheckpoint(s, fault)
    case Back(n, fault) => RollBack(s, n, fault)
  }

  function Run(s: Session, ops: seq<Op>): Session
    decreases |ops|
  {
    if ops == [] then s else Run(Apply(s, ops[0]).0, ops[1..])
  }

  function Fresh(existing: Repo, limit: nat): Session {
    Session(existing, false, 0, false, limit)
  }

  // ---------------------------------------------------------------------------------------
  // When a checkpoint is taken, and of what

  /** What a set of files holds at a path. */
  function At(files: Files, p: Path): Option<Content> {
    if p in files then Some(files[p]) else None
  }

  /** What git sees on disk at a path: excluded paths only where it tracks them already. */
  function Visible(r: Repo, p: Path): Option<Content> {
    if p in r.worktree && (p in r.excluded ==> p in r.index) then Some(r.worktree[p]) else None
  }

  /** Something visible differs from the newest commit, which is empty before the first. */
  ghost predicate Dirty(r: Repo) {
    exists p :: Visible(r, p) != if r.history == [] then None else At(r.history[|r.history| - 1], p)
  }

  lemma {:induction false} DirtyIff(r: Repo)
    ensures Dirty(r) <==> Staged(r) != Head(r)
  {
    forall p ensures At(Staged(r), p) == Visible(r, p) {
    }
    if !Dirty(r) {
      forall p ensures At(Staged(r), p) == At(Head(r), p) {
        assert Visible(r, p) == if r.history == [] then None else At(r.history[|r.history| - 1], p);
      }
      SameFiles(Staged(r), Head(r));
    }
  }

  lemma {:induction false} SameFiles(a: Files, b: Files)
    requires forall p :: At(a, p) == At(b, p)
    ensures a == b
  {
    forall p ensures (p in a <==> p in b) && (p in a ==> a[p] == b[p]) {
      assert At(a, p) == At(b, p);
    }
  }

  /** Setting up, staging or looking at the repository fails. */
  predicate FailsBefore(s: Session, fault: Fault) {
    (fault == InitFails && !s.initialized) || fault == AddFails || fault == StatusFails
  }

  /** A checkpoint is taken exactly when none was taken this turn, no call fails and something
      visible has changed. It adds one commit, which holds exactly what is visible. Any other
      answer leaves history and counters as they were, and which answer it is is told exactly. */
  lemma {:induction false} CheckpointIsTakenIff(s: Session, fault: Fault, p: Path)
    ensures var (s', r) := Apply(s, Take(fault));
            && (r == Ok(true) <==> !s.takenThisTurn && !FailsBefore(s, fault) && fault != CommitFails && Dirty(s.repo))
            && (r == Ok(false) <==> s.takenThisTurn || (!FailsBefore(s, fault) && !Dirty(s.repo)))
            && (r.Err? ==> r == Err(GitFailed))
            && (r == Ok(true) ==>
                  && |s'.repo.history| == |s.repo.history| + 1 && s.repo.history <= s'.repo.history
                  && At(s'.repo.history[|s.repo.history|], p) == Visible(s.repo, p)
                  && s'.count == s.count + 1 && s'.takenThisTurn)
            && (r != Ok(true) ==>
                  s'.repo.history == s.repo.history && s'.count == s.count && s'.takenThisTurn == s.takenThisTurn)
            && s'.repo.worktree == s.repo.worktree
            && (var untouched := s.takenThisTurn || (fault == InitFails && !s.initialized) || fault == AddFails;
                At(s'.repo.index, p) == if untouched then At(s.repo.index, p) else Visible(s.repo, p))
            && (s'.initialized <==> s.initialized || (!s.takenThisTurn && fault != InitFails))
  {
    DirtyIff(s.repo);
    assert At(Staged(s.repo), p) == Visible(s.repo, p);
  }

  /** Every commit from position `base` on differs from the one before it. */
  ghost predicate Differing(history: seq<Files>, base: nat) {
    forall i :: base <= i < |history| ==> history[i] != if i == 0 then map[] else history[i - 1]
  }

  /** Over every run, each commit a manager makes differs from the one before it. */
  lemma {:induction false} CommitsDiffer(s: Session, ops: seq<Op>, base: nat)
    requires Differing(s.repo.history, base)
    ensures Differing(Run(s, ops).repo.history, base)
    decreases |ops|
  {
    if ops != [] {
      CommitsDiffer(Apply(s, ops[0]).0, ops[1..], base);
    }
  }

  lemma {:induction false} ManagersCommitsDiffer(existing: Repo, limit: nat, ops: seq<Op>)
    ensures Differing(Run(Fresh(existing, limit), ops).repo.history, |existing.history|)
  {
    CommitsDiffer(Fresh(existing, limit), ops, |existing.history|);
  }

  // ---------------------------------------------------------------------------------------
  // Over whole runs

  /** Commits made by this manager are the newest `count` of the history. */
  predicate Inv(s: Session, base: nat) {
    |s.repo.history| == base + s.count && (s.count > 0 ==> s.initialized)
  }

  /** History only grows, one commit per counted checkpoint. */
  lemma {:induction false} RunAppends(s: Session, ops: seq<Op>, base: nat)
    requires Inv(s, base)
    ensures var s' := Run(s, ops);
            && Inv(s', base) && s.repo.history <= s'.repo.history
            && s'.repo.excluded == s.repo.excluded && s.count <= s'.count && s'.limit == s.limit
    decreases |ops|
  {
    if ops != [] {
      RunAppends(Apply(s, ops[0]).0, ops[1..], base);
    }
  }

  function Turns(ops: seq<Op>): nat {
    if ops == [] then 0 else (if ops[0].NextTurn? then 1 else 0) + Turns(ops[1..])
  }

  /** At most one checkpoint per turn, however often one is asked for. */
  lemma {:induction false} OneCheckpointPerTurn(s: Session, ops: seq<Op>)
    ensures Run(s, ops).count <= s.count + Turns(ops) + (if s.takenThisTurn then 0 else 1)
    decreases |ops|
  {
    if ops != [] {
      OneCheckpointPerTurn(Apply(s, ops[0]).0, ops[1..]);
    }
  }

  /** In every run, the commit made by the k-th checkpoint is found at `HEAD~(count - k)`
      from then on. */
  lemma {:induction false} CheckpointStaysPut(existing: Repo, limit: nat, before: seq<Op>, fault: Fault, after: seq<Op>)
    requires Apply(Run(Fresh(existing, limit), before), Take(fault)).1 == Ok(true)
    ensures var s := Run(Fresh(existing, limit), before);
            var k := s.count + 1;
            var s' := Run(Apply(s, Take(fault)).0, after);
            && k <= s'.count
            && Ancestor(s'.repo, s'.count - k) == Some(Staged(s.repo))
  {
    var base := |existing.history|;
    RunAppends(Fresh(existing, limit), before, base);
    var s := Run(Fresh(existing, limit), before);
    var t := Apply(s, Take(fault)).0;
    assert t.repo.history == s.repo.history + [Staged(s.repo)];
    RunAppends(t, after, base);
    var s' := Run(t, after);
    assert s'.repo.history[|s.repo.history|] == t.repo.history[|s.repo.history|];
  }

  /** When a rollback succeeds: the guard, a commit to reach, and something in it; and which error
      it is when it does not. */
  lemma {:induction false} RollbackSucceedsIff(s: Session, n: nat, fault: Fault)
    ensures var r := Apply(s, Back(n, fault)).1;
            && (r.Ok? <==>
                  && s.initialized && 1 <= n <= s.count && n < |s.repo.history|
                  && s.repo.history[|s.repo.history| - 1 - n] != map[] && fault != CheckoutFails)
            && (r == Err(NoCheckpoints) <==> !s.initialized)
            && (r == Err(InvalidRollback) <==> s.initialized && (n == 0 || n > s.count))
  {
  }

  /** A successful rollback restores every path of the snapshot, on disk and staged, and leaves
      every other path as it was; a failed one changes nothing. */
  lemma {:induction false} RollbackRestores(s: Session, n: nat, fault: Fault, p: Path)
    ensures var (s', r) := Apply(s, Back(n, fault));
            && (r.Err? ==> s' == s)
            && (r.Ok? ==>
                  var tree := s.repo.history[|s.repo.history| - 1 - n];
                  && s' == s.(repo := s.repo.(index := s'.repo.index, worktree := s'.repo.worktree))
                  && (p in tree ==>
                        p in s'.repo.worktree && s'.repo.worktree[p] == tree[p]
                        && p in s'.repo.index && s'.repo.index[p] == tree[p])
                  && (p !in tree ==>
                        && (p in s'.repo.worktree <==> p in s.repo.worktree)
                        && (p in s.repo.worktree ==> s'.repo.worktree[p] == s.repo.worktree[p])
                        && (p in s'.repo.index <==> p in s.repo.index)
                        && (p in s.repo.index ==> s'.repo.index[p] == s.repo.index[p])))
  {
    RollbackSucceedsIff(s, n, fault);
  }

  /** Over whole runs: whatever happens after the k-th checkpoint, as long as a later one has
      been taken, rolling back `count - k` steps brings back every file that was on disk and
      visible to git when it was taken. */
  lemma {:induction false} RollbackReachesCheckpoint(
    existing: Repo, limit: nat, before: seq<Op>, fault: Fault, after: seq<Op>, p: Path)
    requires Apply(Run(Fresh(existing, limit), before), Take(fault)).1 == Ok(true)
    requires var s := Run(Fresh(existing, limit), before);
             p in s.repo.worktree && p !in s.repo.excluded
    requires Run(Apply(Run(Fresh(existing, limit), before), Take(fault)).0, after).count
           > Run(Fresh(existing, limit), before).count + 1
    ensures var s := Run(Fresh(existing, limit), before);
            var s' := Run(Apply(s, Take(fault)).0, after);
            var (s'', r) := Apply(s', Back(s'.count - (s.count + 1), NoFault));
            && r == Ok(true)
            && p in s''.repo.worktree && s''.repo.worktree[p] == s.repo.worktree[p]
  {
    var s := Run(Fresh(existing, limit), before);
    var t := Apply(s, Take(fault)).0;
    var s' := Run(t, after);
    var n := s'.count - (s.count + 1);
    CheckpointStaysPut(existing, limit, before, fault, after);
    RunAppends(Fresh(existing, limit), before, |existing.history|);
    RunAppends(t, after, |existing.history|);
    TreeComesBack(s', n, Staged(s.repo), p);
  }

  lemma {:induction false} TreeComesBack(s: Session, n: nat, tree: Files, p: Path)
    requires s.initialized && 1 <= n <= s.count && Ancestor(s.repo, n) == Some(tree) && p in tree
    ensures var (s', r) := Apply(s, Back(n, NoFault));
            r == Ok(true) && p in s'.repo.worktree && s'.repo.worktree[p] == tree[p]
  {
  }

  /** On a fresh shadow repository `rollback(count)` passes the guard and still fails: there is
      no commit before the first checkpoint. With an older history it reaches that. */
  lemma {:induction false} OldestStepBack(existing: Repo, limit: nat, ops: seq<Op>)
    ensures var s := Run(Fresh(existing, limit), ops);
            s.count >= 1 ==>
              (Apply(s, Back(s.count, NoFault)).1 == Err(GitFailed) <==> Head(existing) == map[])
  {
    RunAppends(Fresh(existing, limit), ops, |existing.history|);
    var s := Run(Fresh(existing, limit), ops);
    if s.count >= 1 {
      RollbackSucceedsIff(s, s.count, NoFault);
      if existing.history != [] {
        assert s.repo.history[|existing.history| - 1] == existing.history[|existing.history| - 1];
      }
    }
  }

  // ---------------------------------------------------------------------------------------
  // The newest checkpoint is not what `rollback(1)` brings back

  /** Every file of `tree` is on disk with its content. */
  predicate OnDisk(r: Repo, tree: Files) {
    forall p :: p in tree ==> p in r.worktree && r.worktree[p] == tree[p]
  }

  /** `rollback(n)` overlays `HEAD~n`. It leaves the n-th newest checkpoint, `HEAD~(n-1)`, on disk
      exactly when each of that checkpoint's files is the same in `HEAD~n`, or is not in `HEAD~n`
      and was on disk unchanged already. */
  lemma {:induction false} RollbackShowsNthNewestIff(s: Session, n: nat, fault: Fault)
    requires Apply(s, Back(n, fault)).1.Ok?
    ensures 1 <= n < |s.repo.history|
    ensures var newer, older := s.repo.history[|s.repo.history| - n], s.repo.history[|s.repo.history| - 1 - n];
            OnDisk(Apply(s, Back(n, fault)).0.repo, newer) <==>
              forall p :: p in newer ==>
                if p in older then older[p] == newer[p]
                else p in s.repo.worktree && s.repo.worktree[p] == newer[p]
  {
    RollbackSucceedsIff(s, n, fault);
    var older := s.repo.history[|s.repo.history| - 1 - n];
    assert Apply(s, Back(n, fault)).0.repo.worktree == s.repo.worktree + older;
  }

  const NO_REPO := Repo([], map[], map[], {})

  /** One turn that writes `content` to the only file and takes a checkpoint. */
  function Write(content: Content): seq<Op> {
    [Edit(map["a" := content]), Take(NoFault), NextTurn]
  }

  /** The session in which that file has had the contents `done`, one checkpoint each. */
  function Written(done: seq<Content>, limit: nat): Session {
    if done == [] then Fresh(NO_REPO, limit)
    else
      var disk := map["a" := done[|done| - 1]];
      Session(Repo(Trees(done), disk, disk, {}), true, |done|, false, limit)
  }

  function Trees(done: seq<Content>): seq<Files> {
    seq(|done|, i requires 0 <= i < |done| => map["a" := done[i]])
  }

  lemma {:induction false} OneMoreTurn(done: seq<Content>, content: Content, limit: nat)
    requires done == [] || done[|done| - 1] != content
    ensures Run(Written(done, limit), Write(content)) == Written(done + [content], limit)
  {
    var s, disk := Written(done, limit), map["a" := content];
    var edited := Apply(s, Edit(disk)).0;
    assert Staged(edited.repo) == disk;
    assert disk["a"] == content;
    assert Staged(edited.repo) != Head(edited.repo);
    var taken := Apply(edited, Take(NoFault)).0;
    assert Trees(done + [content]) == Trees(done) + [disk];
    assert Apply(taken, NextTurn).0 == Written(done + [content], limit);
    ThreeOps(s, Edit(disk), Take(NoFault), NextTurn);
  }

  lemma {:induction false} ThreeOps(s: Session, a: Op, b: Op, c: Op)
    ensures Run(s, [a, b, c]) == Apply(Apply(Apply(s, a).0, b).0, c).0
  {
    var s1 := Apply(s, a).0;
    var s2 := Apply(s1, b).0;
    assert [a, b, c][1..] == [b, c] && [b, c][1..] == [c] && [c][1..] == [];
    assert Run(s2, [c]) == Run(Apply(s2, c).0, []);
    assert Run(s1, [b, c]) == Run(s2, [c]);
  }

  /** The documentation's "1 = last" at work: two checkpoints with contents `1` and `2`, and
      `rollback(1)` brings back `1`. */
  lemma {:induction false} RollbackOneIsNotLast(limit: nat)
    ensures var s := Run(Run(Fresh(NO_REPO, limit), Write("1")), Write("2"));
            var (s', r) := Apply(s, Back(1, NoFault));
            && s.repo.worktree == map["a" := "2"] && r == Ok(true) && s'.repo.worktree == map["a" := "1"]
  {
    OneMoreTurn([], "1", limit);
    OneMoreTurn(["1"], "2", limit);
    assert [] + ["1"] == ["1"] && ["1"] + ["2"] == ["1", "2"];
    RollbackInWritten(["1", "2"], limit, 1);
  }

  lemma {:induction false} RollbackInWritten(done: seq<Content>, limit: nat, n: nat)
    requires 1 <= n < |done|
    ensures var (s', r) := Apply(Written(done, limit), Back(n, NoFault));
            r == Ok(true) && s'.repo.worktree == map["a" := done[|done| - 1 - n]]
  {
    var s, older := Written(done, limit), map["a" := done[|done| - 1 - n]];
    assert s.repo.history[|done| - 1 - n] == older;
    assert "a" in older;
    assert s.repo.worktree + older == older;
  }

  // ---------------------------------------------------------------------------------------
  // The limit

  /** The turn that writes `n` marks. */
  function Turn(n: nat): seq<Op> {
    Write(Marks(n))
  }

  function Marks(n: nat): (r: Content)
    ensures |r| == n
  {
    seq(n, _ => 'x')
  }

  /** The run of `n` such turns. */
  function Busy(n: nat, limit: nat): Session {
    if n == 0 then Fresh(NO_REPO, limit) else Run(Busy(n - 1, limit), Turn(n - 1))
  }

  lemma {:induction false} BusyIsWritten(n: nat, limit: nat)
    ensures Busy(n, limit) == Written(seq(n, i requires 0 <= i < n => Marks(i)), limit)
  {
    if n > 0 {
      BusyIsWritten(n - 1, limit);
      var done := seq(n - 1, i requires 0 <= i < n - 1 => Marks(i));
      OneMoreTurn(done, Marks(n - 1), limit);
      assert done + [Marks(n - 1)] == seq(n, i requires 0 <= i < n => Marks(i));
    }
  }

  /** The limit is never enforced: for every limit there is a run that takes more checkpoints than
      that, and the very first one can still be rolled back to. */
  lemma {:induction false} LimitIsNotEnforced(limit: nat, n: nat)
    requires n >= 2
    ensures var s := Busy(n, limit);
            var (s', r) := Apply(s, Back(n - 1, NoFault));
            && s.count == n && |s.repo.history| == n
            && r == Ok(true) && s'.repo.worktree == map["a" := ""]
  {
    BusyIsWritten(n, limit);
    var done := seq(n, i requires 0 <= i < n => Marks(i));
    RollbackInWritten(done, limit, n - 1);
    assert Marks(0) == "";
  }
}
