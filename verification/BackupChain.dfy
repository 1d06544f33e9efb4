/** The restore chain of an incremental backup. */
module BackupChain {
  import opened Wrappers

  const MAX_CHAIN := 100

  datatype Kind = Full | Incremental | OtherKind

  datatype Run = Run(id: string, machine: string, port: int, kind: Kind, baseRunId: string)

  /** Recorded runs by id; reading one of `broken` fails. */
  datatype Repository = Repository(runs: map<string, Run>, broken: set<string>)

  datatype ChainError = MissingBase | ReadFailed | Incomplete | OtherInstance | TooLong | NoFullStart

  predicate SameInstance(a: Run, b: Run) { a.machine == b.machine && a.port == b.port }

  /** `next` is the recorded base of `run`, of the same instance as `selected`. */
  predicate LinksTo(repo: Repository, selected: Run, run: Run, next: Run) {
    && run.kind.Incremental? && run.baseRunId != "" && run.baseRunId !in repo.broken
    && run.baseRunId in repo.runs && repo.runs[run.baseRunId] == next && SameInstance(next, selected)
  }

  /** From the selected run back along recorded bases. */
  ghost predicate Linked(repo: Repository, selected: Run, path: seq<Run>) {
    && path != [] && path[0] == selected
    && forall i, j :: 0 <= i < |path| && 0 <= j < |path| && j == i + 1 ==> LinksTo(repo, selected, path[i], path[j])
  }

  /** A path from the selected run to a full backup. */
  ghost predicate Restorable(repo: Repository, selected: Run, path: seq<Run>) {
    Linked(repo, selected, path) && path[|path| - 1].kind.Full? && |path| <= 100
  }

  function Reversed(s: seq<Run>): (r: seq<Run>)
    ensures |r| == |s| && forall i :: 0 <= i < |s| ==> r[i] == s[|s| - 1 - i]
  {
    seq(|s|, i requires 0 <= i < |s| => s[|s| - 1 - i])
  }

  /** Why a path goes no further. */
  ghost predicate StopsWith(repo: Repository, selected: Run, last: Run, length: nat, e: ChainError) {
    match e
    case MissingBase => last.kind.Incremental? && last.baseRunId == ""
    case ReadFailed => last.kind.Incremental? && last.baseRunId != "" && last.baseRunId in repo.broken
    case Incomplete =>
      && last.kind.Incremental? && last.baseRunId != ""
      && last.baseRunId !in repo.broken && last.baseRunId !in repo.runs
    case OtherInstance =>
      last.kind.Incremental? && last.baseRunId != "" && last.baseRunId !in repo.broken && last.baseRunId in repo.runs
      && !SameInstance(repo.runs[last.baseRunId], selected)
    case TooLong => length == 101
    case NoFullStart => last.kind.OtherKind?
  }

  /** restoreChain. It succeeds with the reverse of the one restorable path, or says
      where and why the only path there is breaks off; cyclic records run into the
      length limit. */
  method RestoreChain(repo: Repository, selected: Run) returns (r: Result<seq<Run>, ChainError>, ghost path: seq<Run>)
    ensures Linked(repo, selected, path)
    ensures r.Success? ==> Restorable(repo, selected, path) && r.value == Reversed(path)
    ensures r.Failure? ==> StopsWith(repo, selected, path[|path| - 1], |path|, r.error)
    ensures r.Failure? ==> forall other :: !Restorable(repo, selected, other)
  {
    var reversed := [selected];
    var current := selected;
    path := reversed;
    while current.kind.Incremental?
      invariant path == reversed && Linked(repo, selected, reversed) && |reversed| <= MAX_CHAIN
      invariant current == reversed[|reversed| - 1]
      decreases MAX_CHAIN - |reversed|
    {
      if current.baseRunId == "" {
        NoOtherWay(repo, selected, reversed, MissingBase);
        return Failure(MissingBase), path;
      }
      if current.baseRunId in repo.broken {
        NoOtherWay(repo, selected, reversed, ReadFailed);
        return Failure(ReadFailed), path;
      }
      if current.baseRunId !in repo.runs {
        NoOtherWay(repo, selected, reversed, Incomplete);
        return Failure(Incomplete), path;
      }
      var base := repo.runs[current.baseRunId];
      if base.machine != selected.machine || base.port != selected.port {
        NoOtherWay(repo, selected, reversed, OtherInstance);
        return Failure(OtherInstance), path;
      }
      reversed := reversed + [base];
      path := reversed;
      current := base;
      if |reversed| > MAX_CHAIN {
        NoOtherWay(repo, selected, reversed, TooLong);
        return Failure(TooLong), path;
      }
    }
    if current.kind != Full {
      NoOtherWay(repo, selected, reversed, NoFullStart);
      return Failure(NoFullStart), path;
    }
    var chain := new Run[|reversed|](_ => selected);
    for i := 0 to |reversed|
      invariant forall j :: 0 <= j < i ==> chain[|reversed| - 1 - j] == reversed[j]
    {
      chain[|reversed| - 1 - i] := reversed[i];
    }
    assert chain[..] == Reversed(path);
    r := Success(chain[..]);
  }

  /** Bases are recorded once, so two paths agree as far as both go. */
  lemma {:induction false} PathsAgree(repo: Repository, selected: Run, a: seq<Run>, b: seq<Run>, k: nat)
    requires Linked(repo, selected, a) && Linked(repo, selected, b) && k < |a| && k < |b|
    ensures a[k] == b[k]
  {
    if k == 0 {
    } else {
      PathsAgree(repo, selected, a, b, k - 1);
      assert LinksTo(repo, selected, a[k - 1], a[k]) && LinksTo(repo, selected, b[k - 1], b[k]);
    }
  }

  lemma NoOtherWay(repo: Repository, selected: Run, path: seq<Run>, e: ChainError)
    requires Linked(repo, selected, path) && StopsWith(repo, selected, path[|path| - 1], |path|, e)
    ensures forall other :: !Restorable(repo, selected, other)
  {
    forall other ensures !Restorable(repo, selected, other) {
      if Linked(repo, selected, other) && |other| <= 100 {
        var k := if |other| < |path| then |other| - 1 else |path| - 1;
        PathsAgree(repo, selected, path, other, k);
        assert k < |path| - 1 ==> LinksTo(repo, selected, path[k], path[k + 1]);
        assert k < |other| - 1 ==> LinksTo(repo, selected, other[k], other[k + 1]);
      }
    }
  }

  /** A run that came up twice would come up for ever: what leads to a full backup
      has no repetition. */
  lemma {:induction false} RepeatShifts(repo: Repository, selected: Run, path: seq<Run>, i: nat, j: nat, t: nat)
    requires Linked(repo, selected, path) && i < j && j + t < |path| && path[i] == path[j]
    ensures path[i + t] == path[j + t]
  {
    if t == 0 {
    } else {
      RepeatShifts(repo, selected, path, i, j, t - 1);
      assert LinksTo(repo, selected, path[i + t - 1], path[i + t])
             && LinksTo(repo, selected, path[j + t - 1], path[j + t]);
    }
  }

  lemma NoRunTwice(repo: Repository, selected: Run, path: seq<Run>, i: nat, j: nat)
    requires Restorable(repo, selected, path) && i < j < |path|
    ensures path[i] != path[j]
  {
    var t := |path| - 1 - j;
    if path[i] == path[j] {
      RepeatShifts(repo, selected, path, i, j, t);
    }
    assert LinksTo(repo, selected, path[i + t], path[i + t + 1]);
  }

  /** With runs recorded under their own ids no id comes up twice either. */
  lemma NoIdTwice(repo: Repository, selected: Run, path: seq<Run>, i: nat, j: nat)
    requires Restorable(repo, selected, path) && i < j < |path|
    requires forall id :: id in repo.runs ==> repo.runs[id].id == id
    requires selected.id in repo.runs && repo.runs[selected.id] == selected
    ensures path[i].id != path[j].id
  {
    NoRunTwice(repo, selected, path, i, j);
    Recorded(repo, selected, path, i);
    Recorded(repo, selected, path, j);
  }

  lemma Recorded(repo: Repository, selected: Run, path: seq<Run>, k: nat)
    requires Linked(repo, selected, path) && k < |path|
    requires forall id :: id in repo.runs ==> repo.runs[id].id == id
    requires selected.id in repo.runs && repo.runs[selected.id] == selected
    ensures path[k].id in repo.runs && repo.runs[path[k].id] == path[k]
  {
    if k > 0 {
      assert LinksTo(repo, selected, path[k - 1], path[k]);
    }
  }
}
