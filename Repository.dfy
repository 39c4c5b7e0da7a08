/**
 * Repository resolution: where a named repository lives, and the check-then-create step
 * that makes a bare repository on first use.
 *
 * The filesystem is abstracted to the set of repository paths that exist. Running
 * `git init --bare` is not modelled; its outcome is a parameter.
 */
module Repository {
  import opened Routing

  /** The directory every repository lives under. */
  const REPO_ROOT: string := "repo"

  /**
   * `path.join('repo', name + '.git')`. For a single-segment name the joined segment has no
   * separator and ends in `.git`, so it is never `.` or `..` and normalization leaves it as is.
   */
  function RepoPath(name: string): string {
    REPO_ROOT + "/" + name + ".git"
  }

  /** The shell command line the server runs to create a repository. */
  function InitCommand(path: string): string {
    "git init --bare " + path
  }

  /** How `git init --bare` ends: success, or failure with its diagnostic output. */
  datatype InitOutcome = InitSucceeds | InitFails(stderr: string)

  /** What resolution did: found the repository, created it, or failed to create it. */
  datatype Resolution =
    | Found(path: string)
    | Created(path: string)
    | InitFailed(path: string, stderr: string)
  {
    /** Whether `git init` was run. */
    predicate RanInit() {
      !Found?
    }
  }

  /**
   * Resolution against the set `existing` of repository paths: init is attempted only
   * when the path is absent, and `init` decides how the attempt ends.
   */
  function ResolveIn(existing: set<string>, name: string, init: InitOutcome): (r: Resolution)
    ensures r.path == RepoPath(name)
    ensures r.RanInit() <==> RepoPath(name) !in existing
    ensures r.InitFailed? <==> RepoPath(name) !in existing && init.InitFails?
    ensures r.InitFailed? ==> r.stderr == init.stderr
  {
    var path := RepoPath(name);
    if path in existing then Found(path)
    else match init
      case InitSucceeds => Created(path)
      case InitFails(err) => InitFailed(path, err)
  }

  /** The repositories that exist after resolution `r`. */
  function ReposAfter(existing: set<string>, r: Resolution): (after: set<string>)
    ensures existing <= after
    ensures after - existing <= {r.path}
    ensures r.path in after <==> r.path in existing || r.Created?
  {
    if r.Created? then existing + {r.path} else existing
  }

  /** A successful resolution leaves the repository in place; a failed one changes nothing. */
  lemma ResolveOutcome(existing: set<string>, name: string, init: InitOutcome)
    ensures var r := ResolveIn(existing, name, init);
      (!r.InitFailed? <==> RepoPath(name) in ReposAfter(existing, r))
      && (r.InitFailed? ==> ReposAfter(existing, r) == existing)
      && ReposAfter(existing, r) - existing <= {RepoPath(name)}
  {
  }

  /**
   * Resolution is idempotent: after a resolution that did not fail, resolving the same name
   * again finds the repository, never runs init, and changes nothing, whatever init would do.
   */
  lemma ResolveIdempotent(existing: set<string>, name: string, first: InitOutcome, second: InitOutcome)
    requires !ResolveIn(existing, name, first).InitFailed?
    ensures var after := ReposAfter(existing, ResolveIn(existing, name, first));
      ResolveIn(after, name, second) == Found(RepoPath(name))
      && ReposAfter(after, ResolveIn(after, name, second)) == after
  {
  }

  /** Resolved paths are single children of the root, and distinct names get distinct paths. */
  lemma RepoPathIsChildOfRoot(name: string)
    requires IsRepoName(name)
    ensures var p := RepoPath(name);
      p[..|REPO_ROOT| + 1] == REPO_ROOT + "/"
      && p[|REPO_ROOT| + 1..] == name + ".git"
      && '/' !in p[|REPO_ROOT| + 1..]
      && p[|REPO_ROOT| + 1..] != "." && p[|REPO_ROOT| + 1..] != ".."
  {
    var p := RepoPath(name);
    var segment := p[|REPO_ROOT| + 1..];
    assert segment == name + ".git";
    assert |segment| >= 5;
    forall i | 0 <= i < |segment|
      ensures segment[i] != '/'
    {
      if i < |name| {
        assert segment[i] == name[i];
      }
    }
  }

  lemma RepoPathInjective(a: string, b: string)
    requires RepoPath(a) == RepoPath(b)
    ensures a == b
  {
    var p := RepoPath(a);
    assert a == p[5..|p| - 4];
    assert b == RepoPath(b)[5..|RepoPath(b)| - 4];
  }

  /** The filesystem as far as the server sees it: which repository paths exist. */
  class RepoStore {
    var existing: set<string>

    constructor (existing: set<string>)
      ensures this.existing == existing
    {
      this.existing := existing;
    }

    /**
     * `fs.existsSync(repoPath)`, then `git init --bare repoPath` only if it is absent;
     * a successful init makes the path exist.
     */
    method Resolve(name: string, init: InitOutcome) returns (r: Resolution)
      modifies this
      ensures r == ResolveIn(old(existing), name, init)
      ensures existing == ReposAfter(old(existing), r)
    {
      var path := RepoPath(name);
      if path !in existing {
        match init {
          case InitSucceeds =>
            existing := existing + {path};
            r := Created(path);
          case InitFails(err) =>
            r := InitFailed(path, err);
        }
      } else {
        r := Found(path);
      }
    }
  }
}
