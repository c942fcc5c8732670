/** The git helpers: how one run of the git binary is reduced to a result
    (`git`, `test_remote`), and the four-step sparse clone (`clone_sparse`).
    The binary itself is not modelled: each run's outcome is an input. */
module GitHelpers {
  import opened Text

  /** The argument vector of one command, starting with "git". */
  type Argv = seq<string>

  /** What a `subprocess.run` call gives back: an exit status with the two
      captured streams, a timeout, or another exception (its `str(e)`). */
  datatype ProcessOutcome =
    | Exited(code: int, stdout: string, stderr: string)
    | TimedOut
    | Raised(message: string)

  /** The `(ok, stdout, stderr)` triple of `git()`. */
  datatype GitResult = GitResult(ok: bool, stdout: string, stderr: string)

  /** The `(ok, message)` pairs that the clone, test and worker steps hand back. */
  datatype Report = Report(ok: bool, message: string)

  /** The commands a sequence of steps issued, in order, and what it returned. */
  datatype Run<T> = Run(trace: seq<Argv>, result: T)

  /** The outcome of the i-th command a sequence of steps issues. */
  type Env = nat -> ProcessOutcome

  /** `TRACKED_PATH`: the one folder the sparse checkout keeps on disk. */
  const TrackedPath: string := "images/portfolio"

  /** `["git", "-C", repo_path] + args`. */
  function GitArgv(repoPath: string, args: seq<string>): Argv {
    ["git", "-C", repoPath] + args
  }

  predicate ExitedZero(o: ProcessOutcome) {
    o.Exited? && o.code == 0
  }

  /** `git(repo_path, *args)`: success is a zero exit status; both streams
      come back stripped; a timeout or an exception is a failure with
      empty stdout and a message in stderr. */
  function Git(o: ProcessOutcome): (r: GitResult)
    ensures r.ok <==> ExitedZero(o)
    ensures Strip(r.stdout) == r.stdout
    ensures o.Exited? ==> r.stdout == Strip(o.stdout) && r.stderr == Strip(o.stderr)
    ensures o.TimedOut? ==> r == GitResult(false, "", "Command timed out")
    ensures o.Raised? ==> r == GitResult(false, "", o.message)
  {
    match o
    case Exited(code, out, err) =>
      StripIdempotent(out);
      GitResult(code == 0, Strip(out), Strip(err))
    case TimedOut => GitResult(false, "", "Command timed out")
    case Raised(msg) => GitResult(false, "", msg)
  }

  /** The command `test_remote` runs (no `-C`: no local repository is needed). */
  function TestRemoteArgv(remoteUrl: string): Argv {
    ["git", "ls-remote", "--heads", remoteUrl]
  }

  /** `test_remote(remote_url)`: one `ls-remote` of the URL; reachable
      exactly when it exits with status zero; a failure always carries a
      message, git's own stderr when it wrote one. */
  function TestRemote(remoteUrl: string, o: ProcessOutcome): (r: Run<Report>)
    ensures r.trace == [TestRemoteArgv(remoteUrl)]
    ensures r.result.ok <==> ExitedZero(o)
    ensures r.result.ok ==> r.result.message == "Connection successful"
    ensures o.Exited? && !r.result.ok ==>
      r.result.message != [] &&
      (if AllSpace(o.stderr) then r.result.message == "Connection failed" else r.result.message == Strip(o.stderr))
    ensures o.TimedOut? ==> r.result == Report(false, "Connection timed out")
    ensures o.Raised? ==> r.result == Report(false, o.message)
  {
    var report :=
      match o
      case Exited(code, _, err) =>
        if code == 0 then Report(true, "Connection successful")
        else Report(false, if Strip(err) != [] then Strip(err) else "Connection failed")
      case TimedOut => Report(false, "Connection timed out")
      case Raised(msg) => Report(false, msg);
    Run([TestRemoteArgv(remoteUrl)], report)
  }

  // ---- Stop at the first failure -------------------------------------------

  predicate AllTrue(oks: seq<bool>) {
    forall j :: 0 <= j < |oks| ==> oks[j]
  }

  /** How many of a planned sequence of steps are issued when the sequence
      stops right after the first step that fails; `oks[i]` says whether
      step i succeeds if it is issued. */
  function StepsIssued(oks: seq<bool>): (k: nat)
    ensures k <= |oks|
  {
    if oks == [] then 0
    else if !oks[0] then 1
    else 1 + StepsIssued(oks[1..])
  }

  /** Step i is issued exactly when every step before it succeeded. */
  lemma {:induction false} StepsIssuedSpec(oks: seq<bool>, i: nat)
    requires i < |oks|
    ensures i < StepsIssued(oks) <==> AllTrue(oks[..i])
  {
    if i == 0 {
      assert oks[..i] == [];
    } else if !oks[0] {
      assert oks[..i][0] == oks[0];
    } else {
      StepsIssuedSpec(oks[1..], i - 1);
      assert oks[..i] == [oks[0]] + oks[1..][..i - 1];
      assert AllTrue(oks[..i]) <==> AllTrue(oks[1..][..i - 1]);
    }
  }

  /** Every step is issued exactly when no step but possibly the last fails;
      short of that, the last step issued is the first that failed. */
  lemma {:induction false} StepsIssuedStops(oks: seq<bool>)
    ensures StepsIssued(oks) == |oks| <==> oks == [] || AllTrue(oks[..|oks| - 1])
    ensures 0 < StepsIssued(oks) < |oks| ==> !oks[StepsIssued(oks) - 1]
    ensures oks != [] ==> 0 < StepsIssued(oks)
  {
    if oks != [] && oks[0] {
      StepsIssuedStops(oks[1..]);
      if |oks| > 1 {
        assert oks[..|oks| - 1] == [oks[0]] + oks[1..][..|oks| - 2];
      }
    }
  }

  /** `StepsIssued` of four steps, spelled out. */
  lemma StepsIssuedOfFour(a: bool, b: bool, c: bool, d: bool)
    ensures StepsIssued([a, b, c, d]) == if !a then 1 else if !b then 2 else if !c then 3 else 4
  {
    assert [a, b, c, d][1..] == [b, c, d];
    assert [b, c, d][1..] == [c, d];
    assert [c, d][1..] == [d];
    assert [d][1..] == [];
    assert StepsIssued([d]) == 1;
    assert StepsIssued([c, d]) == if !c then 1 else 2;
    assert StepsIssued([b, c, d]) == if !b then 1 else if !c then 2 else 3;
  }

  lemma AllTrueOfFour(oks: seq<bool>)
    requires |oks| == 4
    ensures AllTrue(oks) <==> oks[0] && oks[1] && oks[2] && oks[3]
  {
  }

  // ---- clone_sparse ---------------------------------------------------------

  /** The four commands of a full sparse clone, in order. */
  function CloneCommands(remoteUrl: string, repoPath: string, branch: string, trackedPath: string): seq<Argv> {
    [ ["git", "clone", "--filter=blob:none", "--no-checkout", remoteUrl, repoPath],
      GitArgv(repoPath, ["sparse-checkout", "init", "--no-cone"]),
      GitArgv(repoPath, ["sparse-checkout", "set", trackedPath]),
      GitArgv(repoPath, ["checkout", branch]) ]
  }

  /** Whether each clone step succeeds, if issued. */
  function CloneOks(env: Env): seq<bool> {
    [ExitedZero(env(0)), Git(env(1)).ok, Git(env(2)).ok, Git(env(3)).ok]
  }

  /** The message of a failed clone step: the clone's own stderr (or the
      timeout / exception text), or the step's name before git's stderr. */
  function CloneStepError(step: nat, env: Env): string
    requires step < 4
  {
    match step
    case 0 =>
      (match env(0)
       case Exited(_, _, err) => Strip(err)
       case TimedOut => "Clone timed out"
       case Raised(msg) => msg)
    case 1 => "sparse-checkout init failed: " + Git(env(1)).stderr
    case 2 => "sparse-checkout set failed: " + Git(env(2)).stderr
    case 3 => "checkout failed: " + Git(env(3)).stderr
  }

  /** `clone_sparse(remote_url, repo_path, branch, tracked_path)`: blob-less,
      checkout-less clone, then non-cone sparse-checkout init, the pattern,
      and the checkout of the branch, stopping at the first step that fails.
      The partial clone left on disk by a later failure is not undone. */
  function CloneSparse(remoteUrl: string, repoPath: string, branch: string, trackedPath: string, env: Env): (r: Run<Report>)
    ensures 1 <= |r.trace| <= 4
    ensures r.trace == CloneCommands(remoteUrl, repoPath, branch, trackedPath)[..|r.trace|]
    ensures r.result.ok ==> |r.trace| == 4 && r.result.message == ""
  {
    var cmds := CloneCommands(remoteUrl, repoPath, branch, trackedPath);
    match env(0)
    case TimedOut => Run(cmds[..1], Report(false, "Clone timed out"))
    case Raised(msg) => Run(cmds[..1], Report(false, msg))
    case Exited(code, _, err) =>
      if code != 0 then Run(cmds[..1], Report(false, Strip(err)))
      else
        var init := Git(env(1));
        if !init.ok then Run(cmds[..2], Report(false, "sparse-checkout init failed: " + init.stderr))
        else
          var pattern := Git(env(2));
          if !pattern.ok then Run(cmds[..3], Report(false, "sparse-checkout set failed: " + pattern.stderr))
          else
            var checkout := Git(env(3));
            if !checkout.ok then Run(cmds[..4], Report(false, "checkout failed: " + checkout.stderr))
            else Run(cmds[..4], Report(true, ""))
  }

  /** The clone issues its steps up to and including the first that fails,
      and succeeds exactly when all four do. */
  lemma CloneStopsAtFirstFailure(remoteUrl: string, repoPath: string, branch: string, trackedPath: string, env: Env)
    ensures var r := CloneSparse(remoteUrl, repoPath, branch, trackedPath, env);
      && r.trace == CloneCommands(remoteUrl, repoPath, branch, trackedPath)[..StepsIssued(CloneOks(env))]
      && (r.result.ok <==> AllTrue(CloneOks(env)))
  {
    var oks := CloneOks(env);
    var r := CloneSparse(remoteUrl, repoPath, branch, trackedPath, env);
    StepsIssuedOfFour(oks[0], oks[1], oks[2], oks[3]);
    assert oks == [oks[0], oks[1], oks[2], oks[3]];
    AllTrueOfFour(oks);
    if !oks[0] {
      assert |r.trace| == 1;
    } else if !oks[1] {
      assert |r.trace| == 2;
    } else if !oks[2] {
      assert |r.trace| == 3;
    } else {
      assert |r.trace| == 4;
      assert r.result.ok == oks[3];
    }
  }

  /** A failed clone reports the message of its last step, the first that
      failed, with that step's prefix. */
  lemma CloneFailureMessage(remoteUrl: string, repoPath: string, branch: string, trackedPath: string, env: Env)
    ensures var r := CloneSparse(remoteUrl, repoPath, branch, trackedPath, env);
      !r.result.ok ==> r.result.message == CloneStepError(|r.trace| - 1, env)
  {
    var r := CloneSparse(remoteUrl, repoPath, branch, trackedPath, env);
    if !ExitedZero(env(0)) {
      assert |r.trace| == 1;
    } else if !Git(env(1)).ok {
      assert |r.trace| == 2;
    } else if !Git(env(2)).ok {
      assert |r.trace| == 3;
    } else {
      assert |r.trace| == 4;
    }
  }
}
