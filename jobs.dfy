/** The work `SimpleGitApp` hands to git: the sparse-checkout check and
    its init/set worker, the status classification of the tracked folder,
    the commit message, pull, and the pull-stage-commit-push pipeline. Each
    reads a snapshot of the configuration; the git runs are inputs. */
module Jobs {
  import opened Text
  import opened Config
  import opened GitHelpers

  // ---- Sparse checkout --------------------------------------------------------

  /** The `sparse-checkout list` query `_ensure_sparse_checkout` issues. */
  function SparseListCommand(cfg: Config): Argv
    requires "repo_path" in cfg
  {
    GitArgv(cfg["repo_path"], ["sparse-checkout", "list"])
  }

  /** The list query succeeded and one of its output lines is exactly the
      tracked path: the path occurs at the start of the output or right
      after a line boundary, and is followed by a boundary or the end. */
  predicate SparseListed(list: GitResult)
    ensures SparseListed(list) <==> list.ok && exists i :: LineAt(list.stdout, TrackedPath, i)
  {
    assert NoLineBreak(TrackedPath);
    SplitLinesMembership(list.stdout, TrackedPath);
    list.ok && TrackedPath in SplitLines(list.stdout)
  }

  /** The two commands of `_sparse_worker`, in order. */
  function SparseCommands(cfg: Config): seq<Argv>
    requires "repo_path" in cfg
  {
    [ GitArgv(cfg["repo_path"], ["sparse-checkout", "init", "--no-cone"]),
      GitArgv(cfg["repo_path"], ["sparse-checkout", "set", TrackedPath]) ]
  }

  /** `_sparse_worker`: init in non-cone mode, then set the tracked path;
      a failed init means set is never issued. */
  function SparseWorker(cfg: Config, env: Env): (r: Run<Report>)
    requires "repo_path" in cfg
    ensures r.trace == SparseCommands(cfg)[..StepsIssued([Git(env(0)).ok, Git(env(1)).ok])]
    ensures r.result.ok <==> Git(env(0)).ok && Git(env(1)).ok
    ensures r.result.ok ==> r.result.message == ""
    ensures !Git(env(0)).ok ==> r.result.message == "sparse-checkout init failed: " + Git(env(0)).stderr
    ensures Git(env(0)).ok && !Git(env(1)).ok ==>
      r.result.message == "sparse-checkout set failed: " + Git(env(1)).stderr
  {
    var cmds := SparseCommands(cfg);
    var init := Git(env(0));
    assert [init.ok, Git(env(1)).ok][1..] == [Git(env(1)).ok];
    if !init.ok then Run(cmds[..1], Report(false, "sparse-checkout init failed: " + init.stderr))
    else
      var pattern := Git(env(1));
      if !pattern.ok then Run(cmds[..2], Report(false, "sparse-checkout set failed: " + pattern.stderr))
      else Run(cmds[..2], Report(true, ""))
  }

  // ---- Status of the tracked folder -------------------------------------------

  /** The per-path status query (`git status --porcelain -- images/portfolio`). */
  function StatusCommand(repoPath: string): Argv {
    GitArgv(repoPath, ["status", "--porcelain", "--", TrackedPath])
  }

  /** The four rows `_refresh_status` can show for the tracked folder. */
  datatype Status = Unknown | Missing | Changed(count: nat) | UpToDate

  /** The classification part of `_refresh_status`: a failed query wins over
      a missing folder, which wins over pending changes. */
  function Classify(query: GitResult, trackedExists: bool): (s: Status)
    ensures s.Unknown? <==> !query.ok
    ensures s.Missing? <==> query.ok && !trackedExists
    ensures s.Changed? <==> query.ok && trackedExists && query.stdout != []
    ensures s.Changed? ==> s.count == CountNonBlank(SplitLines(query.stdout))
  {
    if !query.ok then Unknown
    else if !trackedExists then Missing
    else if query.stdout != [] then Changed(CountNonBlank(SplitLines(query.stdout)))
    else UpToDate
  }

  /** The text of the status row; only a "changed" row starts with a digit,
      the number of changed files. */
  function StatusText(s: Status): (t: string)
    ensures t != []
    ensures IsDigit(t[0]) <==> s.Changed?
  {
    match s
    case Unknown => "unknown"
    case Missing => "missing"
    case Changed(n) => NatToString(n) + ChangedSuffix
    case UpToDate => "up to date"
  }

  const ChangedSuffix: string := " file(s) changed \U{2014} ready to push"

  predicate IsDigit(c: char) {
    '0' <= c <= '9'
  }

  /** Different statuses show different rows, so the row tells the status,
      and the count, back. */
  lemma StatusTextDistinct(a: Status, b: Status)
    ensures StatusText(a) == StatusText(b) ==> a == b
  {
    if a.Changed? && b.Changed? && StatusText(a) == StatusText(b) {
      var x, y := NatToString(a.count), NatToString(b.count);
      if |x| == |y| {
        assert x == StatusText(a)[..|x|] == StatusText(b)[..|y|] == y;
      }
    }
  }

  /** A folder reported as changed has at least one changed file: git's
      output arrives stripped, so a non-empty one has a non-blank line. */
  lemma ChangedCountPositive(o: ProcessOutcome, trackedExists: bool)
    ensures Classify(Git(o), trackedExists).Changed? ==> Classify(Git(o), trackedExists).count >= 1
  {
    var q := Git(o);
    if q.ok && trackedExists && q.stdout != [] {
      NonBlankLines(q.stdout);
    }
  }

  /** `_on_push`'s pre-check: the status query succeeded with blank output. */
  predicate NothingToPush(query: GitResult)
    ensures NothingToPush(query) <==> query.ok && AllSpace(query.stdout)
  {
    query.ok && IsBlank(query.stdout)
  }

  /** The push pre-check and the status row read the same query alike: for
      a folder that exists, the push is skipped exactly when the row says
      "up to date". */
  lemma PrecheckAgreesWithStatus(o: ProcessOutcome)
    ensures NothingToPush(Git(o)) <==> Classify(Git(o), true) == UpToDate
  {
    var q := Git(o);
    if q.ok && IsBlank(q.stdout) {
      assert q.stdout == Strip(q.stdout) == [];
    }
  }

  // ---- Commit message ---------------------------------------------------------

  /** `_default_commit_msg`: the configured prefix, a dash, and the time
      stamp (`%Y-%m-%d %H:%M`, an input here). */
  function DefaultCommitMessage(cfg: Config, stamp: string): (msg: string)
    ensures "commit_message" in cfg ==> msg == cfg["commit_message"] + " \U{2014} " + stamp
    ensures "commit_message" !in cfg ==> msg == "Update portfolio via Simple Git \U{2014} " + stamp
  {
    Get(cfg, "commit_message", "Update portfolio via Simple Git") + " \U{2014} " + stamp
  }

  /** The message `_do_push` commits with: the trimmed field, or the default
      message when the trimmed field is empty. */
  function CommitMessage(field: string, cfg: Config, stamp: string): (msg: string)
    ensures Strip(field) != [] ==> msg == Strip(field)
    ensures Strip(field) == [] ==> msg == DefaultCommitMessage(cfg, stamp)
  {
    if Strip(field) != [] then Strip(field) else DefaultCommitMessage(cfg, stamp)
  }

  /** The commit message is never blank, whatever the field, the prefix or
      the stamp: the dash of the default message is not whitespace. */
  lemma CommitMessageNeverBlank(field: string, cfg: Config, stamp: string)
    ensures !IsBlank(CommitMessage(field, cfg, stamp))
  {
    var msg := CommitMessage(field, cfg, stamp);
    if Strip(field) != [] {
      StripIdempotent(field);
    } else {
      var prefix := Get(cfg, "commit_message", "Update portfolio via Simple Git");
      assert msg[|prefix| + 1] == '\U{2014}';
      assert !AllSpace(msg);
    }
  }

  // ---- Pull -------------------------------------------------------------------

  /** The pull `_do_pull` issues, and the first step of `_do_push`. */
  function PullCommand(cfg: Config): Argv
    requires "repo_path" in cfg
  {
    GitArgv(cfg["repo_path"], ["pull", "origin", Get(cfg, "branch", "main")])
  }

  /** What `_pull_done` reports: git's stdout on success, or "Already up to
      date." when it printed nothing; git's stderr on failure. */
  function PullReport(pull: GitResult): (r: Report)
    ensures r.ok <==> pull.ok
    ensures r.ok ==> r.message != [] && (pull.stdout != [] ==> r.message == pull.stdout)
    ensures r.ok && pull.stdout == [] ==> r.message == "Already up to date."
    ensures !r.ok ==> r.message == pull.stderr
  {
    if pull.ok then Report(true, if pull.stdout != [] then pull.stdout else "Already up to date.")
    else Report(false, pull.stderr)
  }

  // ---- Push -------------------------------------------------------------------

  /** The four commands of a full push, in order. */
  function PushCommands(cfg: Config, msg: string): seq<Argv>
    requires "repo_path" in cfg
  {
    var repo, branch := cfg["repo_path"], Get(cfg, "branch", "main");
    [ PullCommand(cfg),
      GitArgv(repo, ["add", "--", TrackedPath]),
      GitArgv(repo, ["commit", "-m", msg]),
      GitArgv(repo, ["push", "origin", branch]) ]
  }

  /** Whether each push step succeeds, if issued. */
  function PushOks(env: Env): seq<bool> {
    [Git(env(0)).ok, Git(env(1)).ok, Git(env(2)).ok, Git(env(3)).ok]
  }

  /** git's "nothing to commit", in any case, in stderr or stdout. */
  predicate NothingToCommit(commit: GitResult)
    ensures Contains(Lower(commit.stderr), "nothing to commit") || Contains(Lower(commit.stdout), "nothing to commit") ==>
      NothingToCommit(commit)
  {
    var needle := "nothing to commit";
    var found := Contains(Lower(commit.stderr + commit.stdout), needle);
    if Contains(Lower(commit.stderr), needle) || Contains(Lower(commit.stdout), needle) then
      LowerConcat(commit.stderr, commit.stdout);
      ContainsConcat(Lower(commit.stderr), Lower(commit.stdout), needle);
      found
    else found
  }

  /** Whichever stream it is in and however it is capitalised, git's
      "nothing to commit" is recognised. */
  lemma NothingToCommitAnyCase(commit: GitResult, said: string)
    requires Lower(said) == "nothing to commit"
    requires Contains(commit.stderr, said) || Contains(commit.stdout, said)
    ensures NothingToCommit(commit)
  {
    ContainsConcat(commit.stderr, commit.stdout, said);
    ContainsLower(commit.stderr + commit.stdout, said);
  }

  /** `_do_push`: pull, stage the tracked folder, commit, push; the first
      failure ends the run. A failed commit that says "nothing to commit" is
      a success with nothing pushed. */
  function DoPush(cfg: Config, field: string, stamp: string, env: Env): (r: Run<Report>)
    requires "repo_path" in cfg
    ensures |r.trace| == if !Git(env(0)).ok then 1 else if !Git(env(1)).ok then 2 else if !Git(env(2)).ok then 3 else 4
    ensures r.trace == PushCommands(cfg, CommitMessage(field, cfg, stamp))[..|r.trace|]
    ensures !Git(env(0)).ok ==> r.result == Report(false, "Pull failed before push: " + Git(env(0)).stderr)
    ensures Git(env(0)).ok && !Git(env(1)).ok ==> r.result == Report(false, "Stage failed: " + Git(env(1)).stderr)
    ensures Git(env(0)).ok && Git(env(1)).ok && !Git(env(2)).ok ==>
      r.result == if NothingToCommit(Git(env(2))) then Report(true, "Nothing new to commit.")
                  else Report(false, "Commit failed: " + Git(env(2)).stderr)
    ensures |r.trace| == 4 ==> r.result.ok == Git(env(3)).ok
    ensures |r.trace| == 4 && r.result.ok ==> r.result.message == "Push complete."
    ensures |r.trace| == 4 && !r.result.ok ==>
      r.result.message == if Git(env(3)).stdout != [] then Git(env(3)).stdout else Git(env(3)).stderr
  {
    var msg := CommitMessage(field, cfg, stamp);
    var cmds := PushCommands(cfg, msg);
    var pull := Git(env(0));
    if !pull.ok then Run(cmds[..1], Report(false, "Pull failed before push: " + pull.stderr))
    else
      var add := Git(env(1));
      if !add.ok then Run(cmds[..2], Report(false, "Stage failed: " + add.stderr))
      else
        var commit := Git(env(2));
        if !commit.ok then
          if NothingToCommit(commit) then Run(cmds[..3], Report(true, "Nothing new to commit."))
          else Run(cmds[..3], Report(false, "Commit failed: " + commit.stderr))
        else
          var push := Git(env(3));
          var output := if push.stdout != [] then push.stdout else push.stderr;
          Run(cmds[..4], Report(push.ok, if !push.ok then output else "Push complete."))
  }

  /** The push issues its steps up to and including the first that fails. */
  lemma PushStopsAtFirstFailure(cfg: Config, field: string, stamp: string, env: Env)
    requires "repo_path" in cfg
    ensures var r := DoPush(cfg, field, stamp, env);
      r.trace == PushCommands(cfg, CommitMessage(field, cfg, stamp))[..StepsIssued(PushOks(env))]
  {
    var oks := PushOks(env);
    var r := DoPush(cfg, field, stamp, env);
    StepsIssuedOfFour(oks[0], oks[1], oks[2], oks[3]);
    assert oks == [oks[0], oks[1], oks[2], oks[3]];
  }

  /** A push reports success exactly when pull and stage succeeded and
      either the commit and the push both did, or the commit found nothing
      to commit; in the latter case no push command is issued. */
  lemma PushSucceedsIff(cfg: Config, field: string, stamp: string, env: Env)
    requires "repo_path" in cfg
    ensures var r := DoPush(cfg, field, stamp, env);
      var commit := Git(env(2));
      && (r.result.ok <==>
            Git(env(0)).ok && Git(env(1)).ok &&
            ((commit.ok && Git(env(3)).ok) || (!commit.ok && NothingToCommit(commit))))
      && (r.result.ok && |r.trace| < 4 ==> r.result.message == "Nothing new to commit.")
  {
  }
}
