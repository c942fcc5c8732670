/** `SimpleGitApp` without its widgets: the configuration, the busy flag,
    the commit-message field, the tracked-items panel, and the git commands
    its interface-thread handlers issue. Background workers (clone, sparse
    setup, pull, push) are the functions of `Jobs` and `GitHelpers`; a
    handler that starts one returns which, and the matching `...Done`
    handler receives the worker's result. */
module App {
  import opened Text
  import opened Config
  import opened GitHelpers
  import opened Jobs

  /** The background worker a handler started, if any. */
  datatype Job = NoJob | CloneJob | SparseJob | PullJob | PushJob

  /** The filesystem existence checks a handler makes: the repository
      directory, its `.git`, and the tracked folder inside it. */
  datatype Disk = Disk(repoExists: bool, dotGitExists: bool, trackedExists: bool)

  /** The tracked-items panel: not yet drawn, "No repo configured or repo
      not found.", or the row for the tracked folder. */
  datatype Panel = Empty | NotFound | Row(status: Status)

  /** The part of the application state that `_refresh_status` rewrites. */
  datatype View = View(panel: Panel, commitField: string, issued: seq<Argv>)

  /** `_repo_ready`: the local path is set (ignoring whitespace). */
  predicate RepoReady(cfg: Config)
    ensures RepoReady(cfg) <==> "repo_path" in cfg && !AllSpace(cfg["repo_path"])
  {
    Strip(Get(cfg, "repo_path", "")) != []
  }

  /** `_startup_check`'s guard: both the local path and the remote URL are
      set (ignoring whitespace). */
  predicate Configured(cfg: Config)
    ensures Configured(cfg) <==> RepoReady(cfg) && "remote_url" in cfg && !AllSpace(cfg["remote_url"])
  {
    Strip(Get(cfg, "repo_path", "")) != [] && Strip(Get(cfg, "remote_url", "")) != []
  }

  /** `_refresh_status` as a function of the state it rewrites: with no
      repository on disk the panel says so and nothing is issued; otherwise
      one status query, its classification shown, and the commit field
      reset to the default message. */
  function Refreshed(cfg: Config, disk: Disk, status: ProcessOutcome, stamp: string, v: View): (w: View)
    ensures |v.issued| <= |w.issued| <= |v.issued| + 1 && w.issued[..|v.issued|] == v.issued
  {
    var repo := Strip(Get(cfg, "repo_path", ""));
    if repo == [] || !disk.repoExists then View(NotFound, v.commitField, v.issued)
    else View(Row(Classify(Git(status), disk.trackedExists)), DefaultCommitMessage(cfg, stamp),
              v.issued + [StatusCommand(repo)])
  }

  /** `_clone_worker`: the sparse clone of the configured remote into the
      configured path, keeping `TrackedPath` and checking out the configured
      branch ("main" when unset). */
  function CloneWorker(cfg: Config, env: Env): (r: Run<Report>)
    requires "remote_url" in cfg && "repo_path" in cfg
    ensures r.trace != [] && r.trace[0] == ["git", "clone", "--filter=blob:none", "--no-checkout", cfg["remote_url"], cfg["repo_path"]]
    ensures |r.trace| == 4 ==> r.trace[3] == GitArgv(cfg["repo_path"], ["checkout", Get(cfg, "branch", "main")])
    ensures r.result.ok <==> AllTrue(CloneOks(env))
  {
    CloneStopsAtFirstFailure(cfg["remote_url"], cfg["repo_path"], Get(cfg, "branch", "main"), TrackedPath, env);
    CloneSparse(cfg["remote_url"], cfg["repo_path"], Get(cfg, "branch", "main"), TrackedPath, env)
  }

  /** What a handler leaves behind: the job it started, the busy flag and
      the view. */
  datatype Handled = Handled(job: Job, busy: bool, view: View)

  /** `_ensure_sparse_checkout` on the state it touches: the list query is
      issued first; a listed tracked path refreshes the status and starts
      nothing, anything else starts the init/set worker. */
  function SparseChecked(cfg: Config, disk: Disk, list: ProcessOutcome, status: ProcessOutcome, stamp: string,
                         busy: bool, v: View): (h: Handled)
    requires "repo_path" in cfg
    ensures h.job == NoJob || h.job == SparseJob
    ensures h.job == NoJob <==> SparseListed(Git(list))
    ensures h.busy == (busy || h.job == SparseJob)
    ensures |v.issued| < |h.view.issued| <= |v.issued| + 2
    ensures h.view.issued[..|v.issued| + 1] == v.issued + [SparseListCommand(cfg)]
    ensures h.job == SparseJob ==> h.view.panel == v.panel && h.view.commitField == v.commitField
  {
    var listed := View(v.panel, v.commitField, v.issued + [SparseListCommand(cfg)]);
    if SparseListed(Git(list)) then
      var w := Refreshed(cfg, disk, status, stamp, listed);
      assert w.issued[..|v.issued| + 1] == w.issued[..|listed.issued|][..|v.issued| + 1];
      Handled(NoJob, busy, w)
    else Handled(SparseJob, true, listed)
  }

  /** `_startup_check` on the state it touches: unconfigured means nothing
      happens; an existing repository goes to the sparse-checkout check;
      anything else starts the clone. The busy flag is not consulted. */
  function Startup(cfg: Config, disk: Disk, list: ProcessOutcome, status: ProcessOutcome, stamp: string,
                   busy: bool, v: View): (h: Handled)
    ensures !Configured(cfg) ==> h == Handled(NoJob, busy, v)
    ensures h.job == CloneJob <==> Configured(cfg) && !(disk.repoExists && disk.dotGitExists)
    ensures h.job == CloneJob ==> h.busy && h.view == v
    ensures h.job == NoJob ==> h.busy == busy
    ensures h.job == SparseJob ==> h.busy && !SparseListed(Git(list))
    ensures Configured(cfg) && disk.repoExists && disk.dotGitExists ==>
      && h == SparseChecked(cfg, disk, list, status, stamp, busy, v)
      && |h.view.issued| > |v.issued|
      && h.view.issued[|v.issued|] == SparseListCommand(cfg)
  {
    if !Configured(cfg) then Handled(NoJob, busy, v)
    else if disk.repoExists && disk.dotGitExists then
      var h := SparseChecked(cfg, disk, list, status, stamp, busy, v);
      assert h.view.issued[|v.issued|] == h.view.issued[..|v.issued| + 1][|v.issued|];
      h
    else Handled(CloneJob, true, v)
  }

  class SimpleGitApp {
    var config: Config
    var busy: bool
    var commitField: string
    var panel: Panel
    /** The git commands issued from the interface thread, in order. */
    var issued: seq<Argv>

    function CurrentView(): View
      reads this
    {
      View(panel, commitField, issued)
    }

    constructor (config: Config)
      ensures this.config == config && !busy
      ensures CurrentView() == View(Empty, "", [])
    {
      this.config := config;
      busy := false;
      commitField := "";
      panel := Empty;
      issued := [];
    }

    /** `_set_busy`. */
    method SetBusy(b: bool)
      modifies this`busy
      ensures busy == b
    {
      busy := b;
    }

    /** `_refresh_status`. */
    method RefreshStatus(disk: Disk, status: ProcessOutcome, stamp: string)
      modifies this`panel, this`commitField, this`issued
      ensures CurrentView() == Refreshed(config, disk, status, stamp, old(CurrentView()))
    {
      var repo := Strip(Get(config, "repo_path", ""));
      if repo == [] || !disk.repoExists {
        panel := NotFound;
        return;
      }
      issued := issued + [StatusCommand(repo)];
      var query := Git(status);
      panel := Row(Classify(query, disk.trackedExists));
      commitField := DefaultCommitMessage(config, stamp);
    }

    /** `_ensure_sparse_checkout`: if the list query shows the tracked path,
      refresh the status and start nothing; otherwise start the init/set
      worker. */
    method EnsureSparseCheckout(disk: Disk, list: ProcessOutcome, status: ProcessOutcome, stamp: string)
      returns (job: Job)
      requires "repo_path" in config
      modifies this`busy, this`panel, this`commitField, this`issued
      ensures Handled(job, busy, CurrentView()) ==
        SparseChecked(config, disk, list, status, stamp, old(busy), old(CurrentView()))
    {
      var listed := SparseListed(Git(list));
      issued := issued + [SparseListCommand(config)];
      if listed {
        RefreshStatus(disk, status, stamp);
        job := NoJob;
      } else {
        SetBusy(true);
        job := SparseJob;
      }
    }

    /** `_startup_check`. */
    method StartupCheck(disk: Disk, list: ProcessOutcome, status: ProcessOutcome, stamp: string)
      returns (job: Job)
      modifies this`busy, this`panel, this`commitField, this`issued
      ensures Handled(job, busy, CurrentView()) ==
        Startup(config, disk, list, status, stamp, old(busy), old(CurrentView()))
    {
      var repo := Strip(Get(config, "repo_path", ""));
      var remote := Strip(Get(config, "remote_url", ""));
      if repo == [] || remote == [] {
        return NoJob;
      }
      if disk.repoExists && disk.dotGitExists {
        job := EnsureSparseCheckout(disk, list, status, stamp);
      } else {
        SetBusy(true);
        job := CloneJob;
      }
    }

    /** `_on_settings_saved`: adopt the new configuration (the file write is
      not modelled) and rerun the startup check. */
    method OnSettingsSaved(newConfig: Config, disk: Disk, list: ProcessOutcome, status: ProcessOutcome, stamp: string)
      returns (job: Job)
      modifies this`config, this`busy, this`panel, this`commitField, this`issued
      ensures config == newConfig
      ensures Handled(job, busy, CurrentView()) ==
        Startup(newConfig, disk, list, status, stamp, old(busy), old(CurrentView()))
    {
      config := newConfig;
      job := StartupCheck(disk, list, status, stamp);
    }

    /** `_on_pull`: ignored while busy or unconfigured; otherwise the pull
      worker starts and the application is busy. */
    method OnPull() returns (job: Job)
      modifies this`busy
      ensures job == (if !old(busy) && RepoReady(config) then PullJob else NoJob)
      ensures busy == (old(busy) || job == PullJob)
    {
      if busy || !RepoReady(config) {
        return NoJob;
      }
      SetBusy(true);
      job := PullJob;
    }

    /** `_on_push`: ignored while busy or unconfigured; skipped, without
      becoming busy, when the status query succeeds with blank output;
      otherwise (a failed query included) the push worker starts. */
    method OnPush(status: ProcessOutcome) returns (job: Job)
      modifies this`busy, this`issued
      ensures old(busy) || !RepoReady(config) ==> job == NoJob && busy == old(busy) && issued == old(issued)
      ensures !old(busy) && RepoReady(config) ==>
        "repo_path" in config &&
        issued == old(issued) + [StatusCommand(config["repo_path"])] &&
        job == (if NothingToPush(Git(status)) then NoJob else PushJob)
      ensures busy == (old(busy) || job == PushJob)
    {
      if busy || !RepoReady(config) {
        return NoJob;
      }
      issued := issued + [StatusCommand(config["repo_path"])];
      if NothingToPush(Git(status)) {
        return NoJob;
      }
      SetBusy(true);
      job := PushJob;
    }

    /** `_sparse_done`: no longer busy; a successful setup refreshes the status. */
    method SparseDone(result: Report, disk: Disk, status: ProcessOutcome, stamp: string)
      modifies this`busy, this`panel, this`commitField, this`issued
      ensures !busy
      ensures result.ok ==> CurrentView() == Refreshed(config, disk, status, stamp, old(CurrentView()))
      ensures !result.ok ==> CurrentView() == old(CurrentView())
    {
      SetBusy(false);
      if result.ok {
        RefreshStatus(disk, status, stamp);
      }
    }

    /** `_clone_done`: no longer busy; a successful clone refreshes the status. */
    method CloneDone(result: Report, disk: Disk, status: ProcessOutcome, stamp: string)
      modifies this`busy, this`panel, this`commitField, this`issued
      ensures !busy
      ensures result.ok ==> CurrentView() == Refreshed(config, disk, status, stamp, old(CurrentView()))
      ensures !result.ok ==> CurrentView() == old(CurrentView())
    {
      SetBusy(false);
      if result.ok {
        RefreshStatus(disk, status, stamp);
      }
    }

    /** `_push_done`: no longer busy; a successful push refreshes the status. */
    method PushDone(result: Report, disk: Disk, status: ProcessOutcome, stamp: string)
      modifies this`busy, this`panel, this`commitField, this`issued
      ensures !busy
      ensures result.ok ==> CurrentView() == Refreshed(config, disk, status, stamp, old(CurrentView()))
      ensures !result.ok ==> CurrentView() == old(CurrentView())
    {
      SetBusy(false);
      if result.ok {
        RefreshStatus(disk, status, stamp);
      }
    }

    /** `_pull_done`: no longer busy; a successful pull refreshes the status.
      Returns what is logged about the pull. */
    method PullDone(pull: GitResult, disk: Disk, status: ProcessOutcome, stamp: string) returns (report: Report)
      modifies this`busy, this`panel, this`commitField, this`issued
      ensures !busy
      ensures report == PullReport(pull)
      ensures pull.ok ==> CurrentView() == Refreshed(config, disk, status, stamp, old(CurrentView()))
      ensures !pull.ok ==> CurrentView() == old(CurrentView())
    {
      SetBusy(false);
      report := PullReport(pull);
      if pull.ok {
        RefreshStatus(disk, status, stamp);
      }
    }
  }
}
