# Simple Git — a Dafny model of its sync logic

Simple Git is a one-window Pull/Push front end for one folder of a git
repository, `images/portfolio`. It keeps only that folder on disk through a
sparse checkout. This project models the decisions the tool makes around
the `git` binary. The binary is not modelled: every run of it is an input,
a `ProcessOutcome` (an exit code with the two captured streams, a timeout,
or another exception). The model covers:

- **Settings store** (`Config`). `load_config` fills each of the four
  default keys the file lacks and keeps every key the file already has. A
  missing file loads as the defaults.
- **Git helpers** (`GitHelpers`). `git()` turns a run into
  `(ok, stdout, stderr)` with both streams stripped. `test_remote` checks
  that the remote can be reached. `clone_sparse` clones without blobs and
  without a checkout, then runs sparse-checkout init (non-cone) and set,
  then checks out the branch. It stops at the first failure, and the
  message names the step that failed.
- **Background jobs** (`Jobs`). The sparse-checkout list test matches the
  tracked path against whole output lines. The init/set worker follows.
  The status of the tracked folder is classified with this precedence:
  error, then missing, then "n file(s) changed", then up to date. The
  commit message comes next, then the pull report. Last is the push
  pipeline: pull, stage, commit, push. It stops at the first failure, and
  a commit that reports "nothing to commit" counts as a success.
- **Application** (`App`). `SimpleGitApp` is a class. Its fields are the
  configuration, the `busy` flag, the commit-message field, the
  tracked-items panel, and the git commands issued from the interface
  thread. Startup routes to one of three outcomes: unconfigured (nothing
  is issued), the sparse-checkout check, or a clone. `_on_pull` and
  `_on_push` do nothing while busy. Every `_*_done` handler clears `busy`.

A sequence of git runs takes an `Env`. `env(i)` is the outcome of the i-th
command that the sequence issues. Each sequence returns a `Run`, which
holds the argument vectors it issued and its result. This is how the model
states that later steps are not run. The generic statement is
`StepsIssued`: step i is issued exactly when every earlier step succeeded.

Three behaviours of the code are worth spelling out, and the model keeps
them:

- A failed push reports `stdout or stderr` (simple_git.py:592), so git's
  stdout wins when both streams are present.
- A successful push always reports "Push complete." (line 593), never
  git's own output.
- `_startup_check` never reads `busy` (lines 353-369). Saving the settings
  while a pull or push is still running can therefore start a clone or the
  sparse-checkout worker.

## Model

| member | source | states |
|---|---|---|
| Text.Strip | simple_git.py:66 | the stripped text neither starts nor ends with whitespace (Python's `str.isspace` set), and it is empty exactly when the input is all whitespace |
| Text.StripCutsOnlySpace | simple_git.py:66 | `strip()` returns a slice of its input, and everything it removed on either side is whitespace |
| Text.StripIdempotent | simple_git.py:551 | stripping twice is the same as stripping once, so `stdout.strip()` of git's already-stripped output changes nothing |
| Text.SplitLines | simple_git.py:374 | `splitlines()` gives no lines exactly for the empty text, and no line contains a line boundary |
| Text.SplitLinesMembership | simple_git.py:374 | a non-empty string without line boundaries is one of the lines of `s.splitlines()` exactly when it occurs in `s` as a whole line: at the start or right after a boundary (`\n`, `\r`, `\r\n` and the other Python boundaries), and followed by a boundary or the end |
| Text.SplitLinesJoin | simple_git.py:374 | `s` is exactly its `splitlines()` lines joined back together, each line followed by the boundary that ended it (`\n`, `\r`, `\r\n` or another Python boundary). Only the last line may have no boundary, and then it is not empty. A `\r` directly before a `\n` is never a boundary on its own |
| Text.SplitOfUnique | simple_git.py:374 | that join is the only way to cut `s` into boundary-free lines with those rules, so the number, order and contents of the lines (and so the non-blank count at line 504) are fixed by `s` |
| Text.NonBlankLines | simple_git.py:504 | the count of non-blank lines in `splitlines()` is zero exactly when the whole text is whitespace |
| Text.Lower | simple_git.py:583 | the model's `Lower` keeps the length and lower-cases each character (ASCII letters only) |
| Text.ContainsLower | simple_git.py:583 | a substring that occurs in a text still occurs after both are lower-cased |
| Text.ContainsConcat | simple_git.py:583 | a substring of `stderr` or of `stdout` is a substring of `stderr + stdout` |
| Text.NatToString | simple_git.py:505 | the decimal count in the "file(s) changed" row is a non-empty string of digits that reads back as the count, with no leading zero; zero is written `0` |
| Config.Get | simple_git.py:354 | `dict.get` gives the stored value for a present key and the default otherwise |
| Config.WithDefaults | simple_git.py:46-48 | after the `setdefault` loop, the keys are the file's keys plus the default keys, every file entry keeps its value, and every absent default key gets its default |
| Config.LoadConfig | simple_git.py:40-48 | a missing file loads as exactly `DEFAULT_CONFIG`; a present file loads as `WithDefaults` of its contents; the loop over the default keys is proved to compute that |
| Config.WithDefaultsIdempotent | simple_git.py:40-54 | loading again what a load produced (and `save_config` wrote) changes nothing |
| Config.MissingIsEmpty | simple_git.py:24-29 | a missing file and a file holding `{}` load the same |
| GitHelpers.Git | simple_git.py:61-70 | `ok` holds exactly on exit status zero; stdout comes back stripped (stripping it again changes nothing); a timeout gives `(False, "", "Command timed out")`; an exception gives `(False, "", str(e))` |
| GitHelpers.TestRemote | simple_git.py:73-84 | exactly one command, `git ls-remote --heads <url>`, is run; success holds exactly on exit status zero, with "Connection successful"; a non-zero exit gives git's stripped stderr, or "Connection failed" when stderr is blank; a timeout gives "Connection timed out"; an exception gives its text |
| GitHelpers.StepsIssued | simple_git.py:96-117 | a stop-at-first-failure sequence never issues more steps than were planned |
| GitHelpers.StepsIssuedSpec | simple_git.py:96-117 | step i of such a sequence is issued exactly when every step before it succeeded |
| GitHelpers.StepsIssuedStops | simple_git.py:560-593 | every step is issued exactly when all but possibly the last succeed; otherwise the last step issued is a failure; a non-empty plan issues at least one step |
| GitHelpers.CloneSparse | simple_git.py:87-117 | the commands issued are a prefix, of length 1 to 4, of clone `--filter=blob:none --no-checkout`, `sparse-checkout init --no-cone`, `sparse-checkout set <path>`, `checkout <branch>`; success means all four were issued and gives `(True, "")` |
| GitHelpers.CloneStopsAtFirstFailure | simple_git.py:96-117 | exactly the steps up to and including the first failure are issued, and the clone succeeds exactly when all four steps succeed |
| GitHelpers.CloneFailureMessage | simple_git.py:98-115 | a failed clone reports the message of the last step it issued: the clone's stripped stderr, "Clone timed out" or the exception text; otherwise "sparse-checkout init failed: ", "sparse-checkout set failed: " or "checkout failed: " followed by git's stderr |
| Jobs.SparseWorker | simple_git.py:385-395 | init is issued first and set only when init succeeded; success holds exactly when both succeed, with an empty message; each failure message carries its step's prefix |
| Jobs.SparseListed | simple_git.py:373-374 | the tracked path counts as listed exactly when the list query succeeded and `images/portfolio` occurs in its output as a whole line |
| Jobs.Classify | simple_git.py:496-507 | a failed status query gives "unknown" even when the folder is missing; otherwise a missing folder gives "missing"; otherwise non-empty output gives "changed" with the count of non-blank lines; otherwise the row is "up to date" |
| Jobs.ChangedCountPositive | simple_git.py:503-505 | a folder classified as changed always has a count of at least one |
| Jobs.StatusText | simple_git.py:499-507 | every status row is non-empty, and only the "n file(s) changed" row starts with a digit |
| Jobs.StatusTextDistinct | simple_git.py:499-507 | different statuses (different change counts included) never show the same row text |
| Jobs.NothingToPush | simple_git.py:550-553 | `_on_push` skips the push exactly when the status query succeeded and its output is all whitespace |
| Jobs.PrecheckAgreesWithStatus | simple_git.py:550-553 | for an existing folder, `_on_push` skips the push exactly when the status row would say "up to date" |
| Jobs.DefaultCommitMessage | simple_git.py:455-458 | the default message is the configured `commit_message`, or "Update portfolio via Simple Git" when the key is absent, followed by " — " and the time stamp |
| Jobs.CommitMessage | simple_git.py:579 | the commit message is the trimmed field when that is not empty, and the default message otherwise |
| Jobs.CommitMessageNeverBlank | simple_git.py:455-458 | `git commit -m` never receives a blank message, whatever the field, the prefix or the time stamp |
| Jobs.PullReport | simple_git.py:531-541 | a pull reports success exactly when git succeeded, with its stdout, or "Already up to date." when stdout is empty; a failure reports git's stderr |
| Jobs.NothingToCommit | simple_git.py:583 | a failed commit whose stderr or stdout, lower-cased, contains "nothing to commit" is recognised as having nothing to commit |
| Jobs.NothingToCommitAnyCase | simple_git.py:583 | "nothing to commit" in any capitalisation, in stderr or in stdout, is recognised |
| Jobs.DoPush | simple_git.py:560-593 | the commands issued are the first 1, 2, 3 or 4 of pull, `add -- images/portfolio`, `commit -m <msg>`, `push origin <branch>`, cut right after the first failing step; a failed pull gives "Pull failed before push: " with stderr, a failed stage "Stage failed: ", a failed commit "Nothing new to commit." (success) or "Commit failed: "; once the push is issued, success is the push's own, reported as "Push complete.", and a failure reports stdout, or stderr when stdout is empty |
| Jobs.PushStopsAtFirstFailure | simple_git.py:560-593 | exactly the steps up to and including the first failure are issued, so a failed pull, stage or commit issues nothing after it |
| Jobs.PushSucceedsIff | simple_git.py:579-593 | a push reports success exactly when pull and stage succeed and either both commit and push succeed or the commit had nothing to commit; a success without the push step is "Nothing new to commit." |
| App.Refreshed | simple_git.py:485-512 | a refresh issues at most one command and keeps every command issued before it |
| App.RepoReady | simple_git.py:476-481 | the repository counts as ready exactly when `repo_path` is present and not all whitespace |
| App.Configured | simple_git.py:353-357 | the startup check goes ahead exactly when the repository is ready and `remote_url` is present and not all whitespace |
| App.CloneWorker | simple_git.py:433-440 | the clone's first command clones the configured remote into the configured path, its fourth checks out the configured branch ("main" when unset), and it succeeds exactly when all four steps succeed |
| App.SparseChecked | simple_git.py:371-383 | the list query is the first command issued and at most one more command follows; nothing starts exactly when the tracked path is listed, and then `busy` is unchanged; otherwise the init/set worker starts, the application is busy and the panel and commit field are untouched |
| App.Startup | simple_git.py:353-369 | unconfigured means no command, no job and no change; a clone starts exactly when the application is configured and the repository or its `.git` is missing, and then it is busy and nothing is issued; an existing repository issues the list query first; no job leaves `busy` unchanged; on that route the result is exactly `App.SparseChecked`, so the sparse worker starts exactly when the path was not listed |
| App.SimpleGitApp.constructor | simple_git.py:224-227 | the application starts not busy, holding the given configuration, with nothing issued |
| App.SimpleGitApp.SetBusy | simple_git.py:467-468 | `busy` takes the given value |
| App.SimpleGitApp.RefreshStatus | simple_git.py:485-512 | with no local path or no repository on disk, the panel says "not found" and nothing is issued; otherwise one status query is issued on the stripped path, its classification is shown, and the commit field is reset to the default message |
| App.SimpleGitApp.EnsureSparseCheckout | simple_git.py:371-383 | the job, the busy flag and the new panel, commit field and command trace are those `App.SparseChecked` gives for the old state |
| App.SimpleGitApp.StartupCheck | simple_git.py:353-369 | the job, the busy flag and the new panel, commit field and command trace are those `App.Startup` gives for the old state, on all three routes |
| App.SimpleGitApp.OnSettingsSaved | simple_git.py:419-424 | the new configuration is adopted, and the job, busy flag and view are those `App.Startup` gives for it and the old state, on all three routes |
| App.SimpleGitApp.OnPull | simple_git.py:516-522 | while busy or with no local path, nothing happens; otherwise the pull starts and the application is busy |
| App.SimpleGitApp.OnPush | simple_git.py:545-558 | while busy or with no local path, nothing happens; otherwise a status query is issued, a successful blank answer stops the push without becoming busy, and any other answer (including a failed query) starts the push and makes the application busy |
| App.SimpleGitApp.SparseDone | simple_git.py:397-406 | the application is no longer busy, and a successful setup refreshes the status |
| App.SimpleGitApp.CloneDone | simple_git.py:442-451 | the application is no longer busy, and a successful clone refreshes the status |
| App.SimpleGitApp.PullDone | simple_git.py:531-541 | the application is no longer busy, the pull report is the one `PullReport` gives, and a successful pull refreshes the status |
| App.SimpleGitApp.PushDone | simple_git.py:595-604 | the application is no longer busy, and a successful push refreshes the status |

## Left out

- The Tk interface is left out: the settings dialog, widgets, colours, the status dot, the subtitle, the log pane and message boxes. It is presentation. Only the state it reads or writes is modelled: the commit field and the panel row.
- Threads and `root.after` are left out. A handler that starts a worker returns which `Job` it started. The worker is a function of the configuration and its inputs, and the caller passes the worker's result to the matching `...Done` handler. Interleavings are not modelled.
- Running `git` is left out. Each run is an input `ProcessOutcome`, and the 15, 120 and 300 second timeouts appear only as the `TimedOut` outcome.
- Filesystem existence checks (`Path.exists`) are left out. They are the booleans of `Disk`.
- JSON parsing and writing (`json.load`, `save_config`) are left out. A present file is given already parsed, as a flat object. A file whose top level is not an object, which fails at `cfg.setdefault` (simple_git.py:47), is not modelled.
- Configuration values are strings only. Non-string values are not modelled: a non-string `repo_path` or `remote_url` raises at `.strip()` (lines 354-355, 477, 486); a non-string `branch` makes `subprocess.run` raise, which `git()` reports as `(False, "", str(e))` (lines 64-70); a non-string `commit_message` is formatted into the default message (line 458).
- Timestamps from `datetime.now()` are left out. They are string parameters.
- Text.Lower: models Python's `str.lower()` for ASCII letters only. Non-ASCII case mappings are not modelled, such as U+212A KELVIN SIGN to `k` and U+0130 to `i` followed by U+0307, which makes the string longer. Neither can change the "nothing to commit" test: that phrase holds no `k`, and a U+0130 would leave a U+0307 after its `i`, which the phrase never has.
- Jobs.SparseWorker and Jobs.DoPush require `"repo_path"` in the configuration. The source reads `config["repo_path"]`, and its callers only start these workers once `_repo_ready` or the startup check has seen a non-blank path.
- `_do_pull` is `Jobs.PullCommand` run through `Git`. `_do_clone` is the `CloneJob` route of `App.Startup`. `_repo_ready`'s message box is not modelled; its test is `App.RepoReady`.
- setup.py is a py2app build script with no logic, and it is not modelled.
