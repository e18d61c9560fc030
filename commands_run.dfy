/** The second-generation `run` command, src/commands/run.ts: every ticket the loader reports
    ready is pushed with the stash-aware push of src/utils/git.ts and opened as a pull request
    with src/utils/github.ts; then the local branch may be deleted and the ticket file deleted
    or archived. The helpers for those last steps are not part of this model: each is a
    `Helper` command whose failure only warns. The configuration loader of this command is
    not part of this model either: `global` and `repoConfigOf` are its answers. */
module CommandsRun {
  import opened Wrappers
  import opened Env
  import opened FrontMatter
  import opened Config
  import opened Tickets
  import GU = GitUtils
  import GH = GitHub

  /** Everything one run reads besides the tickets: the world, the configuration answers,
      `resolveArchiveDir` and the clock (milliseconds). */
  datatype Context = Context(
    w: World, global: Config, repoConfigOf: string -> Config,
    archiveDirOf: (LoadedTicket, string) -> string, now: nat)

  /** The directories: `args.dirs`, else the working directory's repository setting, else the
      global one (each only when non-empty), else `.`. */
  function DirsOf(argDirs: Option<seq<string>>, local: Config, g: Config): (dirs: seq<string>)
    ensures dirs != []
    ensures argDirs.Some? && argDirs.value != [] ==> dirs == argDirs.value
    ensures !(argDirs.Some? && argDirs.value != []) && local.dirs.Some? && local.dirs.value != [] ==> dirs == local.dirs.value
    ensures (!(argDirs.Some? && argDirs.value != []) && !(local.dirs.Some? && local.dirs.value != [])
      && g.dirs.Some? && g.dirs.value != []) ==> dirs == g.dirs.value
    ensures (!(argDirs.Some? && argDirs.value != []) && !(local.dirs.Some? && local.dirs.value != [])
      && !(g.dirs.Some? && g.dirs.value != [])) ==> dirs == ["."]
  {
    if argDirs.Some? && argDirs.value != [] then argDirs.value
    else if local.dirs.Some? && local.dirs.value != [] then local.dirs.value
    else if g.dirs.Some? && g.dirs.value != [] then g.dirs.value
    else ["."]
  }

  /** The push mode: the ticket's, then the repository file's, then the global one, then
      force-with-lease. */
  function RunPushMode(t: LoadedTicket, repoCfg: Config, g: Config): (m: PushMode)
    ensures t.pushMode.Some? ==> m == t.pushMode.value
    ensures t.pushMode.None? && repoCfg.pushMode.Some? ==> m == repoCfg.pushMode.value
    ensures t.pushMode.None? && repoCfg.pushMode.None? && g.pushMode.Some? ==> m == g.pushMode.value
    ensures t.pushMode.None? && repoCfg.pushMode.None? && g.pushMode.None? ==> m == ForceWithLease
  {
    t.pushMode.OrElse(repoCfg.pushMode).OrElse(g.pushMode).GetOr(ForceWithLease)
  }

  /** The remote: the repository file's, then the global one, then `origin`. */
  function RunRemote(repoCfg: Config, g: Config): (remote: string)
    ensures repoCfg.remote.Some? ==> remote == repoCfg.remote.value
    ensures repoCfg.remote.None? && g.remote.Some? ==> remote == g.remote.value
    ensures repoCfg.remote.None? && g.remote.None? ==> remote == "origin"
    ensures remote == Pick([repoCfg.remote, g.remote], "origin")
  {
    repoCfg.remote.OrElse(g.remote).GetOr("origin")
  }

  /** The GitHub repository: the repository file's, then the global one. */
  function RunRepo(repoCfg: Config, g: Config): (repo: Option<string>)
    ensures repoCfg.repo.Some? ==> repo == repoCfg.repo
    ensures repoCfg.repo.None? ==> repo == g.repo
  {
    repoCfg.repo.OrElse(g.repo)
  }

  /** The push options: base and rebase travel only when the ticket asks for a rebase and
      names a non-empty base; there is no fallback to a configured default base. */
  function SyncOptsFor(t: LoadedTicket, root: string, remote: string, mode: PushMode): (o: GU.SyncOpts)
    ensures o.cwd == root && o.branch == t.branch && o.remote == remote && o.pushMode == mode
    ensures GU.WantsRebase(o) <==> t.rebase == Some(true) && t.base.Some? && t.base.value != ""
    ensures GU.WantsRebase(o) ==> o.base == t.base
    ensures !GU.WantsRebase(o) ==> o.base.None? && o.rebase.None?
  {
    if t.rebase == Some(true) && t.base.Some? && t.base.value != "" then
      GU.SyncOpts(root, t.branch, remote, mode, t.base, Some(true))
    else GU.SyncOpts(root, t.branch, remote, mode, None, None)
  }

  /** The pull-request options: base `t.base || 'main'`, the lists when present, the
      repository when non-empty, `draft` and `autoMerge` only when set. */
  function PrOptsFor(t: LoadedTicket, root: string, repo: Option<string>): (o: GH.GhPrOpts)
    ensures o.cwd == root && o.branch == t.branch && o.title == t.title && o.body == t.body
    ensures t.base.Some? && t.base.value != "" ==> o.base == t.base.value
    ensures !(t.base.Some? && t.base.value != "") ==> o.base == "main"
    ensures o.labels == t.labels && o.reviewers == t.reviewers && o.assignees == t.assignees
    ensures o.repo.Some? <==> repo.Some? && repo.value != ""
    ensures o.repo.Some? ==> o.repo == repo
    ensures o.draft == Some(true) <==> t.draft == Some(true)
    ensures o.autoMerge == Some(true) <==> t.autoMerge == Some(true)
    ensures o.draft != Some(false) && o.autoMerge != Some(false)
  {
    var base := if t.base.Some? && t.base.value != "" then t.base.value else "main";
    GH.GhPrOpts(root, t.branch, base, t.title, t.body, t.labels, t.reviewers, t.assignees,
      KeepString(repo), KeepTrue(t.draft), KeepTrue(t.autoMerge))
  }

  /** Whether the local branch is deleted: the repository file's flag, then the global one,
      then no (the loaded ticket carries no such field). */
  function ShouldDelete(repoCfg: Config, g: Config): (b: bool)
    ensures repoCfg.deleteLocalBranch.Some? ==> b == repoCfg.deleteLocalBranch.value
    ensures repoCfg.deleteLocalBranch.None? && g.deleteLocalBranch.Some? ==> b == g.deleteLocalBranch.value
    ensures repoCfg.deleteLocalBranch.None? && g.deleteLocalBranch.None? ==> !b
  {
    repoCfg.deleteLocalBranch.OrElse(g.deleteLocalBranch).GetOr(false)
  }

  /** The branch to leave checked out: the ticket's base, then the repository file's default
      base, then the global one, then `main`. */
  function FallbackBranch(t: LoadedTicket, repoCfg: Config, g: Config): (b: string)
    ensures t.base.Some? ==> b == t.base.value
    ensures t.base.None? && repoCfg.defaultBase.Some? ==> b == repoCfg.defaultBase.value
    ensures t.base.None? && repoCfg.defaultBase.None? && g.defaultBase.Some? ==> b == g.defaultBase.value
    ensures t.base.None? && repoCfg.defaultBase.None? && g.defaultBase.None? ==> b == "main"
  {
    t.base.OrElse(repoCfg.defaultBase).OrElse(g.defaultBase).GetOr("main")
  }

  /** What happens to the ticket file: the repository file's choice, then the global one, then
      keep. */
  function FileAction(repoCfg: Config, g: Config): (a: OnProcessed)
    ensures repoCfg.onProcessed.Some? ==> a == repoCfg.onProcessed.value
    ensures repoCfg.onProcessed.None? && g.onProcessed.Some? ==> a == g.onProcessed.value
    ensures repoCfg.onProcessed.None? && g.onProcessed.None? ==> a == Keep
  {
    repoCfg.onProcessed.OrElse(g.onProcessed).GetOr(Keep)
  }

  /** The configured archive directory: the repository file's, then the global one, then
      `processed`. */
  function ArchiveSetting(repoCfg: Config, g: Config): (d: string)
    ensures repoCfg.archiveDir.Some? ==> d == repoCfg.archiveDir.value
    ensures repoCfg.archiveDir.None? && g.archiveDir.Some? ==> d == g.archiveDir.value
    ensures repoCfg.archiveDir.None? && g.archiveDir.None? ==> d == "processed"
  {
    repoCfg.archiveDir.OrElse(g.archiveDir).GetOr("processed")
  }

  function CleanupCmd(root: string, branch: string, fallback: string): Cmd {
    Cmd(Helper, root, ["cleanupLocalBranch", branch, fallback])
  }

  function DeleteFileCmd(file: string): Cmd {
    Cmd(Helper, "", ["deleteTicketFile", file])
  }

  function ArchiveFileCmd(file: string, dir: string): Cmd {
    Cmd(Helper, "", ["archiveTicketFile", file, dir])
  }

  /** The follow-up calls once the pull request exists: the branch clean-up when configured,
      then the file deletion or archiving the configuration asks for. Their answers are never
      read: a failure only warns. */
  function AfterPr(c: Context, t: LoadedTicket, root: string, repoCfg: Config): (cmds: seq<Cmd>)
    ensures |cmds| <= 2
    ensures forall x :: x in cmds ==> x.tool == Helper
    ensures CleanupCmd(root, t.branch, FallbackBranch(t, repoCfg, c.global)) in cmds <==> ShouldDelete(repoCfg, c.global)
    ensures DeleteFileCmd(t.file) in cmds <==> FileAction(repoCfg, c.global) == Delete
    ensures ArchiveFileCmd(t.file, c.archiveDirOf(t, ArchiveSetting(repoCfg, c.global))) in cmds <==> FileAction(repoCfg, c.global) == Archive
  {
    var cleanup := if ShouldDelete(repoCfg, c.global) then [CleanupCmd(root, t.branch, FallbackBranch(t, repoCfg, c.global))] else [];
    var file :=
      match FileAction(repoCfg, c.global)
      case Keep => []
      case Delete => [DeleteFileCmd(t.file)]
      case Archive => [ArchiveFileCmd(t.file, c.archiveDirOf(t, ArchiveSetting(repoCfg, c.global)))];
    cleanup + file
  }

  /** How one ready ticket ends. */
  datatype TicketEnd = NoRoot | PushFailed(msg: string) | PrFailed(msg: string) | Opened(url: string)

  /** Every ending but an opened pull request sets `fatal`. */
  predicate Fails(e: TicketEnd) {
    !e.Opened?
  }

  /** One ticket with a known repository: the push, the pull request and the follow-ups. */
  function Work(c: Context, t: LoadedTicket, root: string, repoCfg: Config): (r: Traced<TicketEnd>)
    ensures !r.value.NoRoot?
  {
    var o := SyncOptsFor(t, root, RunRemote(repoCfg, c.global), RunPushMode(t, repoCfg, c.global));
    var push := GU.SyncPushPlan(c.w.sh, c.w.parsers, o, c.now);
    if push.value.Threw? then Traced(PushFailed(push.value.msg), push.trace)
    else
      var pr := GH.GhPrPlan(c.w.sh, PrOptsFor(t, root, RunRepo(repoCfg, c.global)));
      if pr.value.result.Err? then Traced(PrFailed(pr.value.result.error), push.trace + pr.trace)
      else Traced(Opened(pr.value.result.value), push.trace + pr.trace + AfterPr(c, t, root, repoCfg))
  }

  /** A failed push ends the ticket with the push's own git commands: no pull request is
      asked for. A failed pull request ends it right after the `gh` calls. Neither runs a
      follow-up. An opened one runs the follow-ups last, and they cannot make it fail. */
  lemma {:induction false} FollowUpsOnlyAfterPr(c: Context, t: LoadedTicket, root: string, repoCfg: Config)
    ensures var r := Work(c, t, root, repoCfg);
      var o := SyncOptsFor(t, root, RunRemote(repoCfg, c.global), RunPushMode(t, repoCfg, c.global));
      var push := GU.SyncPushPlan(c.w.sh, c.w.parsers, o, c.now);
      var pr := GH.GhPrPlan(c.w.sh, PrOptsFor(t, root, RunRepo(repoCfg, c.global)));
      && (Fails(r.value) <==> push.value.Threw? || pr.value.result.Err?)
      && (push.value.Threw? ==> r == Traced(PushFailed(push.value.msg), push.trace) && AllTo(Git, r.trace))
      && (push.value.Done? && pr.value.result.Err? ==>
            r == Traced(PrFailed(pr.value.result.error), push.trace + pr.trace) && AllTo(Gh, r.trace[|push.trace|..]))
      && (Fails(r.value) ==> forall i :: 0 <= i < |r.trace| ==> r.trace[i].tool != Helper)
      && (!Fails(r.value) ==> r.value.url == pr.value.result.value && r.trace == push.trace + pr.trace + AfterPr(c, t, root, repoCfg))
  {
    var o := SyncOptsFor(t, root, RunRemote(repoCfg, c.global), RunPushMode(t, repoCfg, c.global));
    var push := GU.SyncPushPlan(c.w.sh, c.w.parsers, o, c.now);
    var pr := GH.GhPrPlan(c.w.sh, PrOptsFor(t, root, RunRepo(repoCfg, c.global)));
    GU.SyncPushPlanOnlyGit(c.w.sh, c.w.parsers, o, c.now);
    GH.GhPrPlanOnlyGh(c.w.sh, PrOptsFor(t, root, RunRepo(repoCfg, c.global)));
    var both := push.trace + pr.trace;
    assert both[|push.trace|..] == pr.trace;
    assert forall i :: 0 <= i < |push.trace| ==> both[i] == push.trace[i];
  }

  predicate HasRoot(t: LoadedTicket) {
    t.repoRoot.Some? && t.repoRoot.value != ""
  }

  /** How a ticket ends, whatever was handled before it. */
  function Ending(c: Context, t: LoadedTicket): TicketEnd {
    if !HasRoot(t) then NoRoot
    else
      var root := c.w.paths.resolve(t.repoRoot.value);
      Work(c, t, root, c.repoConfigOf(root)).value
  }

  /** The mutable locals of `run`: the failure flag and the repository configuration cache,
      with the commands issued. */
  datatype RunState = RunState(fatal: bool, repoConfigs: map<string, Config>, trace: seq<Cmd>)

  /** One ticket's effect: without a root it only sets `fatal`; otherwise the cache gets the
      repository's configuration and the work follows. */
  function Handled(c: Context, t: LoadedTicket, st: RunState): RunState {
    if !HasRoot(t) then st.(fatal := true)
    else
      var root := c.w.paths.resolve(t.repoRoot.value);
      var configs := if root in st.repoConfigs then st.repoConfigs else st.repoConfigs[root := c.repoConfigOf(root)];
      var work := Work(c, t, root, configs[root]);
      RunState(st.fatal || Fails(work.value), configs, st.trace + work.trace)
  }

  function HandleAll(c: Context, ts: seq<LoadedTicket>, st: RunState): RunState
    decreases |ts|
  {
    if ts == [] then st else Handled(c, ts[|ts| - 1], HandleAll(c, ts[..|ts| - 1], st))
  }

  /** The tickets `run` loads: those of every directory, with their pull-request status. */
  function Loaded(c: Context, expand: string -> string, cwd: string, dirs: seq<string>): Traced<seq<LoadedTicket>> {
    ResolveAll(c.w, c.repoConfigOf, c.global, ScanAll(c.w, seq(|dirs|, i requires 0 <= i < |dirs| => expand(dirs[i])), cwd, c.now))
  }

  /** One more ticket extends the fold by one handling step. */
  lemma {:induction false} HandleAllStep(c: Context, ts: seq<LoadedTicket>, i: nat, st: RunState)
    requires i < |ts|
    ensures HandleAll(c, ts[..i + 1], st) == Handled(c, ts[i], HandleAll(c, ts[..i], st))
  {
    assert ts[..i + 1][..i] == ts[..i];
  }

  /** `run(args)`: the exit code and every command issued. */
  function RunSpec(c: Context, argDirs: Option<seq<string>>, expand: string -> string, cwd: string, toolsFound: bool): Traced<int> {
    var dirs := DirsOf(argDirs, c.repoConfigOf(cwd), c.global);
    if !toolsFound then Traced(1, [])
    else
      var loaded := Loaded(c, expand, cwd, dirs);
      var end := HandleAll(c, ReadyOnly(loaded.value), RunState(false, map[], []));
      Traced(if end.fatal then 1 else 0, loaded.trace + end.trace)
  }

  // ---------------------------------------------------------------------------------------
  // What a run guarantees.

  predicate CacheOk(c: Context, cache: map<string, Config>) {
    forall r :: r in cache ==> cache[r] == c.repoConfigOf(r)
  }

  lemma {:induction false} HandledFatal(c: Context, t: LoadedTicket, st: RunState)
    requires CacheOk(c, st.repoConfigs)
    ensures Handled(c, t, st).fatal == (st.fatal || Fails(Ending(c, t)))
    ensures CacheOk(c, Handled(c, t, st).repoConfigs)
  {
    if HasRoot(t) {
      var root := c.w.paths.resolve(t.repoRoot.value);
      var configs := if root in st.repoConfigs then st.repoConfigs else st.repoConfigs[root := c.repoConfigOf(root)];
      assert configs[root] == c.repoConfigOf(root);
    }
  }

  lemma {:induction false} HandleAllFatal(c: Context, ts: seq<LoadedTicket>, st: RunState)
    requires CacheOk(c, st.repoConfigs)
    ensures HandleAll(c, ts, st).fatal == (st.fatal || AnyOf(t => Fails(Ending(c, t)), ts))
    ensures CacheOk(c, HandleAll(c, ts, st).repoConfigs)
    decreases |ts|
  {
    if ts != [] {
      HandleAllFatal(c, ts[..|ts| - 1], st);
      HandledFatal(c, ts[|ts| - 1], HandleAll(c, ts[..|ts| - 1], st));
    }
  }

  /** The exit code is 1 exactly when a tool is missing or some ready ticket failed (no root,
      a failed push or a failed pull request), and 0 otherwise. */
  lemma {:induction false} ExitCodeReportsFailure(c: Context, argDirs: Option<seq<string>>, expand: string -> string, cwd: string, toolsFound: bool)
    ensures var code := RunSpec(c, argDirs, expand, cwd, toolsFound).value;
      var ready := ReadyOnly(Loaded(c, expand, cwd, DirsOf(argDirs, c.repoConfigOf(cwd), c.global)).value);
      && (code == 0 || code == 1)
      && (code == 1 <==> !toolsFound || SomeFails(c, ready))
  {
    if toolsFound {
      var dirs := DirsOf(argDirs, c.repoConfigOf(cwd), c.global);
      var loaded := Loaded(c, expand, cwd, dirs);
      var ready := ReadyOnly(loaded.value);
      var end := HandleAll(c, ready, RunState(false, map[], []));
      assert RunSpec(c, argDirs, expand, cwd, toolsFound).value == if end.fatal then 1 else 0;
      FatalIffSomeFails(c, ready);
    }
  }

  /** Some ticket fails: it has no root, or its push or pull request failed. */
  predicate SomeFails(c: Context, ready: seq<LoadedTicket>) {
    exists i :: 0 <= i < |ready| && Fails(Ending(c, ready[i]))
  }

  /** From an empty state, the failure flag is set exactly when some ticket fails. */
  lemma {:induction false} FatalIffSomeFails(c: Context, ready: seq<LoadedTicket>)
    ensures HandleAll(c, ready, RunState(false, map[], [])).fatal <==> SomeFails(c, ready)
  {
    HandleAllFatal(c, ready, RunState(false, map[], []));
    AnyOfExists(t => Fails(Ending(c, t)), ready);
  }

  /** A ticket without a repository root fails and issues nothing. */
  lemma {:induction false} NoRootSkipped(c: Context, t: LoadedTicket, st: RunState)
    requires !HasRoot(t)
    ensures Ending(c, t) == NoRoot && Handled(c, t, st) == st.(fatal := true)
  {
  }

  // ---------------------------------------------------------------------------------------
  // The command itself.

  /** The follow-up block: clean-up, then deletion or archiving; answers are ignored. */
  method FollowUps(c: Context, t: LoadedTicket, root: string, repoCfg: Config) returns (cmds: seq<Cmd>)
    ensures cmds == AfterPr(c, t, root, repoCfg)
  {
    cmds := [];
    if ShouldDelete(repoCfg, c.global) {
      var fallbackBranch := FallbackBranch(t, repoCfg, c.global);
      cmds := cmds + [CleanupCmd(root, t.branch, fallbackBranch)];
    }
    var onProcessed := FileAction(repoCfg, c.global);
    if onProcessed != Keep {
      if onProcessed == Delete {
        cmds := cmds + [DeleteFileCmd(t.file)];
      } else if onProcessed == Archive {
        var archiveDir := c.archiveDirOf(t, ArchiveSetting(repoCfg, c.global));
        cmds := cmds + [ArchiveFileCmd(t.file, archiveDir)];
      }
    }
  }

  /** The `try` block of one ticket. */
  method HandleRooted(c: Context, t: LoadedTicket, root: string, repoCfg: Config) returns (trace: seq<Cmd>, end: TicketEnd)
    ensures Traced(end, trace) == Work(c, t, root, repoCfg)
  {
    var pushMode := RunPushMode(t, repoCfg, c.global);
    var remote := RunRemote(repoCfg, c.global);
    var repo := RunRepo(repoCfg, c.global);
    var pushTrace, pushed := GU.PushBranch(c.w.sh, c.w.parsers, SyncOptsFor(t, root, remote, pushMode), c.now);
    trace := pushTrace;
    if pushed.Threw? {
      return trace, PushFailed(pushed.msg);
    }
    var prTrace, report := GH.CreateOrUpdatePr(c.w.sh, PrOptsFor(t, root, repo));
    trace := trace + prTrace;
    if report.result.Err? {
      return trace, PrFailed(report.result.error);
    }
    var followUps := FollowUps(c, t, root, repoCfg);
    trace := trace + followUps;
    end := Opened(report.result.value);
  }

  /** One iteration of the loop over the ready tickets. */
  method HandleTicket(c: Context, t: LoadedTicket, st: RunState) returns (next: RunState)
    ensures next == Handled(c, t, st)
  {
    if !HasRoot(t) {
      return st.(fatal := true);
    }
    var root := c.w.paths.resolve(t.repoRoot.value);
    var configs := st.repoConfigs;
    if root !in configs {
      configs := configs[root := c.repoConfigOf(root)];
    }
    var work, end := HandleRooted(c, t, root, configs[root]);
    next := RunState(st.fatal || Fails(end), configs, st.trace + work);
  }

  /** `run(args)`: choose the directories, check the tools, load every ticket and process the
      ready ones in order. */
  method Run(c: Context, argDirs: Option<seq<string>>, expand: string -> string, cwd: string, toolsFound: bool)
    returns (code: int, trace: seq<Cmd>)
    ensures Traced(code, trace) == RunSpec(c, argDirs, expand, cwd, toolsFound)
  {
    var dirs := DirsOf(argDirs, c.repoConfigOf(cwd), c.global);
    if !toolsFound {
      return 1, [];
    }
    var allTickets, loadTrace;
    ghost var loads;
    allTickets, loadTrace, loads := LoadAllTickets(c.w, c.repoConfigOf, expand, cwd, dirs, c.global, c.now);
    var st := ProcessReady(c, ReadyOnly(allTickets));
    code := if st.fatal then 1 else 0;
    trace := loadTrace + st.trace;
  }

  /** The loop over the ready tickets. */
  method ProcessReady(c: Context, readyTickets: seq<LoadedTicket>) returns (st: RunState)
    ensures st == HandleAll(c, readyTickets, RunState(false, map[], []))
  {
    st := RunState(false, map[], []);
    for i := 0 to |readyTickets|
      invariant st == HandleAll(c, readyTickets[..i], RunState(false, map[], []))
    {
      HandleAllStep(c, readyTickets, i, RunState(false, map[], []));
      st := HandleTicket(c, readyTickets[i], st);
    }
    assert readyTickets[..|readyTickets|] == readyTickets;
  }
}
