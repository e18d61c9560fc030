/** One pass of the first-generation runner, src/core/run.ts: every due ticket of every
    directory is pushed and opened as a pull request, unless the run is a preview, and the
    branch each touched repository had checked out is restored at the end. The clock is read
    once, as `now`; whether `git` and `gh` are installed is the input `toolsFound`. */
module CoreRun {
  import opened Wrappers
  import opened Env
  import opened FrontMatter
  import opened Config
  import opened MdTickets
  import opened GitGh
  import TS = TicketStatus

  datatype RunMode = Run | DryRun

  /** `args.overrides`; an absent override is `None`. `base` is accepted but never read. */
  datatype Overrides = Overrides(base: Option<string>, pushMode: Option<PushMode>, remote: Option<string>)

  /** `RunOnceArgs`. */
  datatype RunArgs = RunArgs(mode: RunMode, dirs: Option<seq<string>>, configPath: Option<string>, overrides: Overrides)

  /** How `runOnce` ends: an exit code, or the load error that escapes it. */
  datatype RunResult = Exit(code: int) | Aborted(msg: string)

  /** What every ticket of one pass shares. */
  datatype Settings = Settings(mode: RunMode, overrides: Overrides, global: Config)

  /** The mutable locals of `runOnce`: the failure flag, the original branches (a map kept in
      insertion order) and the repository configuration cache, with the commands issued. */
  datatype RunState = RunState(fatal: bool, originals: seq<(string, string)>, repoConfigs: map<string, Config>, trace: seq<Cmd>)

  const Start := RunState(false, [], map[], [])

  /** The directories: `args.dirs` when non-empty, else the configured ones, else none. */
  function DirsOf(args: RunArgs, g: Config): (dirs: seq<string>)
    ensures args.dirs.Some? && args.dirs.value != [] ==> dirs == args.dirs.value
    ensures (args.dirs.None? || args.dirs.value == []) && g.dirs.Some? ==> dirs == g.dirs.value
    ensures (args.dirs.None? || args.dirs.value == []) && g.dirs.None? ==> dirs == []
  {
    if args.dirs.Some? && args.dirs.value != [] then args.dirs.value else g.dirs.GetOr([])
  }

  /** What `loadTickets(dir, timezone)` answers: an unreadable directory has no tickets, and the
      first file that fails makes the whole load fail. */
  function DirTickets(w: World, dir: string, zone: Option<string>): Result<seq<Ticket>, string> {
    if w.disk.listDir(dir).None? then Ok([])
    else Collect(Outcomes(w.disk, w.lib, w.paths, dir, MarkdownFiles(w.disk.listDir(dir).value), zone))
  }

  /** `isDue`: the clock has reached the due instant. */
  predicate IsDue(t: Ticket, now: int) {
    now >= t.due.instant
  }

  /** `tickets.filter(isDue)`. */
  function DueTickets(ts: seq<Ticket>, now: int): (due: seq<Ticket>)
    ensures forall t :: t in due <==> t in ts && IsDue(t, now)
  {
    if ts == [] then []
    else
      var init := DueTickets(ts[..|ts| - 1], now);
      var last := ts[|ts| - 1];
      assert ts == ts[..|ts| - 1] + [last];
      if IsDue(last, now) then init + [last] else init
  }

  /** The filter keeps the tickets' order: the due tickets of two lists one after the other
      are those of their concatenation. */
  lemma {:induction false} DueTicketsAppend(a: seq<Ticket>, b: seq<Ticket>, now: int)
    ensures DueTickets(a + b, now) == DueTickets(a, now) + DueTickets(b, now)
    decreases |b|
  {
    if b == [] {
      assert a + b == a;
    } else {
      var init := b[..|b| - 1];
      var last := b[|b| - 1];
      assert (a + b)[..|a + b| - 1] == a + init && (a + b)[|a + b| - 1] == last;
      DueTicketsAppend(a, init, now);
    }
  }

  /** `getRepoRoot(ticket, dir)`: a non-empty `repository` field is expanded and resolved with
      no further check; otherwise the git root of the tickets directory, which must be known. */
  function RepoRoot(w: World, t: Ticket, dir: string): (r: Traced<Result<string, string>>)
    ensures TS.HasRepository(t.repository) ==> r == Traced(Ok(TS.RepositoryPath(w.paths, t.repository.value)), [])
    ensures !TS.HasRepository(t.repository) ==>
      && r.trace == [GitCmd(dir, ["rev-parse", "--show-toplevel"])]
      && (r.value.Ok? <==> GetGitRoot(w.sh, dir).value.Some? && GetGitRoot(w.sh, dir).value.value != "")
      && (r.value.Ok? ==> Some(r.value.value) == GetGitRoot(w.sh, dir).value)
      && (r.value.Err? ==> r.value.error == TS.NotInRepoMessage(dir))
  {
    if TS.HasRepository(t.repository) then Traced(Ok(TS.RepositoryPath(w.paths, t.repository.value)), [])
    else
      var root := GetGitRoot(w.sh, dir);
      if root.value.Some? && root.value.value != "" then Traced(Ok(root.value.value), root.trace)
      else Traced(Err(TS.NotInRepoMessage(dir)), root.trace)
  }

  /** Where the later resolver's checks pass (the path exists and is a repository), both
      generations agree on the root; without a `repository` field they always agree. */
  lemma {:induction false} RepoRootAgrees(w: World, t: Ticket, dir: string)
    requires TS.HasRepository(t.repository) ==>
      var p := TS.RepositoryPath(w.paths, t.repository.value);
      w.disk.pathExists(p) && w.sh(GitCmd(p, ["rev-parse", "--git-dir"])).Success?
    ensures RepoRoot(w, t, dir).value == TS.GetTicketRepoRoot(w, t.repository, dir).value
  {
    if !TS.HasRepository(t.repository) {
      var a := RepoRoot(w, t, dir).value;
      var b := TS.GetTicketRepoRoot(w, t.repository, dir).value;
      assert a.Ok? <==> b.Ok?;
      if a.Ok? {
        assert Some(a.value) == Some(b.value);
      }
    }
  }

  /** The push mode: the ticket's, then the override, then the repository file's, then the
      global one, then force-with-lease. */
  function RunPushMode(t: Ticket, ov: Overrides, repoCfg: Config, g: Config): (m: PushMode)
    ensures t.pushMode.Some? ==> m == t.pushMode.value
    ensures t.pushMode.None? && ov.pushMode.Some? ==> m == ov.pushMode.value
    ensures t.pushMode.None? && ov.pushMode.None? && repoCfg.pushMode.Some? ==> m == repoCfg.pushMode.value
    ensures t.pushMode.None? && ov.pushMode.None? && repoCfg.pushMode.None? && g.pushMode.Some? ==> m == g.pushMode.value
    ensures t.pushMode.None? && ov.pushMode.None? && repoCfg.pushMode.None? && g.pushMode.None? ==> m == ForceWithLease
  {
    t.pushMode.OrElse(ov.pushMode).OrElse(repoCfg.pushMode).OrElse(g.pushMode).GetOr(ForceWithLease)
  }

  /** The remote: the override, then the global setting, then `origin`. The repository file's
      remote plays no part. */
  function RunRemote(ov: Overrides, g: Config): (remote: string)
    ensures ov.remote.Some? ==> remote == ov.remote.value
    ensures ov.remote.None? && g.remote.Some? ==> remote == g.remote.value
    ensures ov.remote.None? && g.remote.None? ==> remote == "origin"
    ensures remote == Pick([ov.remote, g.remote], "origin")
  {
    ov.remote.OrElse(g.remote).GetOr("origin")
  }

  /** The push options: the base and the rebase flag travel only when the ticket asks for a
      rebase and the base is non-empty. */
  function PushOptsFor(t: Ticket, root: string, base: string, remote: string, mode: PushMode): (o: PushOpts)
    ensures o.cwd == root && o.branch == t.branch && o.remote == remote && o.pushMode == mode
    ensures t.rebase == Some(true) && base != "" ==> o.base == Some(base) && o.rebase == Some(true)
    ensures !(t.rebase == Some(true) && base != "") ==> o.base.None? && o.rebase.None?
    ensures WantsRebase(o) <==> t.rebase == Some(true) && base != ""
  {
    if t.rebase == Some(true) && base != "" then PushOpts(root, t.branch, Some(base), Some(true), remote, mode)
    else PushOpts(root, t.branch, None, None, remote, mode)
  }

  /** The pull-request options: the lists when present, the global repository when non-empty,
      `draft` only when set. */
  function PrOptsFor(t: Ticket, root: string, base: string, repo: Option<string>): (o: PrOpts)
    ensures o.cwd == root && o.branch == t.branch && o.base == base && o.title == t.title && o.body == t.body
    ensures o.labels == t.labels && o.reviewers == t.reviewers && o.assignees == t.assignees
    ensures o.repo.Some? <==> repo.Some? && repo.value != ""
    ensures o.repo.Some? ==> o.repo == repo
    ensures o.draft == Some(true) <==> t.draft == Some(true)
    ensures o.draft != Some(false)
  {
    PrOpts(root, t.branch, base, t.title, t.body, t.labels, t.reviewers, t.assignees, KeepString(repo), KeepTrue(t.draft))
  }

  /** How one ticket ends. */
  datatype TicketEnd = NoRoot(msg: string) | Previewed | OpenPr | PushFailed(msg: string) | PrFailed(msg: string) | Opened(url: string)

  /** The endings that set `fatal`. */
  predicate Fails(e: TicketEnd) {
    e.NoRoot? || e.PushFailed? || e.PrFailed?
  }

  /** Everything after the repository root is known: the base, the preview stop, the open
      pull-request check, the push and the pull request. */
  function Work(w: World, s: Settings, t: Ticket, root: string, repoCfg: Config): (r: Traced<TicketEnd>)
    ensures !r.value.NoRoot?
    ensures r.value.Previewed? <==> s.mode == DryRun
    ensures s.mode == DryRun ==> r.trace == TS.ResolveBase(w, root, t.base).trace
    ensures r.value.OpenPr? <==> s.mode == Run && TS.OpenPrFound(w, root, t.branch)
    ensures s.mode == Run ==>
      var head := TS.ResolveBase(w, root, t.base).trace + [TS.PrListCmd(root, t.branch)];
      |head| <= |r.trace| && r.trace[..|head|] == head
  {
    var base := TS.ResolveBase(w, root, t.base);
    if s.mode == DryRun then Traced(Previewed, base.trace)
    else
      assert s.mode == Run;
      var list := TS.PrListCmd(root, t.branch);
      if TS.OpenPrFound(w, root, t.branch) then Traced(OpenPr, base.trace + [list])
      else
        var o := PushOptsFor(t, root, base.value, RunRemote(s.overrides, s.global), RunPushMode(t, s.overrides, repoCfg, s.global));
        var push := PushPlan(w.sh, o);
        var head := base.trace + [list] + push.trace;
        assert head[..|base.trace| + 1] == base.trace + [list];
        if push.value.Threw? then Traced(PushFailed(push.value.msg), head)
        else
          var pr := PrPlan(w.sh, PrOptsFor(t, root, base.value, s.global.repo));
          assert (head + pr.trace)[..|base.trace| + 1] == base.trace + [list];
          Traced(if pr.value.Err? then PrFailed(pr.value.error) else Opened(pr.value.value), head + pr.trace)
  }

  /** The configuration `loadRepoConfig(root)` gives (no logger is passed). */
  function RepoCfg(w: World, root: string): Config {
    LoadRepoConfig(w.disk, w.paths, root, false).config
  }

  /** How a ticket ends, whatever was handled before it. */
  function Outcome(w: World, s: Settings, dir: string, t: Ticket): TicketEnd {
    var root := RepoRoot(w, t, dir);
    if root.value.Err? then NoRoot(root.value.error) else Work(w, s, t, root.value.value, RepoCfg(w, root.value.value)).value
  }

  /** The cache only ever holds what the loader answers. */
  predicate CacheOk(w: World, cache: map<string, Config>) {
    forall r :: r in cache ==> cache[r] == RepoCfg(w, r)
  }

  function Keys(originals: seq<(string, string)>): (ks: seq<string>)
    ensures |ks| == |originals| && forall i :: 0 <= i < |ks| ==> ks[i] == originals[i].0
  {
    seq(|originals|, i requires 0 <= i < |originals| => originals[i].0)
  }

  /** One ticket's effect on the locals: a missing root sets `fatal`; otherwise the cache gets
      the repository's configuration, a run captures the checked-out branch the first time it
      meets the repository (an empty answer is not kept), and the work follows. */
  function Handled(w: World, s: Settings, dir: string, t: Ticket, st: RunState): RunState {
    var root := RepoRoot(w, t, dir);
    if root.value.Err? then st.(fatal := true, trace := st.trace + root.trace)
    else
      var r := root.value.value;
      var configs := if r in st.repoConfigs then st.repoConfigs else st.repoConfigs[r := RepoCfg(w, r)];
      var captured := Capture(w, s.mode, r, st.originals);
      var work := Work(w, s, t, r, configs[r]);
      RunState(st.fatal || Fails(work.value), captured.value, configs, st.trace + root.trace + captured.trace + work.trace)
  }

  /** Capturing the checked-out branch: only in a run, only the first time the repository is
      met, and an empty answer is not kept. */
  function Capture(w: World, mode: RunMode, r: string, o: seq<(string, string)>): Traced<seq<(string, string)>> {
    if mode == Run && r !in Keys(o) then
      var current := GetCurrentBranch(w.sh, r);
      Traced(if current.value != "" then o + [(r, current.value)] else o, current.trace)
    else Traced(o, [])
  }

  /** The inner loop over the due tickets of one directory. */
  function HandleAll(w: World, s: Settings, dir: string, ts: seq<Ticket>, st: RunState): RunState
    decreases |ts|
  {
    if ts == [] then st else Handled(w, s, dir, ts[|ts| - 1], HandleAll(w, s, dir, ts[..|ts| - 1], st))
  }

  /** Where the directory loop stops: after the last directory, or at a load error, which
      escapes `runOnce` before any branch is restored. */
  datatype DirsEnd = Finished(st: RunState) | Stopped(msg: string, trace: seq<Cmd>)

  /** The outer loop over the directories. */
  function RunDirs(w: World, s: Settings, dirs: seq<string>, now: int): DirsEnd
    decreases |dirs|
  {
    if dirs == [] then Finished(Start)
    else
      match RunDirs(w, s, dirs[..|dirs| - 1], now)
      case Stopped(m, tr) => Stopped(m, tr)
      case Finished(st) =>
        var dir := dirs[|dirs| - 1];
        match DirTickets(w, dir, s.global.timezone)
        case Err(m) => Stopped(m, st.trace)
        case Ok(ts) => Finished(HandleAll(w, s, dir, DueTickets(ts, now), st))
  }

  function CheckoutBack(root: string, branch: string): Cmd {
    GitCmd(root, ["checkout", branch])
  }

  /** The restoring checkouts, one per captured repository, in capture order. */
  function Restores(originals: seq<(string, string)>): (cmds: seq<Cmd>)
    ensures |cmds| == |originals|
    ensures forall i :: 0 <= i < |cmds| ==> cmds[i] == CheckoutBack(originals[i].0, originals[i].1)
  {
    seq(|originals|, i requires 0 <= i < |originals| => CheckoutBack(originals[i].0, originals[i].1))
  }

  /** `runOnce(args)`: the result and every command issued. */
  function RunOnceSpec(w: World, args: RunArgs, defaultPath: string, toolsFound: bool, now: int): Traced<RunResult> {
    var g := LoadGlobalConfig(w.disk, args.configPath, defaultPath, false).config;
    var dirs := DirsOf(args, g);
    if dirs == [] || !toolsFound then Traced(Exit(1), [])
    else
      match RunDirs(w, Settings(args.mode, args.overrides, g), dirs, now)
      case Stopped(m, tr) => Traced(Aborted(m), tr)
      case Finished(st) =>
        Traced(Exit(if st.fatal then 1 else 0), st.trace + (if args.mode == Run then Restores(st.originals) else []))
  }

  // ---------------------------------------------------------------------------------------
  // What one pass guarantees.

  /** Some due ticket of the directory fails. */
  predicate DirFails(w: World, s: Settings, dir: string, now: int) {
    DirTickets(w, dir, s.global.timezone).Ok? &&
    var due := DueTickets(DirTickets(w, dir, s.global.timezone).value, now);
    exists i :: 0 <= i < |due| && Fails(Outcome(w, s, dir, due[i]))
  }

  /** With a correct cache, a ticket sets the flag exactly when its own outcome fails, and the
      cache stays correct. */
  lemma {:induction false} HandledFatal(w: World, s: Settings, dir: string, t: Ticket, st: RunState)
    requires CacheOk(w, st.repoConfigs)
    ensures Handled(w, s, dir, t, st).fatal == (st.fatal || Fails(Outcome(w, s, dir, t)))
    ensures CacheOk(w, Handled(w, s, dir, t, st).repoConfigs)
  {
    var root := RepoRoot(w, t, dir);
    if root.value.Ok? {
      var r := root.value.value;
      var configs := if r in st.repoConfigs then st.repoConfigs else st.repoConfigs[r := RepoCfg(w, r)];
      assert configs[r] == RepoCfg(w, r);
    }
  }

  /** The flag after a directory's tickets: set before, or set by one of them. */
  lemma {:induction false} HandleAllFatal(w: World, s: Settings, dir: string, ts: seq<Ticket>, st: RunState)
    requires CacheOk(w, st.repoConfigs)
    ensures HandleAll(w, s, dir, ts, st).fatal == (st.fatal || AnyOf(t => Fails(Outcome(w, s, dir, t)), ts))
    ensures CacheOk(w, HandleAll(w, s, dir, ts, st).repoConfigs)
    decreases |ts|
  {
    if ts != [] {
      var init := ts[..|ts| - 1];
      HandleAllFatal(w, s, dir, init, st);
      HandledFatal(w, s, dir, ts[|ts| - 1], HandleAll(w, s, dir, init, st));
    }
  }

  /** One directory's tickets set the flag exactly when the directory fails. */
  lemma {:induction false} DirectoryFatal(w: World, s: Settings, dir: string, now: int, st: RunState)
    requires CacheOk(w, st.repoConfigs) && DirTickets(w, dir, s.global.timezone).Ok?
    ensures var due := DueTickets(DirTickets(w, dir, s.global.timezone).value, now);
      && HandleAll(w, s, dir, due, st).fatal == (st.fatal || DirFails(w, s, dir, now))
      && CacheOk(w, HandleAll(w, s, dir, due, st).repoConfigs)
  {
    var due := DueTickets(DirTickets(w, dir, s.global.timezone).value, now);
    HandleAllFatal(w, s, dir, due, st);
    AnyOfExists(t => Fails(Outcome(w, s, dir, t)), due);
  }

  lemma {:induction false} RunDirsFatalAny(w: World, s: Settings, dirs: seq<string>, now: int)
    requires RunDirs(w, s, dirs, now).Finished?
    ensures RunDirs(w, s, dirs, now).st.fatal == AnyOf(d => DirFails(w, s, d, now), dirs)
    ensures CacheOk(w, RunDirs(w, s, dirs, now).st.repoConfigs)
    decreases |dirs|
  {
    if dirs != [] {
      var init := dirs[..|dirs| - 1];
      RunDirsFatalAny(w, s, init, now);
      DirectoryFatal(w, s, dirs[|dirs| - 1], now, RunDirs(w, s, init, now).st);
    }
  }

  /** A finished outer loop has its flag set exactly when some due ticket of some directory
      failed. */
  lemma {:induction false} RunDirsFatal(w: World, s: Settings, dirs: seq<string>, now: int)
    requires RunDirs(w, s, dirs, now).Finished?
    ensures RunDirs(w, s, dirs, now).st.fatal <==> exists k :: 0 <= k < |dirs| && DirFails(w, s, dirs[k], now)
  {
    RunDirsFatalAny(w, s, dirs, now);
    AnyOfExists(d => DirFails(w, s, d, now), dirs);
  }

  lemma {:induction false} RunDirsStoppedAny(w: World, s: Settings, dirs: seq<string>, now: int)
    ensures RunDirs(w, s, dirs, now).Stopped? == AnyOf(d => DirTickets(w, d, s.global.timezone).Err?, dirs)
    decreases |dirs|
  {
    if dirs != [] {
      RunDirsStoppedAny(w, s, dirs[..|dirs| - 1], now);
    }
  }

  /** The outer loop stops exactly when some directory fails to load. */
  lemma {:induction false} RunDirsStopped(w: World, s: Settings, dirs: seq<string>, now: int)
    ensures RunDirs(w, s, dirs, now).Stopped? <==> exists k :: 0 <= k < |dirs| && DirTickets(w, dirs[k], s.global.timezone).Err?
  {
    RunDirsStoppedAny(w, s, dirs, now);
    AnyOfExists(d => DirTickets(w, d, s.global.timezone).Err?, dirs);
  }

  /** The exit code of a pass that is not aborted is 1 exactly when there is nothing to scan,
      a tool is missing or some due ticket failed; otherwise it is 0. */
  lemma {:induction false} ExitCodeReportsFailure(w: World, args: RunArgs, defaultPath: string, toolsFound: bool, now: int)
    requires RunOnceSpec(w, args, defaultPath, toolsFound, now).value.Exit?
    ensures var g := LoadGlobalConfig(w.disk, args.configPath, defaultPath, false).config;
      var dirs := DirsOf(args, g);
      var s := Settings(args.mode, args.overrides, g);
      var code := RunOnceSpec(w, args, defaultPath, toolsFound, now).value.code;
      && (code == 0 || code == 1)
      && (code == 1 <==> dirs == [] || !toolsFound || exists k :: 0 <= k < |dirs| && DirFails(w, s, dirs[k], now))
  {
    var g := LoadGlobalConfig(w.disk, args.configPath, defaultPath, false).config;
    var dirs := DirsOf(args, g);
    if dirs != [] && toolsFound {
      RunDirsFatal(w, Settings(args.mode, args.overrides, g), dirs, now);
    }
  }

  /** A pass is aborted exactly when it gets as far as the directories and one of them fails
      to load. */
  lemma {:induction false} AbortedByLoadError(w: World, args: RunArgs, defaultPath: string, toolsFound: bool, now: int)
    ensures var g := LoadGlobalConfig(w.disk, args.configPath, defaultPath, false).config;
      var dirs := DirsOf(args, g);
      RunOnceSpec(w, args, defaultPath, toolsFound, now).value.Aborted? <==>
        dirs != [] && toolsFound && exists k :: 0 <= k < |dirs| && DirTickets(w, dirs[k], g.timezone).Err?
  {
    var g := LoadGlobalConfig(w.disk, args.configPath, defaultPath, false).config;
    RunDirsStopped(w, Settings(args.mode, args.overrides, g), DirsOf(args, g), now);
  }

  /** The commands a preview may issue: the git root, and the default-branch queries. */
  predicate Inspects(c: Cmd) {
    c.args == ["rev-parse", "--show-toplevel"] || c.args == RepoView || c.args == OriginHead
  }

  predicate AllInspect(trace: seq<Cmd>) {
    forall c :: c in trace ==> Inspects(c)
  }

  /** A previewed ticket only asks for its base. */
  lemma {:induction false} PreviewOnlyInspects(w: World, s: Settings, t: Ticket, root: string, repoCfg: Config)
    requires s.mode == DryRun
    ensures Work(w, s, t, root, repoCfg).value == Previewed
    ensures AllInspect(Work(w, s, t, root, repoCfg).trace)
  {
    TS.ResolveBaseInspects(w, root, t.base);
  }

  /** A preview neither captures nor changes any branch: every command it issues is a query. */
  lemma {:induction false} HandledPreview(w: World, s: Settings, dir: string, t: Ticket, st: RunState)
    requires s.mode == DryRun && AllInspect(st.trace) && st.originals == []
    ensures AllInspect(Handled(w, s, dir, t, st).trace) && Handled(w, s, dir, t, st).originals == []
  {
    var root := RepoRoot(w, t, dir);
    assert AllInspect(root.trace);
    if root.value.Ok? {
      var r := root.value.value;
      var configs := if r in st.repoConfigs then st.repoConfigs else st.repoConfigs[r := RepoCfg(w, r)];
      var captured := Capture(w, s.mode, r, st.originals);
      assert captured == Traced(st.originals, []);
      var work := Work(w, s, t, r, configs[r]);
      PreviewOnlyInspects(w, s, t, r, configs[r]);
      assert Handled(w, s, dir, t, st).trace == st.trace + root.trace + work.trace;
      AllInspectAppend(st.trace, root.trace);
      AllInspectAppend(st.trace + root.trace, work.trace);
    } else {
      AllInspectAppend(st.trace, root.trace);
    }
  }

  lemma AllInspectAppend(a: seq<Cmd>, b: seq<Cmd>)
    requires AllInspect(a) && AllInspect(b)
    ensures AllInspect(a + b)
  {
  }

  lemma {:induction false} HandleAllPreview(w: World, s: Settings, dir: string, ts: seq<Ticket>, st: RunState)
    requires s.mode == DryRun && AllInspect(st.trace) && st.originals == []
    ensures AllInspect(HandleAll(w, s, dir, ts, st).trace) && HandleAll(w, s, dir, ts, st).originals == []
    decreases |ts|
  {
    if ts != [] {
      HandleAllPreview(w, s, dir, ts[..|ts| - 1], st);
      HandledPreview(w, s, dir, ts[|ts| - 1], HandleAll(w, s, dir, ts[..|ts| - 1], st));
    }
  }

  lemma {:induction false} RunDirsPreview(w: World, s: Settings, dirs: seq<string>, now: int)
    requires s.mode == DryRun
    ensures RunDirs(w, s, dirs, now).Finished? ==> AllInspect(RunDirs(w, s, dirs, now).st.trace) && RunDirs(w, s, dirs, now).st.originals == []
    ensures RunDirs(w, s, dirs, now).Stopped? ==> AllInspect(RunDirs(w, s, dirs, now).trace)
    decreases |dirs|
  {
    if dirs != [] {
      var init := dirs[..|dirs| - 1];
      RunDirsPreview(w, s, init, now);
      if RunDirs(w, s, init, now).Finished? {
        var dir := dirs[|dirs| - 1];
        var tickets := DirTickets(w, dir, s.global.timezone);
        if tickets.Ok? {
          HandleAllPreview(w, s, dir, DueTickets(tickets.value, now), RunDirs(w, s, init, now).st);
        }
      }
    }
  }

  /** A dry run issues nothing but queries: no checkout, push or pull-request command, and no
      branch to restore. */
  lemma {:induction false} DryRunOnlyInspects(w: World, args: RunArgs, defaultPath: string, toolsFound: bool, now: int)
    requires args.mode == DryRun
    ensures AllInspect(RunOnceSpec(w, args, defaultPath, toolsFound, now).trace)
  {
    var g := LoadGlobalConfig(w.disk, args.configPath, defaultPath, false).config;
    var dirs := DirsOf(args, g);
    if dirs != [] && toolsFound {
      RunDirsPreview(w, Settings(args.mode, args.overrides, g), dirs, now);
    }
  }

  /** An open pull request skips the ticket before anything is checked out or pushed: the
      base queries and the listing are all it issues. */
  lemma {:induction false} OpenPrSkipsPush(w: World, s: Settings, t: Ticket, root: string, repoCfg: Config)
    requires s.mode == Run && TS.OpenPrFound(w, root, t.branch)
    ensures Work(w, s, t, root, repoCfg) == Traced(OpenPr, TS.ResolveBase(w, root, t.base).trace + [TS.PrListCmd(root, t.branch)])
  {
  }

  /** Without an open pull request the branch is pushed with the resolved base, and the pull
      request is asked for only once the push completed, with that same base. A failed push
      ends the ticket after the base queries, the listing and the push's own git commands. */
  lemma {:induction false} NoOpenPrPushesThenOpens(w: World, s: Settings, t: Ticket, root: string, repoCfg: Config)
    requires s.mode == Run && !TS.OpenPrFound(w, root, t.branch)
    ensures var base := TS.ResolveBase(w, root, t.base);
      var o := PushOptsFor(t, root, base.value, RunRemote(s.overrides, s.global), RunPushMode(t, s.overrides, repoCfg, s.global));
      var push := PushPlan(w.sh, o);
      var head := base.trace + [TS.PrListCmd(root, t.branch)] + push.trace;
      var pr := PrPlan(w.sh, PrOptsFor(t, root, base.value, s.global.repo));
      var r := Work(w, s, t, root, repoCfg);
      && (push.value.Threw? ==> r == Traced(PushFailed(push.value.msg), head) && AllTo(Git, r.trace[|head| - |push.trace|..]))
      && (push.value.Done? && pr.value.Err? ==> r == Traced(PrFailed(pr.value.error), head + pr.trace))
      && (push.value.Done? && pr.value.Ok? ==> r == Traced(Opened(pr.value.value), head + pr.trace))
      && (push.value.Done? ==> r.trace[|head|] == GhCmd(root, CreateArgs(PrOptsFor(t, root, base.value, s.global.repo))))
  {
    var base := TS.ResolveBase(w, root, t.base);
    var o := PushOptsFor(t, root, base.value, RunRemote(s.overrides, s.global), RunPushMode(t, s.overrides, repoCfg, s.global));
    var push := PushPlan(w.sh, o);
    var head := base.trace + [TS.PrListCmd(root, t.branch)] + push.trace;
    PushPlanOnlyGit(w.sh, o);
    assert head[|head| - |push.trace|..] == push.trace;
  }

  /** No repository is captured twice. */
  predicate DistinctRepos(o: seq<(string, string)>) {
    forall i, j :: 0 <= i < j < |o| ==> o[i].0 != o[j].0
  }

  /** Every captured branch is the non-empty one checked out in its repository. */
  predicate CapturedCurrent(w: World, o: seq<(string, string)>) {
    forall i :: 0 <= i < |o| ==> o[i].1 != "" && o[i].1 == GetCurrentBranch(w.sh, o[i].0).value
  }

  /** The captured branches: one per repository, each the non-empty branch that was checked
      out when the repository was first met. */
  predicate OriginalsOk(w: World, o: seq<(string, string)>) {
    DistinctRepos(o) && CapturedCurrent(w, o)
  }

  lemma {:induction false} AppendDistinct(o: seq<(string, string)>, r: string, b: string)
    requires DistinctRepos(o) && forall i :: 0 <= i < |o| ==> o[i].0 != r
    ensures DistinctRepos(o + [(r, b)])
  {
    var n := o + [(r, b)];
    forall i, j | 0 <= i < j < |n| ensures n[i].0 != n[j].0 {
      assert n[i] == o[i];
      if j < |o| {
        assert n[j] == o[j];
      }
    }
  }

  lemma {:induction false} AppendCurrent(w: World, o: seq<(string, string)>, r: string, b: string)
    requires CapturedCurrent(w, o)
    requires b != "" && b == GetCurrentBranch(w.sh, r).value
    ensures CapturedCurrent(w, o + [(r, b)])
  {
    var n := o + [(r, b)];
    forall i | 0 <= i < |n| ensures n[i].1 != "" && n[i].1 == GetCurrentBranch(w.sh, n[i].0).value {
      if i < |o| {
        assert n[i] == o[i];
      }
    }
  }

  /** The capture step alone keeps the captured branches well formed. */
  lemma {:induction false} AppendKeepsOriginals(w: World, o: seq<(string, string)>, r: string, b: string)
    requires OriginalsOk(w, o) && forall i :: 0 <= i < |o| ==> o[i].0 != r
    requires b != "" && b == GetCurrentBranch(w.sh, r).value
    ensures OriginalsOk(w, o + [(r, b)])
  {
    AppendDistinct(o, r, b);
    AppendCurrent(w, o, r, b);
  }

  /** Capturing keeps the branches well formed and only ever appends. */
  lemma {:induction false} CaptureKeepsOriginals(w: World, mode: RunMode, o: seq<(string, string)>, r: string)
    requires OriginalsOk(w, o)
    ensures OriginalsOk(w, Capture(w, mode, r, o).value)
    ensures |o| <= |Capture(w, mode, r, o).value| && Capture(w, mode, r, o).value[..|o|] == o
  {
    var b := GetCurrentBranch(w.sh, r).value;
    if mode == Run && r !in Keys(o) && b != "" {
      assert forall i :: 0 <= i < |o| ==> o[i].0 == Keys(o)[i];
      AppendKeepsOriginals(w, o, r, b);
      assert (o + [(r, b)])[..|o|] == o;
    }
  }

  lemma {:induction false} HandledOriginals(w: World, s: Settings, dir: string, t: Ticket, st: RunState)
    requires OriginalsOk(w, st.originals)
    ensures OriginalsOk(w, Handled(w, s, dir, t, st).originals)
    ensures |st.originals| <= |Handled(w, s, dir, t, st).originals| && Handled(w, s, dir, t, st).originals[..|st.originals|] == st.originals
  {
    var root := RepoRoot(w, t, dir);
    if root.value.Ok? {
      CaptureKeepsOriginals(w, s.mode, st.originals, root.value.value);
    }
  }

  lemma {:induction false} HandleAllOriginals(w: World, s: Settings, dir: string, ts: seq<Ticket>, st: RunState)
    requires OriginalsOk(w, st.originals)
    ensures OriginalsOk(w, HandleAll(w, s, dir, ts, st).originals)
    ensures |st.originals| <= |HandleAll(w, s, dir, ts, st).originals| && HandleAll(w, s, dir, ts, st).originals[..|st.originals|] == st.originals
    decreases |ts|
  {
    if ts != [] {
      var mid := HandleAll(w, s, dir, ts[..|ts| - 1], st);
      HandleAllOriginals(w, s, dir, ts[..|ts| - 1], st);
      HandledOriginals(w, s, dir, ts[|ts| - 1], mid);
      var o := HandleAll(w, s, dir, ts, st).originals;
      assert o[..|st.originals|] == o[..|mid.originals|][..|st.originals|];
    }
  }

  /** A finished run restores every touched repository once, to the branch it had. */
  lemma {:induction false} RestoresEachRepositoryOnce(w: World, s: Settings, dirs: seq<string>, now: int)
    requires RunDirs(w, s, dirs, now).Finished?
    ensures OriginalsOk(w, RunDirs(w, s, dirs, now).st.originals)
    decreases |dirs|
  {
    if dirs != [] {
      var init := dirs[..|dirs| - 1];
      RestoresEachRepositoryOnce(w, s, init, now);
      var dir := dirs[|dirs| - 1];
      HandleAllOriginals(w, s, dir, DueTickets(DirTickets(w, dir, s.global.timezone).value, now), RunDirs(w, s, init, now).st);
    }
  }

  // ---------------------------------------------------------------------------------------
  // The runner itself.

  /** One ticket once its repository root is known. */
  method HandleRooted(w: World, s: Settings, t: Ticket, root: string, repoCfg: Config) returns (trace: seq<Cmd>, end: TicketEnd)
    ensures Traced(end, trace) == Work(w, s, t, root, repoCfg)
  {
    var base := TS.ResolveBase(w, root, t.base);
    trace := base.trace;
    var pushMode := RunPushMode(t, s.overrides, repoCfg, s.global);
    var remote := RunRemote(s.overrides, s.global);
    var repo := s.global.repo;
    if s.mode == DryRun {
      return trace, Previewed;
    }
    var list := TS.PrListCmd(root, t.branch);
    trace := trace + [list];
    var reply := Ask(w.sh, list);
    var openPrExists := false;
    if reply.Success? {
      var n := w.parsers.jsonLength(reply.out);
      if n.Some? && n.value > 0 {
        openPrExists := true;
      }
    }
    if openPrExists {
      return trace, OpenPr;
    }
    var pushTrace, pushed := PushBranch(w.sh, PushOptsFor(t, root, base.value, remote, pushMode));
    trace := trace + pushTrace;
    if pushed.Threw? {
      return trace, PushFailed(pushed.msg);
    }
    var prTrace, url := CreateOrUpdatePr(w.sh, PrOptsFor(t, root, base.value, repo));
    trace := trace + prTrace;
    end := if url.Err? then PrFailed(url.error) else Opened(url.value);
  }

  /** The capture step of one ticket. */
  method CaptureOriginal(w: World, mode: RunMode, r: string, o: seq<(string, string)>) returns (captured: Traced<seq<(string, string)>>)
    ensures captured == Capture(w, mode, r, o)
  {
    captured := Traced(o, []);
    if r !in Keys(o) && mode == Run {
      var current := GetCurrentBranch(w.sh, r);
      captured := captured.(trace := current.trace);
      if current.value != "" {
        captured := captured.(value := o + [(r, current.value)]);
      }
    }
  }

  /** One iteration of the inner loop. */
  method HandleTicket(w: World, s: Settings, dir: string, t: Ticket, st: RunState) returns (next: RunState)
    ensures next == Handled(w, s, dir, t, st)
  {
    var root := RepoRoot(w, t, dir);
    if root.value.Err? {
      return st.(fatal := true, trace := st.trace + root.trace);
    }
    var r := root.value.value;
    var configs := st.repoConfigs;
    if r !in configs {
      configs := configs[r := RepoCfg(w, r)];
    }
    var captured := CaptureOriginal(w, s.mode, r, st.originals);
    var trace := st.trace + root.trace + captured.trace;
    var work, end := HandleRooted(w, s, t, r, configs[r]);
    next := RunState(st.fatal || Fails(end), captured.value, configs, trace + work);
  }

  /** The inner loop: every due ticket of one directory, in order. */
  method HandleDue(w: World, s: Settings, dir: string, due: seq<Ticket>, st: RunState) returns (next: RunState)
    ensures next == HandleAll(w, s, dir, due, st)
  {
    next := st;
    for i := 0 to |due|
      invariant next == HandleAll(w, s, dir, due[..i], st)
    {
      assert due[..i + 1][..i] == due[..i];
      next := HandleTicket(w, s, dir, due[i], next);
    }
    assert due[..|due|] == due;
  }

  /** One more directory, as the outer loop takes it. */
  lemma RunDirsStep(w: World, s: Settings, dirs: seq<string>, d: nat, st: RunState, now: int)
    requires d < |dirs| && RunDirs(w, s, dirs[..d], now) == Finished(st)
    ensures DirTickets(w, dirs[d], s.global.timezone).Err? ==>
      RunDirs(w, s, dirs[..d + 1], now) == Stopped(DirTickets(w, dirs[d], s.global.timezone).error, st.trace)
    ensures DirTickets(w, dirs[d], s.global.timezone).Ok? ==>
      RunDirs(w, s, dirs[..d + 1], now) == Finished(HandleAll(w, s, dirs[d], DueTickets(DirTickets(w, dirs[d], s.global.timezone).value, now), st))
  {
    assert dirs[..d + 1][..d] == dirs[..d];
  }

  /** Once a load error stops the outer loop, later directories change nothing. */
  lemma {:induction false} StoppedStays(w: World, s: Settings, dirs: seq<string>, k: nat, now: int)
    requires k <= |dirs| && RunDirs(w, s, dirs[..k], now).Stopped?
    ensures RunDirs(w, s, dirs, now) == RunDirs(w, s, dirs[..k], now)
    decreases |dirs| - k
  {
    if k < |dirs| {
      var init := dirs[..|dirs| - 1];
      assert init[..k] == dirs[..k];
      StoppedStays(w, s, init, k, now);
    } else {
      assert dirs[..k] == dirs;
    }
  }

  /** The outer loop; a load error stops it with the commands issued so far. */
  method RunAllDirs(w: World, s: Settings, dirs: seq<string>, now: int) returns (end: DirsEnd)
    ensures end == RunDirs(w, s, dirs, now)
  {
    var st := Start;
    for d := 0 to |dirs|
      invariant RunDirs(w, s, dirs[..d], now) == Finished(st)
    {
      var dir := dirs[d];
      var tickets := LoadTickets(w.disk, w.lib, w.paths, dir, s.global.timezone);
      assert tickets == DirTickets(w, dir, s.global.timezone);
      RunDirsStep(w, s, dirs, d, st, now);
      if tickets.Err? {
        StoppedStays(w, s, dirs, d + 1, now);
        return Stopped(tickets.error, st.trace);
      }
      var due := DueTickets(tickets.value, now);
      st := HandleDue(w, s, dir, due, st);
    }
    assert dirs[..|dirs|] == dirs;
    end := Finished(st);
  }

  /** The closing loop: check out every captured branch again; a failure only warns. */
  method RestoreBranches(originals: seq<(string, string)>) returns (cmds: seq<Cmd>)
    ensures cmds == Restores(originals)
  {
    cmds := [];
    for i := 0 to |originals|
      invariant cmds == Restores(originals[..i])
    {
      cmds := cmds + [CheckoutBack(originals[i].0, originals[i].1)];
    }
    assert originals[..|originals|] == originals;
  }

  /** `runOnce(args)`. */
  method RunOnce(w: World, args: RunArgs, defaultPath: string, toolsFound: bool, now: int) returns (r: RunResult, trace: seq<Cmd>)
    ensures Traced(r, trace) == RunOnceSpec(w, args, defaultPath, toolsFound, now)
  {
    var globalCfg := LoadGlobalConfig(w.disk, args.configPath, defaultPath, false).config;
    var dirs := DirsOf(args, globalCfg);
    if |dirs| == 0 {
      return Exit(1), [];
    }
    if !toolsFound {
      return Exit(1), [];
    }
    var end := RunAllDirs(w, Settings(args.mode, args.overrides, globalCfg), dirs, now);
    if end.Stopped? {
      return Aborted(end.msg), end.trace;
    }
    var st := end.st;
    trace := st.trace;
    if args.mode == Run {
      var restores := RestoreBranches(st.originals);
      trace := trace + restores;
    }
    r := Exit(if st.fatal then 1 else 0);
  }
}
