/** Repository resolution and the pull-request status ladder of src/core/ticket-status.ts.
    src/utils/tickets.ts carries a copy of both function bodies; both are modelled here once.
    src/core/ticket-status.ts imports `hasUnmergedCommits`, `isBranchMerged` and
    `isGitRepository` from src/core/gitgh.ts, which does not define them; the model uses the
    ones of src/utils/git.ts, as src/utils/tickets.ts does. Answers come from the command
    oracle. */
module TicketStatus {
  import opened Wrappers
  import opened Text
  import opened Env
  import opened GitGh
  import opened GitUtils
  import opened Config

  /** `str.replace(/^~/, os.homedir())`: a leading tilde becomes the home directory. */
  function ExpandHome(p: string, home: string): (r: string)
    ensures p != [] && p[0] == '~' ==> r == home + p[1..]
    ensures (p == [] || p[0] != '~') ==> r == p
  {
    if p != [] && p[0] == '~' then home + p[1..] else p
  }

  /** `path.resolve` of the tilde-expanded repository field. */
  function RepositoryPath(paths: Paths, repository: string): string {
    paths.resolve(ExpandHome(repository, paths.home))
  }

  function NotInRepoMessage(ticketsDir: string): string {
    "Directory " + ticketsDir + " is not in a git repository and ticket doesn't specify repository field"
  }

  /** The `repository` field counts only when it is a non-empty string. */
  predicate HasRepository(repository: Option<string>) {
    repository.Some? && repository.value != ""
  }

  /** `getTicketRepoRoot(ticket, ticketsDir)`: the expanded `repository` path after checking
      that it exists and is a git repository, or else the git root of the tickets directory. */
  function GetTicketRepoRoot(w: World, repository: Option<string>, ticketsDir: string): (r: Traced<Result<string, string>>)
    ensures HasRepository(repository) ==>
      var p := RepositoryPath(w.paths, repository.value);
      && (!w.disk.pathExists(p) ==> r == Traced(Err("Repository path does not exist: " + p), []))
      && (w.disk.pathExists(p) ==>
            r.trace == [GitCmd(p, ["rev-parse", "--git-dir"])]
            && r.value == (if w.sh(GitCmd(p, ["rev-parse", "--git-dir"])).Success? then Ok(p)
                           else Err("Path is not a git repository: " + p)))
    ensures !HasRepository(repository) ==>
      && r.trace == [GitCmd(ticketsDir, ["rev-parse", "--show-toplevel"])]
      && (r.value.Ok? <==> GetGitRoot(w.sh, ticketsDir).value.Some? && GetGitRoot(w.sh, ticketsDir).value.value != "")
      && (r.value.Ok? ==> Some(r.value.value) == GetGitRoot(w.sh, ticketsDir).value)
      && (r.value.Err? ==> r.value.error == NotInRepoMessage(ticketsDir))
  {
    if HasRepository(repository) then
      var p := RepositoryPath(w.paths, repository.value);
      if !w.disk.pathExists(p) then Traced(Err("Repository path does not exist: " + p), [])
      else
        var isRepo := IsGitRepository(w.sh, p);
        Traced(if isRepo.value then Ok(p) else Err("Path is not a git repository: " + p), isRepo.trace)
    else
      var root := GetGitRoot(w.sh, ticketsDir);
      if root.value.Some? && root.value.value != "" then Traced(Ok(root.value.value), root.trace)
      else Traced(Err(NotInRepoMessage(ticketsDir)), root.trace)
  }

  /** A tilde-relative repository is looked up under the home directory. */
  lemma {:induction false} TildeIsHome(w: World, rest: string, ticketsDir: string)
    requires w.disk.pathExists(w.paths.resolve(w.paths.home + rest))
    requires w.sh(GitCmd(w.paths.resolve(w.paths.home + rest), ["rev-parse", "--git-dir"])).Success?
    ensures GetTicketRepoRoot(w, Some("~" + rest), ticketsDir).value == Ok(w.paths.resolve(w.paths.home + rest))
  {
    assert ("~" + rest)[1..] == rest;
  }

  datatype PrStatus = PrExists | Merged | Ready

  datatype StatusReport = StatusReport(status: PrStatus, base: string)

  function PrListCmd(root: string, branch: string): Cmd {
    GhCmd(root, ["pr", "list", "--head", branch, "--state", "open", "--json", "number"])
  }

  /** `JSON.parse(result).length > 0` on the trimmed listing; a failing command or an
      unparseable answer counts as no open pull request. */
  predicate OpenPrFound(w: World, root: string, branch: string) {
    var reply := Ask(w.sh, PrListCmd(root, branch));
    reply.Success? && w.parsers.jsonLength(reply.out).Some? && w.parsers.jsonLength(reply.out).value > 0
  }

  /** `ticket.base || getDefaultBranch(repoRoot)`: the default branch is asked for only when
      the ticket names no base. */
  function ResolveBase(w: World, root: string, base: Option<string>): (r: Traced<string>)
    ensures base.Some? && base.value != "" ==> r == Traced(base.value, [])
    ensures (base.None? || base.value == "") ==> r == GetDefaultBranch(w.sh, w.parsers, root)
  {
    if base.Some? && base.value != "" then Traced(base.value, []) else GetDefaultBranch(w.sh, w.parsers, root)
  }

  /** `repoCfg?.remote ?? globalCfg.remote ?? 'origin'`. */
  function StatusRemote(repoCfg: Config, globalCfg: Config): (remote: string)
    ensures remote == Pick([repoCfg.remote, globalCfg.remote], "origin")
  {
    repoCfg.remote.OrElse(globalCfg.remote).GetOr("origin")
  }

  /** `checkTicketPrStatus`: an open pull request first, then the merged listing, then the
      unmerged-commit count; every failing query is passed over and the answer defaults to ready. */
  function CheckTicketPrStatus(w: World, branch: string, base: Option<string>, root: string, repoCfg: Config, globalCfg: Config): (r: Traced<StatusReport>)
    ensures r.value.base == ResolveBase(w, root, base).value
    ensures r.value.status == PrExists <==> OpenPrFound(w, root, branch)
    ensures !OpenPrFound(w, root, branch) ==>
      var remote := StatusRemote(repoCfg, globalCfg);
      var b := r.value.base;
      (r.value.status == Merged <==>
        IsBranchMerged(w.sh, root, branch, b, remote).value || !HasUnmergedCommits(w.sh, root, branch, b, remote).value)
    ensures |r.trace| >= 1 && r.trace[0] == PrListCmd(root, branch)
    ensures OpenPrFound(w, root, branch) ==> r.trace == [PrListCmd(root, branch)] + ResolveBase(w, root, base).trace
  {
    var list := PrListCmd(root, branch);
    var resolved := ResolveBase(w, root, base);
    if OpenPrFound(w, root, branch) then Traced(StatusReport(PrExists, resolved.value), [list] + resolved.trace)
    else
      var b := resolved.value;
      var remote := StatusRemote(repoCfg, globalCfg);
      var merged := IsBranchMerged(w.sh, root, branch, b, remote);
      var head := [list] + resolved.trace + merged.trace;
      if merged.value then Traced(StatusReport(Merged, b), head)
      else
        var unmerged := HasUnmergedCommits(w.sh, root, branch, b, remote);
        Traced(StatusReport(if unmerged.value then Ready else Merged, b), head + unmerged.trace)
  }

  /** Resolving the base asks, at most, for the default branch. */
  lemma {:induction false} ResolveBaseInspects(w: World, root: string, base: Option<string>)
    ensures forall c :: c in ResolveBase(w, root, base).trace ==> c.args == RepoView || c.args == OriginHead
  {
    if !(base.Some? && base.value != "") {
      var d := GetDefaultBranch(w.sh, w.parsers, root);
      assert d.trace[0].args == RepoView;
      assert |d.trace| == 2 ==> d.trace[1].args == OriginHead;
    }
  }

  /** No branch, commit-count or branch-verification query: what an open pull request leaves out. */
  predicate NoMergeQuery(c: Cmd) {
    c.args != [] && c.args[0] != "branch" && c.args[0] != "rev-list" && !(c.args[0] == "rev-parse" && c.args[1..] != [] && c.args[1] == "--verify")
  }

  /** An open pull request wins whatever the merge queries would have answered: no git
      query about merging is made at all. */
  lemma {:induction false} OpenPrShortCircuits(w: World, branch: string, base: Option<string>, root: string, repoCfg: Config, globalCfg: Config)
    requires OpenPrFound(w, root, branch)
    ensures CheckTicketPrStatus(w, branch, base, root, repoCfg, globalCfg).value.status == PrExists
    ensures forall c :: c in CheckTicketPrStatus(w, branch, base, root, repoCfg, globalCfg).trace ==> NoMergeQuery(c)
  {
    var t := CheckTicketPrStatus(w, branch, base, root, repoCfg, globalCfg).trace;
    var rb := ResolveBase(w, root, base).trace;
    assert t == [PrListCmd(root, branch)] + rb;
    ResolveBaseInspects(w, root, base);
    forall c | c in t
      ensures NoMergeQuery(c)
    {
      if c in rb {
        assert c.args == RepoView || c.args == OriginHead;
      } else {
        assert c == PrListCmd(root, branch);
      }
    }
  }

  /** With no open pull request and a branch that has no commits beyond `remote/base`, the
      status is merged. */
  lemma {:induction false} NothingAheadIsMerged(w: World, branch: string, base: Option<string>, root: string, repoCfg: Config, globalCfg: Config)
    requires !OpenPrFound(w, root, branch)
    requires var b := ResolveBase(w, root, base).value;
      !HasUnmergedCommits(w.sh, root, branch, b, StatusRemote(repoCfg, globalCfg)).value
    ensures CheckTicketPrStatus(w, branch, base, root, repoCfg, globalCfg).value.status == Merged
  {
  }

  /** When every git query fails the resolver still answers, and answers ready: a branch that
      cannot be verified has no unmerged commits, so the failure that matters is on the base.
      A failing listing and a failing `remote/base` check leave the ticket ready. */
  lemma {:induction false} FailuresDefaultToReady(w: World, branch: string, base: Option<string>, root: string, repoCfg: Config, globalCfg: Config)
    requires w.sh(PrListCmd(root, branch)).Failure?
    requires var b := ResolveBase(w, root, base).value; var remote := StatusRemote(repoCfg, globalCfg);
      && w.sh(VerifyCmd(root, branch)).Success?
      && w.sh(MergedCmd(root, b, remote)).Failure?
      && w.sh(VerifyCmd(root, remote + "/" + b)).Failure?
    ensures CheckTicketPrStatus(w, branch, base, root, repoCfg, globalCfg).value.status == Ready
  {
  }
}
