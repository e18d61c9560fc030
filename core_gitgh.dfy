/** The first generation of git and GitHub helpers, src/core/gitgh.ts: every command goes
    through `execa` and its standard output is trimmed. */
module GitGh {
  import opened Wrappers
  import opened Text
  import opened Env
  import opened FrontMatter

  /** `git(cwd, args)` / `gh(cwd, args)`: the reply with its output trimmed. */
  function Ask(sh: Shell, c: Cmd): (r: Reply)
    ensures sh(c).Failure? <==> r.Failure?
    ensures r.Failure? ==> r == sh(c)
    ensures r.Success? ==> r.out == Trim(sh(c).out)
  {
    match sh(c)
    case Success(out) => Success(Trim(out))
    case Failure(msg) => Failure(msg)
  }

  /** `getCurrentBranch`: the trimmed branch name, or `""` when the command fails. */
  function GetCurrentBranch(sh: Shell, cwd: string): (r: Traced<string>)
    ensures r.trace == [GitCmd(cwd, ["rev-parse", "--abbrev-ref", "HEAD"])]
    ensures sh(r.trace[0]).Failure? ==> r.value == ""
    ensures sh(r.trace[0]).Success? ==> r.value == Trim(sh(r.trace[0]).out)
  {
    var c := GitCmd(cwd, ["rev-parse", "--abbrev-ref", "HEAD"]);
    match Ask(sh, c)
    case Success(out) => Traced(out, [c])
    case Failure(_) => Traced("", [c])
  }

  /** `getGitRoot`: the trimmed top-level directory, or `None` (`null`) when the command fails. */
  function GetGitRoot(sh: Shell, cwd: string): (r: Traced<Option<string>>)
    ensures r.trace == [GitCmd(cwd, ["rev-parse", "--show-toplevel"])]
    ensures r.value.None? <==> sh(r.trace[0]).Failure?
    ensures r.value.Some? ==> r.value.value == Trim(sh(r.trace[0]).out)
  {
    var c := GitCmd(cwd, ["rev-parse", "--show-toplevel"]);
    match Ask(sh, c)
    case Success(out) => Traced(Some(out), [c])
    case Failure(_) => Traced(None, [c])
  }

  const RepoView: seq<string> := ["repo", "view", "--json", "defaultBranchRef"]
  const OriginHead: seq<string> := ["symbolic-ref", "refs/remotes/origin/HEAD"]
  const OriginPrefix: string := "refs/remotes/origin/"

  /** `getDefaultBranch`: GitHub's answer, else the symbolic ref of `origin/HEAD`, else `main`.
      The same logic appears in src/utils/github.ts, where the git output is trimmed explicitly. */
  function GetDefaultBranch(sh: Shell, p: Parsers, cwd: string): (r: Traced<string>)
    ensures 1 <= |r.trace| <= 2 && r.trace[0] == GhCmd(cwd, RepoView)
    ensures |r.trace| == 1 <==> sh(GhCmd(cwd, RepoView)).Success? && p.repoViewBranch(Trim(sh(GhCmd(cwd, RepoView)).out)).Some?
    ensures |r.trace| == 2 ==> r.trace[1] == GitCmd(cwd, OriginHead)
    ensures |r.trace| == 1 ==> r.value == p.repoViewBranch(Trim(sh(GhCmd(cwd, RepoView)).out)).value || r.value == "main"
    ensures |r.trace| == 2 && sh(GitCmd(cwd, OriginHead)).Failure? ==> r.value == "main"
  {
    var view := GhCmd(cwd, RepoView);
    var fallback := GitCmd(cwd, OriginHead);
    match Ask(sh, view)
    case Success(out) =>
      (match p.repoViewBranch(out)
       case Some(name) => Traced(if name != "" then name else "main", [view])
       case None => Traced(SymbolicDefault(Ask(sh, fallback)), [view, fallback]))
    case Failure(_) => Traced(SymbolicDefault(Ask(sh, fallback)), [view, fallback])
  }

  /** The fallback step: the first `refs/remotes/origin/` removed from the trimmed output. */
  function SymbolicDefault(reply: Reply): string {
    match reply
    case Success(out) => ReplaceFirst(out, OriginPrefix, "")
    case Failure(_) => "main"
  }

  /** GitHub's answer wins whenever it parses; an empty name becomes `main`. */
  lemma {:induction false} DefaultBranchFromGitHub(sh: Shell, p: Parsers, cwd: string, name: string)
    requires sh(GhCmd(cwd, RepoView)).Success? && p.repoViewBranch(Trim(sh(GhCmd(cwd, RepoView)).out)) == Some(name)
    ensures GetDefaultBranch(sh, p, cwd) == Traced(if name == "" then "main" else name, [GhCmd(cwd, RepoView)])
  {
  }

  /** Otherwise the symbolic ref of `origin/HEAD` is asked for: `refs/remotes/origin/<b>`
      gives `<b>`, and a failing command gives `main`. */
  lemma {:induction false} DefaultBranchFromOriginHead(sh: Shell, p: Parsers, cwd: string, rest: string)
    requires sh(GhCmd(cwd, RepoView)).Failure? || p.repoViewBranch(Trim(sh(GhCmd(cwd, RepoView)).out)).None?
    ensures GetDefaultBranch(sh, p, cwd).trace == [GhCmd(cwd, RepoView), GitCmd(cwd, OriginHead)]
    ensures sh(GitCmd(cwd, OriginHead)).Success? && Trim(sh(GitCmd(cwd, OriginHead)).out) == OriginPrefix + rest ==>
      GetDefaultBranch(sh, p, cwd).value == rest
    ensures sh(GitCmd(cwd, OriginHead)).Failure? ==> GetDefaultBranch(sh, p, cwd).value == "main"
  {
    var fallback := Ask(sh, GitCmd(cwd, OriginHead));
    assert GetDefaultBranch(sh, p, cwd).value == SymbolicDefault(fallback);
    if fallback.Success? && fallback.out == OriginPrefix + rest {
      ReplaceFirstPrefix(OriginPrefix, rest, "");
      assert "" + rest == rest;
    }
  }

  /** How a run of commands ended: completion, or the message of the error it threw. */
  datatype Outcome = Done | Threw(msg: string)

  /** One command whose failure throws. */
  function Step(sh: Shell, c: Cmd): (r: Traced<Outcome>)
    ensures r.trace == [c] && (r.value.Done? <==> sh(c).Success?)
    ensures r.value.Threw? ==> r.value.msg == sh(c).msg
  {
    Traced(if sh(c).Failure? then Threw(sh(c).msg) else Done, [c])
  }

  /** `a` then `b`, where `b` runs only if `a` did not throw. */
  function Then(a: Traced<Outcome>, b: Traced<Outcome>): (r: Traced<Outcome>)
    ensures a.value.Threw? ==> r == a
    ensures a.value.Done? ==> r == Traced(b.value, a.trace + b.trace)
  {
    if a.value.Threw? then a else Traced(b.value, a.trace + b.trace)
  }

  /** Sequencing is associative, so a run can be split at any command. */
  lemma ThenAssoc(a: Traced<Outcome>, b: Traced<Outcome>, c: Traced<Outcome>)
    ensures Then(Then(a, b), c) == Then(a, Then(b, c))
  {
    if a.value.Done? && b.value.Done? {
      assert (a.trace + b.trace) + c.trace == a.trace + (b.trace + c.trace);
    }
  }

  datatype PushOpts = PushOpts(cwd: string, branch: string, base: Option<string>, rebase: Option<bool>, remote: string, pushMode: PushMode)

  /** The flag decision table: an existing remote branch gets its mode's flag; a new branch
      gets `--force` in force mode and nothing otherwise. */
  function PushFlags(mode: PushMode, onRemote: bool): (flags: seq<string>)
    ensures |flags| <= 1
    ensures "--force-with-lease" in flags <==> onRemote && mode == ForceWithLease
    ensures "--ff-only" in flags <==> onRemote && mode == FfOnly
    ensures "--force" in flags <==> mode == Force
    ensures mode == Force ==> flags == ["--force"]
    ensures mode != Force && !onRemote ==> flags == []
  {
    if onRemote then
      match mode
      case ForceWithLease => ["--force-with-lease"]
      case FfOnly => ["--ff-only"]
      case Force => ["--force"]
    else if mode == Force then ["--force"]
    else []
  }

  function PushArgs(o: PushOpts, onRemote: bool): (args: seq<string>)
    ensures |args| >= 3 && args[0] == "push" && args[|args| - 2..] == [o.remote, o.branch]
    ensures args[1..|args| - 2] == PushFlags(o.pushMode, onRemote)
  {
    ["push"] + PushFlags(o.pushMode, onRemote) + [o.remote, o.branch]
  }

  /** Whether the rebase block runs: `rebase && base`. */
  predicate WantsRebase(o: PushOpts) {
    o.rebase == Some(true) && o.base.Some? && o.base.value != ""
  }

  function CheckoutCmd(o: PushOpts): Cmd { GitCmd(o.cwd, ["checkout", o.branch]) }
  function LsRemoteCmd(o: PushOpts): Cmd { GitCmd(o.cwd, ["ls-remote", "--heads", o.remote, o.branch]) }
  function UnsetUpstreamCmd(o: PushOpts): Cmd { GitCmd(o.cwd, ["branch", "--unset-upstream"]) }
  function FetchCmd(o: PushOpts, name: string): Cmd { GitCmd(o.cwd, ["fetch", o.remote, name]) }
  function MergeCmd(o: PushOpts): Cmd { GitCmd(o.cwd, ["merge", "--ff-only", o.remote + "/" + o.branch]) }
  function RebaseCmd(o: PushOpts, base: string): Cmd { GitCmd(o.cwd, ["rebase", o.remote + "/" + base]) }
  function PushCmd(o: PushOpts, onRemote: bool): Cmd { GitCmd(o.cwd, PushArgs(o, onRemote)) }

  /** Whether the remote branch counts as existing: the trimmed `ls-remote` output is non-empty. */
  predicate OnRemote(sh: Shell, o: PushOpts) {
    sh(LsRemoteCmd(o)).Success? && |Trim(sh(LsRemoteCmd(o)).out)| > 0
  }

  /** Bringing the local branch up to date with the remote one, or dropping a stale upstream
      whose failure is swallowed. */
  function SyncPlan(sh: Shell, o: PushOpts, onRemote: bool): (r: Traced<Outcome>)
    ensures !onRemote ==> r == Traced(Done, [UnsetUpstreamCmd(o)])
    ensures onRemote ==> r == Then(Step(sh, FetchCmd(o, o.branch)), Step(sh, MergeCmd(o)))
  {
    if onRemote then Then(Step(sh, FetchCmd(o, o.branch)), Step(sh, MergeCmd(o)))
    else Traced(Done, [UnsetUpstreamCmd(o)])
  }

  /** The rebase block; a failing rebase is rethrown as `Rebase failed: <message>`. */
  function RebasePlan(sh: Shell, o: PushOpts): (r: Traced<Outcome>)
    ensures !WantsRebase(o) ==> r == Traced(Done, [])
    ensures WantsRebase(o) && sh(FetchCmd(o, o.base.value)).Success? && sh(RebaseCmd(o, o.base.value)).Failure? ==>
      r == Traced(Threw("Rebase failed: " + sh(RebaseCmd(o, o.base.value)).msg), [FetchCmd(o, o.base.value), RebaseCmd(o, o.base.value)])
  {
    if !WantsRebase(o) then Traced(Done, [])
    else
      var rebase := RebaseCmd(o, o.base.value);
      var rethrown := if sh(rebase).Failure? then Threw("Rebase failed: " + sh(rebase).msg) else Done;
      Then(Step(sh, FetchCmd(o, o.base.value)), Traced(rethrown, [rebase]))
  }

  /** The commands `pushBranch` issues and how it ends: checkout, `ls-remote`, the sync stage,
      the rebase stage and the push, each running only if everything before it succeeded. */
  function PushPlan(sh: Shell, o: PushOpts): (r: Traced<Outcome>)
  {
    Then(Step(sh, CheckoutCmd(o)),
      Then(Step(sh, LsRemoteCmd(o)),
        Then(SyncPlan(sh, o, OnRemote(sh, o)),
          Then(RebasePlan(sh, o), Step(sh, PushCmd(o, OnRemote(sh, o)))))))
  }

  /** The block after `ls-remote`: fetch and fast-forward merge an existing remote branch, or
      unset a stale upstream. */
  method SyncWithRemote(sh: Shell, o: PushOpts, onRemote: bool) returns (trace: seq<Cmd>, outcome: Outcome)
    ensures Traced(outcome, trace) == SyncPlan(sh, o, onRemote)
  {
    if onRemote {
      var fetch := GitCmd(o.cwd, ["fetch", o.remote, o.branch]);
      trace := [fetch];
      if sh(fetch).Failure? {
        return trace, Threw(sh(fetch).msg);
      }
      var merge := GitCmd(o.cwd, ["merge", "--ff-only", o.remote + "/" + o.branch]);
      trace := trace + [merge];
      if sh(merge).Failure? {
        return trace, Threw(sh(merge).msg);
      }
      outcome := Done;
    } else {
      trace := [GitCmd(o.cwd, ["branch", "--unset-upstream"])];
      outcome := Done;
    }
  }

  /** The rebase block: fetch the base, then rebase onto it. */
  method RebaseOntoBase(sh: Shell, o: PushOpts) returns (trace: seq<Cmd>, outcome: Outcome)
    ensures Traced(outcome, trace) == RebasePlan(sh, o)
  {
    trace, outcome := [], Done;
    if o.rebase == Some(true) && o.base.Some? && o.base.value != "" {
      var fetch := GitCmd(o.cwd, ["fetch", o.remote, o.base.value]);
      trace := [fetch];
      if sh(fetch).Failure? {
        return trace, Threw(sh(fetch).msg);
      }
      var rebase := GitCmd(o.cwd, ["rebase", o.remote + "/" + o.base.value]);
      trace := trace + [rebase];
      if sh(rebase).Failure? {
        return trace, Threw("Rebase failed: " + sh(rebase).msg);
      }
    }
  }

  /** The push arguments, flag by flag. */
  method BuildPushArgs(o: PushOpts, onRemote: bool) returns (pushArgs: seq<string>)
    ensures pushArgs == PushArgs(o, onRemote)
  {
    pushArgs := ["push"];
    if onRemote {
      if o.pushMode == ForceWithLease { pushArgs := pushArgs + ["--force-with-lease"]; }
      if o.pushMode == FfOnly { pushArgs := pushArgs + ["--ff-only"]; }
      if o.pushMode == Force { pushArgs := pushArgs + ["--force"]; }
    } else if o.pushMode == Force {
      pushArgs := pushArgs + ["--force"];
    }
    pushArgs := pushArgs + [o.remote, o.branch];
  }

  /** `pushBranch`: runs the commands in order, building the push arguments flag by flag. */
  method PushBranch(sh: Shell, o: PushOpts) returns (trace: seq<Cmd>, outcome: Outcome)
    ensures Traced(outcome, trace) == PushPlan(sh, o)
  {
    var checkout := GitCmd(o.cwd, ["checkout", o.branch]);
    trace := [checkout];
    if sh(checkout).Failure? {
      return trace, Threw(sh(checkout).msg);
    }
    var ls := GitCmd(o.cwd, ["ls-remote", "--heads", o.remote, o.branch]);
    trace := trace + [ls];
    var lsOut := Ask(sh, ls);
    if lsOut.Failure? {
      return trace, Threw(lsOut.msg);
    }
    var onRemote := |lsOut.out| > 0;
    assert onRemote == OnRemote(sh, o);
    PushPlanAfterLsRemote(sh, o);
    var rest, ended := SyncRebaseAndPush(sh, o, onRemote);
    assert trace == [CheckoutCmd(o), LsRemoteCmd(o)];
    trace := trace + rest;
    outcome := ended;
  }

  /** Everything after `ls-remote`: the sync block, the rebase block and the push. */
  method SyncRebaseAndPush(sh: Shell, o: PushOpts, onRemote: bool) returns (trace: seq<Cmd>, outcome: Outcome)
    ensures Traced(outcome, trace) == Then(SyncPlan(sh, o, onRemote), Then(RebasePlan(sh, o), Step(sh, PushCmd(o, onRemote))))
  {
    var syncTrace, synced := SyncWithRemote(sh, o, onRemote);
    if synced.Threw? {
      return syncTrace, synced;
    }
    var rebaseTrace, rebased := RebaseOntoBase(sh, o);
    if rebased.Threw? {
      return syncTrace + rebaseTrace, rebased;
    }
    var pushArgs := BuildPushArgs(o, onRemote);
    var push := GitCmd(o.cwd, pushArgs);
    trace := syncTrace + rebaseTrace + [push];
    outcome := if sh(push).Failure? then Threw(sh(push).msg) else Done;
    assert trace == syncTrace + (rebaseTrace + [push]);
  }

  /** When every stage before it succeeds, the run is those stages followed by the push, and
      it ends as the push does. */
  lemma {:induction false} PushPlanReachesPush(sh: Shell, o: PushOpts)
    requires sh(CheckoutCmd(o)).Success? && sh(LsRemoteCmd(o)).Success?
    requires SyncPlan(sh, o, OnRemote(sh, o)).value.Done? && RebasePlan(sh, o).value.Done?
    ensures PushPlan(sh, o) == Traced(Step(sh, PushCmd(o, OnRemote(sh, o))).value,
      [CheckoutCmd(o), LsRemoteCmd(o)] + SyncPlan(sh, o, OnRemote(sh, o)).trace + RebasePlan(sh, o).trace + [PushCmd(o, OnRemote(sh, o))])
  {
    PushPlanAfterLsRemote(sh, o);
    var sync := SyncPlan(sh, o, OnRemote(sh, o));
    var rebase := RebasePlan(sh, o);
    assert [CheckoutCmd(o), LsRemoteCmd(o)] + (sync.trace + (rebase.trace + [PushCmd(o, OnRemote(sh, o))]))
      == [CheckoutCmd(o), LsRemoteCmd(o)] + sync.trace + rebase.trace + [PushCmd(o, OnRemote(sh, o))];
  }

  /** Sequencing two runs that only talk to `tool` only talks to `tool`. */
  lemma {:induction false} ThenAllTo(tool: Tool, a: Traced<Outcome>, b: Traced<Outcome>)
    requires AllTo(tool, a.trace) && AllTo(tool, b.trace)
    ensures AllTo(tool, Then(a, b).trace)
  {
    if a.value.Done? {
      var t := a.trace + b.trace;
      assert forall i :: |a.trace| <= i < |t| ==> t[i] == b.trace[i - |a.trace|];
    }
  }

  /** `pushBranch` only runs git: whatever happens, no `gh` command is part of a push. */
  lemma {:induction false} PushPlanOnlyGit(sh: Shell, o: PushOpts)
    ensures AllTo(Git, PushPlan(sh, o).trace)
  {
    var onRemote := OnRemote(sh, o);
    if onRemote {
      ThenAllTo(Git, Step(sh, FetchCmd(o, o.branch)), Step(sh, MergeCmd(o)));
    }
    var sync := SyncPlan(sh, o, onRemote);
    var rebase := RebasePlan(sh, o);
    if WantsRebase(o) {
      var r := RebaseCmd(o, o.base.value);
      var rethrown := if sh(r).Failure? then Threw("Rebase failed: " + sh(r).msg) else Done;
      ThenAllTo(Git, Step(sh, FetchCmd(o, o.base.value)), Traced(rethrown, [r]));
    }
    var push := Step(sh, PushCmd(o, onRemote));
    ThenAllTo(Git, rebase, push);
    ThenAllTo(Git, sync, Then(rebase, push));
    ThenAllTo(Git, Step(sh, LsRemoteCmd(o)), Then(sync, Then(rebase, push)));
    ThenAllTo(Git, Step(sh, CheckoutCmd(o)), Then(Step(sh, LsRemoteCmd(o)), Then(sync, Then(rebase, push))));
  }

  /** Checkout comes first and `ls-remote` second; a completed push has `push` as its last
      command, with the flags of the decision table and `remote branch` at the end. */
  lemma {:induction false} PushPlanShape(sh: Shell, o: PushOpts)
    ensures PushPlan(sh, o).trace[0] == CheckoutCmd(o)
    ensures sh(CheckoutCmd(o)).Success? ==> |PushPlan(sh, o).trace| >= 2 && PushPlan(sh, o).trace[1] == LsRemoteCmd(o)
    ensures PushPlan(sh, o).value.Done? ==>
      var t := PushPlan(sh, o).trace;
      t != [] && t[|t| - 1] == PushCmd(o, OnRemote(sh, o))
  {
  }

  /** Everything after `ls-remote`, given that checkout and `ls-remote` succeeded. */
  lemma {:induction false} PushPlanAfterLsRemote(sh: Shell, o: PushOpts)
    requires sh(CheckoutCmd(o)).Success? && sh(LsRemoteCmd(o)).Success?
    ensures PushPlan(sh, o) == Then(Traced(Done, [CheckoutCmd(o), LsRemoteCmd(o)]),
      Then(SyncPlan(sh, o, OnRemote(sh, o)), Then(RebasePlan(sh, o), Step(sh, PushCmd(o, OnRemote(sh, o))))))
  {
    var rest := Then(SyncPlan(sh, o, OnRemote(sh, o)), Then(RebasePlan(sh, o), Step(sh, PushCmd(o, OnRemote(sh, o)))));
    var checkout, ls := Step(sh, CheckoutCmd(o)), Step(sh, LsRemoteCmd(o));
    assert checkout == Traced(Done, [CheckoutCmd(o)]) && ls == Traced(Done, [LsRemoteCmd(o)]);
    ThenBothDone(checkout, ls, rest);
  }

  /** Two completed steps followed by a run are that run after their joint trace. */
  lemma ThenBothDone(a: Traced<Outcome>, b: Traced<Outcome>, rest: Traced<Outcome>)
    requires a.value.Done? && b.value.Done?
    ensures Then(a, Then(b, rest)) == Then(Traced(Done, a.trace + b.trace), rest)
  {
    assert a.trace + (b.trace + rest.trace) == (a.trace + b.trace) + rest.trace;
  }

  /** A branch already on the remote is fetched and fast-forward merged; a new one gets
      `branch --unset-upstream` and, without a rebase, is pushed straight after. */
  lemma {:induction false} PushPlanSync(sh: Shell, o: PushOpts)
    requires sh(CheckoutCmd(o)).Success? && sh(LsRemoteCmd(o)).Success?
    ensures |PushPlan(sh, o).trace| >= 3
    ensures OnRemote(sh, o) ==> PushPlan(sh, o).trace[2] == FetchCmd(o, o.branch)
    ensures OnRemote(sh, o) && sh(FetchCmd(o, o.branch)).Success? ==>
      |PushPlan(sh, o).trace| >= 4 && PushPlan(sh, o).trace[3] == MergeCmd(o)
    ensures !OnRemote(sh, o) ==> PushPlan(sh, o).trace[2] == UnsetUpstreamCmd(o)
    ensures !OnRemote(sh, o) && !WantsRebase(o) ==>
      PushPlan(sh, o).trace == [CheckoutCmd(o), LsRemoteCmd(o), UnsetUpstreamCmd(o), PushCmd(o, false)]
  {
    var onRemote := OnRemote(sh, o);
    var sync := SyncPlan(sh, o, onRemote);
    var tail := Then(RebasePlan(sh, o), Step(sh, PushCmd(o, onRemote)));
    var rest := Then(sync, tail);
    PushPlanAfterLsRemote(sh, o);
    assert PushPlan(sh, o).trace == [CheckoutCmd(o), LsRemoteCmd(o)] + rest.trace;
    ThenStartsWith(sync, tail);
    if onRemote {
      var fetch := Step(sh, FetchCmd(o, o.branch));
      ThenStartsWith(fetch, Step(sh, MergeCmd(o)));
      if sh(FetchCmd(o, o.branch)).Success? {
        assert sync.trace == [FetchCmd(o, o.branch), MergeCmd(o)];
      }
    } else if !WantsRebase(o) {
      assert tail == Traced(Step(sh, PushCmd(o, false)).value, [PushCmd(o, false)]);
      assert rest.trace == [UnsetUpstreamCmd(o), PushCmd(o, false)];
    }
  }

  /** Whatever `b` does, `Then(a, b)` opens with the commands of `a`. */
  lemma ThenStartsWith(a: Traced<Outcome>, b: Traced<Outcome>)
    ensures |Then(a, b).trace| >= |a.trace| && Then(a, b).trace[..|a.trace|] == a.trace
  {
    if a.value.Done? {
      assert (a.trace + b.trace)[..|a.trace|] == a.trace;
    }
  }

  /** A failed rebase ends the run with `Rebase failed: …` and no push is issued. */
  lemma {:induction false} PushPlanRebaseFails(sh: Shell, o: PushOpts)
    requires sh(CheckoutCmd(o)).Success? && sh(LsRemoteCmd(o)).Success?
    requires SyncPlan(sh, o, OnRemote(sh, o)).value.Done?
    requires WantsRebase(o) && sh(FetchCmd(o, o.base.value)).Success? && sh(RebaseCmd(o, o.base.value)).Failure?
    ensures PushPlan(sh, o).value == Threw("Rebase failed: " + sh(RebaseCmd(o, o.base.value)).msg)
    ensures PushPlan(sh, o).trace ==
      [CheckoutCmd(o), LsRemoteCmd(o)] + SyncPlan(sh, o, OnRemote(sh, o)).trace + [FetchCmd(o, o.base.value), RebaseCmd(o, o.base.value)]
  {
    PushPlanAfterLsRemote(sh, o);
  }

    /** No command of the trace is a rebase. */
  predicate NoRebaseIn(t: seq<Cmd>) {
    forall c :: c in t ==> c.args != [] && c.args[0] != "rebase"
  }

  /** Sequencing two rebase-free runs gives a rebase-free run. */
  lemma ThenNoRebase(a: Traced<Outcome>, b: Traced<Outcome>)
    requires NoRebaseIn(a.trace) && NoRebaseIn(b.trace)
    ensures NoRebaseIn(Then(a, b).trace)
  {
  }

  /** Without `rebase` and a base, no `rebase` command is issued. */
  lemma {:induction false} PushPlanNoRebase(sh: Shell, o: PushOpts)
    requires !WantsRebase(o)
    ensures NoRebaseIn(PushPlan(sh, o).trace)
  {
    var onRemote := OnRemote(sh, o);
    var push := Step(sh, PushCmd(o, onRemote));
    var rebase := RebasePlan(sh, o);
    ThenNoRebase(rebase, push);
    var sync := SyncPlan(sh, o, onRemote);
    if onRemote {
      ThenNoRebase(Step(sh, FetchCmd(o, o.branch)), Step(sh, MergeCmd(o)));
    }
    ThenNoRebase(sync, Then(rebase, push));
    var ls := Step(sh, LsRemoteCmd(o));
    ThenNoRebase(ls, Then(sync, Then(rebase, push)));
    ThenNoRebase(Step(sh, CheckoutCmd(o)), Then(ls, Then(sync, Then(rebase, push))));
  }

  datatype PrOpts = PrOpts(
    cwd: string, branch: string, base: string, title: string, body: string,
    labels: Option<seq<string>>, reviewers: Option<seq<string>>, assignees: Option<seq<string>>,
    repo: Option<string>, draft: Option<bool>)

  /** `--repo r` when the repository is set and non-empty: `common` here and the repository
      flag of src/utils/github.ts. */
  function Common(repo: Option<string>): (c: seq<string>)
    ensures c == [] || (repo.Some? && repo.value != "" && c == ["--repo", repo.value])
  {
    if repo.Some? && repo.value != "" then ["--repo", repo.value] else []
  }

  predicate NonEmpty(list: Option<seq<string>>) {
    list.Some? && |list.value| > 0
  }

  /** The arguments of `pr create`. */
  function CreateArgs(o: PrOpts): (args: seq<string>)
    ensures |args| >= 10 && args[..10] == ["pr", "create", "--title", o.title, "--base", o.base, "--head", o.branch, "--body", o.body]
    ensures |args| == 10 + (if o.draft == Some(true) then 1 else 0) + |Common(o.repo)|
    ensures o.draft == Some(true) <==> |args| > 10 && args[10] == "--draft"
    ensures args[|args| - |Common(o.repo)|..] == Common(o.repo)
  {
    var fixed := ["pr", "create", "--title", o.title, "--base", o.base, "--head", o.branch, "--body", o.body];
    var draft := if o.draft == Some(true) then ["--draft"] else [];
    var args := fixed + (draft + Common(o.repo));
    assert |fixed| == 10 && args[..10] == fixed;
    assert |args| > 10 ==> args[10] == (if o.draft == Some(true) then "--draft" else Common(o.repo)[0]);
    args
  }

  /** The `pr edit` call for one list: `--add-<what> a,b,c` on the URL. */
  function EditCall(o: PrOpts, url: string, flag: string, list: seq<string>): seq<string> {
    ["pr", "edit", url, flag, Join(list, ",")] + Common(o.repo)
  }

  /** The one call an optional edit issues, if any. */
  function EditList(o: PrOpts, url: string, flag: string, list: Option<seq<string>>): seq<seq<string>> {
    if NonEmpty(list) then [EditCall(o, url, flag, list.value)] else []
  }

  /** The edits, one per non-empty list, in the order labels, reviewers, assignees. */
  function EditArgs(o: PrOpts, url: string): (edits: seq<seq<string>>)
    ensures |edits| == (if NonEmpty(o.labels) then 1 else 0) + (if NonEmpty(o.reviewers) then 1 else 0) + (if NonEmpty(o.assignees) then 1 else 0)
    ensures forall e :: e in edits ==> |e| == 5 + |Common(o.repo)| && e[..3] == ["pr", "edit", url] && e[5..] == Common(o.repo)
    ensures NonEmpty(o.labels) ==> edits[0][3] == "--add-label" && edits[0][4] == Join(o.labels.value, ",")
    ensures NonEmpty(o.reviewers) ==> var i := if NonEmpty(o.labels) then 1 else 0;
      edits[i][3] == "--add-reviewer" && edits[i][4] == Join(o.reviewers.value, ",")
    ensures NonEmpty(o.assignees) ==>
      edits[|edits| - 1][3] == "--add-assignee" && edits[|edits| - 1][4] == Join(o.assignees.value, ",")
  {
    EditList(o, url, "--add-label", o.labels) + EditList(o, url, "--add-reviewer", o.reviewers)
    + EditList(o, url, "--add-assignee", o.assignees)
  }

  /** One optional edit: issued only for a non-empty list. */
  function EditStep(sh: Shell, o: PrOpts, url: string, flag: string, list: Option<seq<string>>): Traced<Outcome> {
    if NonEmpty(list) then Step(sh, GhCmd(o.cwd, EditCall(o, url, flag, list.value))) else Traced(Done, [])
  }

  /** `createOrUpdatePr` as commands: the create call, then the edits on the URL it printed;
      the result is that URL, or the first error. */
  function PrPlan(sh: Shell, o: PrOpts): (r: Traced<Result<string, string>>)
    ensures |r.trace| >= 1 && r.trace[0] == GhCmd(o.cwd, CreateArgs(o))
    ensures r.value.Ok? ==> sh(GhCmd(o.cwd, CreateArgs(o))).Success? && r.value.value == Trim(sh(GhCmd(o.cwd, CreateArgs(o))).out)
  {
    var create := GhCmd(o.cwd, CreateArgs(o));
    match Ask(sh, create)
    case Failure(msg) => Traced(Err(msg), [create])
    case Success(url) =>
      var edits := Then(EditStep(sh, o, url, "--add-label", o.labels),
        Then(EditStep(sh, o, url, "--add-reviewer", o.reviewers), EditStep(sh, o, url, "--add-assignee", o.assignees)));
      Traced(if edits.value.Threw? then Err(edits.value.msg) else Ok(url), [create] + edits.trace)
  }

  /** The `gh` commands for a list of argument lists, in order. */
  function GhCmds(cwd: string, calls: seq<seq<string>>): (cmds: seq<Cmd>)
    ensures |cmds| == |calls| && forall i :: 0 <= i < |calls| ==> cmds[i] == GhCmd(cwd, calls[i])
  {
    seq(|calls|, i requires 0 <= i < |calls| => GhCmd(cwd, calls[i]))
  }

  lemma GhCmdsAppend(cwd: string, a: seq<seq<string>>, b: seq<seq<string>>)
    ensures GhCmds(cwd, a + b) == GhCmds(cwd, a) + GhCmds(cwd, b)
  {
  }

  lemma EditStepIssues(sh: Shell, o: PrOpts, url: string, flag: string, list: Option<seq<string>>)
    ensures EditStep(sh, o, url, flag, list).trace == GhCmds(o.cwd, EditList(o, url, flag, list))
  {
  }

  lemma GhCmds3(cwd: string, a: seq<seq<string>>, b: seq<seq<string>>, c: seq<seq<string>>)
    ensures GhCmds(cwd, a + b + c) == GhCmds(cwd, a) + (GhCmds(cwd, b) + GhCmds(cwd, c))
  {
    GhCmdsAppend(cwd, a + b, c);
    GhCmdsAppend(cwd, a, b);
  }

  /** Three runs in sequence that complete issue all three traces. */
  lemma ThenTrace3(a: Traced<Outcome>, b: Traced<Outcome>, c: Traced<Outcome>)
    requires Then(a, Then(b, c)).value.Done?
    ensures a.value.Done? && b.value.Done? && Then(a, Then(b, c)).trace == a.trace + (b.trace + c.trace)
  {
  }

  /** The edits of a run that completes are exactly the calls `EditArgs` lists. */
  lemma {:induction false} EditsIssued(sh: Shell, o: PrOpts, url: string)
    requires Then(EditStep(sh, o, url, "--add-label", o.labels),
      Then(EditStep(sh, o, url, "--add-reviewer", o.reviewers), EditStep(sh, o, url, "--add-assignee", o.assignees))).value.Done?
    ensures Then(EditStep(sh, o, url, "--add-label", o.labels),
      Then(EditStep(sh, o, url, "--add-reviewer", o.reviewers), EditStep(sh, o, url, "--add-assignee", o.assignees))).trace
      == GhCmds(o.cwd, EditArgs(o, url))
  {
    var e1 := EditStep(sh, o, url, "--add-label", o.labels);
    var e2 := EditStep(sh, o, url, "--add-reviewer", o.reviewers);
    var e3 := EditStep(sh, o, url, "--add-assignee", o.assignees);
    var l1 := EditList(o, url, "--add-label", o.labels);
    var l2 := EditList(o, url, "--add-reviewer", o.reviewers);
    var l3 := EditList(o, url, "--add-assignee", o.assignees);
    EditStepIssues(sh, o, url, "--add-label", o.labels);
    EditStepIssues(sh, o, url, "--add-reviewer", o.reviewers);
    EditStepIssues(sh, o, url, "--add-assignee", o.assignees);
    ThenTrace3(e1, e2, e3);
    GhCmds3(o.cwd, l1, l2, l3);
  }

  /** A successful run is the create call followed by exactly the edits, in order. */
  lemma {:induction false} PrPlanEdits(sh: Shell, o: PrOpts)
    requires PrPlan(sh, o).value.Ok?
    ensures PrPlan(sh, o).trace == [GhCmd(o.cwd, CreateArgs(o))] + GhCmds(o.cwd, EditArgs(o, PrPlan(sh, o).value.value))
  {
    EditsIssued(sh, o, Trim(sh(GhCmd(o.cwd, CreateArgs(o))).out));
  }

  /** The create arguments, built by appending as the source does. */
  method BuildCreateArgs(o: PrOpts) returns (args: seq<string>)
    ensures args == CreateArgs(o)
  {
    var common: seq<string> := [];
    if o.repo.Some? && o.repo.value != "" { common := ["--repo", o.repo.value]; }
    args := ["pr", "create", "--title", o.title, "--base", o.base, "--head", o.branch, "--body", o.body];
    if o.draft == Some(true) {
      args := args + ["--draft"];
    }
    args := args + common;
  }

  /** One follow-up `pr edit` call, made only for a non-empty list. */
  method IssueEdit(sh: Shell, o: PrOpts, url: string, flag: string, list: Option<seq<string>>, common: seq<string>)
    returns (trace: seq<Cmd>, outcome: Outcome)
    requires common == Common(o.repo)
    ensures Traced(outcome, trace) == EditStep(sh, o, url, flag, list)
  {
    trace, outcome := [], Done;
    if list.Some? && |list.value| > 0 {
      var c := GhCmd(o.cwd, ["pr", "edit", url, flag, Join(list.value, ",")] + common);
      trace := [c];
      if sh(c).Failure? {
        outcome := Threw(sh(c).msg);
      }
    }
  }

  /** The follow-up `pr edit` calls in the order labels, reviewers, assignees; the first
      failure ends the run. */
  method IssueEdits(sh: Shell, o: PrOpts, url: string) returns (trace: seq<Cmd>, outcome: Outcome)
    ensures Traced(outcome, trace) == Then(EditStep(sh, o, url, "--add-label", o.labels),
      Then(EditStep(sh, o, url, "--add-reviewer", o.reviewers), EditStep(sh, o, url, "--add-assignee", o.assignees)))
  {
    var common: seq<string> := [];
    if o.repo.Some? && o.repo.value != "" { common := ["--repo", o.repo.value]; }
    var labels, labelled := IssueEdit(sh, o, url, "--add-label", o.labels, common);
    if labelled.Threw? {
      return labels, labelled;
    }
    var reviewers, reviewed := IssueEdit(sh, o, url, "--add-reviewer", o.reviewers, common);
    if reviewed.Threw? {
      return labels + reviewers, reviewed;
    }
    var assignees, ended := IssueEdit(sh, o, url, "--add-assignee", o.assignees, common);
    trace := labels + (reviewers + assignees);
    outcome := ended;
  }

  /** `createOrUpdatePr`: the create call, then the edits on the URL it printed. */
  method CreateOrUpdatePr(sh: Shell, o: PrOpts) returns (trace: seq<Cmd>, r: Result<string, string>)
    ensures Traced(r, trace) == PrPlan(sh, o)
  {
    var args := BuildCreateArgs(o);
    var create := GhCmd(o.cwd, args);
    var created := Ask(sh, create);
    if created.Failure? {
      return [create], Err(created.msg);
    }
    var url := created.out;
    var edits, ended := IssueEdits(sh, o, url);
    trace := [create] + edits;
    r := if ended.Threw? then Err(ended.msg) else Ok(url);
  }
}
