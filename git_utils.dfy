/** The second generation of git helpers, src/utils/git.ts, which talks to git through
    simple-git. Each simple-git call is one git command: `revparse(a)` is `rev-parse a`,
    `status()` is `status`, `raw(a)` is `a`, `stash(a)` is `stash a`, `stashList()` is
    `stash list`, `listRemote(a)` is `ls-remote a`, `fetch(r, b)` is `fetch r b`,
    `merge(a)` is `merge a`, `rebase(a)` is `rebase a` and `push(r, b, opts)` is
    `push r b opts`. */
module GitUtils {
  import opened Wrappers
  import opened Text
  import opened Env
  import opened FrontMatter
  import opened GitGh

  /** `isGitRepository`: whether `rev-parse --git-dir` succeeds. */
  function IsGitRepository(sh: Shell, cwd: string): (r: Traced<bool>)
    ensures r.trace == [GitCmd(cwd, ["rev-parse", "--git-dir"])]
    ensures r.value <==> sh(GitCmd(cwd, ["rev-parse", "--git-dir"])).Success?
  {
    var c := GitCmd(cwd, ["rev-parse", "--git-dir"]);
    Traced(sh(c).Success?, [c])
  }

  /** `hasUncommittedChanges`: status lists at least one file; a failing status counts as changes. */
  function HasUncommittedChanges(sh: Shell, p: Parsers, cwd: string): (r: Traced<bool>)
    ensures r.trace == [GitCmd(cwd, ["status"])]
    ensures r.value <==> sh(GitCmd(cwd, ["status"])).Failure? || p.statusFiles(sh(GitCmd(cwd, ["status"])).out) > 0
  {
    var c := GitCmd(cwd, ["status"]);
    match sh(c)
    case Failure(_) => Traced(true, [c])
    case Success(out) => Traced(p.statusFiles(out) > 0, [c])
  }

  function VerifyCmd(cwd: string, rev: string): Cmd { GitCmd(cwd, ["rev-parse", "--verify", rev]) }

  function CountCmd(cwd: string, branch: string, base: string, remote: string): Cmd {
    GitCmd(cwd, ["rev-list", "--count", remote + "/" + base + ".." + branch])
  }

  function MergedCmd(cwd: string, base: string, remote: string): Cmd {
    GitCmd(cwd, ["branch", "--merged", remote + "/" + base])
  }

  /** `Number.parseInt(out.trim(), 10) > 0`, with NaN comparing false. */
  predicate CountPositive(out: string) {
    var n := ParseIntDecimal(Trim(out));
    n.Some? && n.value > 0
  }

  /** `hasUnmergedCommits`: false when the branch does not resolve; true when `remote/base`
      does not resolve or the count fails; otherwise whether the count is positive. */
  function HasUnmergedCommits(sh: Shell, cwd: string, branch: string, base: string, remote: string): (r: Traced<bool>)
    ensures r.value <==>
      && sh(VerifyCmd(cwd, branch)).Success?
      && (|| sh(VerifyCmd(cwd, remote + "/" + base)).Failure?
          || sh(CountCmd(cwd, branch, base, remote)).Failure?
          || CountPositive(sh(CountCmd(cwd, branch, base, remote)).out))
    ensures 1 <= |r.trace| <= 3 && r.trace[0] == VerifyCmd(cwd, branch)
    ensures |r.trace| == 3 ==> r.trace[1..] == [VerifyCmd(cwd, remote + "/" + base), CountCmd(cwd, branch, base, remote)]
  {
    var verifyBranch := VerifyCmd(cwd, branch);
    var verifyBase := VerifyCmd(cwd, remote + "/" + base);
    var count := CountCmd(cwd, branch, base, remote);
    if sh(verifyBranch).Failure? then Traced(false, [verifyBranch])
    else if sh(verifyBase).Failure? then Traced(true, [verifyBranch, verifyBase])
    else match sh(count)
      case Failure(_) => Traced(true, [verifyBranch, verifyBase, count])
      case Success(out) => Traced(CountPositive(out), [verifyBranch, verifyBase, count])
  }

  /** A count git prints as decimal digits, whatever whitespace surrounds it, is positive
      exactly when one of its digits is not `0`. */
  lemma {:induction false} CountPositiveDigits(lead: string, ds: string, trail: string)
    requires AllSpace(lead) && AllSpace(trail) && ds != []
    requires forall i :: 0 <= i < |ds| ==> '0' <= ds[i] <= '9'
    ensures CountPositive(lead + ds + trail) <==> exists i :: 0 <= i < |ds| && ds[i] != '0'
  {
    assert !IsSpace(ds[0]) && !IsSpace(ds[|ds| - 1]);
    TrimAround(lead, ds, trail);
    ParseIntOfDigits(ds);
    DigitsValuePositive(ds);
  }

  /** A count of zero, however many zeros git prints and whatever whitespace surrounds them,
      means no unmerged commits. */
  lemma {:induction false} ZeroCountIsMerged(sh: Shell, cwd: string, branch: string, base: string, remote: string, lead: string, zeros: string, trail: string)
    requires sh(VerifyCmd(cwd, branch)).Success? && sh(VerifyCmd(cwd, remote + "/" + base)).Success?
    requires AllSpace(lead) && AllSpace(trail) && zeros != [] && forall i :: 0 <= i < |zeros| ==> zeros[i] == '0'
    requires sh(CountCmd(cwd, branch, base, remote)) == Success(lead + zeros + trail)
    ensures !HasUnmergedCommits(sh, cwd, branch, base, remote).value
  {
    CountPositiveDigits(lead, zeros, trail);
  }

  /** `isBranchMerged`: false when the branch does not resolve or the listing fails; otherwise
      whether the branch name occurs anywhere in `branch --merged remote/base` output. */
  function IsBranchMerged(sh: Shell, cwd: string, branch: string, base: string, remote: string): (r: Traced<bool>)
    ensures r.value <==>
      && sh(VerifyCmd(cwd, branch)).Success?
      && sh(MergedCmd(cwd, base, remote)).Success?
      && Occurs(branch, sh(MergedCmd(cwd, base, remote)).out)
    ensures 1 <= |r.trace| <= 2 && r.trace[0] == VerifyCmd(cwd, branch)
    ensures |r.trace| == 2 <==> sh(VerifyCmd(cwd, branch)).Success?
    ensures |r.trace| == 2 ==> r.trace[1] == MergedCmd(cwd, base, remote)
  {
    var verifyBranch := VerifyCmd(cwd, branch);
    var merged := MergedCmd(cwd, base, remote);
    if sh(verifyBranch).Failure? then Traced(false, [verifyBranch])
    else match sh(merged)
      case Failure(_) => Traced(false, [verifyBranch, merged])
      case Success(out) => Traced(Contains(out, branch), [verifyBranch, merged])
  }

  /** The check is a substring test: a listing naming a longer branch that contains this name
      (`fix` inside `fix-typo`) also answers true. */
  lemma {:induction false} MergedBySubstring(sh: Shell, cwd: string, branch: string, base: string, remote: string, before: string, after: string)
    requires sh(VerifyCmd(cwd, branch)).Success?
    requires sh(MergedCmd(cwd, base, remote)) == Success(before + branch + after)
    ensures IsBranchMerged(sh, cwd, branch, base, remote).value
  {
    var out := before + branch + after;
    assert out[|before|..|before| + |branch|] == branch;
    assert OccursAt(branch, out, |before|);
  }

  datatype SyncOpts = SyncOpts(cwd: string, branch: string, remote: string, pushMode: PushMode, base: Option<string>, rebase: Option<bool>)

  /** The stash message: `branchpilot-` and the clock reading in milliseconds. */
  function StashName(now: nat): (name: string)
    ensures IsPrefix("branchpilot-", name) && |name| > |"branchpilot-"|
  {
    "branchpilot-" + NatToString(now)
  }

  /** The push options: `--force-with-lease`, `--force`, or none for `ff-only`. */
  function PushOptions(mode: PushMode): (opts: seq<string>)
    ensures |opts| <= 1 && "--ff-only" !in opts
    ensures mode == ForceWithLease <==> opts == ["--force-with-lease"]
    ensures mode == Force <==> opts == ["--force"]
    ensures mode == FfOnly <==> opts == []
  {
    match mode
    case ForceWithLease => ["--force-with-lease"]
    case Force => ["--force"]
    case FfOnly => []
  }

  function StashPushCmd(o: SyncOpts, name: string): Cmd { GitCmd(o.cwd, ["stash", "push", "-m", name, "--include-untracked"]) }
  function LsRemote(o: SyncOpts): Cmd { GitCmd(o.cwd, ["ls-remote", "--heads", o.remote, o.branch]) }
  function PushWith(o: SyncOpts): Cmd { GitCmd(o.cwd, ["push", o.remote, o.branch] + PushOptions(o.pushMode)) }
  function StashListCmd(o: SyncOpts): Cmd { GitCmd(o.cwd, ["stash", "list"]) }
  function StashPopCmd(o: SyncOpts, index: nat): Cmd { GitCmd(o.cwd, ["stash", "pop", "stash@{" + NatToString(index) + "}"]) }

  /** `listRemote` succeeding counts as the branch existing, whatever it printed; its failure
      is swallowed. */
  function RemoteSyncPlan(sh: Shell, o: SyncOpts): (r: Traced<Outcome>)
    ensures |r.trace| >= 1 && r.trace[0] == LsRemote(o)
    ensures sh(LsRemote(o)).Failure? ==> r == Traced(Done, [LsRemote(o)])
  {
    var ls := LsRemote(o);
    if sh(ls).Failure? then Traced(Done, [ls])
    else Then(Traced(Done, [ls]),
      Then(Step(sh, GitCmd(o.cwd, ["fetch", o.remote, o.branch])),
        Step(sh, GitCmd(o.cwd, ["merge", o.remote + "/" + o.branch, "--ff-only"]))))
  }

  predicate WantsRebase(o: SyncOpts) {
    o.rebase == Some(true) && o.base.Some? && o.base.value != ""
  }

  function RebaseStage(sh: Shell, o: SyncOpts): (r: Traced<Outcome>)
    ensures !WantsRebase(o) ==> r == Traced(Done, [])
  {
    if !WantsRebase(o) then Traced(Done, [])
    else Then(Step(sh, GitCmd(o.cwd, ["fetch", o.remote, o.base.value])),
      Step(sh, GitCmd(o.cwd, ["rebase", o.remote + "/" + o.base.value])))
  }

  /** The `try` block: stash (when there are changes), checkout, remote sync, rebase, push. */
  function TryPlan(sh: Shell, o: SyncOpts, stash: Option<string>): (r: Traced<Outcome>)
  {
    Then(if stash.Some? then Step(sh, StashPushCmd(o, stash.value)) else Traced(Done, []),
      Then(Step(sh, GitCmd(o.cwd, ["checkout", o.branch])),
        Then(RemoteSyncPlan(sh, o),
          Then(RebaseStage(sh, o), Step(sh, PushWith(o))))))
  }

  /** The first stash entry whose message contains the name (`Array.prototype.find`). */
  function FindStash(messages: seq<string>, name: string): (r: Option<nat>)
    ensures r.Some? ==> r.value < |messages| && Occurs(name, messages[r.value])
    ensures r.Some? ==> forall j :: 0 <= j < r.value ==> !Occurs(name, messages[j])
    ensures r.None? ==> forall j :: 0 <= j < |messages| ==> !Occurs(name, messages[j])
  {
    if messages == [] then None
    else if Contains(messages[0], name) then Some(0)
    else match FindStash(messages[1..], name)
      case None => None
      case Some(i) => Some(i + 1)
  }

  /** The `finally` block: return to the original branch when it differs from the target,
      swallowing a failure, then pop the tagged stash entry by its index, swallowing a failure
      of the pop but not of the stash listing. */
  function FinallyPlan(sh: Shell, p: Parsers, o: SyncOpts, original: string, stash: Option<string>): (r: Traced<Outcome>)
    ensures (original != "" && original != o.branch) <==> (r.trace != [] && r.trace[0] == GitCmd(o.cwd, ["checkout", original]))
    ensures r.value.Threw? ==> stash.Some? && sh(StashListCmd(o)).Failure? && r.value.msg == sh(StashListCmd(o)).msg
  {
    var restore := if original != "" && original != o.branch then [GitCmd(o.cwd, ["checkout", original])] else [];
    if stash.None? then Traced(Done, restore)
    else
      var list := StashListCmd(o);
      match sh(list)
      case Failure(msg) => Traced(Threw(msg), restore + [list])
      case Success(out) =>
        match FindStash(p.stashMessages(out), stash.value)
        case None => Traced(Done, restore + [list])
        case Some(i) => Traced(Done, restore + [list, StashPopCmd(o, i)])
  }

  /** `pushBranch`: record the branch, look for changes, run the `try` block and then the
      `finally` block; an error thrown in `finally` replaces the one from `try`. */
  function SyncPushPlan(sh: Shell, p: Parsers, o: SyncOpts, now: nat): (r: Traced<Outcome>)
  {
    var current := GetCurrentBranch(sh, o.cwd);
    var changes := HasUncommittedChanges(sh, p, o.cwd);
    var stash := if changes.value then Some(StashName(now)) else None;
    var body := TryPlan(sh, o, stash);
    var fin := FinallyPlan(sh, p, o, current.value, stash);
    Traced(if fin.value.Threw? then fin.value else body.value, current.trace + changes.trace + body.trace + fin.trace)
  }

  /** The run opens with the branch query and the status query, and stashes before checkout
      exactly when status reported changes. */
  lemma {:induction false} SyncPushStart(sh: Shell, p: Parsers, o: SyncOpts, now: nat)
    ensures var t := SyncPushPlan(sh, p, o, now).trace;
      && |t| >= 3
      && t[0] == GitCmd(o.cwd, ["rev-parse", "--abbrev-ref", "HEAD"])
      && t[1] == GitCmd(o.cwd, ["status"])
      && (HasUncommittedChanges(sh, p, o.cwd).value <==> t[2] == StashPushCmd(o, StashName(now)))
  {
    var current := GetCurrentBranch(sh, o.cwd);
    var changes := HasUncommittedChanges(sh, p, o.cwd);
    var stash := if changes.value then Some(StashName(now)) else None;
    var body := TryPlan(sh, o, stash);
    var fin := FinallyPlan(sh, p, o, current.value, stash);
    TryPlanStart(sh, o, stash);
    var t := SyncPushPlan(sh, p, o, now).trace;
    assert t == current.trace + changes.trace + body.trace + fin.trace;
    ThirdOf(current.trace, changes.trace, body.trace, fin.trace);
    assert StashPushCmd(o, StashName(now)).args[0] == "stash";
  }

  /** Indexing into a concatenation whose first two parts are single elements. */
  lemma ThirdOf<T>(a: seq<T>, b: seq<T>, c: seq<T>, d: seq<T>)
    requires |a| == 1 && |b| == 1 && |c| >= 1
    ensures var t := a + b + c + d; |t| >= 3 && t[0] == a[0] && t[1] == b[0] && t[2] == c[0]
  {
  }

  /** The `try` block opens with the stash when there is one, else with the checkout. */
  lemma {:induction false} TryPlanStart(sh: Shell, o: SyncOpts, stash: Option<string>)
    ensures var t := TryPlan(sh, o, stash).trace;
      && |t| >= 1
      && t[0] == if stash.Some? then StashPushCmd(o, stash.value) else GitCmd(o.cwd, ["checkout", o.branch])
  {
  }

  /** Whatever the `try` block does, the `finally` commands close the run: the original branch
      is checked out when it is non-empty and differs from the target, and a failure of the
      stash listing is the error reported. */
  lemma {:induction false} FinallyAlwaysRuns(sh: Shell, p: Parsers, o: SyncOpts, now: nat)
    ensures var current := GetCurrentBranch(sh, o.cwd).value;
      var stash := if HasUncommittedChanges(sh, p, o.cwd).value then Some(StashName(now)) else None;
      var fin := FinallyPlan(sh, p, o, current, stash);
      var t := SyncPushPlan(sh, p, o, now).trace;
      && |fin.trace| <= |t|
      && t[|t| - |fin.trace|..] == fin.trace
      && (current != "" && current != o.branch <==> fin.trace != [] && fin.trace[0] == GitCmd(o.cwd, ["checkout", current]))
      && (fin.value.Threw? ==> SyncPushPlan(sh, p, o, now).value == fin.value)
      && (fin.value.Done? ==> SyncPushPlan(sh, p, o, now).value == TryPlan(sh, o, stash).value)
  {
    var current := GetCurrentBranch(sh, o.cwd);
    var changes := HasUncommittedChanges(sh, p, o.cwd);
    var stash := if changes.value then Some(StashName(now)) else None;
    var body := TryPlan(sh, o, stash);
    var fin := FinallyPlan(sh, p, o, current.value, stash);
    var t := current.trace + changes.trace + body.trace + fin.trace;
    assert SyncPushPlan(sh, p, o, now).trace == t;
    assert t[|t| - |fin.trace|..] == fin.trace;
  }

  /** `pushBranch` only runs git, whichever stage fails. */
  lemma {:induction false} SyncPushPlanOnlyGit(sh: Shell, p: Parsers, o: SyncOpts, now: nat)
    ensures AllTo(Git, SyncPushPlan(sh, p, o, now).trace)
  {
    var current := GetCurrentBranch(sh, o.cwd);
    var changes := HasUncommittedChanges(sh, p, o.cwd);
    var stash := if changes.value then Some(StashName(now)) else None;
    var body := TryPlan(sh, o, stash);
    var fin := FinallyPlan(sh, p, o, current.value, stash);
    TryPlanOnlyGit(sh, o, stash);
    FinallyOnlyGit(sh, p, o, current.value, stash);
    assert SyncPushPlan(sh, p, o, now).trace == current.trace + changes.trace + body.trace + fin.trace;
    AllToAppend(Git, current.trace, changes.trace);
    AllToAppend(Git, current.trace + changes.trace, body.trace);
    AllToAppend(Git, current.trace + changes.trace + body.trace, fin.trace);
  }

  lemma {:induction false} FinallyOnlyGit(sh: Shell, p: Parsers, o: SyncOpts, original: string, stash: Option<string>)
    ensures AllTo(Git, FinallyPlan(sh, p, o, original, stash).trace)
  {
  }

  lemma {:induction false} TryPlanOnlyGit(sh: Shell, o: SyncOpts, stash: Option<string>)
    ensures AllTo(Git, TryPlan(sh, o, stash).trace)
  {
    var ls := LsRemote(o);
    if sh(ls).Success? {
      var fetch := Step(sh, GitCmd(o.cwd, ["fetch", o.remote, o.branch]));
      var merge := Step(sh, GitCmd(o.cwd, ["merge", o.remote + "/" + o.branch, "--ff-only"]));
      ThenAllTo(Git, fetch, merge);
      ThenAllTo(Git, Traced(Done, [ls]), Then(fetch, merge));
    }
    if WantsRebase(o) {
      ThenAllTo(Git, Step(sh, GitCmd(o.cwd, ["fetch", o.remote, o.base.value])),
        Step(sh, GitCmd(o.cwd, ["rebase", o.remote + "/" + o.base.value])));
    }
    var push := Step(sh, PushWith(o));
    var rebase := RebaseStage(sh, o);
    var sync := RemoteSyncPlan(sh, o);
    var checkout := Step(sh, GitCmd(o.cwd, ["checkout", o.branch]));
    ThenAllTo(Git, rebase, push);
    ThenAllTo(Git, sync, Then(rebase, push));
    ThenAllTo(Git, checkout, Then(sync, Then(rebase, push)));
    ThenAllTo(Git, if stash.Some? then Step(sh, StashPushCmd(o, stash.value)) else Traced(Done, []),
      Then(checkout, Then(sync, Then(rebase, push))));
  }

  /** With a stash, the listing follows the branch restore, and the entry popped is the first
      one whose message carries the stash name. */
  lemma {:induction false} PopsTaggedEntry(sh: Shell, p: Parsers, o: SyncOpts, original: string, name: string)
    requires sh(StashListCmd(o)).Success?
    ensures var fin := FinallyPlan(sh, p, o, original, Some(name));
      var messages := p.stashMessages(sh(StashListCmd(o)).out);
      && fin.value.Done?
      && (FindStash(messages, name).None? ==> fin.trace[|fin.trace| - 1] == StashListCmd(o))
      && (forall i :: 0 <= i < |messages| && Occurs(name, messages[i]) && (forall j :: 0 <= j < i ==> !Occurs(name, messages[j])) ==>
            fin.trace[|fin.trace| - 1] == StashPopCmd(o, i))
  {
    var messages := p.stashMessages(sh(StashListCmd(o)).out);
    forall i | 0 <= i < |messages| && Occurs(name, messages[i]) && (forall j :: 0 <= j < i ==> !Occurs(name, messages[j]))
      ensures FindStash(messages, name) == Some(i)
    {
      var f := FindStash(messages, name);
      assert f.Some?;
      assert !(f.value < i) && !(i < f.value);
    }
  }

  /** The push is the last command of the `try` block when every earlier step succeeded. */
  lemma {:induction false} PushEndsTry(sh: Shell, o: SyncOpts, stash: Option<string>)
    requires TryPlan(sh, o, stash).value.Done?
    ensures var t := TryPlan(sh, o, stash).trace; t != [] && t[|t| - 1] == PushWith(o)
  {
  }

  /** The `try` block, one statement after another. */
  method TryBlock(sh: Shell, o: SyncOpts, stash: Option<string>) returns (trace: seq<Cmd>, outcome: Outcome)
    ensures Traced(outcome, trace) == TryPlan(sh, o, stash)
  {
    ghost var head := if stash.Some? then Step(sh, StashPushCmd(o, stash.value)) else Traced(Done, []);
    ghost var tail := Then(Step(sh, GitCmd(o.cwd, ["checkout", o.branch])),
      Then(RemoteSyncPlan(sh, o), Then(RebaseStage(sh, o), Step(sh, PushWith(o)))));
    assert TryPlan(sh, o, stash) == Then(head, tail);
    trace := [];
    if stash.Some? {
      var c := GitCmd(o.cwd, ["stash", "push", "-m", stash.value, "--include-untracked"]);
      trace := [c];
      if sh(c).Failure? { return trace, Threw(sh(c).msg); }
    }
    assert head == Traced(Done, trace);
    var checkout := GitCmd(o.cwd, ["checkout", o.branch]);
    if sh(checkout).Failure? {
      assert tail == Traced(Threw(sh(checkout).msg), [checkout]);
      return trace + [checkout], Threw(sh(checkout).msg);
    }
    var rest, ended := SyncRebaseAndPush(sh, o);
    assert tail == Traced(ended, [checkout] + rest);
    trace := trace + ([checkout] + rest);
    outcome := ended;
  }

  /** Everything in the `try` block after checkout. */
  method SyncRebaseAndPush(sh: Shell, o: SyncOpts) returns (trace: seq<Cmd>, outcome: Outcome)
    ensures Traced(outcome, trace) == Then(RemoteSyncPlan(sh, o), Then(RebaseStage(sh, o), Step(sh, PushWith(o))))
  {
    var ls := GitCmd(o.cwd, ["ls-remote", "--heads", o.remote, o.branch]);
    var remoteBranchExists := sh(ls).Success?;
    trace := [ls];
    if remoteBranchExists {
      var fetch := GitCmd(o.cwd, ["fetch", o.remote, o.branch]);
      trace := trace + [fetch];
      if sh(fetch).Failure? { return trace, Threw(sh(fetch).msg); }
      var merge := GitCmd(o.cwd, ["merge", o.remote + "/" + o.branch, "--ff-only"]);
      trace := trace + [merge];
      if sh(merge).Failure? { return trace, Threw(sh(merge).msg); }
    }
    ghost var sync := RemoteSyncPlan(sh, o);
    assert sync.value.Done? && trace == sync.trace;
    ghost var reb := RebaseStage(sh, o);
    ghost var synced := trace;
    if o.rebase == Some(true) && o.base.Some? && o.base.value != "" {
      var fetch := GitCmd(o.cwd, ["fetch", o.remote, o.base.value]);
      trace := trace + [fetch];
      if sh(fetch).Failure? {
        assert reb == Traced(Threw(sh(fetch).msg), [fetch]);
        return trace, Threw(sh(fetch).msg);
      }
      var rebase := GitCmd(o.cwd, ["rebase", o.remote + "/" + o.base.value]);
      trace := trace + [rebase];
      if sh(rebase).Failure? {
        assert reb == Traced(Threw(sh(rebase).msg), [fetch, rebase]);
        return trace, Threw(sh(rebase).msg);
      }
    }
    assert reb.value.Done? && trace == synced + reb.trace;
    ghost var rebased := trace;
    var pushOptions: seq<string> := [];
    if o.pushMode == ForceWithLease {
      pushOptions := pushOptions + ["--force-with-lease"];
    } else if o.pushMode == Force {
      pushOptions := pushOptions + ["--force"];
    }
    var push := GitCmd(o.cwd, ["push", o.remote, o.branch] + pushOptions);
    trace := trace + [push];
    outcome := if sh(push).Failure? then Threw(sh(push).msg) else Done;
    assert push == PushWith(o);
    assert trace == sync.trace + (reb.trace + [push]);
  }

  /** The `finally` block. */
  method FinallyBlock(sh: Shell, p: Parsers, o: SyncOpts, original: string, stash: Option<string>) returns (trace: seq<Cmd>, outcome: Outcome)
    ensures Traced(outcome, trace) == FinallyPlan(sh, p, o, original, stash)
  {
    trace, outcome := [], Done;
    if original != "" && original != o.branch {
      trace := [GitCmd(o.cwd, ["checkout", original])];
    }
    if stash.Some? {
      var list := GitCmd(o.cwd, ["stash", "list"]);
      trace := trace + [list];
      if sh(list).Failure? {
        return trace, Threw(sh(list).msg);
      }
      var entry := FindStash(p.stashMessages(sh(list).out), stash.value);
      if entry.Some? {
        trace := trace + [GitCmd(o.cwd, ["stash", "pop", "stash@{" + NatToString(entry.value) + "}"])];
      }
    }
  }

  /** `pushBranch` of src/utils/git.ts, with the clock reading as a parameter. */
  method PushBranch(sh: Shell, p: Parsers, o: SyncOpts, now: nat) returns (trace: seq<Cmd>, outcome: Outcome)
    ensures Traced(outcome, trace) == SyncPushPlan(sh, p, o, now)
  {
    var originalBranch := GetCurrentBranch(sh, o.cwd);
    var hasChanges := HasUncommittedChanges(sh, p, o.cwd);
    var stashName := if hasChanges.value then Some(StashName(now)) else None;
    var body, tried := TryBlock(sh, o, stashName);
    var fin, finished := FinallyBlock(sh, p, o, originalBranch.value, stashName);
    trace := originalBranch.trace + hasChanges.trace + body + fin;
    outcome := if finished.Threw? then finished else tried;
  }
}
