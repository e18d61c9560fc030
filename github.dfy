/** The second generation of GitHub helpers, src/utils/github.ts. Its `getDefaultBranch`
    follows the same three steps as the first generation and is modelled once, as
    `GitGh.GetDefaultBranch`. */
module GitHub {
  import opened Wrappers
  import opened Text
  import opened Env
  import opened GitGh

  /** `gh(cwd, args)`: an 8000 ms timeout exactly when the arguments contain `auth`. */
  function GhTimeout(args: seq<string>): (t: Option<nat>)
    ensures t.Some? <==> "auth" in args
    ensures t.Some? ==> t.value == 8000
  {
    if "auth" in args then Some(8000) else None
  }

  datatype GhPrOpts = GhPrOpts(
    cwd: string, branch: string, base: string, title: string, body: string,
    labels: Option<seq<string>>, reviewers: Option<seq<string>>, assignees: Option<seq<string>>,
    repo: Option<string>, draft: Option<bool>, autoMerge: Option<bool>)

  /** A flag followed by every element of a non-empty list; nothing for an absent or empty one. */
  function ListFlag(flag: string, list: Option<seq<string>>): (r: seq<string>)
    ensures NonEmpty(list) ==> |r| == 1 + |list.value| && r[0] == flag && r[1..] == list.value
    ensures !NonEmpty(list) ==> r == []
  {
    if NonEmpty(list) then [flag] + list.value else []
  }

  function Fixed(o: GhPrOpts): seq<string> {
    ["pr", "create", "--head", o.branch, "--base", o.base, "--title", o.title, "--body", o.body]
  }

  /** The `pr create` arguments: the fixed part, then labels, reviewers, assignees, the
      repository and the draft flag, each only when set. */
  function CreateArgs(o: GhPrOpts): (args: seq<string>)
    ensures |args| >= 10 && args[..10] == Fixed(o)
    ensures o.draft == Some(true) ==> args[|args| - 1] == "--draft"
    ensures args[10..] == ListFlag("--label", o.labels) + ListFlag("--reviewer", o.reviewers) + ListFlag("--assignee", o.assignees)
      + Common(o.repo) + (if o.draft == Some(true) then ["--draft"] else [])
  {
    var args := Fixed(o) + ListFlag("--label", o.labels) + ListFlag("--reviewer", o.reviewers) + ListFlag("--assignee", o.assignees)
      + Common(o.repo) + (if o.draft == Some(true) then ["--draft"] else []);
    assert args[..10] == Fixed(o);
    args
  }

  /** What `createOrUpdatePr` returns, with the warnings it logs on the way. */
  datatype PrReport = PrReport(result: Result<string, string>, warnings: seq<string>)

  function MergeCmd(o: GhPrOpts, url: string): Cmd {
    GhCmd(o.cwd, ["pr", "merge", url, "--auto", "--merge"])
  }

  /** The auto-merge block: with `autoMerge`, one `pr merge --auto --merge` call on the
      trimmed URL whose failure becomes a warning; without it, nothing. */
  function AutoMergePlan(sh: Shell, o: GhPrOpts, url: string): (r: Traced<seq<string>>)
  {
    if o.autoMerge != Some(true) then Traced([], [])
    else
      var merge := MergeCmd(o, Trim(url));
      Traced(if sh(merge).Failure? then ["Could not enable auto-merge: " + sh(merge).msg] else [], [merge])
  }

  /** `createOrUpdatePr`: one create call and, with auto-merge, one `pr merge --auto --merge`
      call whose failure is only logged. */
  function GhPrPlan(sh: Shell, o: GhPrOpts): (r: Traced<PrReport>)
  {
    var create := GhCmd(o.cwd, CreateArgs(o));
    match Ask(sh, create)
    case Failure(msg) => Traced(PrReport(Err(msg), []), [create])
    case Success(url) =>
      var merged := AutoMergePlan(sh, o, url);
      Traced(PrReport(Ok(url), merged.value), [create] + merged.trace)
  }

  /** A created pull request is returned whatever the auto-merge call answers; the merge call
      is issued exactly when auto-merge is requested, and a failure of it becomes one warning. */
  lemma {:induction false} AutoMergeOnlyWarns(sh: Shell, o: GhPrOpts)
    requires sh(GhCmd(o.cwd, CreateArgs(o))).Success?
    ensures var r := GhPrPlan(sh, o);
      var url := Trim(sh(GhCmd(o.cwd, CreateArgs(o))).out);
      && r.value.result == Ok(url)
      && (o.autoMerge == Some(true) <==> r.trace == [GhCmd(o.cwd, CreateArgs(o)), MergeCmd(o, url)])
      && (o.autoMerge != Some(true) ==> r.trace == [GhCmd(o.cwd, CreateArgs(o))])
      && (|r.value.warnings| == 1 <==> o.autoMerge == Some(true) && sh(MergeCmd(o, url)).Failure?)
  {
    var url := Trim(sh(GhCmd(o.cwd, CreateArgs(o))).out);
    TrimIdempotent(sh(GhCmd(o.cwd, CreateArgs(o))).out);
    assert Trim(url) == url;
  }

  /** The auto-merge block only runs `gh`. */
  lemma {:induction false} AutoMergeOnlyGh(sh: Shell, o: GhPrOpts, url: string)
    ensures AllTo(Gh, AutoMergePlan(sh, o, url).trace)
  {
  }

  /** `createOrUpdatePr` only runs `gh`. */
  lemma {:induction false} GhPrPlanOnlyGh(sh: Shell, o: GhPrOpts)
    ensures AllTo(Gh, GhPrPlan(sh, o).trace)
  {
    var create := GhCmd(o.cwd, CreateArgs(o));
    var r := GhPrPlan(sh, o);
    if Ask(sh, create).Success? {
      var merged := AutoMergePlan(sh, o, Ask(sh, create).out);
      AutoMergeOnlyGh(sh, o, Ask(sh, create).out);
      assert r.trace == [create] + merged.trace;
      assert r.trace[0] == create;
      assert forall i :: 1 <= i < |r.trace| ==> r.trace[i] == merged.trace[i - 1];
    } else {
      assert r.trace == [create];
    }
  }

  /** A failed create call is the only error, and nothing follows it. */
  lemma {:induction false} CreateFailureStops(sh: Shell, o: GhPrOpts)
    requires sh(GhCmd(o.cwd, CreateArgs(o))).Failure?
    ensures GhPrPlan(sh, o) == Traced(PrReport(Err(sh(GhCmd(o.cwd, CreateArgs(o))).msg), []), [GhCmd(o.cwd, CreateArgs(o))])
  {
  }

  /** The create arguments, appended group by group. */
  method BuildCreateArgs(o: GhPrOpts) returns (args: seq<string>)
    ensures args == CreateArgs(o)
  {
    args := ["pr", "create", "--head", o.branch, "--base", o.base, "--title", o.title, "--body", o.body];
    if o.labels.Some? && |o.labels.value| > 0 {
      args := args + (["--label"] + o.labels.value);
    }
    ghost var upTo := Fixed(o) + ListFlag("--label", o.labels);
    assert args == upTo;
    if o.reviewers.Some? && |o.reviewers.value| > 0 {
      args := args + (["--reviewer"] + o.reviewers.value);
    }
    upTo := upTo + ListFlag("--reviewer", o.reviewers);
    assert args == upTo;
    if o.assignees.Some? && |o.assignees.value| > 0 {
      args := args + (["--assignee"] + o.assignees.value);
    }
    upTo := upTo + ListFlag("--assignee", o.assignees);
    assert args == upTo;
    if o.repo.Some? && o.repo.value != "" {
      args := args + ["--repo", o.repo.value];
    }
    upTo := upTo + Common(o.repo);
    assert args == upTo;
    if o.draft == Some(true) {
      args := args + ["--draft"];
    }
  }

  /** The auto-merge block as statements. */
  method EnableAutoMerge(sh: Shell, o: GhPrOpts, url: string) returns (trace: seq<Cmd>, warnings: seq<string>)
    ensures Traced(warnings, trace) == AutoMergePlan(sh, o, url)
  {
    trace, warnings := [], [];
    if o.autoMerge == Some(true) {
      var prUrl := Trim(url);
      var merge := GhCmd(o.cwd, ["pr", "merge", prUrl, "--auto", "--merge"]);
      trace := [merge];
      if sh(merge).Failure? {
        warnings := ["Could not enable auto-merge: " + sh(merge).msg];
      }
    }
  }

  /** `createOrUpdatePr`: the create call, then the optional auto-merge call. */
  method CreateOrUpdatePr(sh: Shell, o: GhPrOpts) returns (trace: seq<Cmd>, report: PrReport)
    ensures Traced(report, trace) == GhPrPlan(sh, o)
  {
    var args := BuildCreateArgs(o);
    var create := GhCmd(o.cwd, args);
    var result := Ask(sh, create);
    if result.Failure? {
      return [create], PrReport(Err(result.msg), []);
    }
    var merges, warnings := EnableAutoMerge(sh, o, result.out);
    trace := [create] + merges;
    report := PrReport(Ok(result.out), warnings);
  }
}
