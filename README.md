# branchpilot, modelled in Dafny

branchpilot turns markdown "ticket" files into pushed git branches and GitHub pull requests.
Each ticket carries a YAML front matter naming a branch, a title and a `when`. When the time
comes, the tool pushes the branch and opens the pull request. This project models the tool's
decision logic and proves what it promises:

- how tickets are classified;
- how the pull-request status is resolved;
- the git push protocol, in both generations;
- how pull-request arguments are built;
- the two run loops;
- the two list commands;
- configuration validation.

Every effect is an input:

- **Processes.** Each `git`/`gh` call is a `Cmd` (tool, working directory, arguments). A
  deterministic oracle `Shell = Cmd -> Reply` answers it. An operation returns the sequence
  of commands it issued (its trace) together with its result, so "which commands are issued,
  in which order" is a statement about a `seq<Cmd>`.
- **Files.** `Disk` answers directory listings, ticket files (after front-matter parsing),
  configuration files (after TOML parsing) and path existence.
- **Clock.** Instants are integer milliseconds, and the clock reading is a parameter `now`.
- **Dates.** luxon's parsing, zones, ISO printing, relative-time text and day differences
  are the uninterpreted functions of `DateLib`. A luxon day difference counts calendar days
  in the system zone, so it is not a fixed 24-hour division.
- **Libraries.** The JSON, `git status` and stash-list parsers and the schema library's issue
  texts are the functions of `Parsers`. Node's `path` functions are `Paths`.

The code is organised in two generations:

- `src/core/` is the first. Its modules here are `GitGh`, `MdTickets`, `TicketStatus`,
  `Config`, `Timezone`, `CoreUtils`, `CoreList` and `CoreRun`.
- `src/utils/` plus `src/commands/` is the second. Its modules here are `GitUtils`, `GitHub`,
  `Tickets`, `CommandsList` and `CommandsRun`.

Where the second generation repeats a first-generation function, the function is modelled
once and used from both:

- `parseDateTime` (in `MdTickets`);
- `getTicketRepoRoot` and `checkTicketPrStatus` (in `TicketStatus`). Their bodies in
  src/core/ticket-status.ts and src/utils/tickets.ts are the same, but their imports are not:
  src/core/ticket-status.ts:4 asks ./gitgh.js for `hasUnmergedCommits`, `isBranchMerged` and
  `isGitRepository`, which src/core/gitgh.ts does not export. The model takes those three from
  src/utils/git.ts, as src/utils/tickets.ts:9 does;
- the timezone memo cache (in `Timezone`);
- `getCurrentBranch` and `getGitRoot` (in `GitGh`).

Shared helpers live in four modules: `Wrappers` (Option/Result), `Text` (trimming,
whitespace splitting, substring search, number printing and parsing), `Env` (the world
datatypes) and `Ordering` (the sorted copy both list commands make).

Methods follow the source's loops and statement sequences. Each is proved equal to a
specification function: its trace and result are exactly that function's. The lemmas then
state the source's promises about those functions.

Where the code and its tests disagree, the model follows the code:

- `createOrUpdatePr` of src/utils/github.ts passes no `--fill` flag and makes no squash-first
  merge choice.
- `parseWhenToUtcISO` of src/core/md-tickets.ts does no zone check. Only the one in
  src/utils/tickets.ts rejects an unknown zone.
- The rebase of src/commands/run.ts uses the ticket's own `base` only, with no `defaultBase`
  fallback.

## Model

| member | source | states |
|---|---|---|
| CoreUtils.CoerceDirs | src/core/utils.ts:1-5 | an array becomes the `String` of each element, in order; a string becomes a one-element list; anything else, absence included, becomes `[]` |
| CoreUtils.CoerceDirsIdempotent | src/core/utils.ts:1-5 | coercing an already coerced list gives it back unchanged |
| Timezone.ZoneCache.constructor | src/core/timezone.ts:3 | the cache starts empty |
| Timezone.ZoneCache.IsValidTimezone | src/core/timezone.ts:5-15 | the answer is always the zone library's verdict; a cached zone is answered from the cache, which stays unchanged and consults nothing; an uncached zone is asked once and its verdict stored; every cached verdict stays the library's |
| Timezone.AskTwice | src/core/timezone.ts:5-15 | two queries for one zone agree with the library, and the library is consulted at most once |
| FrontMatter.ParsePushMode | src/core/types.ts:1 | a push mode is named exactly by one of the spellings `force-with-lease`, `ff-only` and `force`, each giving its own mode |
| FrontMatter.Failing | src/core/md-tickets.ts:8-23 | the failing fields, in schema order; the list is empty exactly when every field passes its check |
| FrontMatter.Validate | src/core/md-tickets.ts:8-23 | parsing fails exactly when some schema field fails its check; a success carries the front matter's `branch`, `title` and `when` (a date becomes its ISO text); `autoMerge` is part of the schema only for the second-generation loader |
| FrontMatter.MissingFields | src/utils/tickets.ts:201-206 | exactly the falsy required fields, always in the order branch, title, when |
| FrontMatter.IssueLine | src/utils/tickets.ts:212-215 | an issue is shown as `path: message` with the path's steps joined by `.`, or as the bare message when the path is empty |
| FrontMatter.FieldIssues | src/utils/tickets.ts:211-213 | a failing field contributes each of its issues, in order, with the field's key as the first step of the issue's path |
| FrontMatter.ElementIssueLine | src/utils/tickets.ts:212-214 | an issue at element `i` of field `key` is shown as `key.i: message` |
| FrontMatter.ElementIssues | src/utils/tickets.ts:208-216 | a field with two bad array elements gives two issues, `key.0: …, key.1: …` |
| FrontMatter.InvalidMessage | src/utils/tickets.ts:208-216 | `Missing required fields: a, b` when a required field is falsy; otherwise one line per schema issue, every issue of every failing field in schema order, joined with `, ` |
| FrontMatter.ShownOr | src/utils/tickets.ts:221-223 | the field's text when truthy, the placeholder otherwise |
| FrontMatter.KeepString | src/core/md-tickets.ts:93-99 | an optional string is kept, unchanged, exactly when it is present and non-empty; otherwise it stays absent |
| FrontMatter.KeepTrue | src/core/md-tickets.ts:94-100 | an optional flag is kept exactly when it is `true`; an absent or `false` flag stays absent |
| Config.Copy | src/core/config.ts:35-43 | the configuration holds exactly the truthy string settings with their values, the dirs list, and the push mode the table spells, and nothing else |
| Config.FromRead | src/core/config.ts:20-61 | a missing file gives `{}` silently; bad TOML or a schema failure gives `{}` and a warning iff a logger is passed; a valid table gives exactly its truthy settings |
| Config.GlobalConfigPath | src/core/config.ts:19 | the explicit path when given, else the default path |
| Config.LoadGlobalConfig | src/core/config.ts:18-61 | reads the explicitly named file, else the default one; a missing file gives `{}` with no warning, and without a logger nothing is ever warned |
| Config.LoadRepoConfig | src/core/config.ts:63-106 | reads `.branchpilot.toml` at the repository root; a missing file gives `{}` with no warning, and without a logger nothing is ever warned |
| Config.OneBadFieldEmptiesAll | src/core/config.ts:35-56 | validation is all or nothing: whichever schema field fails its check, the whole configuration is `{}` and the warning is logged iff a logger is passed |
| Config.SchemaOkFieldByField | src/core/config.ts:9-16 | the schema passes exactly when each of its six fields passes its own check |
| Config.Pick | src/core/ticket-status.ts:66 | an `a ?? b ?? fallback` chain gives the first layer that is set, else the fallback |
| Config.Merge | src/core/list.ts:249 | every setting the repository file holds overrides the global one, and the others come from the global file |
| MdTickets.ParseDateTime | src/core/md-tickets.ts:46-66 | a full ISO parse wins; otherwise a `YYYY-MM-DD` text is retried with `T00:00:00` and a `YYYY-MM-DDTHH:MM` text with `:00`; any other text is invalid |
| MdTickets.Finish | src/core/md-tickets.ts:38-43 | an invalid parse gives `Invalid 'when': <raw>`, a null ISO gives `Failed to convert to ISO string: <raw>`, and a success carries the instant and its ISO text |
| MdTickets.ParseWhenWithZone | src/core/md-tickets.ts:26-31 | "date zone" (exactly two non-empty whitespace-separated parts) parses the date in the named zone, with no separate zone check |
| MdTickets.ParseWhenWithoutZone | src/core/md-tickets.ts:32-36 | a single token is parsed whole in the fallback zone when one is given, else in `utc` |
| MdTickets.ParseWhenThreeParts | src/core/md-tickets.ts:25-36 | three whitespace-separated parts are not "date zone": the whole text is parsed in the fallback zone, else in `utc` |
| MdTickets.MarkdownFiles | src/core/md-tickets.ts:75 | exactly the entries whose lower-cased name ends in `.md`, and no more of them than entries |
| MdTickets.MarkdownFilesAppend | src/core/md-tickets.ts:75 | the filter keeps the listing's order: filtering a concatenation is concatenating the filtered parts |
| MdTickets.TicketOf | src/core/md-tickets.ts:85-100 | the ticket carries the front matter's branch, title, `when` and push mode; `base` and `repository` are kept, unchanged, exactly when non-empty; `rebase` and `draft` exactly when true; the lists are copied as they are |
| MdTickets.LoadOne | src/core/md-tickets.ts:79-101 | a kept ticket's file is `path.join(dir, name)` |
| MdTickets.Outcomes | src/core/md-tickets.ts:78-102 | one outcome per markdown file, in listing order |
| MdTickets.Collect | src/core/md-tickets.ts:76-103 | the load succeeds exactly when no file fails, and then holds the ticket of every file the schema accepted, in the files' order (`Kept`) |
| MdTickets.CollectFirstError | src/core/md-tickets.ts:84 | the first parse error aborts the whole load with its message |
| MdTickets.CollectKeeps | src/core/md-tickets.ts:83-101 | a successful load holds a ticket exactly when some file gave it; schema failures leave no trace |
| MdTickets.CollectStep | src/core/md-tickets.ts:78-102 | one loop iteration: an error aborts, a skipped file adds nothing, a kept ticket is appended |
| MdTickets.LoadFile | src/core/md-tickets.ts:79-101 | the loop body equals the per-file specification |
| MdTickets.LoadTickets | src/core/md-tickets.ts:68-104 | an unreadable directory gives `[]`; otherwise the result is the collected outcome of every markdown file in order |
| GitGh.Ask | src/core/gitgh.ts:11-19 | a command fails iff the oracle's reply fails; a success's output is trimmed |
| GitGh.GetCurrentBranch | src/core/gitgh.ts:21-29 | one `rev-parse --abbrev-ref HEAD`; the trimmed output, or `""` on failure |
| GitGh.GetGitRoot | src/core/gitgh.ts:31-39 | one `rev-parse --show-toplevel`; the trimmed output, or none (`null`) exactly on failure |
| GitGh.GetDefaultBranch | src/core/gitgh.ts:41-57 | GitHub is asked first, and the symbolic ref of `origin/HEAD` only when GitHub fails; a failing fallback gives `main` |
| GitGh.DefaultBranchFromGitHub | src/core/gitgh.ts:42-46 | a parsed GitHub answer is used alone, with an empty name giving `main` |
| GitGh.DefaultBranchFromOriginHead | src/core/gitgh.ts:47-56 | otherwise `refs/remotes/origin/<b>` gives `<b>`, and a failing symbolic-ref gives `main` |
| GitGh.PushFlags | src/core/gitgh.ts:104-115 | the flag table: an existing remote branch gets exactly its mode's flag; a new branch gets `--force` in force mode and nothing otherwise, so never `--force-with-lease` or `--ff-only` |
| GitGh.PushArgs | src/core/gitgh.ts:104-117 | `push`, then the flags, then remote and branch, always last |
| GitGh.SyncPlan | src/core/gitgh.ts:76-88 | an existing remote branch is fetched and fast-forward merged; otherwise `branch --unset-upstream` runs and its failure is ignored |
| GitGh.RebasePlan | src/core/gitgh.ts:90-101 | no command unless rebase is set and the base is non-empty; a failing rebase throws `Rebase failed: <message>` |
| GitGh.SyncWithRemote | src/core/gitgh.ts:76-88 | the statements equal the sync specification |
| GitGh.RebaseOntoBase | src/core/gitgh.ts:90-101 | the statements equal the rebase specification |
| GitGh.BuildPushArgs | src/core/gitgh.ts:104-117 | the push arguments built flag by flag equal the flag table's |
| GitGh.PushBranch | src/core/gitgh.ts:59-120 | the command trace and the outcome equal the push specification |
| GitGh.SyncRebaseAndPush | src/core/gitgh.ts:76-119 | everything after `ls-remote` is sync, then rebase, then push, each running only if the previous one completed |
| GitGh.PushPlanReachesPush | src/core/gitgh.ts:69-119 | when every stage before it completes, the push is the final command and decides the outcome |
| GitGh.PushPlanOnlyGit | src/core/gitgh.ts:59-120 | a push only runs git commands, whichever stage fails |
| GitGh.PushPlanShape | src/core/gitgh.ts:69-119 | checkout is the first command and `ls-remote` the second; a completed run ends with `push` |
| GitGh.PushPlanAfterLsRemote | src/core/gitgh.ts:72-119 | after a successful checkout and `ls-remote`, the run continues with the sync, rebase and push stages |
| GitGh.PushPlanSync | src/core/gitgh.ts:76-88 | the third command is `fetch` for a branch already on the remote, else `branch --unset-upstream` |
| GitGh.PushPlanRebaseFails | src/core/gitgh.ts:91-101 | a failed rebase ends the run with `Rebase failed: …` before any push |
| GitGh.PushPlanNoRebase | src/core/gitgh.ts:90-101 | without rebase and a base, no `rebase` command is ever issued |
| GitGh.Common | src/core/gitgh.ts:136 | `--repo r` exactly when a non-empty repository is given; the `pr create` arguments of src/utils/github.ts use the same flag |
| GitGh.CreateArgs | src/core/gitgh.ts:139-146 | `pr create --title --base --head --body` in that order, `--draft` iff draft, then the common flags |
| GitGh.EditArgs | src/core/gitgh.ts:150-152 | one `pr edit <url>` call per non-empty list, in the order `--add-label`, `--add-reviewer`, `--add-assignee`, each carrying its own list joined with `,` and ending with the common flags |
| GitGh.PrPlan | src/core/gitgh.ts:134-154 | the create call comes first; a success returns its trimmed output (the URL) |
| GitGh.EditsIssued | src/core/gitgh.ts:150-152 | a completed run issues exactly the listed edits, in the order labels, reviewers, assignees |
| GitGh.PrPlanEdits | src/core/gitgh.ts:147-154 | a successful call is the create call followed by exactly those edits |
| GitGh.BuildCreateArgs | src/core/gitgh.ts:139-146 | the create arguments built by appending equal the specification's |
| GitGh.IssueEdit | src/core/gitgh.ts:150 | one optional edit: issued only for a non-empty list |
| GitGh.IssueEdits | src/core/gitgh.ts:150-152 | the three optional edits in order, stopping at the first failure |
| GitGh.CreateOrUpdatePr | src/core/gitgh.ts:122-155 | the trace and the result equal the pull-request specification |
| GitUtils.IsGitRepository | src/utils/git.ts:29-37 | true exactly when `rev-parse --git-dir` succeeds |
| GitUtils.HasUncommittedChanges | src/utils/git.ts:39-47 | true exactly when status lists a file or status fails |
| GitUtils.HasUnmergedCommits | src/utils/git.ts:49-70 | false when the branch does not verify; true when `remote/base` does not verify or the count fails; otherwise true iff the count is positive; the later queries run only when the earlier ones pass |
| GitUtils.CountPositiveDigits | src/utils/git.ts:66 | a count printed as decimal digits, with any whitespace around it, is positive exactly when one of its digits is not `0` |
| GitUtils.ZeroCountIsMerged | src/utils/git.ts:58-66 | with both revisions resolving, a count made only of zeros, whatever whitespace surrounds it, means no unmerged commits |
| GitUtils.IsBranchMerged | src/utils/git.ts:72-87 | false when the branch does not verify or the listing fails; otherwise true iff the listing contains the branch name |
| GitUtils.MergedBySubstring | src/utils/git.ts:81-83 | the test is a substring test: a listing that merely contains the name counts as merged |
| GitUtils.StashName | src/utils/git.ts:102 | the stash message is `branchpilot-` followed by the clock reading |
| GitUtils.PushOptions | src/utils/git.ts:126-131 | force-with-lease gives `--force-with-lease`, force gives `--force`, ff-only gives no flag, and `--ff-only` is never passed |
| GitUtils.RemoteSyncPlan | src/utils/git.ts:111-119 | a successful `ls-remote`, whatever it prints, counts as the branch existing and is followed by fetch and ff-only merge; a failing one changes nothing |
| GitUtils.RebaseStage | src/utils/git.ts:121-124 | no command unless rebase and base are both set |
| GitUtils.FindStash | src/utils/git.ts:141 | the first stash entry whose message contains the name, or none when no entry does |
| GitUtils.FinallyPlan | src/utils/git.ts:134-146 | the original branch is checked out iff it is non-empty and differs from the target; only a failing stash listing can throw |
| GitUtils.SyncPushStart | src/utils/git.ts:100-109 | the branch query and the status query come first, and the stash push precedes the checkout exactly when changes were reported |
| GitUtils.TryPlanStart | src/utils/git.ts:104-109 | the `try` block opens with the stash push when there is a stash, else with the checkout |
| GitUtils.FinallyAlwaysRuns | src/utils/git.ts:104-146 | whatever the `try` block does, the `finally` commands close the run |
| GitUtils.SyncPushPlanOnlyGit | src/utils/git.ts:89-147 | the stash-aware push only runs git commands, whichever stage fails |
| GitUtils.PopsTaggedEntry | src/utils/git.ts:139-145 | with a stash, the entry popped is the first one tagged with the stash name, by its list index |
| GitUtils.PushEndsTry | src/utils/git.ts:126-133 | when every earlier step succeeds, the push is the last command of the `try` block |
| GitUtils.TryBlock | src/utils/git.ts:104-133 | the `try` statements equal the `try` specification |
| GitUtils.SyncRebaseAndPush | src/utils/git.ts:111-133 | remote sync, then rebase, then push, each only after the previous one completed |
| GitUtils.FinallyBlock | src/utils/git.ts:134-146 | the `finally` statements equal the `finally` specification |
| GitUtils.PushBranch | src/utils/git.ts:89-147 | the trace and outcome equal the stash-aware push specification |
| GitHub.GhTimeout | src/utils/github.ts:11 | an 8000 ms timeout exactly when the arguments contain `auth` |
| GitHub.ListFlag | src/utils/github.ts:50-60 | a flag followed by every list element for a non-empty list, nothing otherwise |
| GitHub.CreateArgs | src/utils/github.ts:48-68 | starts with `pr create --head --base --title --body`, then labels, reviewers and assignees, then `--repo` (`GitGh.Common`), with `--draft` last when set |
| GitHub.AutoMergeOnlyWarns | src/utils/github.ts:72-81 | a created pull request is returned whatever the auto-merge call answers; a failing merge call only adds a warning, and it is issued iff `autoMerge` is set |
| GitHub.CreateFailureStops | src/utils/github.ts:70 | a failed create call is the only error, and nothing follows it |
| GitHub.GhPrPlanOnlyGh | src/utils/github.ts:33-82 | creating the pull request only runs `gh` commands |
| GitHub.BuildCreateArgs | src/utils/github.ts:48-68 | the arguments built group by group equal the specification's |
| GitHub.EnableAutoMerge | src/utils/github.ts:72-79 | the auto-merge statements equal the auto-merge specification |
| GitHub.CreateOrUpdatePr | src/utils/github.ts:33-82 | the trace and report equal the pull-request specification |
| TicketStatus.ExpandHome | src/core/ticket-status.ts:21 | only a leading `~` is replaced by the home directory |
| TicketStatus.GetTicketRepoRoot | src/core/ticket-status.ts:18-42 | a non-empty `repository` is expanded and resolved, then must exist (else `Repository path does not exist: <p>`) and be a git repository (else `Path is not a git repository: <p>`); otherwise the tickets directory's git root, else the not-in-a-repository error |
| TicketStatus.TildeIsHome | src/core/ticket-status.ts:20-33 | `~/x` resolves under the home directory |
| TicketStatus.ResolveBase | src/core/ticket-status.ts:64-65 | the ticket's non-empty base, with no command issued; otherwise the default branch |
| TicketStatus.StatusRemote | src/core/ticket-status.ts:66 | repository file, then global setting, then `origin` |
| TicketStatus.CheckTicketPrStatus | src/core/ticket-status.ts:47-90 | `pr-exists` iff an open pull request is listed; otherwise `merged` iff the merged check holds or there are no unmerged commits, else `ready`; the base is always the resolved base; the listing is the first command |
| TicketStatus.ResolveBaseInspects | src/core/ticket-status.ts:64-65 | resolving the base issues no command but the default-branch queries (`gh repo view`, then `git symbolic-ref`) |
| TicketStatus.OpenPrShortCircuits | src/core/ticket-status.ts:54-59 | an open pull request gives `pr-exists`, and no merge or commit query is made |
| TicketStatus.NothingAheadIsMerged | src/core/ticket-status.ts:78-84 | a branch with no commits beyond `remote/base` is `merged` |
| TicketStatus.FailuresDefaultToReady | src/core/ticket-status.ts:60-89 | when every query fails, the ladder still answers, and answers `ready` |
| Env.DaysUntil | src/utils/tickets.ts:253 | `Math.floor` of luxon's `diff(now, 'days').days`: the largest whole number not above the day difference |
| Tickets.ParseWhenGenerations | src/utils/tickets.ts:81-102 | the two `when` parsers agree, except that this one rejects an unknown zone and falls back to the system zone instead of `utc` |
| Tickets.UnknownZoneRejected | src/utils/tickets.ts:85-89 | "date zone" with a zone the library rejects gives `Invalid timezone '<zone>' in 'when': <raw>` before any parsing |
| Tickets.ParseWhenCached | src/utils/tickets.ts:85-94 | the parse with the zone verdict taken from the memo cache equals the uncached one |
| Tickets.ReadFailure | src/utils/tickets.ts:279-291 | an unreadable file gives an invalid record |
| Tickets.SchemaFailure | src/utils/tickets.ts:200-229 | a schema failure gives an invalid record |
| Tickets.WhenFailure | src/utils/tickets.ts:232-247 | an unparseable `when` gives an invalid record |
| Tickets.Scheduled | src/utils/tickets.ts:250-278 | a valid ticket gives a classified record with its path and relative path |
| Tickets.ClassifyFile | src/utils/tickets.ts:191-291 | every file gives exactly one record that meets the scan's guarantees, with its path and relative path |
| Tickets.UnreadableFileInvalid | src/utils/tickets.ts:279-291 | an unreadable file is invalid, with `[error]` placeholders, an empty body, `isDue` false and `Failed to read file: <reason>` |
| Tickets.SchemaFailureInvalid | src/utils/tickets.ts:200-229 | a schema failure is invalid, shows each required field or `[missing]`, has an empty body and `isDue` false, and carries the invalid message |
| Tickets.BadWhenInvalid | src/utils/tickets.ts:232-247 | an unparseable `when` is invalid, keeps its fields and body, and carries `Invalid 'when' format: Error: <message>` |
| Tickets.ValidTicketScheduled | src/utils/tickets.ts:250-266 | a valid ticket is `ready` iff its instant is not after `now`, `isDue` agrees with the status, and the day count is luxon's day difference rounded down (`Env.DaysUntil`) |
| Tickets.DirectoryTickets | src/utils/tickets.ts:184-298 | an unreadable directory gives no records; otherwise record i is the one for the i-th markdown file of the listing, each meeting the scan's guarantees |
| Tickets.LoadTicketsFromDirectory | src/utils/tickets.ts:184-298 | the loop equals the directory specification |
| Tickets.ScanAll | src/utils/tickets.ts:311-317 | a single directory scans to that directory's records |
| Tickets.ScanAllClassified | src/utils/tickets.ts:311-317 | every record of every directory meets the scan's guarantees |
| Tickets.ScanAllAppend | src/utils/tickets.ts:312-317 | the records keep directory order, then file order |
| Tickets.CheckDue | src/utils/tickets.ts:334-343 | the status check keeps the record's identity and timing, records the root, and moves the status only to `pr-exists` or `merged` |
| Tickets.ResolveTicket | src/utils/tickets.ts:321-348 | invalid records are left alone and issue nothing; any status change is to `pr-exists`, `merged` or `invalid` |
| Tickets.OnlyDueTicketsChecked | src/utils/tickets.ts:334 | a ticket that is not due is never status-checked, and no `gh pr list` is issued for it |
| Tickets.RootErrorInvalidates | src/utils/tickets.ts:344-347 | a repository-root error makes the ticket invalid with the resolver's message |
| Tickets.DueTicketChecked | src/utils/tickets.ts:334-343 | a due ticket in a resolved repository becomes `pr-exists` or `merged` exactly as the status ladder says, and its base becomes the resolved base |
| Tickets.ResolveAll | src/utils/tickets.ts:321-348 | every record is replaced by its own resolution, in order |
| Tickets.LoadAllTickets | src/utils/tickets.ts:303-351 | the result is the resolution of the scan of every expanded directory, and the repository configuration is loaded exactly once per distinct root |
| Tickets.ResolveInPlace | src/utils/tickets.ts:319-348 | the in-place loop equals the resolution, and the roots loaded are distinct and exactly the roots the records resolved to |
| Tickets.CacheStep | src/utils/tickets.ts:329-332 | the cache, the loads and the roots seen stay in step when one more record is resolved |
| Tickets.ResolveOne | src/utils/tickets.ts:322-347 | one record's resolution, where the cache only ever gains the resolved root's configuration |
| Tickets.ReadyOnly | src/utils/tickets.ts:357-364 | exactly the `ready` records |
| Tickets.ReadyOnlyAppend | src/utils/tickets.ts:363 | filtering keeps the order |
| Ordering.CompareAntisymmetric | src/core/list.ts:193-203 | swapping the arguments negates the comparison |
| Ordering.Insert | src/core/list.ts:193-203 | insertion adds exactly the one element |
| Ordering.Sort | src/core/list.ts:193 | the sorted copy is a permutation of the input |
| Ordering.InsertOrdered | src/core/list.ts:193-203 | inserting into an ordered sequence keeps it ordered |
| Ordering.SortOrdered | src/core/list.ts:193-203 | every neighbouring pair of the sorted copy is in comparator order |
| Ordering.RanksAscend | src/core/list.ts:194-196 | ranks never decrease along an ordered sequence |
| Ordering.DaysAscendWithinRank | src/core/list.ts:198-201 | within a rank whose elements all carry day counts, the day counts ascend |
| CoreList.ScanFile | src/core/list.ts:55-136 | every markdown file gives one listed record, with its path and relative path |
| CoreList.UnreadableListedInvalid | src/core/list.ts:126-136 | an unreadable file is listed invalid with `[error]` placeholders and the reason |
| CoreList.SchemaFailureListedInvalid | src/core/list.ts:64-93 | a schema failure is listed invalid with the missing-field or issue message |
| CoreList.BadWhenListedInvalid | src/core/list.ts:95-109 | a `when` the first-generation parser rejects is listed invalid with its message |
| CoreList.ValidListedScheduled | src/core/list.ts:111-125 | a valid ticket is `due` iff its instant is not after `now`, and carries its ISO text and luxon's day difference rounded down (`Env.DaysUntil`) |
| CoreList.DirectoryListing | src/core/list.ts:48-143 | an unreadable directory gives nothing; otherwise record i is the one for the i-th markdown file of the listing |
| CoreList.ScanDirectory | src/core/list.ts:48-143 | the loop equals the directory specification |
| CoreList.FormatRelativeTime | src/core/list.ts:145-163 | no day count gives `""`, zero gives `today` |
| CoreList.FutureIsInSpan | src/core/list.ts:158-162 | a positive day count gives `in <span>`: `1 day`, days below a week, whole weeks below thirty days, else whole months |
| CoreList.PastIsSpanAgo | src/core/list.ts:148-155 | a negative day count gives `<span> ago`, the span taken on the absolute count |
| CoreList.WeeksRange | src/core/list.ts:161 | spans of 7 to 29 days are whole weeks between 1 and 4 |
| CoreList.Truncate | src/core/list.ts:176-179 | a short string is unchanged; a long one keeps its first `maxLen - 3` characters followed by `...` |
| CoreList.Rows | src/core/list.ts:206-216 | one row per ticket, in order |
| CoreList.TableLines | src/core/list.ts:186-216 | header, rule, then the rows of the sorted copy |
| CoreList.FormatTable | src/core/list.ts:181-219 | `No tickets found.` for no tickets, else the table lines joined with newlines |
| CoreList.PushRows | src/core/list.ts:206-216 | the row loop equals the rows specification |
| CoreList.TableOrder | src/core/list.ts:193-203 | the rows list every ticket once; due before pending before invalid; day counts ascend within `due` and within `pending` |
| CoreList.Count | src/core/list.ts:222-225 | the number of listed tickets with the given status, never more than the total |
| CoreList.CountsAddUp | src/core/list.ts:221-225 | the due, pending and invalid counts add up to the total |
| CoreList.Details | src/core/list.ts:230-234 | the non-zero counts in the order due, pending, invalid |
| CoreList.SummaryDetailed | src/core/list.ts:229-235 | a non-empty listing always has a non-zero count to detail |
| CoreList.DirsToScan | src/core/list.ts:252 | option dirs, else the configured dirs, else `.`; an empty array is kept |
| CoreList.ListTickets | src/core/list.ts:240-271 | the repository file overrides the global one, the chosen directories are scanned in order, and the table and summary are those of every record |
| CommandsList.FormatTicketStatus | src/commands/list.ts:15-40 | no due date gives `""`; otherwise `PR already exists`, `already merged into <base or main>`, `scheduled <relative>`, `ready to process`, and `""` for invalid |
| CommandsList.StatusCellShowsError | src/commands/list.ts:88 | the cell shows `invalid: <error>` exactly when the record is invalid or undated |
| CommandsList.TicketIdentifier | src/commands/list.ts:42-58 | the repository's directory name when the root is known; else the tickets directory's name, or the file name for `.` and `.test-` directories |
| CommandsList.Rows | src/commands/list.ts:86-90 | one row per ticket, in order |
| CommandsList.OutputTickets | src/commands/list.ts:60-93 | `No tickets found.` for none, else the rows of the sorted copy |
| CommandsList.ResolvedDated | src/utils/tickets.ts:250-266 | a resolved record that is not invalid has a day count |
| CommandsList.OutputOrder | src/commands/list.ts:66-82 | the sorted copy is a permutation, in the order ready, pending, pr-exists, merged, invalid, with day counts ascending within each valid status |
| CommandsList.ListTickets | src/commands/list.ts:95-115 | the repository file overrides the global one, and the output is that of every loaded ticket, with every command the load issued |
| CoreRun.DirsOf | src/core/run.ts:49 | non-empty `args.dirs`, else the configured dirs, else none |
| CoreRun.DueTickets | src/core/run.ts:73 | exactly the tickets whose due instant the clock has reached |
| CoreRun.DueTicketsAppend | src/core/run.ts:73 | the filter keeps the tickets' order: the due tickets of a concatenation are those of each part, one after the other |
| CoreRun.RepoRoot | src/core/run.ts:21-33 | a non-empty `repository` is expanded and resolved without any check or command; otherwise the git root when non-empty, else the not-in-a-repository error |
| CoreRun.RepoRootAgrees | src/core/run.ts:21-33 | wherever the later resolver's existence and repository checks pass, both resolvers agree |
| CoreRun.RunPushMode | src/core/run.ts:113-114 | ticket, then override, then repository file, then global, then `force-with-lease` |
| CoreRun.RunRemote | src/core/run.ts:115 | override, then global, then `origin` (a `Pick` chain); the repository file is ignored |
| CoreRun.PushOptsFor | src/core/run.ts:145-154 | base and rebase travel iff the ticket asks for a rebase and the base is non-empty |
| CoreRun.PrOptsFor | src/core/run.ts:156-167 | the resolved base, title, body and lists of the ticket; the global repository when non-empty; draft only when true |
| CoreRun.Work | src/core/run.ts:106-139 | after the root is known a ticket never ends for lack of a root; a dry run ends as previewed after the base queries alone; a run lists open pull requests right after the base queries and is skipped exactly when one is open |
| CoreRun.Restores | src/core/run.ts:179-192 | one checkout per captured repository, in capture order |
| CoreRun.HandledFatal | src/core/run.ts:81-175 | a ticket sets `fatal` exactly when its own outcome fails (no root, push or pull-request error) |
| CoreRun.HandleAllFatal | src/core/run.ts:81-175 | after a directory's tickets, `fatal` is set iff it was before or some ticket failed |
| CoreRun.DirectoryFatal | src/core/run.ts:71-79 | one directory's due tickets set `fatal` exactly when the directory fails |
| CoreRun.RunDirsFatalAny | src/core/run.ts:71-176 | a finished outer loop has `fatal` exactly when some directory fails |
| CoreRun.RunDirsFatal | src/core/run.ts:71-176 | the same, stated with an existential over the directories |
| CoreRun.RunDirsStoppedAny | src/core/run.ts:70-72 | the loop stops exactly when some directory fails to load |
| CoreRun.RunDirsStopped | src/core/run.ts:70-72 | the same, stated with an existential over the directories |
| CoreRun.ExitCodeReportsFailure | src/core/run.ts:47-195 | the exit code is 0 or 1, and 1 exactly when there are no directories, a tool is missing, or some due ticket failed |
| CoreRun.AbortedByLoadError | src/core/run.ts:70-72 | the pass is aborted exactly when it reaches the directories and one of them fails to load |
| CoreRun.PreviewOnlyInspects | src/core/run.ts:118-123 | a previewed ticket ends as a preview and issues only queries |
| CoreRun.HandledPreview | src/core/run.ts:99-123 | a preview captures no branch and issues only queries |
| CoreRun.HandleAllPreview | src/core/run.ts:81-123 | the same for every ticket of a directory |
| CoreRun.RunDirsPreview | src/core/run.ts:71-176 | the same for every directory |
| CoreRun.DryRunOnlyInspects | src/core/run.ts:118-123 | a dry run issues nothing but queries: no checkout, push, pull request or restore |
| CoreRun.OpenPrSkipsPush | src/core/run.ts:125-139 | an open pull request skips the ticket after the base queries and the listing alone, with no checkout or push |
| CoreRun.NoOpenPrPushesThenOpens | src/core/run.ts:141-173 | with no open pull request the branch is pushed with the resolved base; a failed push ends the ticket with only git commands after the listing; the pull request is created with the same base only after the push completed, and its failure or URL is the ending |
| CoreRun.AppendKeepsOriginals | src/core/run.ts:99-104 | capturing a new repository's non-empty current branch keeps the map well formed |
| CoreRun.CaptureKeepsOriginals | src/core/run.ts:99-104 | capturing only ever appends, and keeps one non-empty current branch per repository |
| CoreRun.HandledOriginals | src/core/run.ts:81-104 | each ticket keeps the captured branches well formed and only appends |
| CoreRun.HandleAllOriginals | src/core/run.ts:81-175 | the same for every ticket of a directory |
| CoreRun.RestoresEachRepositoryOnce | src/core/run.ts:178-192 | a finished run restores each touched repository once, to the non-empty branch it had when first touched |
| CoreRun.HandleRooted | src/core/run.ts:106-174 | the statements for a rooted ticket equal its specification |
| CoreRun.CaptureOriginal | src/core/run.ts:99-104 | the capture statements equal the capture specification |
| CoreRun.HandleTicket | src/core/run.ts:82-175 | one loop iteration equals its specification |
| CoreRun.HandleDue | src/core/run.ts:81-175 | the inner loop equals its specification |
| CoreRun.RunAllDirs | src/core/run.ts:71-176 | the outer loop equals its specification, and a load error leaves it |
| CoreRun.RestoreBranches | src/core/run.ts:179-192 | the restore loop issues exactly the restoring checkouts |
| CoreRun.RunOnce | src/core/run.ts:47-195 | result and trace equal the pass's specification |
| CommandsRun.DirsOf | src/commands/run.ts:17-26 | non-empty `args.dirs`, else non-empty repository dirs, else non-empty global dirs, else `.`; never empty |
| CommandsRun.RunPushMode | src/commands/run.ts:75 | ticket, then repository file, then global, then `force-with-lease` |
| CommandsRun.RunRemote | src/commands/run.ts:76 | repository file, then global, then `origin` (a `Pick` chain) |
| CommandsRun.RunRepo | src/commands/run.ts:77 | repository file, then global |
| CommandsRun.SyncOptsFor | src/commands/run.ts:81-90 | base and rebase travel iff the ticket asks for a rebase and has a non-empty base |
| CommandsRun.PrOptsFor | src/commands/run.ts:94-106 | base `t.base` when non-empty, else `main`; lists as given; repository when non-empty; draft and auto-merge only when true |
| CommandsRun.ShouldDelete | src/commands/run.ts:110-111 | repository flag, then global flag, then false |
| CommandsRun.FallbackBranch | src/commands/run.ts:115 | ticket base, then repository `defaultBase`, then global `defaultBase`, then `main` |
| CommandsRun.FileAction | src/commands/run.ts:126 | repository choice, then global, then keep |
| CommandsRun.ArchiveSetting | src/commands/run.ts:134 | repository archive directory, then global, then `processed` |
| CommandsRun.AfterPr | src/commands/run.ts:110-144 | the branch clean-up is issued iff deletion is configured, the file deletion iff the action is delete, the archiving iff it is archive |
| CommandsRun.Work | src/commands/run.ts:79-152 | a rooted ticket never ends for lack of a root |
| CommandsRun.FollowUpsOnlyAfterPr | src/commands/run.ts:107-144 | a failed push ends the ticket with the push's git commands alone, so no pull request is asked for; a failed pull request ends it after the `gh` calls; neither runs a follow-up; an opened one runs the follow-ups last and their failures only warn |
| CommandsRun.HandledFatal | src/commands/run.ts:57-153 | a ticket sets `fatal` exactly when it fails |
| CommandsRun.HandleAllFatal | src/commands/run.ts:57-153 | after the loop, `fatal` is set iff some ticket failed |
| CommandsRun.ExitCodeReportsFailure | src/commands/run.ts:28-156 | the exit code is 0 or 1, and 1 exactly when a tool is missing or some ready ticket failed |
| CommandsRun.FatalIffSomeFails | src/commands/run.ts:36-150 | from a clean start the failure flag ends set exactly when some ready ticket has no root or a failed push or pull request |
| CommandsRun.NoRootSkipped | src/commands/run.ts:62-67 | a ticket without a root sets `fatal`, issues nothing and leaves the rest as it was |
| CommandsRun.FollowUps | src/commands/run.ts:110-144 | the follow-up statements equal their specification |
| CommandsRun.HandleRooted | src/commands/run.ts:79-152 | the `try` block equals its specification |
| CommandsRun.HandleTicket | src/commands/run.ts:58-152 | one loop iteration equals its specification |
| CommandsRun.Run | src/commands/run.ts:11-157 | exit code and trace equal the command's specification: missing tools give 1 with nothing issued; otherwise the ready tickets are processed in order |
| CommandsRun.ProcessReady | src/commands/run.ts:57-153 | the loop over the ready tickets equals its specification |

## Left out

- Process execution, file I/O, TOML and YAML parsing, JSON parsing, luxon and the zone
  database are inputs: the `Shell` oracle and the functions of `Disk`, `Parsers` and `DateLib`.
- `ensureTools`, `ensureGit` and `ensureGh` (looking up the executables) become the boolean
  input `toolsFound`.
- Clock readings are the parameter `now`. `CoreRun` reads the clock once per pass. The
  ticket loader reads it once per load, whereas the source reads it once per file.
  `CommandsRun` uses the same reading for the loader and the stash name.
- `CoreRun.RunOnce`: `nowUtcISO` throwing on a null ISO string is not modelled.
- `CoreRun.RunOnce`: a directory load error escapes `runOnce`, so no branch is restored. The
  model ends such a pass as `Aborted` with the commands issued so far.
- `CoreRun.RunOnce`: `args.overrides.base` is accepted but never read, as in the source.
- Printed output, colours, the spinner, `processedCount`, the logger and the verbose switch
  are left out. Warnings are recorded only where they are the result: `Config.FromRead`'s
  `warned` and `GitHub.PrReport.warnings`.
- `CommandsRun`: src/utils/config.ts, `cleanupLocalBranch`, `deleteTicketFile`,
  `archiveTicketFile` and `resolveArchiveDir` are not part of this model.
  - Configuration answers are the inputs `global` and `repoConfigOf`.
  - The three helpers are `Helper` commands whose failures only warn.
  - `resolveArchiveDir` is the input `archiveDirOf`.
- `CommandsRun.ShouldDelete`, `CommandsRun.FileAction` and `CommandsRun.ArchiveSetting` start
  at the repository layer. The `LoadedTicket` of src/utils/tickets.ts has no
  `deleteLocalBranch`, `onProcessed` or `archiveDir` field, so the ticket layer of those chains
  is always absent.
- `CommandsRun.PrOptsFor`: an empty title or body is passed as `""`. The source leaves the
  property unset, so the argument array that src/utils/github.ts:47 hands to execa holds
  `undefined` right after `--title` or `--body`. What execa and `gh` make of that value is
  not modelled.
- `Tickets.Scheduled`: `DateTime.fromISO(dueUtcISO)` re-parsing the printed ISO text is taken
  to give back the parsed instant.
- `CommandsList.FormatTicketStatus`: `toRelative` returning `null` is not modelled; the
  relative text is whatever `DateLib.relative` answers.
- `Ordering.Sort`: both list commands hand `Array.prototype.sort` a comparator that is not a
  consistent order. It returns 0 when either day count is absent, which breaks transitivity
  when one status group mixes records with and without day counts (an invalidated record of
  src/utils/tickets.ts keeps its count). Such a comparator leaves the engine's order
  unspecified. The model uses a stable insertion sort that puts every neighbouring pair in
  comparator order, so the global order is proved only where the comparator is consistent.
- CoreList.Truncate: JavaScript's `length` and `substring` count UTF-16 code units, the model
  counts characters. A string with characters outside the Basic Multilingual Plane is
  therefore cut at a different place, and a cut through a surrogate pair has no counterpart.
- Text.PadEnd: `padEnd` widths in the list table are likewise UTF-16 code units, modelled as
  characters.
- Text.ToLower: lower-casing covers `A`–`Z` only. `toLowerCase` also folds non-ASCII letters,
  so a `.MD` suffix written with such letters is outside the model.
- TicketStatus: the helpers that src/core/ticket-status.ts:4 imports from ./gitgh.js but that
  src/core/gitgh.ts does not export are modelled by the src/utils/git.ts functions of the
  same name. The first-generation module as written would fail to load.
- src/utils/paths.ts `expandPath` is the input `expand`.
- Also out of scope: the table renderer, the `watch` and `doctor` commands, the CLI, src/core/paths.ts and
  the logger modules.
