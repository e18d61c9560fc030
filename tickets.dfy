/** The second-generation ticket loader, src/utils/tickets.ts: every markdown file becomes a
    record with a status (nothing is dropped), and due tickets are then checked against the
    repository and GitHub. Its `parseDateTime`, `getTicketRepoRoot` and `checkTicketPrStatus`
    are the same functions as in src/core/md-tickets.ts and src/core/ticket-status.ts and are
    used from there; its `isValidTimezone` is the memo cache of `Timezone.ZoneCache`. */
module Tickets {
  import opened Wrappers
  import opened Text
  import opened Env
  import opened FrontMatter
  import opened MdTickets
  import opened Config
  import Timezone
  import TS = TicketStatus

  datatype Status = Pending | Ready | PrExists | Merged | Invalid

  /** `LoadedTicket`; an optional property that is not set is `None`. */
  datatype LoadedTicket = LoadedTicket(
    file: string, relativePath: string, branch: string, title: string, when: string, body: string,
    base: Option<string>, rebase: Option<bool>, pushMode: Option<PushMode>,
    labels: Option<seq<string>>, reviewers: Option<seq<string>>, assignees: Option<seq<string>>,
    repository: Option<string>, draft: Option<bool>, autoMerge: Option<bool>,
    status: Status, dueUtcISO: Option<string>, isDue: bool, daysUntilDue: Option<int>,
    error: Option<string>, repoRoot: Option<string>)

  /** `parseWhenToUtcISO(whenStr)` of this file: "date zone" needs a zone the library knows;
      anything else is read whole in the system zone. */
  function ParseWhenChecked(lib: DateLib, whenStr: string): (r: Result<Due, string>)
  {
    var parts := SplitOnSpace(whenStr);
    if HasZonePart(parts) then
      if !lib.zoneValid(parts[1]) then Err("Invalid timezone '" + parts[1] + "' in 'when': " + whenStr)
      else Finish(lib, ParseDateTime(lib, parts[0], parts[1]), whenStr)
    else Finish(lib, ParseDateTime(lib, whenStr, lib.systemZone), whenStr)
  }

  /** The two generations agree except on unknown zones: this one rejects them, the first one
      hands them to the parser. The fallback of this one is the system zone. */
  lemma {:induction false} ParseWhenGenerations(lib: DateLib, whenStr: string)
    ensures var parts := SplitOnSpace(whenStr);
      && (HasZonePart(parts) && !lib.zoneValid(parts[1]) ==>
            ParseWhenChecked(lib, whenStr) == Err("Invalid timezone '" + parts[1] + "' in 'when': " + whenStr))
      && (!HasZonePart(parts) || lib.zoneValid(parts[1]) ==>
            ParseWhenChecked(lib, whenStr) == ParseWhen(lib, whenStr, Some(lib.systemZone)))
  {
  }

  /** A date followed by a zone the library rejects is refused before any parsing. */
  lemma {:induction false} UnknownZoneRejected(lib: DateLib, date: string, sep: string, zone: string)
    requires date != [] && NoSpace(date) && zone != [] && NoSpace(zone) && sep != [] && AllSpace(sep)
    requires !lib.zoneValid(zone)
    ensures ParseWhenChecked(lib, date + sep + zone) == Err("Invalid timezone '" + zone + "' in 'when': " + (date + sep + zone))
  {
    var whenStr := date + sep + zone;
    TokensOfPair(date, sep, zone);
    var parts := SplitOnSpace(whenStr);
    assert parts == [date, zone];
    assert HasZonePart(parts);
  }

  /** The same parse, with the zone verdict taken from the module-level cache. */
  method ParseWhenCached(zones: Timezone.ZoneCache, lib: DateLib, whenStr: string) returns (r: Result<Due, string>)
    requires zones.Valid() && zones.library == lib.zoneValid
    modifies zones
    ensures zones.Valid()
    ensures r == ParseWhenChecked(lib, whenStr)
  {
    var parts := SplitOnSpace(whenStr);
    if |parts| == 2 && parts[0] != "" && parts[1] != "" {
      var zone := parts[1];
      var valid := zones.IsValidTimezone(zone);
      if !valid {
        return Err("Invalid timezone '" + zone + "' in 'when': " + whenStr);
      }
      var dt := ParseDateTime(lib, parts[0], zone);
      r := Finish(lib, dt, whenStr);
    } else {
      var dt := ParseDateTime(lib, whenStr, lib.systemZone);
      r := Finish(lib, dt, whenStr);
    }
  }

  /** What the directory scan guarantees of every record, whatever happened to its file. */
  predicate Classified(t: LoadedTicket) {
    && t.status in {Pending, Ready, Invalid}
    && (t.isDue <==> t.status == Ready)
    && (t.status == Invalid <==> t.error.Some?)
    && (t.status == Invalid <==> t.dueUtcISO.None?)
    && (t.status == Invalid <==> t.daysUntilDue.None?)
    && t.repoRoot.None?
  }

  /** The record of a file that could not be read or whose front matter could not be parsed. */
  function ReadFailure(file: string, rel: string, reason: string): (t: LoadedTicket)
    ensures Classified(t) && t.file == file && t.relativePath == rel
  {
    LoadedTicket(file, rel, "[error]", "[error]", "[error]", "",
      None, None, None, None, None, None, None, None, None,
      Invalid, None, false, None, Some("Failed to read file: " + reason), None)
  }

  /** The record of a file whose front matter fails the schema. */
  function SchemaFailure(p: Parsers, file: string, rel: string, data: map<string, Value>, failing: seq<string>): (t: LoadedTicket)
    ensures Classified(t) && t.file == file && t.relativePath == rel
  {
    LoadedTicket(file, rel, ShownOr(data, "branch", "[missing]"), ShownOr(data, "title", "[missing]"),
      ShownOr(data, "when", "[missing]"), "",
      None, None, None, None, None, None, None, None, None,
      Invalid, None, false, None, Some(InvalidMessage(p, data, failing)), None)
  }

  /** The record of a file whose `when` cannot be parsed; `${error}` of an `Error` prefixes `Error: `. */
  function WhenFailure(file: string, rel: string, fm: Front, body: string, msg: string): (t: LoadedTicket)
    ensures Classified(t) && t.file == file && t.relativePath == rel
  {
    LoadedTicket(file, rel, fm.branch, fm.title, fm.when, body,
      None, None, None, None, None, None, None, None, None,
      Invalid, None, false, None, Some("Invalid 'when' format: Error: " + msg), None)
  }

  /** A valid ticket: ready when due, pending otherwise; optional fields only when truthy. */
  function Scheduled(lib: DateLib, file: string, rel: string, fm: Front, body: string, due: Due, now: int): (t: LoadedTicket)
    ensures Classified(t) && t.file == file && t.relativePath == rel
  {
    var isDue := due.instant <= now;
    LoadedTicket(file, rel, fm.branch, fm.title, fm.when, body,
      KeepString(fm.base), KeepTrue(fm.rebase), fm.pushMode, fm.labels, fm.reviewers, fm.assignees,
      KeepString(fm.repository), KeepTrue(fm.draft), KeepTrue(fm.autoMerge),
      if isDue then Ready else Pending, Some(due.iso), isDue, Some(DaysUntil(lib, due.instant, now)), None, None)
  }

  predicate AllClassified(ts: seq<LoadedTicket>) {
    forall i :: 0 <= i < |ts| ==> Classified(ts[i])
  }

  lemma AllClassifiedConcat(a: seq<LoadedTicket>, b: seq<LoadedTicket>)
    requires AllClassified(a) && AllClassified(b)
    ensures AllClassified(a + b)
  {
    forall i | 0 <= i < |a + b| ensures Classified((a + b)[i]) {
      if i < |a| {
        assert (a + b)[i] == a[i];
      } else {
        assert (a + b)[i] == b[i - |a|];
      }
    }
  }

  /** The loop body of `loadTicketsFromDirectory` for one markdown file, with the clock at `now`.
      What each kind of failure leaves in the record is stated by the lemmas below. */
  function ClassifyFile(w: World, dir: string, baseDir: string, name: string, now: int): (t: LoadedTicket)
    ensures Classified(t)
    ensures t.file == w.paths.join(dir, name) && t.relativePath == w.paths.relative(baseDir, t.file)
  {
    var file := w.paths.join(dir, name);
    var rel := w.paths.relative(baseDir, file);
    match w.disk.readDoc(file)
    case Unreadable(reason) => ReadFailure(file, rel, reason)
    case Doc(data, content) =>
      match Validate(data, true)
      case Err(failing) => SchemaFailure(w.parsers, file, rel, data, failing)
      case Ok(fm) =>
        match ParseWhenChecked(w.lib, fm.when)
        case Err(msg) => WhenFailure(file, rel, fm, Trim(content), msg)
        case Ok(due) => Scheduled(w.lib, file, rel, fm, Trim(content), due, now)
  }

  /** An unreadable file gives an invalid record with `[error]` placeholders and the reason. */
  lemma {:induction false} UnreadableFileInvalid(w: World, dir: string, baseDir: string, name: string, now: int)
    requires w.disk.readDoc(w.paths.join(dir, name)).Unreadable?
    ensures var t := ClassifyFile(w, dir, baseDir, name, now);
      && t.status == Invalid && t.branch == t.title == t.when == "[error]" && t.body == ""
      && t.error == Some("Failed to read file: " + w.disk.readDoc(t.file).reason)
  {
  }

  /** Front matter that fails the schema gives an invalid record that shows what it could of
      the three required fields and lists the failing ones. */
  lemma {:induction false} SchemaFailureInvalid(w: World, dir: string, baseDir: string, name: string, now: int)
    requires w.disk.readDoc(w.paths.join(dir, name)).Doc?
    requires Validate(w.disk.readDoc(w.paths.join(dir, name)).data, true).Err?
    ensures var data := w.disk.readDoc(w.paths.join(dir, name)).data;
      var t := ClassifyFile(w, dir, baseDir, name, now);
      && t.status == Invalid && t.body == ""
      && t.branch == ShownOr(data, "branch", "[missing]") && t.title == ShownOr(data, "title", "[missing]")
      && t.when == ShownOr(data, "when", "[missing]")
      && t.error == Some(InvalidMessage(w.parsers, data, Validate(data, true).error))
  {
  }

  /** A valid ticket whose `when` cannot be read is invalid, keeps its fields and its body,
      and carries the parser's message. */
  lemma {:induction false} BadWhenInvalid(w: World, dir: string, baseDir: string, name: string, now: int)
    requires w.disk.readDoc(w.paths.join(dir, name)).Doc?
    requires Validate(w.disk.readDoc(w.paths.join(dir, name)).data, true).Ok?
    requires ParseWhenChecked(w.lib, Validate(w.disk.readDoc(w.paths.join(dir, name)).data, true).value.when).Err?
    ensures var doc := w.disk.readDoc(w.paths.join(dir, name));
      var fm := Validate(doc.data, true).value;
      var t := ClassifyFile(w, dir, baseDir, name, now);
      && t.status == Invalid && t.branch == fm.branch && t.title == fm.title && t.when == fm.when
      && t.body == Trim(doc.content)
      && t.error == Some("Invalid 'when' format: Error: " + ParseWhenChecked(w.lib, fm.when).error)
  {
  }

  /** A valid ticket with a readable `when` is ready exactly when its instant is not after
      `now`, pending otherwise, with its ISO text, its day count and its truthy options. */
  lemma {:induction false} ValidTicketScheduled(w: World, dir: string, baseDir: string, name: string, now: int)
    requires w.disk.readDoc(w.paths.join(dir, name)).Doc?
    requires Validate(w.disk.readDoc(w.paths.join(dir, name)).data, true).Ok?
    requires ParseWhenChecked(w.lib, Validate(w.disk.readDoc(w.paths.join(dir, name)).data, true).value.when).Ok?
    ensures var doc := w.disk.readDoc(w.paths.join(dir, name));
      var fm := Validate(doc.data, true).value;
      var due := ParseWhenChecked(w.lib, fm.when).value;
      var t := ClassifyFile(w, dir, baseDir, name, now);
      && (t.status == Ready <==> due.instant <= now) && (t.status == Pending <==> now < due.instant)
      && t.branch == fm.branch && t.title == fm.title && t.when == fm.when && t.body == Trim(doc.content)
      && t.dueUtcISO == Some(due.iso) && t.daysUntilDue == Some(DaysUntil(w.lib, due.instant, now))
      && t.autoMerge == KeepTrue(fm.autoMerge) && t.rebase == KeepTrue(fm.rebase) && t.draft == KeepTrue(fm.draft)
      && t.base == KeepString(fm.base) && t.repository == KeepString(fm.repository)
      && t.pushMode == fm.pushMode && t.labels == fm.labels
  {
  }

  /** One record per markdown file of the directory, in listing order; none for an unreadable
      directory. */
  function DirectoryTickets(w: World, dir: string, baseDir: string, now: int): (ts: seq<LoadedTicket>)
    ensures w.disk.listDir(dir).None? ==> ts == []
    ensures w.disk.listDir(dir).Some? ==> |ts| == |MarkdownFiles(w.disk.listDir(dir).value)|
    ensures w.disk.listDir(dir).Some? ==> forall i :: 0 <= i < |ts| ==>
      ts[i].file == w.paths.join(dir, MarkdownFiles(w.disk.listDir(dir).value)[i])
    ensures AllClassified(ts)
  {
    match w.disk.listDir(dir)
    case None => []
    case Some(entries) =>
      var md := MarkdownFiles(entries);
      seq(|md|, i requires 0 <= i < |md| => ClassifyFile(w, dir, baseDir, md[i], now))
  }

  /** `loadTicketsFromDirectory(dir, baseDir)`: a record is pushed for every markdown file. */
  method LoadTicketsFromDirectory(w: World, dir: string, baseDir: string, now: int) returns (tickets: seq<LoadedTicket>)
    ensures tickets == DirectoryTickets(w, dir, baseDir, now)
  {
    tickets := [];
    var entries := w.disk.listDir(dir);
    if entries.None? {
      return;
    }
    var mdFiles := MarkdownFiles(entries.value);
    for i := 0 to |mdFiles|
      invariant tickets == seq(i, k requires 0 <= k < i => ClassifyFile(w, dir, baseDir, mdFiles[k], now))
    {
      var t := ClassifyFile(w, dir, baseDir, mdFiles[i], now);
      tickets := tickets + [t];
    }
  }

  /** The records of every directory, directory after directory (`Promise.all` keeps the order). */
  function ScanAll(w: World, dirs: seq<string>, baseDir: string, now: int): (ts: seq<LoadedTicket>)
    ensures |dirs| == 1 ==> ts == DirectoryTickets(w, dirs[0], baseDir, now)
  {
    assert |dirs| == 1 ==> dirs[..0] == [];
    FlatMap(d => DirectoryTickets(w, d, baseDir, now), dirs)
  }

  /** Every scanned record satisfies the scan's guarantees. */
  lemma {:induction false} ScanAllClassified(w: World, dirs: seq<string>, baseDir: string, now: int)
    ensures AllClassified(ScanAll(w, dirs, baseDir, now))
  {
    if dirs != [] {
      var init := dirs[..|dirs| - 1];
      var last := dirs[|dirs| - 1];
      ScanAllClassified(w, init, baseDir, now);
      assert ScanAll(w, dirs, baseDir, now) == ScanAll(w, init, baseDir, now) + DirectoryTickets(w, last, baseDir, now);
      AllClassifiedConcat(ScanAll(w, init, baseDir, now), DirectoryTickets(w, last, baseDir, now));
    }
  }

  /** Directories are scanned independently: scanning a concatenation concatenates the scans. */
  lemma ScanAllAppend(w: World, a: seq<string>, b: seq<string>, baseDir: string, now: int)
    ensures ScanAll(w, a + b, baseDir, now) == ScanAll(w, a, baseDir, now) + ScanAll(w, b, baseDir, now)
  {
    FlatMapAppend(d => DirectoryTickets(w, d, baseDir, now), a, b);
  }

  /** The status check of a due ticket in a resolved repository: the base becomes the resolved
      base, and the status becomes `pr-exists` or `merged` when the check says so. */
  function CheckDue(w: World, repoConfigOf: string -> Config, globalCfg: Config, t: LoadedTicket, repoRoot: string): (r: Traced<LoadedTicket>)
    ensures r.value.file == t.file && r.value.branch == t.branch && r.value.isDue == t.isDue
    ensures r.value.dueUtcISO == t.dueUtcISO && r.value.daysUntilDue == t.daysUntilDue
    ensures r.value.repoRoot == Some(repoRoot)
    ensures r.value.status in {t.status, PrExists, Merged}
  {
    var report := TS.CheckTicketPrStatus(w, t.branch, t.base, repoRoot, repoConfigOf(repoRoot), globalCfg);
    var status := match report.value.status
      case PrExists => PrExists
      case Merged => Merged
      case Ready => t.status;
    Traced(t.(repoRoot := Some(repoRoot), base := Some(report.value.base), status := status), report.trace)
  }

  /** The per-ticket resolution of `loadAllTickets`: invalid records are left alone; the others
      get a repository root (or become invalid with the resolver's message), and due ones are
      checked against GitHub and the repository, which may turn them `pr-exists` or `merged`
      and always sets their base. */
  function ResolveTicket(w: World, repoConfigOf: string -> Config, globalCfg: Config, t: LoadedTicket): (r: Traced<LoadedTicket>)
    ensures t.status == Invalid ==> r == Traced(t, [])
    ensures r.value.file == t.file && r.value.branch == t.branch && r.value.isDue == t.isDue
    ensures r.value.dueUtcISO == t.dueUtcISO && r.value.daysUntilDue == t.daysUntilDue
    ensures r.value.status != t.status ==>
      || r.value.status == Invalid
      || (t.isDue && r.value.status in {PrExists, Merged})
  {
    if t.status == Invalid then Traced(t, [])
    else
      var root := TS.GetTicketRepoRoot(w, t.repository, w.paths.dirname(t.file));
      match root.value
      case Err(msg) => Traced(t.(status := Invalid, error := Some(msg)), root.trace)
      case Ok(repoRoot) =>
        if !t.isDue then Traced(t.(repoRoot := Some(repoRoot)), root.trace)
        else
          var checked := CheckDue(w, repoConfigOf, globalCfg, t, repoRoot);
          Traced(checked.value, root.trace + checked.trace)
  }

  /** A ticket that is not due is never status-checked: no `gh pr list` is issued for it and it
      keeps its status unless its repository cannot be resolved. */
  lemma {:induction false} OnlyDueTicketsChecked(w: World, repoConfigOf: string -> Config, globalCfg: Config, t: LoadedTicket)
    requires t.status != Invalid && !t.isDue
    ensures var r := ResolveTicket(w, repoConfigOf, globalCfg, t);
      && r.trace == TS.GetTicketRepoRoot(w, t.repository, w.paths.dirname(t.file)).trace
      && (r.value.status == t.status || r.value.status == Invalid)
      && r.value.base == t.base
  {
  }

  /** A repository that cannot be resolved makes the ticket invalid with the resolver's message. */
  lemma {:induction false} RootErrorInvalidates(w: World, repoConfigOf: string -> Config, globalCfg: Config, t: LoadedTicket)
    requires t.status != Invalid
    requires TS.GetTicketRepoRoot(w, t.repository, w.paths.dirname(t.file)).value.Err?
    ensures ResolveTicket(w, repoConfigOf, globalCfg, t).value.status == Invalid
    ensures ResolveTicket(w, repoConfigOf, globalCfg, t).value.error == Some(TS.GetTicketRepoRoot(w, t.repository, w.paths.dirname(t.file)).value.error)
  {
  }

  /** For a due ticket in a resolved repository: `pr-exists` exactly when an open pull request
      is listed, and the base becomes the resolved base whatever the outcome. */
  lemma {:induction false} DueTicketChecked(w: World, repoConfigOf: string -> Config, globalCfg: Config, t: LoadedTicket)
    requires t.status == Ready && t.isDue
    requires TS.GetTicketRepoRoot(w, t.repository, w.paths.dirname(t.file)).value.Ok?
    ensures var root := TS.GetTicketRepoRoot(w, t.repository, w.paths.dirname(t.file)).value.value;
      var r := ResolveTicket(w, repoConfigOf, globalCfg, t).value;
      && r.repoRoot == Some(root)
      && r.base == Some(TS.ResolveBase(w, root, t.base).value)
      && (r.status == PrExists <==> TS.OpenPrFound(w, root, t.branch))
      && r.status in {Ready, PrExists, Merged}
  {
  }

  /** The resolution of every record in order, with all the commands issued. */
  function ResolveAll(w: World, repoConfigOf: string -> Config, globalCfg: Config, ts: seq<LoadedTicket>): (r: Traced<seq<LoadedTicket>>)
    ensures |r.value| == |ts|
    ensures forall i :: 0 <= i < |ts| ==> r.value[i] == ResolveTicket(w, repoConfigOf, globalCfg, ts[i]).value
  {
    MapTraced(t => ResolveTicket(w, repoConfigOf, globalCfg, t), ts)
  }

  /** Resolving one more record extends the resolved prefix by that record's resolution. */
  lemma ResolveAllStep(w: World, repoConfigOf: string -> Config, globalCfg: Config, ts: seq<LoadedTicket>, i: nat)
    requires i < |ts|
    ensures var done := ResolveAll(w, repoConfigOf, globalCfg, ts[..i]);
      var one := ResolveTicket(w, repoConfigOf, globalCfg, ts[i]);
      ResolveAll(w, repoConfigOf, globalCfg, ts[..i + 1]) == Traced(done.value + [one.value], done.trace + one.trace)
  {
    MapTracedStep(t => ResolveTicket(w, repoConfigOf, globalCfg, t), ts, i);
  }

  /** The record was resolved to `root`. */
  predicate RootOf(t: LoadedTicket, root: string) {
    t.repoRoot == Some(root)
  }

  /** The repository roots the records were resolved to. */
  function Roots(ts: seq<LoadedTicket>): set<string> {
    if ts == [] then {}
    else
      var last := ts[|ts| - 1];
      Roots(ts[..|ts| - 1]) + (if last.repoRoot.Some? then {last.repoRoot.value} else {})
  }

  /** A root is among `Roots(ts)` exactly when some record was resolved to it. */
  lemma {:induction false} RootsOf(ts: seq<LoadedTicket>, root: string)
    ensures root in Roots(ts) <==> exists i :: 0 <= i < |ts| && RootOf(ts[i], root)
  {
    if ts != [] {
      var init := ts[..|ts| - 1];
      RootsOf(init, root);
      if root in Roots(init) {
        var i :| 0 <= i < |init| && RootOf(init[i], root);
        assert ts[i] == init[i];
      }
      if exists i :: 0 <= i < |ts| && RootOf(ts[i], root) {
        var i :| 0 <= i < |ts| && RootOf(ts[i], root);
        if i < |init| {
          assert init[i] == ts[i];
        }
      }
    }
  }

  /** Replacing the first element of the unresolved part moves it to the resolved part. */
  lemma UpdateAt(done: seq<LoadedTicket>, rest: seq<LoadedTicket>, x: LoadedTicket)
    requires rest != []
    ensures (done + rest)[|done| := x] == (done + [x]) + rest[1..]
  {
  }

  /** `loadAllTickets(dirs, globalConfig)`: scan every expanded directory, then resolve the
      records one by one in place, loading each repository's configuration once. `loads` lists
      the roots whose configuration was read, in order. */
  method LoadAllTickets(w: World, repoConfigOf: string -> Config, expand: string -> string, cwd: string,
                        dirs: seq<string>, globalCfg: Config, now: int)
    returns (tickets: seq<LoadedTicket>, trace: seq<Cmd>, ghost loads: seq<string>)
    ensures var scanned := ScanAll(w, seq(|dirs|, i requires 0 <= i < |dirs| => expand(dirs[i])), cwd, now);
      Traced(tickets, trace) == ResolveAll(w, repoConfigOf, globalCfg, scanned)
    ensures forall i, j :: 0 <= i < j < |loads| ==> loads[i] != loads[j]
    ensures forall root :: root in loads <==> root in Roots(tickets)
  {
    ghost var expanded := seq(|dirs|, i requires 0 <= i < |dirs| => expand(dirs[i]));
    var all: seq<LoadedTicket> := [];
    for d := 0 to |dirs|
      invariant all == ScanAll(w, expanded[..d], cwd, now)
    {
      var found := LoadTicketsFromDirectory(w, expand(dirs[d]), cwd, now);
      assert expanded[..d + 1][..d] == expanded[..d];
      all := all + found;
    }
    assert expanded[..|dirs|] == expanded;
    ScanAllClassified(w, expanded, cwd, now);
    tickets, trace, loads := ResolveInPlace(w, repoConfigOf, globalCfg, all);
  }

  /** The second loop of `loadAllTickets`: each record is replaced by its resolution, and a
      repository's configuration is read the first time its root is seen. */
  method ResolveInPlace(w: World, repoConfigOf: string -> Config, globalCfg: Config, all: seq<LoadedTicket>)
    returns (tickets: seq<LoadedTicket>, trace: seq<Cmd>, ghost loads: seq<string>)
    requires forall i :: 0 <= i < |all| ==> all[i].repoRoot.None?
    ensures Traced(tickets, trace) == ResolveAll(w, repoConfigOf, globalCfg, all)
    ensures forall i, j :: 0 <= i < j < |loads| ==> loads[i] != loads[j]
    ensures forall root :: root in loads <==> root in Roots(tickets)
  {
    tickets, trace, loads := all, [], [];
    ghost var done: seq<LoadedTicket> := [];
    var repoConfigs: map<string, Config> := map[];
    for i := 0 to |all|
      invariant Traced(done, trace) == ResolveAll(w, repoConfigOf, globalCfg, all[..i])
      invariant tickets == done + all[i..]
      invariant forall r :: r in repoConfigs ==> repoConfigs[r] == repoConfigOf(r)
      invariant forall r :: r in repoConfigs <==> r in loads
      invariant forall a, b :: 0 <= a < b < |loads| ==> loads[a] != loads[b]
      invariant forall r :: r in loads <==> r in Roots(done)
    {
      var step, cmds, configs := ResolveOne(w, repoConfigOf, repoConfigs, globalCfg, tickets[i]);
      ghost var before := loads;
      if step.repoRoot.Some? && step.repoRoot.value !in repoConfigs {
        loads := loads + [step.repoRoot.value];
      }
      CacheStep(repoConfigs, configs, before, loads, done, step);
      repoConfigs := configs;
      UpdateAt(done, all[i..], step);
      assert all[i..][1..] == all[i + 1..];
      tickets := tickets[i := step];
      trace := trace + cmds;
      ResolveAllStep(w, repoConfigOf, globalCfg, all, i);
      done := done + [step];
    }
    assert all[..|all|] == all;
    assert all[|all|..] == [];
    assert tickets == done;
  }

  /** The cache keys, the list of loads and the roots seen stay in step when one more record
      is resolved. */
  lemma CacheStep(repoConfigs: map<string, Config>, configs: map<string, Config>, before: seq<string>,
                  loads: seq<string>, done: seq<LoadedTicket>, step: LoadedTicket)
    requires forall r :: r in repoConfigs <==> r in before
    requires forall a, b :: 0 <= a < b < |before| ==> before[a] != before[b]
    requires forall r :: r in before <==> r in Roots(done)
    requires step.repoRoot.Some? ==> configs.Keys == repoConfigs.Keys + {step.repoRoot.value}
    requires step.repoRoot.None? ==> configs == repoConfigs
    requires loads == if step.repoRoot.Some? && step.repoRoot.value !in repoConfigs then before + [step.repoRoot.value] else before
    ensures forall r :: r in configs <==> r in loads
    ensures forall a, b :: 0 <= a < b < |loads| ==> loads[a] != loads[b]
    ensures forall r :: r in loads <==> r in Roots(done + [step])
  {
    assert (done + [step])[..|done|] == done;
  }

  /** One ticket: its root, its repository's configuration (from the cache, or read and cached
      on first sight) and, when due, its status check. */
  method ResolveOne(w: World, repoConfigOf: string -> Config, repoConfigs: map<string, Config>, globalCfg: Config, t: LoadedTicket)
    returns (r: LoadedTicket, trace: seq<Cmd>, configs: map<string, Config>)
    requires t.repoRoot.None?
    requires forall k :: k in repoConfigs ==> repoConfigs[k] == repoConfigOf(k)
    ensures Traced(r, trace) == ResolveTicket(w, repoConfigOf, globalCfg, t)
    ensures forall k :: k in configs ==> configs[k] == repoConfigOf(k)
    ensures r.repoRoot.Some? ==> configs == repoConfigs[r.repoRoot.value := repoConfigOf(r.repoRoot.value)]
    ensures r.repoRoot.None? ==> configs == repoConfigs
  {
    r, trace, configs := t, [], repoConfigs;
    if t.status == Invalid {
      return;
    }
    var root := TS.GetTicketRepoRoot(w, t.repository, w.paths.dirname(t.file));
    trace := root.trace;
    if root.value.Err? {
      r := t.(status := Invalid, error := Some(root.value.error));
      return;
    }
    var repoRoot := root.value.value;
    r := t.(repoRoot := Some(repoRoot));
    if repoRoot !in configs {
      configs := configs[repoRoot := repoConfigOf(repoRoot)];
    } else {
      assert configs == configs[repoRoot := repoConfigOf(repoRoot)];
    }
    var repoCfg := configs[repoRoot];
    if t.isDue {
      var report := TS.CheckTicketPrStatus(w, t.branch, t.base, repoRoot, repoCfg, globalCfg);
      r := r.(base := Some(report.value.base));
      if report.value.status == TS.PrExists {
        r := r.(status := PrExists);
      } else if report.value.status == TS.Merged {
        r := r.(status := Merged);
      }
      trace := trace + report.trace;
    }
  }

  /** `loadTicketsForProcessing`: the ready records, in order. */
  function ReadyOnly(ts: seq<LoadedTicket>): (r: seq<LoadedTicket>)
    ensures forall t :: t in r <==> t in ts && t.status == Ready
    ensures |r| <= |ts|
  {
    if ts == [] then []
    else
      var init := ReadyOnly(ts[..|ts| - 1]);
      assert forall t :: t in ts <==> t in ts[..|ts| - 1] || t == ts[|ts| - 1];
      if ts[|ts| - 1].status == Ready then init + [ts[|ts| - 1]] else init
  }

  /** Filtering keeps the order: the ready records of a concatenation are those of each part. */
  lemma {:induction false} ReadyOnlyAppend(a: seq<LoadedTicket>, b: seq<LoadedTicket>)
    ensures ReadyOnly(a + b) == ReadyOnly(a) + ReadyOnly(b)
    decreases |b|
  {
    if b == [] {
      assert a + b == a;
    } else {
      var init := b[..|b| - 1];
      assert (a + b)[..|a + b| - 1] == a + init;
      ReadyOnlyAppend(a, init);
    }
  }
}
