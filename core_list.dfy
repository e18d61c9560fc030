/** The first-generation `list` command, src/core/list.ts: every markdown file of the scanned
    directories becomes a listed ticket (due, pending or invalid), and the listing is printed as
    a sorted table followed by a one-line summary. Colours are dropped from the text. */
module CoreList {
  import opened Wrappers
  import opened Text
  import opened Env
  import opened FrontMatter
  import opened Config
  import MT = MdTickets
  import Ordering

  datatype ListStatus = Due | Pending | Invalid

  /** `ListedTicket`; an optional property that is not set is `None`. */
  datatype ListedTicket = ListedTicket(
    file: string, relativePath: string, branch: string, title: string, when: string,
    dueUtcISO: Option<string>, status: ListStatus, error: Option<string>, daysUntilDue: Option<int>)

  /** What the scan guarantees of every record: an invalid record carries an error and neither
      a due date nor a day count; a valid one the other way round. */
  predicate Listed(t: ListedTicket) {
    && (t.status == Invalid <==> t.error.Some?)
    && (t.status == Invalid <==> t.dueUtcISO.None?)
    && (t.status == Invalid <==> t.daysUntilDue.None?)
  }

  /** The loop body of `scanDirectory` for one markdown file, with the clock at `now`. */
  function ScanFile(w: World, dir: string, baseDir: string, name: string, fallbackZone: Option<string>, now: int): (t: ListedTicket)
    ensures Listed(t)
    ensures t.file == w.paths.join(dir, name) && t.relativePath == w.paths.relative(baseDir, t.file)
  {
    var file := w.paths.join(dir, name);
    var rel := w.paths.relative(baseDir, file);
    match w.disk.readDoc(file)
    case Unreadable(reason) =>
      ListedTicket(file, rel, "[error]", "[error]", "[error]", None, Invalid, Some("Failed to read file: " + reason), None)
    case Doc(data, _) =>
      match Validate(data, false)
      case Err(failing) =>
        ListedTicket(file, rel, ShownOr(data, "branch", "[missing]"), ShownOr(data, "title", "[missing]"),
          ShownOr(data, "when", "[missing]"), None, Invalid, Some(InvalidMessage(w.parsers, data, failing)), None)
      case Ok(fm) =>
        match MT.ParseWhen(w.lib, fm.when, fallbackZone)
        case Err(msg) =>
          ListedTicket(file, rel, fm.branch, fm.title, fm.when, None, Invalid, Some("Invalid 'when' format: Error: " + msg), None)
        case Ok(due) =>
          ListedTicket(file, rel, fm.branch, fm.title, fm.when, Some(due.iso),
            if due.instant <= now then Due else Pending, None, Some(DaysUntil(w.lib, due.instant, now)))
  }

  /** An unreadable file is listed as invalid with `[error]` placeholders and the reason. */
  lemma {:induction false} UnreadableListedInvalid(w: World, dir: string, baseDir: string, name: string, fallbackZone: Option<string>, now: int)
    requires w.disk.readDoc(w.paths.join(dir, name)).Unreadable?
    ensures var t := ScanFile(w, dir, baseDir, name, fallbackZone, now);
      && t.status == Invalid && t.branch == t.title == t.when == "[error]"
      && t.error == Some("Failed to read file: " + w.disk.readDoc(t.file).reason)
  {
  }

  /** Front matter that fails the schema (which has no `autoMerge` here) is listed as invalid,
      showing what it can of the required fields and naming the missing ones first. */
  lemma {:induction false} SchemaFailureListedInvalid(w: World, dir: string, baseDir: string, name: string, fallbackZone: Option<string>, now: int)
    requires w.disk.readDoc(w.paths.join(dir, name)).Doc?
    requires Validate(w.disk.readDoc(w.paths.join(dir, name)).data, false).Err?
    ensures var data := w.disk.readDoc(w.paths.join(dir, name)).data;
      var t := ScanFile(w, dir, baseDir, name, fallbackZone, now);
      && t.status == Invalid
      && t.branch == ShownOr(data, "branch", "[missing]") && t.title == ShownOr(data, "title", "[missing]")
      && t.when == ShownOr(data, "when", "[missing]")
      && (MissingFields(data) != [] ==> t.error == Some("Missing required fields: " + Join(MissingFields(data), ", ")))
  {
  }

  /** A `when` the first-generation parser rejects is listed as invalid with its message. */
  lemma {:induction false} BadWhenListedInvalid(w: World, dir: string, baseDir: string, name: string, fallbackZone: Option<string>, now: int)
    requires w.disk.readDoc(w.paths.join(dir, name)).Doc?
    requires Validate(w.disk.readDoc(w.paths.join(dir, name)).data, false).Ok?
    requires MT.ParseWhen(w.lib, Validate(w.disk.readDoc(w.paths.join(dir, name)).data, false).value.when, fallbackZone).Err?
    ensures var fm := Validate(w.disk.readDoc(w.paths.join(dir, name)).data, false).value;
      var t := ScanFile(w, dir, baseDir, name, fallbackZone, now);
      && t.status == Invalid && t.branch == fm.branch && t.title == fm.title && t.when == fm.when
      && t.error == Some("Invalid 'when' format: Error: " + MT.ParseWhen(w.lib, fm.when, fallbackZone).error)
  {
  }

  /** A valid ticket is due exactly when its instant is not after `now`, and carries its ISO
      text and its whole-day count. */
  lemma {:induction false} ValidListedScheduled(w: World, dir: string, baseDir: string, name: string, fallbackZone: Option<string>, now: int)
    requires w.disk.readDoc(w.paths.join(dir, name)).Doc?
    requires Validate(w.disk.readDoc(w.paths.join(dir, name)).data, false).Ok?
    requires MT.ParseWhen(w.lib, Validate(w.disk.readDoc(w.paths.join(dir, name)).data, false).value.when, fallbackZone).Ok?
    ensures var fm := Validate(w.disk.readDoc(w.paths.join(dir, name)).data, false).value;
      var due := MT.ParseWhen(w.lib, fm.when, fallbackZone).value;
      var t := ScanFile(w, dir, baseDir, name, fallbackZone, now);
      && (t.status == Due <==> due.instant <= now) && (t.status == Pending <==> now < due.instant)
      && t.branch == fm.branch && t.title == fm.title && t.when == fm.when
      && t.dueUtcISO == Some(due.iso) && t.daysUntilDue == Some(DaysUntil(w.lib, due.instant, now))
  {
  }

  predicate AllListed(ts: seq<ListedTicket>) {
    forall i :: 0 <= i < |ts| ==> Listed(ts[i])
  }

  /** One record per markdown file of the directory, in listing order; none for an unreadable
      directory. */
  function DirectoryListing(w: World, dir: string, baseDir: string, fallbackZone: Option<string>, now: int): (ts: seq<ListedTicket>)
    ensures w.disk.listDir(dir).None? ==> ts == []
    ensures w.disk.listDir(dir).Some? ==> |ts| == |MT.MarkdownFiles(w.disk.listDir(dir).value)|
    ensures w.disk.listDir(dir).Some? ==> forall i :: 0 <= i < |ts| ==>
      ts[i].file == w.paths.join(dir, MT.MarkdownFiles(w.disk.listDir(dir).value)[i])
    ensures AllListed(ts)
  {
    match w.disk.listDir(dir)
    case None => []
    case Some(entries) =>
      var md := MT.MarkdownFiles(entries);
      seq(|md|, i requires 0 <= i < |md| => ScanFile(w, dir, baseDir, md[i], fallbackZone, now))
  }

  /** `scanDirectory(dir, baseDir, fallbackZone)`: a record is pushed for every markdown file. */
  method ScanDirectory(w: World, dir: string, baseDir: string, fallbackZone: Option<string>, now: int) returns (tickets: seq<ListedTicket>)
    ensures tickets == DirectoryListing(w, dir, baseDir, fallbackZone, now)
  {
    tickets := [];
    var entries := w.disk.listDir(dir);
    if entries.None? {
      return;
    }
    var mdFiles := MT.MarkdownFiles(entries.value);
    for i := 0 to |mdFiles|
      invariant tickets == seq(i, k requires 0 <= k < i => ScanFile(w, dir, baseDir, mdFiles[k], fallbackZone, now))
    {
      var t := ScanFile(w, dir, baseDir, mdFiles[i], fallbackZone, now);
      tickets := tickets + [t];
    }
  }

  /** `formatRelativeTime` without its sign: "1 day", "n days" below a week, whole weeks below
      thirty days, whole thirty-day months beyond. */
  function Span(n: nat): string {
    if n == 1 then "1 day"
    else if n < 7 then IntToString(n) + " days"
    else if n < 30 then IntToString(n / 7) + " weeks"
    else IntToString(n / 30) + " months"
  }

  /** `formatRelativeTime(daysUntilDue)`. */
  function FormatRelativeTime(daysUntilDue: Option<int>): (r: string)
    ensures daysUntilDue.None? ==> r == ""
    ensures daysUntilDue == Some(0) ==> r == "today"
  {
    match daysUntilDue
    case None => ""
    case Some(d) =>
      var absDays := if d < 0 then -d else d;
      if d < 0 then
        if absDays == 0 then "today"
        else if absDays == 1 then "1 day ago"
        else if absDays < 7 then IntToString(absDays) + " days ago"
        else if absDays < 30 then IntToString(absDays / 7) + " weeks ago"
        else IntToString(absDays / 30) + " months ago"
      else if d == 0 then "today"
      else if d == 1 then "in 1 day"
      else if d < 7 then "in " + IntToString(d) + " days"
      else if d < 30 then "in " + IntToString(d / 7) + " weeks"
      else "in " + IntToString(d / 30) + " months"
  }

  /** A day count ahead reads `in <span>`. */
  lemma {:induction false} FutureIsInSpan(d: int)
    requires d > 0
    ensures FormatRelativeTime(Some(d)) == "in " + Span(d)
  {
  }

  /** A day count behind reads `<span> ago`. */
  lemma {:induction false} PastIsSpanAgo(d: int)
    requires d < 0
    ensures FormatRelativeTime(Some(d)) == Span(-d) + " ago"
  {
  }

  /** Spans from a week up to thirty days are counted in whole weeks, between one and four. */
  lemma {:induction false} WeeksRange(n: nat)
    requires 7 <= n < 30
    ensures Span(n) == IntToString(n / 7) + " weeks" && 1 <= n / 7 <= 4
  {
  }

  /** `truncate(str, maxLen)`: a longer string keeps its first `maxLen - 3` characters (none
      when that is negative, as `substring` clamps) and gets `...`. */
  function Truncate(s: string, maxLen: nat): (r: string)
    ensures |s| <= maxLen ==> r == s
    ensures |s| > maxLen && maxLen >= 3 ==> |r| == maxLen && r[..maxLen - 3] == s[..maxLen - 3] && r[maxLen - 3..] == "..."
    ensures |s| > maxLen && maxLen < 3 ==> r == "..."
  {
    if |s| <= maxLen then s
    else
      var keep := if maxLen < 3 then 0 else maxLen - 3;
      s[..keep] + "..."
  }

  /** `formatStatus(status)`. */
  function FormatStatus(status: ListStatus): string {
    match status
    case Due => "✓ due"
    case Pending => "⏳ pend"
    case Invalid => "✗ inv"
  }

  /** `statusOrder`: due, then pending, then invalid. */
  function Rank(status: ListStatus): nat {
    match status
    case Due => 0
    case Pending => 1
    case Invalid => 2
  }

  /** What the table comparator looks at. */
  function Key(t: ListedTicket): Ordering.SortKey {
    Ordering.SortKey(Rank(t.status), t.daysUntilDue)
  }

  const Header: string := "Status   Branch                Title                         When            Path"

  /** `'─'.repeat(85)`. */
  const Rule: string := seq(85, _ => '─')

  /** One table row; the error replaces the title of an invalid ticket in verbose mode. */
  function Row(t: ListedTicket, verbose: bool): string {
    var title := if t.status == Invalid && t.error.Some? && t.error.value != "" && verbose
      then "[" + t.error.value + "]" else Truncate(t.title, 28);
    var when := if t.status == Invalid then PadEnd("", 14) else PadEnd(FormatRelativeTime(t.daysUntilDue), 14);
    FormatStatus(t.status) + "  " + PadEnd(Truncate(t.branch, 20), 20) + " " + PadEnd(title, 28) + " "
      + when + " " + Truncate(t.relativePath, 25)
  }

  /** One row per ticket, in the order given. */
  function Rows(ts: seq<ListedTicket>, verbose: bool): (rows: seq<string>)
    ensures |rows| == |ts|
    ensures forall i :: 0 <= i < |ts| ==> rows[i] == Row(ts[i], verbose)
  {
    MapSeq(RowFor(verbose), ts)
  }

  function RowFor(verbose: bool): ListedTicket -> string {
    t => Row(t, verbose)
  }

  /** The lines of a non-empty table: header, rule, then one row per ticket in sorted order. */
  function TableLines(tickets: seq<ListedTicket>, verbose: bool): (lines: seq<string>)
    ensures |lines| == |tickets| + 2 && lines[0] == Header && lines[1] == Rule
    ensures lines[2..] == Rows(Ordering.Sort(tickets, Key), verbose)
  {
    [Header, Rule] + Rows(Ordering.Sort(tickets, Key), verbose)
  }

  /** The text `formatTable` returns. */
  function TableText(tickets: seq<ListedTicket>, verbose: bool): string {
    if tickets == [] then "No tickets found." else Join(TableLines(tickets, verbose), "\n")
  }

  /** `formatTable(tickets, verbose)`: sort a copy, then push one line per ticket. */
  method FormatTable(tickets: seq<ListedTicket>, verbose: bool) returns (text: string)
    ensures tickets == [] ==> text == "No tickets found."
    ensures tickets != [] ==> text == Join(TableLines(tickets, verbose), "\n")
  {
    if |tickets| == 0 {
      return "No tickets found.";
    }
    var sorted := Ordering.Sort(tickets, Key);
    var rows := PushRows(sorted, verbose);
    var lines := [Header, Rule] + rows;
    text := Join(lines, "\n");
  }

  /** The row loop of `formatTable`. */
  method PushRows(sorted: seq<ListedTicket>, verbose: bool) returns (rows: seq<string>)
    ensures rows == Rows(sorted, verbose)
  {
    rows := [];
    for i := 0 to |sorted|
      invariant rows == Rows(sorted[..i], verbose)
    {
      var row := Row(sorted[i], verbose);
      MapSeqStep(RowFor(verbose), sorted, i);
      rows := rows + [row];
    }
    assert sorted[..|sorted|] == sorted;
  }

  /** The rows list every ticket once; due tickets come first, then pending, then invalid,
      and within due and within pending the day counts ascend. */
  lemma {:induction false} TableOrder(tickets: seq<ListedTicket>, i: nat, j: nat)
    requires AllListed(tickets)
    requires i <= j < |tickets|
    ensures var sorted := Ordering.Sort(tickets, Key);
      && multiset(sorted) == multiset(tickets)
      && AllListed(sorted)
      && Rank(sorted[i].status) <= Rank(sorted[j].status)
      && (sorted[i].status == sorted[j].status != Invalid ==> sorted[i].daysUntilDue.value <= sorted[j].daysUntilDue.value)
  {
    var sorted := Ordering.Sort(tickets, Key);
    Ordering.SortOrdered(tickets, Key);
    Ordering.RanksAscend(sorted, Key, i, j);
    forall k | 0 <= k < |sorted| ensures Listed(sorted[k]) {
      assert sorted[k] in multiset(tickets);
      var a :| 0 <= a < |tickets| && tickets[a] == sorted[k];
    }
    if sorted[i].status == sorted[j].status != Invalid {
      Ordering.DaysAscendWithinRank(sorted, Key, i, j);
    }
  }

  /** `tickets.filter((t) => t.status === s).length`. */
  function Count(ts: seq<ListedTicket>, s: ListStatus): (n: nat)
    ensures n == |set i | 0 <= i < |ts| && ts[i].status == s|
    ensures n <= |ts|
  {
    if ts == [] then 0
    else
      var init := ts[..|ts| - 1];
      var k := |ts| - 1;
      var before := set i | 0 <= i < |init| && init[i].status == s;
      var all := set i | 0 <= i < |ts| && ts[i].status == s;
      IndicesOfLast(all, before, k, ts[k].status == s);
      Count(init, s) + (if ts[k].status == s then 1 else 0)
  }

  /** The matching indices of a sequence whose last index is `k`: those below `k`, plus `k`
      when its element matches; never more than `k + 1` of them. */
  lemma {:induction false} IndicesOfLast(all: set<int>, before: set<int>, k: nat, hit: bool)
    requires forall i :: i in before ==> 0 <= i < k
    requires forall i :: i in all <==> (i in before || (hit && i == k))
    ensures |all| == |before| + (if hit then 1 else 0)
    ensures |all| <= k + 1
  {
    assert k !in before;
    var extra: set<int> := if hit then {k} else {};
    forall i | true
      ensures i in all <==> i in before + extra
    {
    }
    assert all == before + extra;
    AtMostIndices(before, k);
  }

  /** A set of indices below `n` has at most `n` elements. */
  lemma {:induction false} AtMostIndices(xs: set<int>, n: nat)
    requires forall i :: i in xs ==> 0 <= i < n
    ensures |xs| <= n
    decreases n
  {
    if n == 0 {
      assert forall i :: i !in xs;
      assert xs == {};
    } else {
      var rest := xs - {n - 1};
      AtMostIndices(rest, n - 1);
      if n - 1 in xs {
        assert xs == rest + {n - 1};
      } else {
        assert xs == rest;
      }
    }
  }

  /** Every ticket has exactly one of the three statuses, so the counts add up to the total. */
  lemma {:induction false} CountsAddUp(ts: seq<ListedTicket>)
    ensures Count(ts, Due) + Count(ts, Pending) + Count(ts, Invalid) == |ts|
  {
    if ts != [] {
      CountsAddUp(ts[..|ts| - 1]);
    }
  }

  /** The non-zero counts, in the order due, pending, invalid. */
  function Details(due: nat, pending: nat, invalid: nat): (parts: seq<string>)
    ensures |parts| == (if due > 0 then 1 else 0) + (if pending > 0 then 1 else 0) + (if invalid > 0 then 1 else 0)
    ensures due > 0 ==> parts[0] == IntToString(due) + " due"
    ensures invalid > 0 ==> parts[|parts| - 1] == IntToString(invalid) + " invalid"
  {
    (if due > 0 then [IntToString(due) + " due"] else [])
      + (if pending > 0 then [IntToString(pending) + " pending"] else [])
      + (if invalid > 0 then [IntToString(invalid) + " invalid"] else [])
  }

  /** `formatSummary(tickets)`, without the colour. */
  function FormatSummary(ts: seq<ListedTicket>): string {
    var total := |ts|;
    var head := "Found " + IntToString(total) + " tickets";
    if total > 0 then
      "\n" + head + ": " + Join(Details(Count(ts, Due), Count(ts, Pending), Count(ts, Invalid)), ", ")
    else "\n" + head
  }

  /** A non-empty listing always has at least one non-zero count to detail. */
  lemma {:induction false} SummaryDetailed(ts: seq<ListedTicket>)
    requires ts != []
    ensures Details(Count(ts, Due), Count(ts, Pending), Count(ts, Invalid)) != []
  {
    CountsAddUp(ts);
  }

  /** `options.dirs || config.dirs || ['.']` (an empty array is truthy, so only absence falls through). */
  function DirsToScan(optionDirs: Option<seq<string>>, config: Config): (dirs: seq<string>)
    ensures optionDirs.Some? ==> dirs == optionDirs.value
    ensures optionDirs.None? && config.dirs.Some? ==> dirs == config.dirs.value
    ensures optionDirs.None? && config.dirs.None? ==> dirs == ["."]
  {
    if optionDirs.Some? then optionDirs.value else config.dirs.GetOr(["."])
  }

  /** Every listed record of every directory, directory after directory. */
  function ListingOf(w: World, dirs: seq<string>, baseDir: string, fallbackZone: Option<string>, now: int): seq<ListedTicket> {
    FlatMap(d => DirectoryListing(w, d, baseDir, fallbackZone, now), dirs)
  }

  /** `listTickets(options)`: load both configurations (a repository file overrides the global
      one), pick the directories, scan them in order, and render the table and the summary.
      `globalPath` is the default global configuration path and `expand` is `expandPath`. */
  method ListTickets(w: World, globalPath: string, expand: string -> string, cwd: string,
                     optionDirs: Option<seq<string>>, verbose: bool, now: int)
    returns (table: string, summary: string, ghost all: seq<ListedTicket>)
    ensures var config := Merge(LoadGlobalConfig(w.disk, None, globalPath, true).config,
                                LoadRepoConfig(w.disk, w.paths, cwd, true).config);
      var dirs := DirsToScan(optionDirs, config);
      && all == ListingOf(w, seq(|dirs|, i requires 0 <= i < |dirs| => expand(dirs[i])), cwd, config.timezone, now)
      && table == TableText(all, verbose) && summary == FormatSummary(all)
  {
    var globalConfig := LoadGlobalConfig(w.disk, None, globalPath, true).config;
    var repoConfig := LoadRepoConfig(w.disk, w.paths, cwd, true).config;
    var config := Merge(globalConfig, repoConfig);
    var chosen := DirsToScan(optionDirs, config);
    var dirsToScan := seq(|chosen|, i requires 0 <= i < |chosen| => expand(chosen[i]));
    var allTickets: seq<ListedTicket> := [];
    for d := 0 to |dirsToScan|
      invariant allTickets == ListingOf(w, dirsToScan[..d], cwd, config.timezone, now)
    {
      var found := ScanDirectory(w, dirsToScan[d], cwd, config.timezone, now);
      assert dirsToScan[..d + 1][..d] == dirsToScan[..d];
      allTickets := allTickets + found;
    }
    assert dirsToScan[..|dirsToScan|] == dirsToScan;
    all := allTickets;
    table := FormatTable(allTickets, verbose);
    summary := FormatSummary(allTickets);
  }
}
