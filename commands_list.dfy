/** The second-generation `list` command, src/commands/list.ts: every ticket the second
    loader produces (with its pull-request status) becomes a row of repository, branch and
    status text, in status order. The table renderer itself is not part of this model: the
    rows are the result. */
module CommandsList {
  import opened Wrappers
  import opened Text
  import opened Env
  import opened Config
  import opened Tickets
  import Ordering
  import CoreList

  /** `formatTicketStatus(ticket)` with the clock at `now`; `lib.relative` is luxon's
      `toRelative`. */
  function FormatTicketStatus(lib: DateLib, t: LoadedTicket, now: int): (r: string)
    ensures (t.dueUtcISO.None? || t.dueUtcISO == Some("")) ==> r == ""
    ensures t.dueUtcISO.Some? && t.dueUtcISO.value != "" ==>
      && (t.status == PrExists ==> r == "PR already exists")
      && (t.status == Merged ==> r == "already merged into " + (if t.base.Some? && t.base.value != "" then t.base.value else "main"))
      && (t.status == Pending ==> r == "scheduled " + lib.relative(t.dueUtcISO.value, now))
      && (t.status == Ready ==> r == "ready to process")
      && (t.status == Invalid ==> r == "")
  {
    if t.dueUtcISO.None? || t.dueUtcISO.value == "" then ""
    else
      match t.status
      case PrExists => "PR already exists"
      case Merged => "already merged into " + (if t.base.Some? && t.base.value != "" then t.base.value else "main")
      case Pending => "scheduled " + lib.relative(t.dueUtcISO.value, now)
      case Ready => "ready to process"
      case Invalid => ""
  }

  /** The status cell: the formatted status, or `invalid: <error>` when that is empty. */
  function StatusCell(lib: DateLib, t: LoadedTicket, now: int): string {
    var formatted := FormatTicketStatus(lib, t, now);
    if formatted != "" then formatted
    else if t.error.Some? && t.error.value != "" then "invalid: " + t.error.value
    else ""
  }

  /** The status cell of a record is the error text exactly when the record is invalid (or has
      no due date) and carries an error; a dated valid record shows its status instead. */
  lemma {:induction false} StatusCellShowsError(lib: DateLib, t: LoadedTicket, now: int)
    requires t.error.Some? && t.error.value != ""
    ensures StatusCell(lib, t, now) == "invalid: " + t.error.value <==>
      (t.dueUtcISO.None? || t.dueUtcISO == Some("") || t.status == Invalid)
  {
    var formatted := FormatTicketStatus(lib, t, now);
    if t.dueUtcISO.Some? && t.dueUtcISO.value != "" && t.status != Invalid {
      assert formatted != "";
      assert formatted[0] != 'i' by {
        match t.status
        case PrExists => assert formatted[0] == 'P';
        case Merged => assert formatted[0] == 'a';
        case Pending => assert formatted[0] == 's';
        case Ready => assert formatted[0] == 'r';
      }
      assert ("invalid: " + t.error.value)[0] == 'i';
    }
  }

  /** `getTicketIdentifier(ticket)`: the repository's directory name when the root is known,
      else the tickets directory's name, else (for `.` and `.test-` directories) the file name. */
  function TicketIdentifier(paths: Paths, t: LoadedTicket): (id: string)
    ensures t.repoRoot.Some? && t.repoRoot.value != "" ==> id == paths.basename(t.repoRoot.value)
    ensures (t.repoRoot.None? || t.repoRoot == Some("")) ==>
      var dirName := paths.basename(paths.dirname(t.file));
      && (IsPrefix(".test-", dirName) || dirName == "." ==> id == paths.basename(t.file))
      && (!IsPrefix(".test-", dirName) && dirName != "." ==> id == dirName)
  {
    if t.repoRoot.Some? && t.repoRoot.value != "" then paths.basename(t.repoRoot.value)
    else
      var dirName := paths.basename(paths.dirname(t.file));
      if IsPrefix(".test-", dirName) || dirName == "." then paths.basename(t.file) else dirName
  }

  /** `statusOrder`: ready, pending, pr-exists, merged, invalid. */
  function Rank(status: Status): nat {
    match status
    case Ready => 0
    case Pending => 1
    case PrExists => 2
    case Merged => 3
    case Invalid => 4
  }

  function Key(t: LoadedTicket): Ordering.SortKey {
    Ordering.SortKey(Rank(t.status), t.daysUntilDue)
  }

  /** One table row: repository, branch, status text. */
  datatype Row = Row(repository: string, branch: string, status: string)

  /** What `outputTickets` prints: the message for an empty list, or the rows of the table. */
  datatype Output = NoTickets | Table(rows: seq<Row>)

  function RowOf(w: World, t: LoadedTicket, now: int): Row {
    Row(TicketIdentifier(w.paths, t), t.branch, StatusCell(w.lib, t, now))
  }

  /** One row per ticket, in the order given. */
  function Rows(w: World, ts: seq<LoadedTicket>, now: int): (rows: seq<Row>)
    ensures |rows| == |ts|
    ensures forall i :: 0 <= i < |ts| ==> rows[i] == RowOf(w, ts[i], now)
  {
    MapSeq(RowFor(w, now), ts)
  }

  function RowFor(w: World, now: int): LoadedTicket -> Row {
    t => RowOf(w, t, now)
  }

  /** `outputTickets(tickets)`: sort a copy, then push one row per ticket. */
  method OutputTickets(w: World, tickets: seq<LoadedTicket>, now: int) returns (out: Output)
    ensures tickets == [] ==> out == NoTickets
    ensures tickets != [] ==> out == Table(Rows(w, Ordering.Sort(tickets, Key), now))
  {
    if |tickets| == 0 {
      return NoTickets;
    }
    var sorted := Ordering.Sort(tickets, Key);
    var rows: seq<Row> := [];
    for i := 0 to |sorted|
      invariant rows == Rows(w, sorted[..i], now)
    {
      var row := RowOf(w, sorted[i], now);
      MapSeqStep(RowFor(w, now), sorted, i);
      rows := rows + [row];
    }
    assert sorted[..|sorted|] == sorted;
    out := Table(rows);
  }

  /** A record that is not invalid has a day count. */
  predicate Dated(t: LoadedTicket) {
    t.status != Invalid ==> t.daysUntilDue.Some?
  }

  /** The loader only produces dated records: the scan dates every valid record, and the
      resolution keeps the day count and only ever moves a record to another valid status from
      a valid one. */
  lemma {:induction false} ResolvedDated(w: World, repoConfigOf: string -> Config, globalCfg: Config, t: LoadedTicket)
    requires Classified(t)
    ensures Dated(ResolveTicket(w, repoConfigOf, globalCfg, t).value)
  {
  }

  /** The rows are in status order (ready, pending, pr-exists, merged, invalid), every ticket
      appears once, and among valid tickets of one status the day counts ascend. */
  lemma {:induction false} OutputOrder(tickets: seq<LoadedTicket>, i: nat, j: nat)
    requires forall k :: 0 <= k < |tickets| ==> Dated(tickets[k])
    requires i <= j < |tickets|
    ensures var sorted := Ordering.Sort(tickets, Key);
      && multiset(sorted) == multiset(tickets)
      && Rank(sorted[i].status) <= Rank(sorted[j].status)
      && (sorted[i].status == sorted[j].status != Invalid ==>
            sorted[i].daysUntilDue.Some? && sorted[j].daysUntilDue.Some?
            && sorted[i].daysUntilDue.value <= sorted[j].daysUntilDue.value)
  {
    var sorted := Ordering.Sort(tickets, Key);
    Ordering.SortOrdered(tickets, Key);
    Ordering.RanksAscend(sorted, Key, i, j);
    if sorted[i].status == sorted[j].status != Invalid {
      SortKeepsDated(tickets);
      forall k | 0 <= k < |sorted| && Key(sorted[k]).rank == Key(sorted[i]).rank
        ensures Key(sorted[k]).days.Some?
      {
        assert Dated(sorted[k]);
        assert sorted[k].status != Invalid;
      }
      Ordering.DaysAscendWithinRank(sorted, Key, i, j);
    }
  }

  /** Sorting moves records without changing them, so a dated list stays dated. */
  lemma {:induction false} SortKeepsDated(tickets: seq<LoadedTicket>)
    requires forall k :: 0 <= k < |tickets| ==> Dated(tickets[k])
    ensures forall k :: 0 <= k < |Ordering.Sort(tickets, Key)| ==> Dated(Ordering.Sort(tickets, Key)[k])
  {
    var sorted := Ordering.Sort(tickets, Key);
    forall k | 0 <= k < |sorted| ensures Dated(sorted[k]) {
      assert sorted[k] in multiset(tickets);
      var a :| 0 <= a < |tickets| && tickets[a] == sorted[k];
    }
  }

  /** `listTickets(options)`: the repository file of the working directory overrides the global
      configuration, the directories are `options.dirs`, else the configured ones, else `.`, and
      every ticket of them is loaded, status-checked and output. The configuration loader of
      this command is not part of this model: `globalCfg` and `repoConfigOf` are its answers. */
  method ListTickets(w: World, globalCfg: Config, repoConfigOf: string -> Config, expand: string -> string,
                     cwd: string, optionDirs: Option<seq<string>>, now: int)
    returns (out: Output, trace: seq<Cmd>)
    ensures var config := Merge(globalCfg, repoConfigOf(cwd));
      var dirs := CoreList.DirsToScan(optionDirs, config);
      var loaded := ResolveAll(w, repoConfigOf, config, ScanAll(w, seq(|dirs|, i requires 0 <= i < |dirs| => expand(dirs[i])), cwd, now));
      && trace == loaded.trace
      && (loaded.value == [] ==> out == NoTickets)
      && (loaded.value != [] ==> out == Table(Rows(w, Ordering.Sort(loaded.value, Key), now)))
  {
    var config := Merge(globalCfg, repoConfigOf(cwd));
    var dirsToScan := CoreList.DirsToScan(optionDirs, config);
    var tickets, cmds;
    ghost var loads;
    tickets, cmds, loads := LoadAllTickets(w, repoConfigOf, expand, cwd, dirsToScan, config, now);
    out := OutputTickets(w, tickets, now);
    trace := cmds;
  }
}
