/** Due-time parsing and ticket loading of src/core/md-tickets.ts. */
module MdTickets {
  import opened Wrappers
  import opened Text
  import opened Env
  import opened FrontMatter

  /** A resolved due time: the instant in milliseconds and its UTC ISO text. */
  datatype Due = Due(instant: int, iso: string)

  predicate IsDigit(c: char) { '0' <= c <= '9' }

  /** `/^\d{4}-\d{2}-\d{2}$/` */
  predicate DateShape(s: string) {
    && |s| == 10
    && IsDigit(s[0]) && IsDigit(s[1]) && IsDigit(s[2]) && IsDigit(s[3]) && s[4] == '-'
    && IsDigit(s[5]) && IsDigit(s[6]) && s[7] == '-' && IsDigit(s[8]) && IsDigit(s[9])
  }

  /** `/^\d{4}-\d{2}-\d{2}T\d{2}:\d{2}$/` */
  predicate MinuteShape(s: string) {
    && |s| == 16 && DateShape(s[..10]) && s[10] == 'T'
    && IsDigit(s[11]) && IsDigit(s[12]) && s[13] == ':' && IsDigit(s[14]) && IsDigit(s[15])
  }

  /** `parseDateTime`: full ISO first, then a bare date at midnight, then a date with hours and
      minutes and zero seconds, each read in `zone`; `None` is `DateTime.invalid('unparseable')`.
      The same function appears in src/utils/tickets.ts. */
  function ParseDateTime(lib: DateLib, text: string, zone: string): (r: Option<int>)
    ensures lib.fromISO(text, zone).Some? ==> r == lib.fromISO(text, zone)
    ensures r.Some? <==>
      || lib.fromISO(text, zone).Some?
      || (DateShape(text) && lib.fromISO(text + "T00:00:00", zone).Some?)
      || (MinuteShape(text) && lib.fromISO(text + ":00", zone).Some?)
    ensures !DateShape(text) && !MinuteShape(text) ==> r == lib.fromISO(text, zone)
  {
    var full := lib.fromISO(text, zone);
    if full.Some? then full
    else if DateShape(text) && lib.fromISO(text + "T00:00:00", zone).Some? then lib.fromISO(text + "T00:00:00", zone)
    else if MinuteShape(text) && lib.fromISO(text + ":00", zone).Some? then lib.fromISO(text + ":00", zone)
    else None
  }

  /** `dt.isValid` and `toISO()` checks shared by both versions of `parseWhenToUtcISO`. */
  function Finish(lib: DateLib, dt: Option<int>, raw: string): (r: Result<Due, string>)
    ensures dt.None? ==> r == Err("Invalid 'when': " + raw)
    ensures dt.Some? && lib.toIso(dt.value).None? ==> r == Err("Failed to convert to ISO string: " + raw)
    ensures r.Ok? ==> Some(r.value.instant) == dt && Some(r.value.iso) == lib.toIso(dt.value)
  {
    match dt
    case None => Err("Invalid 'when': " + raw)
    case Some(t) =>
      match lib.toIso(t)
      case None => Err("Failed to convert to ISO string: " + raw)
      case Some(iso) => Ok(Due(t, iso))
  }

  /** The `parts.length === 2 && parts[0] && parts[1]` test on the split `when` text. */
  predicate HasZonePart(parts: seq<string>) {
    |parts| == 2 && parts[0] != "" && parts[1] != ""
  }

  /** `parseWhenToUtcISO(whenStr, fallbackZone)`: "date zone" is read in the named zone with no
      check of the zone itself; anything else is read whole in the fallback zone or `utc`. */
  function ParseWhen(lib: DateLib, whenStr: string, fallbackZone: Option<string>): (r: Result<Due, string>)
  {
    var parts := SplitOnSpace(whenStr);
    var dt := if HasZonePart(parts) then ParseDateTime(lib, parts[0], parts[1])
              else ParseDateTime(lib, whenStr, fallbackZone.GetOr("utc"));
    Finish(lib, dt, whenStr)
  }

  /** "<date> <zone>": the date is read in the zone named, whatever the fallback. */
  lemma {:induction false} ParseWhenWithZone(lib: DateLib, date: string, sep: string, zone: string, fallbackZone: Option<string>)
    requires date != [] && NoSpace(date) && zone != [] && NoSpace(zone) && sep != [] && AllSpace(sep)
    ensures ParseWhen(lib, date + sep + zone, fallbackZone) == Finish(lib, ParseDateTime(lib, date, zone), date + sep + zone)
  {
    TokensOfPair(date, sep, zone);
  }

  /** A single token is read in the fallback zone, `utc` when none is given. */
  lemma {:induction false} ParseWhenWithoutZone(lib: DateLib, whenStr: string, fallbackZone: Option<string>)
    requires whenStr != [] && NoSpace(whenStr)
    ensures ParseWhen(lib, whenStr, fallbackZone) == Finish(lib, ParseDateTime(lib, whenStr, fallbackZone.GetOr("utc")), whenStr)
    ensures fallbackZone.Some? ==> ParseWhen(lib, whenStr, fallbackZone) == Finish(lib, ParseDateTime(lib, whenStr, fallbackZone.value), whenStr)
    ensures fallbackZone.None? ==> ParseWhen(lib, whenStr, fallbackZone) == Finish(lib, ParseDateTime(lib, whenStr, "utc"), whenStr)
  {
    TokensOfWord(whenStr);
  }

  /** Three whitespace-separated parts are no "date zone": the whole text, separators included,
      is read in the fallback zone, `utc` when none is given. */
  lemma {:induction false} ParseWhenThreeParts(lib: DateLib, a: string, s1: string, b: string, s2: string, c: string, fallbackZone: Option<string>)
    requires a != [] && NoSpace(a) && b != [] && NoSpace(b) && c != [] && NoSpace(c)
    requires s1 != [] && AllSpace(s1) && s2 != [] && AllSpace(s2)
    ensures var w := a + s1 + b + s2 + c;
      ParseWhen(lib, w, fallbackZone) == Finish(lib, ParseDateTime(lib, w, fallbackZone.GetOr("utc")), w)
  {
    TokensOfTriple(a, s1, b, s2, c);
  }

  /** A ticket as `loadTickets` builds it; optional fields are present only when truthy. */
  datatype Ticket = Ticket(
    file: string, branch: string, title: string, when: string, due: Due, body: string,
    base: Option<string>, rebase: Option<bool>, pushMode: Option<PushMode>,
    labels: Option<seq<string>>, reviewers: Option<seq<string>>, assignees: Option<seq<string>>,
    repository: Option<string>, draft: Option<bool>)

  predicate IsMarkdown(name: string) {
    IsSuffix(".md", ToLower(name))
  }

  /** `entries.filter((f) => f.toLowerCase().endsWith('.md'))`. */
  function MarkdownFiles(entries: seq<string>): (md: seq<string>)
    ensures forall n :: n in md <==> n in entries && IsMarkdown(n)
    ensures |md| <= |entries|
  {
    if entries == [] then []
    else
      var rest := MarkdownFiles(entries[1..]);
      assert forall n :: n in entries <==> n == entries[0] || n in entries[1..];
      if IsMarkdown(entries[0]) then [entries[0]] + rest else rest
  }

  /** The filter keeps the listing's order: filtering two listings one after the other is
      filtering their concatenation. */
  lemma {:induction false} MarkdownFilesAppend(a: seq<string>, b: seq<string>)
    ensures MarkdownFiles(a + b) == MarkdownFiles(a) + MarkdownFiles(b)
    decreases |a|
  {
    if a == [] {
      assert a + b == b;
    } else {
      assert (a + b)[0] == a[0] && (a + b)[1..] == a[1..] + b;
      MarkdownFilesAppend(a[1..], b);
    }
  }

  /** The ticket for one file that passed the schema; falsy optional fields are dropped. */
  function TicketOf(file: string, fm: Front, due: Due, body: string): (t: Ticket)
    ensures t.branch == fm.branch && t.title == fm.title && t.when == fm.when && t.due == due
    ensures t.base != Some("") && t.repository != Some("")
    ensures fm.base.Some? && fm.base.value != "" <==> t.base.Some?
    ensures t.base.Some? ==> t.base == fm.base
    ensures fm.repository.Some? && fm.repository.value != "" <==> t.repository.Some?
    ensures t.repository.Some? ==> t.repository == fm.repository
    ensures t.pushMode == fm.pushMode
    ensures t.rebase != Some(false) && t.draft != Some(false)
    ensures fm.rebase == Some(true) <==> t.rebase == Some(true)
    ensures fm.draft == Some(true) <==> t.draft == Some(true)
    ensures t.labels == fm.labels && t.reviewers == fm.reviewers && t.assignees == fm.assignees
  {
    Ticket(file, fm.branch, fm.title, fm.when, due, body,
      KeepString(fm.base), KeepTrue(fm.rebase), fm.pushMode,
      fm.labels, fm.reviewers, fm.assignees, KeepString(fm.repository), KeepTrue(fm.draft))
  }

  /** The outcome for one markdown file: a ticket, `None` when the schema rejects it, or the
      error that aborts the whole load (an unreadable file or an unparseable `when`). */
  function LoadOne(disk: Disk, lib: DateLib, paths: Paths, dir: string, name: string, fallbackZone: Option<string>): (r: Result<Option<Ticket>, string>)
    ensures r.Ok? && r.value.Some? ==> r.value.value.file == paths.join(dir, name)
  {
    var file := paths.join(dir, name);
    match disk.readDoc(file)
    case Unreadable(reason) => Err(reason)
    case Doc(data, content) =>
      match Validate(data, false)
      case Err(_) => Ok(None)
      case Ok(fm) =>
        match ParseWhen(lib, fm.when, fallbackZone)
        case Err(e) => Err(e)
        case Ok(due) => Ok(Some(TicketOf(file, fm, due, Trim(content))))
  }

  /** The outcome of every markdown file, in directory order. */
  function Outcomes(disk: Disk, lib: DateLib, paths: Paths, dir: string, names: seq<string>, fallbackZone: Option<string>): (outs: seq<Result<Option<Ticket>, string>>)
    ensures |outs| == |names|
    ensures forall i :: 0 <= i < |names| ==> outs[i] == LoadOne(disk, lib, paths, dir, names[i], fallbackZone)
  {
    seq(|names|, i requires 0 <= i < |names| => LoadOne(disk, lib, paths, dir, names[i], fallbackZone))
  }

  /** The tickets of the files that passed, in the files' order. */
  function Kept<T, E>(outs: seq<Result<Option<T>, E>>): (ts: seq<T>)
    ensures |ts| <= |outs|
  {
    if outs == [] then []
    else (if outs[0].Ok? && outs[0].value.Some? then [outs[0].value.value] else []) + Kept(outs[1..])
  }

  lemma {:induction false} KeptAppend<T, E>(a: seq<Result<Option<T>, E>>, b: seq<Result<Option<T>, E>>)
    ensures Kept(a + b) == Kept(a) + Kept(b)
    decreases |a|
  {
    if a == [] {
      assert a + b == b;
    } else {
      var head: seq<T> := if a[0].Ok? && a[0].value.Some? then [a[0].value.value] else [];
      assert (a + b)[0] == a[0] && (a + b)[1..] == a[1..] + b;
      assert Kept(a + b) == head + Kept(a[1..] + b);
      KeptAppend(a[1..], b);
      assert Kept(a) == head + Kept(a[1..]);
    }
  }

  /** The outcomes in order; the first error ends the load, and a load that succeeds keeps
      the ticket of every file the schema accepted, in the files' order. */
  function Collect(outs: seq<Result<Option<Ticket>, string>>): (r: Result<seq<Ticket>, string>)
    ensures r.Ok? ==> r.value == Kept(outs)
    ensures r.Ok? <==> forall i :: 0 <= i < |outs| ==> outs[i].Ok?
  {
    if outs == [] then Ok([])
    else
      var init := outs[..|outs| - 1];
      var last := outs[|outs| - 1];
      assert outs == init + [last];
      assert forall i :: 0 <= i < |init| ==> init[i] == outs[i];
      KeptAppend(init, [last]);
      assert [last][1..] == [];
      match Collect(init)
      case Err(e) => Err(e)
      case Ok(ts) =>
        match last
        case Err(e) => Err(e)
        case Ok(None) => Ok(ts)
        case Ok(Some(t)) => Ok(ts + [t])
  }

  /** The error reported is the first file's error. */
  lemma {:induction false} CollectFirstError(outs: seq<Result<Option<Ticket>, string>>, k: nat)
    requires k < |outs| && outs[k].Err?
    requires forall i :: 0 <= i < k ==> outs[i].Ok?
    ensures Collect(outs) == Err(outs[k].error)
  {
    var init := outs[..|outs| - 1];
    assert forall i :: 0 <= i < |init| ==> init[i] == outs[i];
    if k < |outs| - 1 {
      CollectFirstError(init, k);
    }
  }

  /** A ticket is loaded exactly when one of the files gave it; files the schema rejects leave
      no trace. */
  lemma {:induction false} CollectKeeps(outs: seq<Result<Option<Ticket>, string>>)
    requires Collect(outs).Ok?
    ensures forall t :: t in Collect(outs).value <==> Ok(Some(t)) in outs
  {
    KeptMembers(outs);
  }

  lemma {:induction false} KeptMembers<T, E>(outs: seq<Result<Option<T>, E>>)
    ensures forall t :: t in Kept(outs) <==> Ok(Some(t)) in outs
    decreases |outs|
  {
    if outs != [] {
      KeptMembers(outs[1..]);
      assert forall o :: o in outs <==> o == outs[0] || o in outs[1..];
    }
  }

  /** One more outcome on top of a prefix that loaded: an error is the load's error, anything
      else extends the prefix. */
  lemma {:induction false} CollectStep(outs: seq<Result<Option<Ticket>, string>>, i: nat, tickets: seq<Ticket>)
    requires i < |outs| && Collect(outs[..i]) == Ok(tickets)
    ensures outs[i].Err? ==> Collect(outs) == Err(outs[i].error)
    ensures outs[i] == Ok(None) ==> Collect(outs[..i + 1]) == Ok(tickets)
    ensures outs[i].Ok? && outs[i].value.Some? ==> Collect(outs[..i + 1]) == Ok(tickets + [outs[i].value.value])
  {
    assert outs[..i + 1][..i] == outs[..i];
    if outs[i].Err? {
      assert forall j :: 0 <= j < i ==> outs[..i][j] == outs[j];
      CollectFirstError(outs, i);
    }
  }

  /** One pass of the loop body of `loadTickets`. */
  method LoadFile(disk: Disk, lib: DateLib, paths: Paths, dir: string, name: string, fallbackZone: Option<string>)
    returns (r: Result<Option<Ticket>, string>)
    ensures r == LoadOne(disk, lib, paths, dir, name, fallbackZone)
  {
    var file := paths.join(dir, name);
    var raw := disk.readDoc(file);
    if raw.Unreadable? {
      return Err(raw.reason);
    }
    var fm := Validate(raw.data, false);
    if fm.Err? {
      return Ok(None);
    }
    var dueUtc := ParseWhen(lib, fm.value.when, fallbackZone);
    if dueUtc.Err? {
      return Err(dueUtc.error);
    }
    var f := fm.value;
    var base: Option<string> := None;
    if f.base.Some? && f.base.value != "" { base := f.base; }
    var rebase: Option<bool> := None;
    if f.rebase == Some(true) { rebase := f.rebase; }
    var repository: Option<string> := None;
    if f.repository.Some? && f.repository.value != "" { repository := f.repository; }
    var draft: Option<bool> := None;
    if f.draft == Some(true) { draft := f.draft; }
    var ticket := Ticket(file, f.branch, f.title, f.when, dueUtc.value, Trim(raw.content),
      base, rebase, f.pushMode, f.labels, f.reviewers, f.assignees, repository, draft);
    return Ok(Some(ticket));
  }

  /** `loadTickets(dir, fallbackZone)`: `Err` stands for the exception that escapes it. */
  method LoadTickets(disk: Disk, lib: DateLib, paths: Paths, dir: string, fallbackZone: Option<string>)
    returns (r: Result<seq<Ticket>, string>)
    ensures disk.listDir(dir).None? ==> r == Ok([])
    ensures disk.listDir(dir).Some? ==>
      r == Collect(Outcomes(disk, lib, paths, dir, MarkdownFiles(disk.listDir(dir).value), fallbackZone))
  {
    var entries := disk.listDir(dir);
    if entries.None? {
      return Ok([]);
    }
    var mdFiles := MarkdownFiles(entries.value);
    ghost var outs := Outcomes(disk, lib, paths, dir, mdFiles, fallbackZone);
    var tickets: seq<Ticket> := [];
    for i := 0 to |mdFiles|
      invariant Collect(outs[..i]) == Ok(tickets)
    {
      var one := LoadFile(disk, lib, paths, dir, mdFiles[i], fallbackZone);
      assert one == outs[i];
      CollectStep(outs, i, tickets);
      if one.Err? {
        return Err(one.error);
      }
      if one.value.Some? {
        tickets := tickets + [one.value.value];
      }
    }
    assert outs[..|outs|] == outs;
    return Ok(tickets);
  }
}
