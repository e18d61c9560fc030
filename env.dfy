/** The world outside the core, reduced to inputs: the answers of the `git` and `gh` processes,
    the parsed front matter and configuration values, and the libraries the source calls
    (JSON, luxon, Node's `path`), each as an uninterpreted function. */
module Env {
  import opened Wrappers
  import opened Text

  /** `Helper` marks a call into a helper whose source is not part of this model
      (branch clean-up and ticket-file deletion/archiving in the run command). */
  datatype Tool = Git | Gh | Helper

  /** One process invocation: which tool, in which working directory, with which arguments. */
  datatype Cmd = Cmd(tool: Tool, cwd: string, args: seq<string>)

  /** What a command gives back: its standard output, or the failure it threw. */
  datatype Reply = Success(out: string) | Failure(msg: string)

  /** The oracle answering every command. */
  type Shell = Cmd -> Reply

  function GitCmd(cwd: string, args: seq<string>): Cmd { Cmd(Git, cwd, args) }
  function GhCmd(cwd: string, args: seq<string>): Cmd { Cmd(Gh, cwd, args) }

  /** Every command of `cmds` goes to `tool`. */
  predicate AllTo(tool: Tool, cmds: seq<Cmd>) {
    forall i :: 0 <= i < |cmds| ==> cmds[i].tool == tool
  }

  lemma AllToAppend(tool: Tool, a: seq<Cmd>, b: seq<Cmd>)
    requires AllTo(tool, a) && AllTo(tool, b)
    ensures AllTo(tool, a + b)
  {
    assert forall i :: |a| <= i < |a + b| ==> (a + b)[i] == b[i - |a|];
  }

  /** A result together with the commands issued to compute it. */
  datatype Traced<T> = Traced(value: T, trace: seq<Cmd>)

  /** The lists `f` gives for each element, one after the other. */
  function FlatMap<A, B>(f: A -> seq<B>, xs: seq<A>): (ys: seq<B>)
    ensures xs == [] ==> ys == []
  {
    if xs == [] then [] else FlatMap(f, xs[..|xs| - 1]) + f(xs[|xs| - 1])
  }

  /** Mapping a concatenation concatenates the results: each element is handled on its own. */
  lemma {:induction false} FlatMapAppend<A, B>(f: A -> seq<B>, a: seq<A>, b: seq<A>)
    ensures FlatMap(f, a + b) == FlatMap(f, a) + FlatMap(f, b)
    decreases |b|
  {
    if b == [] {
      assert a + b == a;
    } else {
      var init := b[..|b| - 1];
      var ab := a + b;
      assert ab[..|ab| - 1] == a + init;
      assert ab[|ab| - 1] == b[|b| - 1];
      FlatMapAppend(f, a, init);
    }
  }

  /** `f` applied to every element, in order. */
  function MapSeq<A, B>(f: A -> B, xs: seq<A>): (ys: seq<B>)
    ensures |ys| == |xs|
    ensures forall i :: 0 <= i < |xs| ==> ys[i] == f(xs[i])
  {
    seq(|xs|, i requires 0 <= i < |xs| => f(xs[i]))
  }

  /** One more element extends the mapped prefix by that element's image. */
  lemma {:induction false} MapSeqStep<A, B>(f: A -> B, xs: seq<A>, i: nat)
    requires i < |xs|
    ensures MapSeq(f, xs[..i + 1]) == MapSeq(f, xs[..i]) + [f(xs[i])]
  {
    var longer := MapSeq(f, xs[..i + 1]);
    var shorter := MapSeq(f, xs[..i]) + [f(xs[i])];
    forall k | 0 <= k <= i
      ensures longer[k] == shorter[k]
    {
      assert xs[..i + 1][k] == xs[k];
      if k < i {
        assert xs[..i][k] == xs[k];
      }
    }
  }

  /** `f` applied to every element in order, with the commands of each call one after the other. */
  function MapTraced<A, B>(f: A -> Traced<B>, xs: seq<A>): (r: Traced<seq<B>>)
    ensures |r.value| == |xs|
    ensures forall i :: 0 <= i < |xs| ==> r.value[i] == f(xs[i]).value
  {
    if xs == [] then Traced([], [])
    else
      var init := MapTraced(f, xs[..|xs| - 1]);
      var last := f(xs[|xs| - 1]);
      Traced(init.value + [last.value], init.trace + last.trace)
  }

  /** One more element extends the mapped prefix by that element's result and commands. */
  lemma MapTracedStep<A, B>(f: A -> Traced<B>, xs: seq<A>, i: nat)
    requires i < |xs|
    ensures var done := MapTraced(f, xs[..i]);
      MapTraced(f, xs[..i + 1]) == Traced(done.value + [f(xs[i]).value], done.trace + f(xs[i]).trace)
  {
    assert xs[..i + 1][..i] == xs[..i];
  }

  /** Some element satisfies `p`, checked from the last one back. */
  predicate AnyOf<T>(p: T -> bool, xs: seq<T>)
    decreases |xs|
  {
    xs != [] && (AnyOf(p, xs[..|xs| - 1]) || p(xs[|xs| - 1]))
  }

  lemma {:induction false} AnyOfExists<T>(p: T -> bool, xs: seq<T>)
    ensures AnyOf(p, xs) <==> exists i :: 0 <= i < |xs| && p(xs[i])
    decreases |xs|
  {
    if xs != [] {
      var init := xs[..|xs| - 1];
      AnyOfExists(p, init);
      if AnyOf(p, init) {
        var i :| 0 <= i < |init| && p(init[i]);
        assert xs[i] == init[i];
      }
      if exists i :: 0 <= i < |xs| && p(xs[i]) {
        var i :| 0 <= i < |xs| && p(xs[i]);
        if i < |init| {
          assert init[i] == xs[i];
        }
      }
    }
  }

  /** A YAML or TOML value after parsing; an absent key is an absent map entry. */
  datatype Value =
    | Str(s: string)
    | Num(n: int)
    | Bool(b: bool)
    | Null
    | Date(iso: string)
    | Arr(items: seq<Value>)
    | Obj

  /** JavaScript truthiness. */
  predicate Truthy(v: Value) {
    match v
    case Str(s) => s != ""
    case Num(n) => n != 0
    case Bool(b) => b
    case Null => false
    case _ => true
  }

  /** `!!data[key]`, with an absent key being `undefined`. */
  predicate TruthyAt(data: map<string, Value>, key: string) {
    key in data && Truthy(data[key])
  }

  /** `String(v)`; inside an array, `null` renders as the empty string, as `Array.prototype.join` does. */
  function Render(v: Value): string
    decreases v, 0
  {
    match v
    case Str(s) => s
    case Num(n) => IntToString(n)
    case Bool(b) => if b then "true" else "false"
    case Null => "null"
    case Date(iso) => iso
    case Arr(items) => Join(seq(|items|, i requires 0 <= i < |items| => RenderItem(items[i])), ",")
    case Obj => "[object Object]"
  }

  function RenderItem(v: Value): string
    decreases v, 1
  {
    if v.Null? then "" else Render(v)
  }

  /** One step of a schema issue's path: an object key or an array index. */
  datatype PathKey = Key(name: string) | Index(index: nat)

  /** One schema issue: where in the data it arises and the library's message. */
  datatype Issue = Issue(path: seq<PathKey>, message: string)

  /** Parsers the source borrows from libraries, as uninterpreted functions of the text they read. */
  datatype Parsers = Parsers(
    /** `JSON.parse(s).length`; `None` when parsing throws or there is no numeric length */
    jsonLength: string -> Option<int>,
    /** `JSON.parse(s).defaultBranchRef?.name`; `None` when this throws, `Some("")` when absent or empty */
    repoViewBranch: string -> Option<string>,
    /** the number of entries simple-git's `status()` lists */
    statusFiles: string -> nat,
    /** the messages of simple-git's `stashList()`, newest first */
    stashMessages: string -> seq<string>,
    /** the issues the schema library reports for one field that fails its check, in its
        order, each path relative to the field (an array element's index, say) */
    fieldIssues: (string, Option<Value>) -> seq<Issue>)

  /** The date and time-zone library. */
  datatype DateLib = DateLib(
    /** `DateTime.fromISO(text, { zone })`: the instant in milliseconds, or `None` when invalid */
    fromISO: (string, string) -> Option<int>,
    /** `dt.toUTC().toISO()` of the instant, `None` standing for `null` */
    toIso: int -> Option<string>,
    /** `IANAZone.create(zone).isValid` */
    zoneValid: string -> bool,
    /** `DateTime.local().zoneName ?? 'UTC'` */
    systemZone: string,
    /** `DateTime.fromISO(iso).toRelative({ base: now })` */
    relative: (string, int) -> string,
    /** `later.diff(earlier, 'days').days` on two instants: luxon counts calendar days in the
        system zone, so a day across a daylight-saving switch is 23 or 25 hours long */
    diffDays: (int, int) -> real)

  /** Node's `path` module and the home directory. */
  datatype Paths = Paths(
    join: (string, string) -> string,
    relative: (string, string) -> string,
    dirname: string -> string,
    basename: string -> string,
    resolve: string -> string,
    home: string)

  /** Reading one ticket file: `fs.readFile` followed by gray-matter; a failure carries `String(error)`. */
  datatype DocRead = Unreadable(reason: string) | Doc(data: map<string, Value>, content: string)

  /** Reading one configuration file: `fs.readFile` followed by the TOML parser. */
  datatype ConfigRead = NoFile | BadToml(reason: string) | Toml(table: map<string, Value>)

  /** The file system as the core sees it. */
  datatype Disk = Disk(
    /** `fs.readdir(dir)`, `None` when it throws */
    listDir: string -> Option<seq<string>>,
    readDoc: string -> DocRead,
    readConfig: string -> ConfigRead,
    /** `existsSync(p)` */
    pathExists: string -> bool)

  /** Everything outside the core at once: processes, parsers, files, dates and paths. */
  datatype World = World(sh: Shell, parsers: Parsers, disk: Disk, lib: DateLib, paths: Paths)

  /** `Math.floor(due.diff(now, 'days').days)` on instants in milliseconds: the whole number
      of luxon days from `now` to `due`, rounded down. */
  function DaysUntil(lib: DateLib, due: int, now: int): (d: int)
    ensures d as real <= lib.diffDays(due, now) < d as real + 1.0
  {
    lib.diffDays(due, now).Floor
  }
}
