/** Post-read validation of the global and per-repository configuration files
    (src/core/config.ts); reading the file and parsing TOML are inputs. */
module Config {
  import opened Wrappers
  import opened Env
  import opened FrontMatter

  datatype OnProcessed = Keep | Delete | Archive

  /** The validated configuration; an absent field is `None`. The last three fields are read by
      the run command but produced by a loader that is not part of this model, so the loaders
      below never set them. */
  datatype Config = Config(
    dirs: Option<seq<string>>,
    defaultBase: Option<string>,
    timezone: Option<string>,
    pushMode: Option<PushMode>,
    remote: Option<string>,
    repo: Option<string>,
    deleteLocalBranch: Option<bool>,
    onProcessed: Option<OnProcessed>,
    archiveDir: Option<string>)

  const Empty := Config(None, None, None, None, None, None, None, None, None)

  /** The keys of the string-valued settings. */
  const StringKeys: seq<string> := ["defaultBase", "timezone", "remote", "repo"]

  /** `GlobalSchema.parse(table)` succeeds (`partial()` changes nothing: every field is optional). */
  predicate SchemaOk(table: map<string, Value>) {
    && Accepts(OptStrings, Lookup(table, "dirs"))
    && (forall k :: k in StringKeys ==> Accepts(OptString, Lookup(table, k)))
    && Accepts(OptMode, Lookup(table, "pushMode"))
  }

  /** The string setting `key` of a configuration. */
  function StringSetting(c: Config, key: string): Option<string> {
    if key == "defaultBase" then c.defaultBase
    else if key == "timezone" then c.timezone
    else if key == "remote" then c.remote
    else if key == "repo" then c.repo
    else None
  }

  /** The configuration holds exactly the truthy settings of the table, with their values. */
  predicate ExactlyTruthy(table: map<string, Value>, c: Config) {
    && (forall k :: k in StringKeys ==>
          (StringSetting(c, k).Some? <==> TruthyAt(table, k))
          && (StringSetting(c, k).Some? ==> table[k] == Str(StringSetting(c, k).value)))
    && (c.dirs.Some? <==> "dirs" in table)
    && (c.dirs.Some? ==> table["dirs"] == CoreStrings(c.dirs.value))
    && (c.pushMode.Some? <==> "pushMode" in table)
    && (c.pushMode.Some? ==> table["pushMode"].Str? && ParsePushMode(table["pushMode"].s) == c.pushMode)
    && c.deleteLocalBranch.None? && c.onProcessed.None? && c.archiveDir.None?
  }

  function CoreStrings(xs: seq<string>): Value {
    Arr(seq(|xs|, i requires 0 <= i < |xs| => Str(xs[i])))
  }

  /** The validated fields that are truthy, copied one by one. */
  function Copy(table: map<string, Value>): (c: Config)
    requires SchemaOk(table)
    ensures ExactlyTruthy(table, c)
  {
    var mode := if "pushMode" in table then ParsePushMode(table["pushMode"].s) else None;
    var c := Config(
      StringsAt(table, "dirs"),
      KeepString(StringAt(table, "defaultBase")),
      KeepString(StringAt(table, "timezone")),
      mode,
      KeepString(StringAt(table, "remote")),
      KeepString(StringAt(table, "repo")),
      None, None, None);
    assert c.dirs.Some? ==> table["dirs"] == CoreStrings(c.dirs.value) by {
      if c.dirs.Some? {
        var items := table["dirs"].items;
        assert CoreStrings(c.dirs.value).items == items;
      }
    }
    c
  }

  /** What loading one configuration file gives: the configuration and whether a warning was logged. */
  datatype Loaded = Loaded(config: Config, warned: bool)

  /** The common body of `loadGlobalConfig` and `loadRepoConfig` once the file has been read. */
  function FromRead(read: ConfigRead, hasLogger: bool): (r: Loaded)
    ensures read.NoFile? ==> r == Loaded(Empty, false)
    ensures read.BadToml? ==> r == Loaded(Empty, hasLogger)
    ensures read.Toml? && !SchemaOk(read.table) ==> r == Loaded(Empty, hasLogger)
    ensures read.Toml? && SchemaOk(read.table) ==> !r.warned && ExactlyTruthy(read.table, r.config)
  {
    match read
    case NoFile => Loaded(Empty, false)
    case BadToml(_) => Loaded(Empty, hasLogger)
    case Toml(table) => if SchemaOk(table) then Loaded(Copy(table), false) else Loaded(Empty, hasLogger)
  }

  /** `explicitPath ?? configPath()`. */
  function GlobalConfigPath(explicitPath: Option<string>, defaultPath: string): (p: string)
    ensures explicitPath.Some? ==> p == explicitPath.value
    ensures explicitPath.None? ==> p == defaultPath
  {
    explicitPath.GetOr(defaultPath)
  }

  /** `loadGlobalConfig(explicitPath, logger)`: the explicit file when one is named, else the
      default one; a warning can only be logged when a logger is passed. */
  function LoadGlobalConfig(disk: Disk, explicitPath: Option<string>, defaultPath: string, hasLogger: bool): (r: Loaded)
    ensures explicitPath.Some? ==> r == FromRead(disk.readConfig(explicitPath.value), hasLogger)
    ensures explicitPath.None? ==> r == FromRead(disk.readConfig(defaultPath), hasLogger)
    ensures disk.readConfig(GlobalConfigPath(explicitPath, defaultPath)).NoFile? ==> r == Loaded(Empty, false)
    ensures !hasLogger ==> !r.warned
  {
    FromRead(disk.readConfig(GlobalConfigPath(explicitPath, defaultPath)), hasLogger)
  }

  /** `<repoRoot>/.branchpilot.toml`. */
  function RepoConfigPath(paths: Paths, repoRoot: string): string {
    paths.join(repoRoot, ".branchpilot.toml")
  }

  /** `loadRepoConfig(repoRoot, logger)`: the `.branchpilot.toml` file at the repository root; a
      repository without one has the empty configuration and no warning. */
  function LoadRepoConfig(disk: Disk, paths: Paths, repoRoot: string, hasLogger: bool): (r: Loaded)
    ensures r == FromRead(disk.readConfig(paths.join(repoRoot, ".branchpilot.toml")), hasLogger)
    ensures disk.readConfig(paths.join(repoRoot, ".branchpilot.toml")).NoFile? ==> r == Loaded(Empty, false)
    ensures !hasLogger ==> !r.warned
  {
    FromRead(disk.readConfig(RepoConfigPath(paths, repoRoot)), hasLogger)
  }

  /** The schema's fields in declaration order. */
  const ConfigFields: seq<(string, Kind)> :=
    [("dirs", OptStrings), ("defaultBase", OptString), ("timezone", OptString),
     ("pushMode", OptMode), ("remote", OptString), ("repo", OptString)]

  /** Validation is all or nothing: whichever field fails its check (an unknown push mode, a
      number where a string belongs), the whole configuration is emptied, even when the other
      fields are well formed, and the failure is logged when there is a logger. */
  lemma {:induction false} OneBadFieldEmptiesAll(table: map<string, Value>, hasLogger: bool)
    requires exists i :: 0 <= i < |ConfigFields| && !Accepts(ConfigFields[i].1, Lookup(table, ConfigFields[i].0))
    ensures FromRead(Toml(table), hasLogger) == Loaded(Empty, hasLogger)
  {
    SchemaOkFieldByField(table);
  }

  /** The schema passes exactly when every one of its fields passes its own check. */
  lemma {:induction false} SchemaOkFieldByField(table: map<string, Value>)
    ensures SchemaOk(table) <==> forall i :: 0 <= i < |ConfigFields| ==> Accepts(ConfigFields[i].1, Lookup(table, ConfigFields[i].0))
  {
    if SchemaOk(table) {
      forall i | 0 <= i < |ConfigFields|
        ensures Accepts(ConfigFields[i].1, Lookup(table, ConfigFields[i].0))
      {
        assert ConfigFields[i].0 in StringKeys || ConfigFields[i].0 in {"dirs", "pushMode"};
      }
    }
    if forall i :: 0 <= i < |ConfigFields| ==> Accepts(ConfigFields[i].1, Lookup(table, ConfigFields[i].0)) {
      assert Accepts(ConfigFields[0].1, Lookup(table, ConfigFields[0].0));
      assert Accepts(ConfigFields[3].1, Lookup(table, ConfigFields[3].0));
      forall k | k in StringKeys
        ensures Accepts(OptString, Lookup(table, k))
      {
        var i := if k == "defaultBase" then 1 else if k == "timezone" then 2 else if k == "remote" then 4 else 5;
        assert ConfigFields[i] == (k, OptString);
      }
    }
  }

  /** `a ?? b ?? … ?? fallback`: the first layer that is set, or the fallback when none is. */
  function Pick<T>(layers: seq<Option<T>>, fallback: T): (r: T)
    ensures (forall i :: 0 <= i < |layers| ==> layers[i].None?) ==> r == fallback
    ensures forall i :: 0 <= i < |layers| && layers[i].Some? && (forall j :: 0 <= j < i ==> layers[j].None?) ==> r == layers[i].value
  {
    if layers == [] then fallback
    else if layers[0].Some? then layers[0].value
    else
      assert forall i :: 1 <= i < |layers| ==> layers[1..][i - 1] == layers[i];
      Pick(layers[1..], fallback)
  }

  /** `{ ...global, ...repo }`: every setting the repository file holds wins. */
  function Merge(global: Config, repo: Config): (c: Config)
    ensures forall k :: k in StringKeys ==> StringSetting(c, k) == StringSetting(repo, k).OrElse(StringSetting(global, k))
    ensures c.dirs == repo.dirs.OrElse(global.dirs) && c.pushMode == repo.pushMode.OrElse(global.pushMode)
  {
    Config(
      repo.dirs.OrElse(global.dirs), repo.defaultBase.OrElse(global.defaultBase),
      repo.timezone.OrElse(global.timezone), repo.pushMode.OrElse(global.pushMode),
      repo.remote.OrElse(global.remote), repo.repo.OrElse(global.repo),
      repo.deleteLocalBranch.OrElse(global.deleteLocalBranch),
      repo.onProcessed.OrElse(global.onProcessed), repo.archiveDir.OrElse(global.archiveDir))
  }
}
