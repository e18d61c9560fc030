/** The ticket front-matter schema shared by src/core/md-tickets.ts, src/core/list.ts and
    src/utils/tickets.ts, and the "missing fields" report built when it fails. */
module FrontMatter {
  import opened Wrappers
  import opened Text
  import opened Env

  datatype PushMode = ForceWithLease | FfOnly | Force

  /** The three accepted spellings of the push-mode enumeration. */
  function ParsePushMode(s: string): (m: Option<PushMode>)
    ensures m.Some? <==> s == "force-with-lease" || s == "ff-only" || s == "force"
    ensures m == Some(ForceWithLease) <==> s == "force-with-lease"
    ensures m == Some(FfOnly) <==> s == "ff-only"
    ensures m == Some(Force) <==> s == "force"
  {
    if s == "force-with-lease" then Some(ForceWithLease)
    else if s == "ff-only" then Some(FfOnly)
    else if s == "force" then Some(Force)
    else None
  }

  /** What the schema demands of one field. */
  datatype Kind = RequiredString | StringOrDate | OptString | OptBool | OptMode | OptStrings

  predicate IsStringList(v: Value) {
    v.Arr? && forall i :: 0 <= i < |v.items| ==> v.items[i].Str?
  }

  /** Whether the field's value (absent: `None`) passes its check. */
  predicate Accepts(kind: Kind, v: Option<Value>) {
    match kind
    case RequiredString => v.Some? && v.value.Str?
    case StringOrDate => v.Some? && (v.value.Str? || v.value.Date?)
    case OptString => v.None? || v.value.Str?
    case OptBool => v.None? || v.value.Bool?
    case OptMode => v.None? || (v.value.Str? && ParsePushMode(v.value.s).Some?)
    case OptStrings => v.None? || IsStringList(v.value)
  }

  function Lookup(data: map<string, Value>, key: string): Option<Value> {
    if key in data then Some(data[key]) else None
  }

  /** The schema's fields in declaration order; the loader of src/utils/tickets.ts adds `autoMerge`. */
  function Schema(withAutoMerge: bool): seq<(string, Kind)> {
    [("branch", RequiredString), ("title", RequiredString), ("when", StringOrDate),
     ("base", OptString), ("rebase", OptBool), ("pushMode", OptMode),
     ("labels", OptStrings), ("reviewers", OptStrings), ("assignees", OptStrings),
     ("repository", OptString), ("draft", OptBool)]
    + (if withAutoMerge then [("autoMerge", OptBool)] else [])
  }

  /** The keys of the fields that fail their check, in schema order. */
  function Failing(fields: seq<(string, Kind)>, data: map<string, Value>): (bad: seq<string>)
    ensures |bad| <= |fields|
    ensures forall k :: k in bad ==> exists i :: 0 <= i < |fields| && fields[i].0 == k && !Accepts(fields[i].1, Lookup(data, k))
    ensures bad == [] <==> forall i :: 0 <= i < |fields| ==> Accepts(fields[i].1, Lookup(data, fields[i].0))
  {
    if fields == [] then []
    else
      var rest := Failing(fields[1..], data);
      assert forall i :: 1 <= i < |fields| ==> fields[i] == fields[1..][i - 1];
      if Accepts(fields[0].1, Lookup(data, fields[0].0)) then rest else [fields[0].0] + rest
  }

  /** A front matter that passed the schema, `when` already turned into a string. */
  datatype Front = Front(
    branch: string, title: string, when: string,
    base: Option<string>, rebase: Option<bool>, pushMode: Option<PushMode>,
    labels: Option<seq<string>>, reviewers: Option<seq<string>>, assignees: Option<seq<string>>,
    repository: Option<string>, draft: Option<bool>, autoMerge: Option<bool>)

  function StringAt(data: map<string, Value>, key: string): Option<string> {
    if key in data && data[key].Str? then Some(data[key].s) else None
  }

  function BoolAt(data: map<string, Value>, key: string): Option<bool> {
    if key in data && data[key].Bool? then Some(data[key].b) else None
  }

  function StringsAt(data: map<string, Value>, key: string): Option<seq<string>> {
    if key in data && IsStringList(data[key]) then
      var items := data[key].items;
      Some(seq(|items|, i requires 0 <= i < |items| => items[i].s))
    else None
  }

  /** `TicketFront.safeParse(data)`: the parsed record, or the keys of the failing fields. */
  function Validate(data: map<string, Value>, withAutoMerge: bool): (r: Result<Front, seq<string>>)
    ensures r.Err? <==> exists i :: 0 <= i < |Schema(withAutoMerge)| && !Accepts(Schema(withAutoMerge)[i].1, Lookup(data, Schema(withAutoMerge)[i].0))
    ensures r.Err? ==> r.error != []
    ensures r.Ok? ==> "branch" in data && data["branch"] == Str(r.value.branch)
    ensures r.Ok? ==> "title" in data && data["title"] == Str(r.value.title)
    ensures r.Ok? ==> "when" in data && data["when"] in {Str(r.value.when), Date(r.value.when)}
    ensures r.Ok? && !withAutoMerge ==> r.value.autoMerge.None?
  {
    var bad := Failing(Schema(withAutoMerge), data);
    if bad != [] then Err(bad)
    else
      var fs := Schema(withAutoMerge);
      assert fs[0] == ("branch", RequiredString) && fs[1] == ("title", RequiredString);
      assert fs[2] == ("when", StringOrDate) && fs[5] == ("pushMode", OptMode);
      assert Accepts(RequiredString, Lookup(data, "branch")) && Accepts(RequiredString, Lookup(data, "title"));
      assert Accepts(StringOrDate, Lookup(data, "when"));
      assert Accepts(OptMode, Lookup(data, "pushMode"));
      var w := data["when"];
      var mode := if "pushMode" in data then ParsePushMode(data["pushMode"].s) else None;
      Ok(Front(
        data["branch"].s, data["title"].s, if w.Str? then w.s else w.iso,
        StringAt(data, "base"), BoolAt(data, "rebase"), mode,
        StringsAt(data, "labels"), StringsAt(data, "reviewers"), StringsAt(data, "assignees"),
        StringAt(data, "repository"), BoolAt(data, "draft"),
        if withAutoMerge then BoolAt(data, "autoMerge") else None))
  }

  /** The required fields whose value is falsy, always in the order branch, title, when. */
  function MissingFields(data: map<string, Value>): (missing: seq<string>)
    ensures forall k :: k in missing <==> k in ["branch", "title", "when"] && !TruthyAt(data, k)
    ensures forall i, j :: 0 <= i < j < |missing| ==> RequiredRank(missing[i]) < RequiredRank(missing[j])
  {
    (if TruthyAt(data, "branch") then [] else ["branch"])
    + (if TruthyAt(data, "title") then [] else ["title"])
    + (if TruthyAt(data, "when") then [] else ["when"])
  }

  function RequiredRank(k: string): int {
    if k == "branch" then 0 else if k == "title" then 1 else 2
  }

  /** `String(step)` for one step of an issue's path: a key as it is, an index in decimal. */
  function StepText(step: PathKey): string {
    match step
    case Key(name) => name
    case Index(i) => NatToString(i)
  }

  /** `issue.path.join('.')`. */
  function PathText(path: seq<PathKey>): string {
    Join(MapSeq(StepText, path), ".")
  }

  /** One formatted schema issue: `path: message`, or the bare message at the top level. */
  function IssueLine(issue: Issue): (line: string)
    ensures PathText(issue.path) != "" ==> line == PathText(issue.path) + ": " + issue.message
    ensures PathText(issue.path) == "" ==> line == issue.message
  {
    var path := PathText(issue.path);
    if path != "" then path + ": " + issue.message else issue.message
  }

  /** The issues of one failing field, their paths now starting at the field's key. */
  function FieldIssues(p: Parsers, data: map<string, Value>, key: string): (issues: seq<Issue>)
    ensures |issues| == |p.fieldIssues(key, Lookup(data, key))|
    ensures forall i :: 0 <= i < |issues| ==>
      var issue := p.fieldIssues(key, Lookup(data, key))[i];
      issues[i] == Issue([Key(key)] + issue.path, issue.message)
  {
    MapSeq((issue: Issue) => Issue([Key(key)] + issue.path, issue.message), p.fieldIssues(key, Lookup(data, key)))
  }

  /** `fm.error.issues`: the issues of every failing field, the fields in schema order. */
  function Issues(p: Parsers, data: map<string, Value>, failing: seq<string>): seq<Issue> {
    FlatMap((key: string) => FieldIssues(p, data, key), failing)
  }

  /** The error text of an invalid ticket: the missing fields when there are any, the schema's
      issues otherwise. */
  function InvalidMessage(p: Parsers, data: map<string, Value>, failing: seq<string>): (msg: string)
    ensures MissingFields(data) != [] ==> msg == "Missing required fields: " + Join(MissingFields(data), ", ")
    ensures MissingFields(data) == [] ==> msg == Join(MapSeq(IssueLine, Issues(p, data, failing)), ", ")
  {
    var missing := MissingFields(data);
    if missing != [] then "Missing required fields: " + Join(missing, ", ")
    else Join(MapSeq(IssueLine, Issues(p, data, failing)), ", ")
  }

  /** An issue at an array element of a field is shown as `key.index: message`. */
  lemma {:induction false} ElementIssueLine(key: string, i: nat, m: string)
    ensures IssueLine(Issue([Key(key), Index(i)], m)) == key + "." + NatToString(i) + ": " + m
  {
    assert MapSeq(StepText, [Key(key), Index(i)]) == [key, NatToString(i)];
    assert [key, NatToString(i)][1..] == [NatToString(i)];
    assert PathText([Key(key), Index(i)]) == key + "." + NatToString(i);
  }

  /** A single failing field contributes exactly its own issues. */
  lemma {:induction false} IssuesOfOne(p: Parsers, data: map<string, Value>, key: string)
    ensures Issues(p, data, [key]) == FieldIssues(p, data, key)
  {
    assert [key][..0] == [];
  }

  /** A field with two bad array elements reports both, each under its dotted path
      (`labels.0: …, labels.1: …`). */
  lemma {:induction false} ElementIssues(p: Parsers, data: map<string, Value>, key: string, m0: string, m1: string)
    requires MissingFields(data) == []
    requires p.fieldIssues(key, Lookup(data, key)) == [Issue([Index(0)], m0), Issue([Index(1)], m1)]
    ensures InvalidMessage(p, data, [key]) == key + ".0: " + m0 + ", " + key + ".1: " + m1
  {
    var issues := Issues(p, data, [key]);
    IssuesOfOne(p, data, key);
    assert [Key(key)] + [Index(0)] == [Key(key), Index(0)] && [Key(key)] + [Index(1)] == [Key(key), Index(1)];
    assert issues == [Issue([Key(key), Index(0)], m0), Issue([Key(key), Index(1)], m1)];
    ElementIssueLine(key, 0, m0);
    ElementIssueLine(key, 1, m1);
    var lines := MapSeq(IssueLine, issues);
    TwoLines(lines, key, m0, m1);
  }

  lemma {:induction false} TwoLines(lines: seq<string>, key: string, m0: string, m1: string)
    requires lines == [key + "." + NatToString(0) + ": " + m0, key + "." + NatToString(1) + ": " + m1]
    ensures Join(lines, ", ") == key + ".0: " + m0 + ", " + key + ".1: " + m1
  {
    assert NatToString(0) == "0" && NatToString(1) == "1";
    assert lines[1..] == [lines[1]];
  }

  /** `data.x || placeholder` for the fields an invalid record still shows. */
  function ShownOr(data: map<string, Value>, key: string, placeholder: string): (r: string)
    ensures !TruthyAt(data, key) ==> r == placeholder
    ensures TruthyAt(data, key) && data[key].Str? ==> r == data[key].s
  {
    if TruthyAt(data, key) then Render(data[key]) else placeholder
  }

  /** `if (x) ticket.x = x`: optional fields survive only when truthy. */
  function KeepString(o: Option<string>): (r: Option<string>)
    ensures r.Some? <==> o.Some? && o.value != ""
    ensures r.Some? ==> r == o
  {
    if o.Some? && o.value != "" then o else None
  }

  function KeepTrue(o: Option<bool>): (r: Option<bool>)
    ensures r.Some? <==> o == Some(true)
    ensures r.Some? ==> r == o
  {
    if o == Some(true) then o else None
  }
}
