/**
 * The checks run over the logging stack's configuration files once they are
 * parsed: the Promtail scrape configurations, the Docker Compose service lists
 * and the Filebeat inputs. A check either returns its issue lines or raises:
 * on a file that does not parse, or on data whose shape makes a Python
 * operation fail (`.get` on a non-dict, iterating a number, indexing an empty
 * list).
 */
module LoggingConfigs {
  import opened Wrappers
  import opened Strings
  import opened Seqs
  import opened JsonData
  import opened Report

  /** Why a check raised instead of returning its issues. */
  datatype Failure =
    | YamlError(message: string)   // `_load_yaml`'s ValueError, with its text
    | ShapeError                   // an AttributeError, TypeError or IndexError from ill-shaped data

  type Checked = Result<seq<string>, Failure>

  // ---------------------------------------------------------------- Python operations

  /** `_load_yaml`: the parsed value, or the ValueError naming the file. */
  function LoadYaml(path: string, parsed: Result<Json, string>): Result<Json, Failure>
  {
    match parsed
    case Ok(data) => Ok(data)
    case Err(message) => Err(YamlError(Issue(path, "YAML parse error: " + message)))
  }

  /** `d.get(key, default)`: the entry even when it is `None`; the default only when the key is absent. */
  function Get(m: map<string, Json>, key: string, default: Json): Json
  {
    if key in m then m[key] else default
  }

  /** `data.get(key, default) if isinstance(data, dict) else default`. */
  function Section(data: Json, key: string, default: Json): Json
  {
    if data.JObj? then Get(data.fields, key, default) else default
  }

  /** The items a `for` loop visits before calling `.get` on each: a list's elements; an
      empty string or dict gives none; the keys or characters of a non-empty dict or string
      are strings, on which `.get` raises; anything else is not iterable. */
  function Elements(v: Json): Result<seq<Json>, Failure>
  {
    match v
    case JList(xs) => Ok(xs)
    case JObj(m) => if m == map[] then Ok([]) else Err(ShapeError)
    case JStr(s) => if s == "" then Ok([]) else Err(ShapeError)
    case _ => Err(ShapeError)
  }

  /** `v[0]` followed by `.get`: only a non-empty list has a first element that can be a dict. */
  function First(v: Json): Result<Json, Failure>
  {
    if v.JList? && v.items != [] then Ok(v.items[0]) else Err(ShapeError)
  }

  /** `name in v`: dict keys, list elements, or a substring of a string; other values raise. */
  function Member(name: string, v: Json): Result<bool, Failure>
  {
    match v
    case JObj(m) => Ok(name in m)
    case JList(xs) => Ok(JStr(name) in xs)
    case JStr(s) => Ok(Contains(s, name))
    case _ => Err(ShapeError)
  }

  // ---------------------------------------------------------------- a loop that may raise

  /** The issues of every item in turn; the first item that raises makes the whole loop raise. */
  function CollectAll<T>(xs: seq<T>, f: T -> Checked): Checked
  {
    if xs == [] then Ok([])
    else
      var init :- CollectAll(xs[..|xs| - 1], f);
      var last :- f(xs[|xs| - 1]);
      Ok(init + last)
  }

  function IssuesOf(r: Checked): seq<string>
  {
    if r.Ok? then r.value else []
  }

  /** The issues each item reports, with nothing for an item that raises. */
  function IssuesAlong<T>(f: T -> Checked): T -> seq<string>
  {
    x => IssuesOf(f(x))
  }

  /** The loop succeeds exactly when every item does; then it lists the items' issues in order. */
  lemma {:induction false} CollectAllSpec<T>(xs: seq<T>, f: T -> Checked)
    ensures CollectAll(xs, f).Ok? <==> forall i :: 0 <= i < |xs| ==> f(xs[i]).Ok?
    ensures CollectAll(xs, f).Ok? ==> CollectAll(xs, f).value == FlatMap(xs, IssuesAlong(f))
  {
    if xs != [] {
      var init := xs[..|xs| - 1];
      CollectAllSpec(init, f);
      assert forall i :: 0 <= i < |init| ==> init[i] == xs[i];
      assert xs == init + [xs[|xs| - 1]];
      FlatMapAppend(init, [xs[|xs| - 1]], IssuesAlong(f));
      assert FlatMap([xs[|xs| - 1]], IssuesAlong(f)) == IssuesOf(f(xs[|xs| - 1])) + [];
    }
  }

  /** One more item that succeeds appends its issues. */
  lemma CollectStep<T>(xs: seq<T>, i: nat, f: T -> Checked, issues: seq<string>)
    requires i < |xs| && CollectAll(xs[..i], f) == Ok(issues) && f(xs[i]).Ok?
    ensures CollectAll(xs[..i + 1], f) == Ok(issues + f(xs[i]).value)
  {
    assert xs[..i + 1][..i] == xs[..i];
  }

  /** Once a prefix raises, the whole loop raises the same way. */
  lemma {:induction false} CollectFailsEarly<T>(xs: seq<T>, j: nat, f: T -> Checked)
    requires j <= |xs| && CollectAll(xs[..j], f).Err?
    ensures CollectAll(xs, f) == CollectAll(xs[..j], f)
    decreases |xs| - j
  {
    if j < |xs| {
      assert xs[..j + 1][..j] == xs[..j];
      CollectFailsEarly(xs, j + 1, f);
    } else {
      assert xs[..j] == xs;
    }
  }

  /** The first item that raises decides the error. */
  lemma CollectFails<T>(xs: seq<T>, i: nat, f: T -> Checked)
    requires i < |xs| && CollectAll(xs[..i], f).Ok? && f(xs[i]).Err?
    ensures CollectAll(xs, f) == Err(f(xs[i]).error)
  {
    assert xs[..i + 1][..i] == xs[..i];
    CollectFailsEarly(xs, i + 1, f);
  }

  // ---------------------------------------------------------------- docker compose

  function ServiceIssue(path: string, name: string): string
  {
    Issue(path, "service " + name + " missing")
  }

  /** One expected service: an issue when it is not in `services`. */
  function ServiceCheck(path: string, services: Json): string -> Checked
  {
    name =>
      var present :- Member(name, services);
      Ok(When(!present, ServiceIssue(path, name)))
  }

  /** `validate_compose`. */
  function ComposeIssues(path: string, parsed: Result<Json, string>, expected: seq<string>): Checked
  {
    var data :- LoadYaml(path, parsed);
    var services := Section(data, "services", JObj(map[]));
    CollectAll(expected, ServiceCheck(path, services))
  }

  method ValidateCompose(path: string, parsed: Result<Json, string>, expected: seq<string>) returns (r: Checked)
    ensures r == ComposeIssues(path, parsed, expected)
  {
    var data :- LoadYaml(path, parsed);
    var services := Section(data, "services", JObj(map[]));
    var check := ServiceCheck(path, services);
    var issues := [];
    for i := 0 to |expected|
      invariant CollectAll(expected[..i], check) == Ok(issues)
    {
      var present := Member(expected[i], services);
      if present.Err? {
        CollectFails(expected, i, check);
        return Err(present.error);
      }
      var issue := ServiceIssue(path, expected[i]);
      ServiceCheckOk(path, services, expected[i]);
      CollectStep(expected, i, check, issues);
      assert CollectAll(expected[..i + 1], check) == Ok(issues + When(!present.value, issue));
      if !present.value {
        issues := issues + [issue];
      } else {
        assert issues + When(!present.value, issue) == issues;
      }
    }
    assert expected[..|expected|] == expected;
    r := Ok(issues);
  }

  lemma ServiceCheckOk(path: string, services: Json, name: string)
    requires Member(name, services).Ok?
    ensures ServiceCheck(path, services)(name) == Ok(When(!Member(name, services).value, ServiceIssue(path, name)))
  {
  }

  function AbsentFrom(services: map<string, Json>): string -> bool
  {
    name => name !in services
  }

  function ServiceIssueOf(path: string): string -> string
  {
    name => ServiceIssue(path, name)
  }

  /** The services a dict of services lacks, in the expected order. */
  function MissingServices(expected: seq<string>, services: map<string, Json>): seq<string>
  {
    Filter(expected, AbsentFrom(services))
  }

  /** With the services as a dict, there is exactly one issue per expected service that is
      missing, in the expected order. */
  lemma ComposeDictSpec(path: string, data: Json, expected: seq<string>)
    requires Section(data, "services", JObj(map[])).JObj?
    ensures ComposeIssues(path, Ok(data), expected).Ok?
    ensures ComposeIssues(path, Ok(data), expected).value
            == Mapped(MissingServices(expected, Section(data, "services", JObj(map[])).fields), ServiceIssueOf(path))
  {
    var services := Section(data, "services", JObj(map[]));
    var check := ServiceCheck(path, services);
    CollectAllSpec(expected, check);
    FlatMapWhen(expected, IssuesAlong(check), AbsentFrom(services.fields), ServiceIssueOf(path));
  }

  /** A service is reported exactly when it is expected and missing. */
  lemma ComposeMissingIff(path: string, data: Json, expected: seq<string>, name: string)
    requires Section(data, "services", JObj(map[])).JObj?
    ensures ServiceIssue(path, name) in IssuesOf(ComposeIssues(path, Ok(data), expected))
            <==> name in expected && name !in Section(data, "services", JObj(map[])).fields
  {
    var services := Section(data, "services", JObj(map[])).fields;
    ComposeDictSpec(path, data, expected);
    var missing := MissingServices(expected, services);
    FilterMember(expected, AbsentFrom(services), name);
    if ServiceIssue(path, name) in IssuesOf(ComposeIssues(path, Ok(data), expected)) {
      var i :| 0 <= i < |missing| && ServiceIssue(path, missing[i]) == ServiceIssue(path, name);
      FramedNameInjective(path, "service ", missing[i], name, " missing");
    }
    if name in expected && name !in services {
      var i :| 0 <= i < |missing| && missing[i] == name;
      assert ServiceIssue(path, name) == Mapped(missing, ServiceIssueOf(path))[i];
    }
  }

  /** Data that is not a dict has no services: every expected service is reported, in order. */
  lemma ComposeNonDict(path: string, data: Json, expected: seq<string>)
    requires !data.JObj?
    ensures ComposeIssues(path, Ok(data), expected) == Ok(Mapped(expected, ServiceIssueOf(path)))
  {
    ComposeDictSpec(path, data, expected);
    FilterAll(expected, AbsentFrom(map[]));
  }

  // ---------------------------------------------------------------- promtail

  /** The labels every scrape configuration must carry, in the order they are checked. */
  const LabelKeys: seq<string> := ["job", "service", "env"]

  function EmptyScrapeIssue(path: string): string
  {
    Issue(path, "empty scrape_configs")
  }

  function LabelIssue(path: string, key: string, job: Json): string
  {
    Issue(path, "missing label " + key + " in " + Show(job))
  }

  /** One label key: an issue when the label is missing or falsy. */
  function LabelCheck(path: string, job: Json, labels: map<string, Json>): string -> seq<string>
  {
    key => When(!Truthy(Lookup(labels, key)), LabelIssue(path, key, job))
  }

  /** The missing or falsy labels of one configuration, in key order. */
  function LabelIssues(path: string, job: Json, labels: map<string, Json>): seq<string>
  {
    FlatMap(LabelKeys, LabelCheck(path, job, labels))
  }

  /** `cfg.get("static_configs", [{}])[0].get("labels", {})`, then the label checks. */
  function ConfigCheck(path: string): Json -> Checked
  {
    (cfg: Json) =>
      if !cfg.JObj? then Err(ShapeError)
      else
        var first :- First(Get(cfg.fields, "static_configs", JList([JObj(map[])])));
        if !first.JObj? then Err(ShapeError)
        else
          var labels := Get(first.fields, "labels", JObj(map[]));
          if !labels.JObj? then Err(ShapeError)
          else Ok(LabelIssues(path, Lookup(cfg.fields, "job_name"), labels.fields))
  }

  /** `validate_promtail`. */
  function PromtailIssues(path: string, parsed: Result<Json, string>): Checked
  {
    var data :- LoadYaml(path, parsed);
    var configs := Section(data, "scrape_configs", JList([]));
    var empty := When(!Truthy(configs), EmptyScrapeIssue(path));
    var cfgs :- Elements(configs);
    var rest :- CollectAll(cfgs, ConfigCheck(path));
    Ok(empty + rest)
  }

  /** The inner loop over the label keys of one configuration. */
  method CheckLabels(path: string, job: Json, labels: map<string, Json>) returns (issues: seq<string>)
    ensures issues == LabelIssues(path, job, labels)
  {
    var missing := LabelCheck(path, job, labels);
    issues := [];
    for i := 0 to |LabelKeys|
      invariant issues == FlatMap(LabelKeys[..i], missing)
    {
      var key := LabelKeys[i];
      FlatMapPrefix(LabelKeys, i, missing);
      if !Truthy(Lookup(labels, key)) {
        issues := issues + [LabelIssue(path, key, job)];
      }
    }
    assert LabelKeys[..|LabelKeys|] == LabelKeys;
  }

  method ValidatePromtail(path: string, parsed: Result<Json, string>) returns (r: Checked)
    ensures r == PromtailIssues(path, parsed)
  {
    var data :- LoadYaml(path, parsed);
    var configs := Section(data, "scrape_configs", JList([]));
    var issues := When(!Truthy(configs), EmptyScrapeIssue(path));
    var cfgs :- Elements(configs);
    var check := ConfigCheck(path);
    var found := [];
    for i := 0 to |cfgs|
      invariant CollectAll(cfgs[..i], check) == Ok(found)
    {
      var outcome := check(cfgs[i]);
      if outcome.Err? {
        CollectFails(cfgs, i, check);
        return Err(outcome.error);
      }
      var cfg := cfgs[i].fields;
      var first := Get(cfg, "static_configs", JList([JObj(map[])])).items[0];
      var labels := CheckLabels(path, Lookup(cfg, "job_name"), Get(first.fields, "labels", JObj(map[])).fields);
      CollectStep(cfgs, i, check, found);
      found := found + labels;
    }
    assert cfgs[..|cfgs|] == cfgs;
    r := Ok(issues + found);
  }

  /** Missing, empty or non-dict data gives the one "empty scrape_configs" issue. */
  lemma PromtailEmpty(path: string, data: Json)
    requires !data.JObj? || "scrape_configs" !in data.fields || data.fields["scrape_configs"] == JList([])
    ensures PromtailIssues(path, Ok(data)) == Ok([EmptyScrapeIssue(path)])
  {
    assert Section(data, "scrape_configs", JList([])) == JList([]);
    assert CollectAll([], ConfigCheck(path)) == Ok([]);
    assert [EmptyScrapeIssue(path)] + [] == [EmptyScrapeIssue(path)];
  }

  /** The label issues of a configuration, in key order: job, then service, then env. */
  lemma LabelIssuesInOrder(path: string, job: Json, labels: map<string, Json>)
    ensures LabelIssues(path, job, labels)
            == When(!Truthy(Lookup(labels, "job")), LabelIssue(path, "job", job))
             + When(!Truthy(Lookup(labels, "service")), LabelIssue(path, "service", job))
             + When(!Truthy(Lookup(labels, "env")), LabelIssue(path, "env", job))
  {
    FlatMapThree(LabelKeys, LabelCheck(path, job, labels));
    assert LabelKeys[0] == "job" && LabelKeys[1] == "service" && LabelKeys[2] == "env";
  }

  /** Each label is reported exactly when it is missing or falsy, and none twice. */
  lemma LabelIssuesSpec(path: string, job: Json, labels: map<string, Json>)
    ensures LabelIssue(path, "job", job) in LabelIssues(path, job, labels) <==> !Truthy(Lookup(labels, "job"))
    ensures LabelIssue(path, "service", job) in LabelIssues(path, job, labels) <==> !Truthy(Lookup(labels, "service"))
    ensures LabelIssue(path, "env", job) in LabelIssues(path, job, labels) <==> !Truthy(Lookup(labels, "env"))
    ensures Distinct(LabelIssues(path, job, labels))
  {
    LabelIssuesInOrder(path, job, labels);
    LabelTextsDiffer(path, job);
    WhenThree(!Truthy(Lookup(labels, "job")), LabelIssue(path, "job", job),
              !Truthy(Lookup(labels, "service")), LabelIssue(path, "service", job),
              !Truthy(Lookup(labels, "env")), LabelIssue(path, "env", job));
  }

  lemma LabelTextsDiffer(path: string, job: Json)
    ensures LabelIssue(path, "job", job) != LabelIssue(path, "service", job)
    ensures LabelIssue(path, "service", job) != LabelIssue(path, "env", job)
    ensures LabelIssue(path, "job", job) != LabelIssue(path, "env", job)
  {
    var at := |path| + 2 + 14;
    assert |LabelIssue(path, "service", job)| != |LabelIssue(path, "job", job)|;
    assert |LabelIssue(path, "service", job)| != |LabelIssue(path, "env", job)|;
    assert LabelIssue(path, "job", job)[at] == 'j';
    assert LabelIssue(path, "env", job)[at] == 'e';
  }

  /** With every configuration well shaped, the issues are the empty-list issue (if any)
      followed by each configuration's label issues, configuration by configuration. */
  lemma PromtailConfigsSpec(path: string, configs: seq<Json>, data: Json)
    requires data.JObj? && Get(data.fields, "scrape_configs", JList([])) == JList(configs)
    requires forall i :: 0 <= i < |configs| ==> ConfigCheck(path)(configs[i]).Ok?
    ensures PromtailIssues(path, Ok(data))
            == Ok(When(configs == [], EmptyScrapeIssue(path)) + FlatMap(configs, IssuesAlong(ConfigCheck(path))))
  {
    var check := ConfigCheck(path);
    assert Section(data, "scrape_configs", JList([])) == JList(configs);
    assert Truthy(JList(configs)) == (configs != []);
    CollectAllSpec(configs, check);
    assert CollectAll(configs, check) == Ok(FlatMap(configs, IssuesAlong(check)));
  }

  // ---------------------------------------------------------------- filebeat

  function EmptyInputsIssue(path: string): string
  {
    Issue(path, "filebeat.inputs is empty")
  }

  /** A dict's entry, or `None` for anything else. */
  function Field(v: Json, key: string): Json
  {
    if v.JObj? then Lookup(v.fields, key) else JNull
  }

  predicate LacksPaths(item: Json)
  {
    !Truthy(Field(item, "paths"))
  }

  function PathsIssue(path: string, id: Json): string
  {
    Issue(path, "missing paths in input " + Show(id))
  }

  function PathsIssueOf(path: string): Json -> string
  {
    item => PathsIssue(path, Field(item, "id"))
  }

  /** One input: an issue when it has no truthy `paths`. */
  function InputCheck(path: string): Json -> Checked
  {
    (item: Json) =>
      if !item.JObj? then Err(ShapeError)
      else Ok(When(LacksPaths(item), PathsIssue(path, Field(item, "id"))))
  }

  lemma InputCheckOk(path: string, item: Json)
    requires item.JObj?
    ensures InputCheck(path)(item) == Ok(When(!Truthy(Lookup(item.fields, "paths")), PathsIssue(path, Lookup(item.fields, "id"))))
  {
  }

  /** `validate_filebeat`. */
  function FilebeatIssues(path: string, parsed: Result<Json, string>): Checked
  {
    var data :- LoadYaml(path, parsed);
    var inputs := Section(data, "filebeat.inputs", JList([]));
    var empty := When(!Truthy(inputs), EmptyInputsIssue(path));
    var items :- Elements(inputs);
    var rest :- CollectAll(items, InputCheck(path));
    Ok(empty + rest)
  }

  method ValidateFilebeat(path: string, parsed: Result<Json, string>) returns (r: Checked)
    ensures r == FilebeatIssues(path, parsed)
  {
    var data :- LoadYaml(path, parsed);
    var inputs := Section(data, "filebeat.inputs", JList([]));
    var issues := When(!Truthy(inputs), EmptyInputsIssue(path));
    var items :- Elements(inputs);
    var check := InputCheck(path);
    var found := [];
    for i := 0 to |items|
      invariant CollectAll(items[..i], check) == Ok(found)
    {
      var item := items[i];
      if !item.JObj? {
        CollectFails(items, i, check);
        return Err(ShapeError);
      }
      var lacks, issue := !Truthy(Lookup(item.fields, "paths")), PathsIssue(path, Lookup(item.fields, "id"));
      InputCheckOk(path, item);
      CollectStep(items, i, check, found);
      assert CollectAll(items[..i + 1], check) == Ok(found + When(lacks, issue));
      if lacks {
        found := found + [issue];
      } else {
        assert found + When(lacks, issue) == found;
      }
    }
    assert items[..|items|] == items;
    r := Ok(issues + found);
  }

  /** Missing, empty or non-dict data gives the one "filebeat.inputs is empty" issue. */
  lemma FilebeatEmpty(path: string, data: Json)
    requires !data.JObj? || "filebeat.inputs" !in data.fields || data.fields["filebeat.inputs"] == JList([])
    ensures FilebeatIssues(path, Ok(data)) == Ok([EmptyInputsIssue(path)])
  {
    assert Section(data, "filebeat.inputs", JList([])) == JList([]);
    assert CollectAll([], InputCheck(path)) == Ok([]);
    assert [EmptyInputsIssue(path)] + [] == [EmptyInputsIssue(path)];
  }

  /** With a list of dict inputs, the issues are the empty-list issue (if the list is empty)
      and then one issue per input without truthy `paths`, in input order. */
  lemma FilebeatSpec(path: string, data: Json, inputs: seq<Json>)
    requires data.JObj? && Get(data.fields, "filebeat.inputs", JList([])) == JList(inputs)
    requires forall i :: 0 <= i < |inputs| ==> inputs[i].JObj?
    ensures FilebeatIssues(path, Ok(data))
            == Ok(When(inputs == [], EmptyInputsIssue(path)) + Mapped(Filter(inputs, LacksPaths), PathsIssueOf(path)))
  {
    CollectAllSpec(inputs, InputCheck(path));
    FlatMapWhen(inputs, IssuesAlong(InputCheck(path)), LacksPaths, PathsIssueOf(path));
  }

  // ---------------------------------------------------------------- main

  function LokiCompose(root: string): string { root + "/loki/docker-compose.loki.yml" }
  function ElkCompose(root: string): string { root + "/elk/docker-compose.elk.yml" }
  function PromtailConfig(root: string): string { root + "/loki/promtail/promtail-config.yml" }

  const LokiServices: seq<string> := ["loki", "promtail", "grafana"]
  const ElkServices: seq<string> := ["elasticsearch", "logstash", "kibana", "filebeat"]

  function FilebeatFile(file: (string, Result<Json, string>)): Checked
  {
    FilebeatIssues(file.0, file.1)
  }

  /** Every check of `main`, in its order; the first that raises makes `main` raise. */
  function AllIssues(root: string, loki: Result<Json, string>, elk: Result<Json, string>,
                     promtail: Result<Json, string>, filebeats: seq<(string, Result<Json, string>)>): Checked
  {
    var a :- ComposeIssues(LokiCompose(root), loki, LokiServices);
    var b :- ComposeIssues(ElkCompose(root), elk, ElkServices);
    var c :- PromtailIssues(PromtailConfig(root), promtail);
    var d :- CollectAll(filebeats, FilebeatFile);
    Ok(a + b + c + d)
  }

  /** `main`: the exit code is 1 exactly when some check reported an issue, 0 when none did;
      a check that raises is the error `main` raises. */
  method CheckAll(root: string, loki: Result<Json, string>, elk: Result<Json, string>,
                  promtail: Result<Json, string>, filebeats: seq<(string, Result<Json, string>)>)
    returns (code: Result<int, Failure>)
    ensures code.Ok? <==> AllIssues(root, loki, elk, promtail, filebeats).Ok?
    ensures code.Err? ==> code.error == AllIssues(root, loki, elk, promtail, filebeats).error
    ensures code.Ok? ==> (code.value == 1 <==> AllIssues(root, loki, elk, promtail, filebeats).value != [])
    ensures code.Ok? ==> (code.value == 0 <==> AllIssues(root, loki, elk, promtail, filebeats).value == [])
  {
    var a :- ValidateCompose(LokiCompose(root), loki, LokiServices);
    var b :- ValidateCompose(ElkCompose(root), elk, ElkServices);
    var c :- ValidatePromtail(PromtailConfig(root), promtail);
    var issues := a + b + c;
    var found := [];
    for i := 0 to |filebeats|
      invariant CollectAll(filebeats[..i], FilebeatFile) == Ok(found)
    {
      var outcome := ValidateFilebeat(filebeats[i].0, filebeats[i].1);
      if outcome.Err? {
        CollectFails(filebeats, i, FilebeatFile);
        return Err(outcome.error);
      }
      CollectStep(filebeats, i, FilebeatFile, found);
      found := found + outcome.value;
    }
    assert filebeats[..|filebeats|] == filebeats;
    issues := issues + found;
    code := Ok(if issues != [] then 1 else 0);
  }
}
