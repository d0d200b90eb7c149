/**
 * The checks run over the CI security templates: a detector for secrets written
 * out in plain text, and the schema expectations for GitHub and GitLab files.
 * A file arrives as its path string and the outcome of parsing it: the parsed
 * value, or the parser's error message.
 */
module CiTemplates {
  import opened Wrappers
  import opened Strings
  import opened Seqs
  import opened JsonData
  import opened Report

  // ---------------------------------------------------------------- secrets

  /** The lower-cased text mentions one of the words that mark a secret. */
  predicate MentionsSecret(s: string)
  {
    var lowered := Lower(s);
    Contains(lowered, "token") || Contains(lowered, "secret") || Contains(lowered, "password")
  }

  /** A secret-looking string that is not a `$` substitution (neither `$VAR` nor `${{ ... }}`). */
  predicate ExplicitSecret(s: string)
  {
    MentionsSecret(s) && !Contains(s, "$") && !Contains(s, "${{")
  }

  /** `_contains_explicit_secret`: strings are inspected, dict values and list elements searched. */
  predicate ContainsExplicitSecret(v: Json)
  {
    match v
    case JStr(s) => ExplicitSecret(s)
    case JObj(m) => exists k :: k in m && ContainsExplicitSecret(m[k])
    case JList(xs) => exists i :: 0 <= i < |xs| && ContainsExplicitSecret(xs[i])
    case _ => false
  }

  /** `s` is one of the string scalars inside `v`: a dict value or list element at any depth (keys are not). */
  predicate HasString(v: Json, s: string)
  {
    match v
    case JStr(t) => t == s
    case JObj(m) => exists k :: k in m && HasString(m[k], s)
    case JList(xs) => exists i :: 0 <= i < |xs| && HasString(xs[i], s)
    case _ => false
  }

  /** A one-character needle occurs exactly when that character does. */
  lemma ContainsChar(s: string, c: char)
    ensures Contains(s, [c]) <==> c in s
  {
    ContainsIff(s, [c]);
    if c in s {
      var i :| 0 <= i < |s| && s[i] == c;
      assert OccursAt(s, [c], i);
    }
    if Contains(s, [c]) {
      var i :| OccursAt(s, [c], i);
      assert s[i] == c;
    }
  }

  /** A string is flagged exactly when it mentions a secret word and has no `$`: the
      `${{` test adds nothing to the `$` test. */
  lemma ExplicitSecretIff(s: string)
    ensures ExplicitSecret(s) <==> MentionsSecret(s) && '$' !in s
  {
    ContainsChar(s, '$');
    if Contains(s, "${{") {
      ContainsIff(s, "${{");
      var i :| OccursAt(s, "${{", i);
      assert s[i..i + 3] == "${{";
      assert s[i] == s[i..i + 3][0];
    }
  }

  /** Data is flagged exactly when one of its strings is; the nesting does not matter. */
  lemma {:induction false} FlaggedIffSomeString(v: Json)
    ensures ContainsExplicitSecret(v) <==> exists s :: HasString(v, s) && ExplicitSecret(s)
  {
    match v
    case JStr(t) =>
      if ExplicitSecret(t) {
        assert HasString(v, t);
      }
    case JObj(m) =>
      if ContainsExplicitSecret(v) {
        var k :| k in m && ContainsExplicitSecret(m[k]);
        FlaggedIffSomeString(m[k]);
        var s :| HasString(m[k], s) && ExplicitSecret(s);
        assert HasString(v, s);
      }
      if exists s :: HasString(v, s) && ExplicitSecret(s) {
        var s :| HasString(v, s) && ExplicitSecret(s);
        var k :| k in m && HasString(m[k], s);
        FlaggedIffSomeString(m[k]);
      }
    case JList(xs) =>
      if ContainsExplicitSecret(v) {
        var i :| 0 <= i < |xs| && ContainsExplicitSecret(xs[i]);
        FlaggedIffSomeString(xs[i]);
        var s :| HasString(xs[i], s) && ExplicitSecret(s);
        assert HasString(v, s);
      }
      if exists s :: HasString(v, s) && ExplicitSecret(s) {
        var s :| HasString(v, s) && ExplicitSecret(s);
        var i :| 0 <= i < |xs| && HasString(xs[i], s);
        FlaggedIffSomeString(xs[i]);
      }
    case _ =>
  }

  /** Data whose every string goes through `$` substitution is never flagged. */
  lemma SubstitutedNeverFlagged(v: Json)
    requires forall s :: HasString(v, s) ==> '$' in s
    ensures !ContainsExplicitSecret(v)
  {
    FlaggedIffSomeString(v);
    forall s | HasString(v, s)
      ensures !ExplicitSecret(s)
    {
      ExplicitSecretIff(s);
    }
  }

  /** Only the values of a dict are searched: dicts with the same values are flagged alike. */
  lemma KeysIgnored(m1: map<string, Json>, m2: map<string, Json>)
    requires m1.Values == m2.Values
    ensures ContainsExplicitSecret(JObj(m1)) == ContainsExplicitSecret(JObj(m2))
  {
    if ContainsExplicitSecret(JObj(m1)) {
      var k :| k in m1 && ContainsExplicitSecret(m1[k]);
      assert m1[k] in m2.Values;
      var k2 :| k2 in m2 && m2[k2] == m1[k];
      assert ContainsExplicitSecret(JObj(m2));
    }
    if ContainsExplicitSecret(JObj(m2)) {
      var k :| k in m2 && ContainsExplicitSecret(m2[k]);
      assert m2[k] in m1.Values;
      var k1 :| k1 in m1 && m1[k1] == m2[k];
      assert ContainsExplicitSecret(JObj(m1));
    }
  }

  // ---------------------------------------------------------------- one file

  /** `path.name`: the last `/`-separated component of the path string. */
  function BaseName(path: string): string
  {
    var parts := Split(path, '/');
    parts[|parts| - 1]
  }

  predicate IsGithub(path: string)
  {
    Contains(path, "github")
  }

  predicate IsGitlab(path: string)
  {
    StartsWith(BaseName(path), ".gitlab-ci") || Contains(path, "gitlab")
  }

  /** The `.gitlab-ci` file-name test is subsumed by the `gitlab` path test. */
  lemma GitlabPathIff(path: string)
    ensures IsGitlab(path) <==> Contains(path, "gitlab")
  {
    var parts := Split(path, '/');
    var name := BaseName(path);
    if StartsWith(name, ".gitlab-ci") {
      JoinSplit(path, '/');
      JoinContains(parts, "/", |parts| - 1);
      assert "gitlab" == name[1..7];
      ContainsSlice(name, 1, 7);
      ContainsTransitive(path, name, "gitlab");
    }
  }

  function ParseErrorIssue(path: string, message: string): string
  {
    Issue(path, "YAML parse error: " + message)
  }

  function StructureIssue(path: string): string
  {
    Issue(path, "unexpected YAML structure")
  }

  function JobsIssue(path: string): string
  {
    Issue(path, "missing jobs section")
  }

  function StagesIssue(path: string): string
  {
    Issue(path, "missing stages")
  }

  function SecretIssue(path: string): string
  {
    Issue(path, "potential hardcoded secret detected")
  }

  /** What `validate_ci_file` reports for a file that parsed to `parsed`. */
  function CiIssues(path: string, parsed: Result<Json, string>): seq<string>
  {
    match parsed
    case Err(message) => [ParseErrorIssue(path, message)]
    case Ok(data) =>
      if !data.JObj? then [StructureIssue(path)]
      else
        When(IsGithub(path) && "jobs" !in data.fields, JobsIssue(path))
        + When(IsGitlab(path) && "stages" !in data.fields, StagesIssue(path))
        + When(ContainsExplicitSecret(data), SecretIssue(path))
  }

  /** Data that is not a dict gets the structure issue and nothing else. */
  lemma CiStructureSpec(path: string, data: Json)
    ensures StructureIssue(path) in CiIssues(path, Ok(data)) <==> !data.JObj?
    ensures !data.JObj? ==> |CiIssues(path, Ok(data))| == 1
  {
    IssueTextsDiffer(path);
  }
  /** Each check of a dict reports exactly when its condition holds; the checks are independent. */
  lemma CiChecksSpec(path: string, data: Json)
    ensures JobsIssue(path) in CiIssues(path, Ok(data)) <==> data.JObj? && IsGithub(path) && "jobs" !in data.fields
    ensures StagesIssue(path) in CiIssues(path, Ok(data)) <==> data.JObj? && IsGitlab(path) && "stages" !in data.fields
    ensures SecretIssue(path) in CiIssues(path, Ok(data)) <==> data.JObj? && ContainsExplicitSecret(data)
  {
    IssueTextsDiffer(path);
    if data.JObj? {
      WhenThree(IsGithub(path) && "jobs" !in data.fields, JobsIssue(path),
               IsGitlab(path) && "stages" !in data.fields, StagesIssue(path),
               ContainsExplicitSecret(data), SecretIssue(path));
    }
  }
  /** No issue is reported twice, and the secret issue comes last. */
  lemma CiIssuesOrder(path: string, data: Json)
    ensures SecretIssue(path) in CiIssues(path, Ok(data)) ==> CiIssues(path, Ok(data))[|CiIssues(path, Ok(data))| - 1] == SecretIssue(path)
    ensures Distinct(CiIssues(path, Ok(data)))
  {
    IssueTextsDiffer(path);
    if data.JObj? {
      WhenThree(IsGithub(path) && "jobs" !in data.fields, JobsIssue(path),
               IsGitlab(path) && "stages" !in data.fields, StagesIssue(path),
               ContainsExplicitSecret(data), SecretIssue(path));
    }
  }
  /** Every issue names its file first. */
  lemma CiIssuesNamePath(path: string, data: Json)
    ensures forall t :: t in CiIssues(path, Ok(data)) ==> StartsWith(t, path + ": ")
  {
    IssueNamesPath(path, "missing jobs section");
    IssueNamesPath(path, "missing stages");
    IssueNamesPath(path, "potential hardcoded secret detected");
    IssueNamesPath(path, "unexpected YAML structure");
    if data.JObj? {
      WhenThree(IsGithub(path) && "jobs" !in data.fields, JobsIssue(path),
               IsGitlab(path) && "stages" !in data.fields, StagesIssue(path),
               ContainsExplicitSecret(data), SecretIssue(path));
    }
  }
  /** The issue texts of one file are pairwise different. */
  lemma IssueTextsDiffer(path: string)
    ensures JobsIssue(path) != StagesIssue(path) && StagesIssue(path) != SecretIssue(path) && SecretIssue(path) != JobsIssue(path)
    ensures StructureIssue(path) != JobsIssue(path) && StructureIssue(path) != StagesIssue(path) && StructureIssue(path) != SecretIssue(path)
  {
    assert |JobsIssue(path)| != |StagesIssue(path)|;
    assert |JobsIssue(path)| != |SecretIssue(path)|;
    assert |SecretIssue(path)| != |StagesIssue(path)|;
    assert |StructureIssue(path)| != |JobsIssue(path)|;
    assert |StructureIssue(path)| != |StagesIssue(path)|;
    assert |StructureIssue(path)| != |SecretIssue(path)|;
  }

  /** `validate_ci_file` on a file that parsed to `parsed`. */
  method ValidateCiFile(path: string, parsed: Result<Json, string>) returns (issues: seq<string>)
    ensures issues == CiIssues(path, parsed)
  {
    match parsed
    case Err(message) =>
      issues := [ParseErrorIssue(path, message)];
    case Ok(data) =>
      if !data.JObj? {
        issues := [StructureIssue(path)];
      } else {
        issues := When(IsGithub(path) && "jobs" !in data.fields, JobsIssue(path));
        issues := issues + When(IsGitlab(path) && "stages" !in data.fields, StagesIssue(path));
        issues := issues + When(ContainsExplicitSecret(data), SecretIssue(path));
      }
  }

  // ---------------------------------------------------------------- all files

  /** The issues of one `(path, parsed)` file. */
  function FileIssues(file: (string, Result<Json, string>)): seq<string>
  {
    CiIssues(file.0, file.1)
  }

  /** `main`: the issues of every file in turn; the exit code is 1 exactly when some file has an issue. */
  method ValidateAll(files: seq<(string, Result<Json, string>)>) returns (code: int, issues: seq<string>)
    ensures issues == FlatMap(files, FileIssues)
    ensures code == 0 || code == 1
    ensures code == 1 <==> exists i :: 0 <= i < |files| && FileIssues(files[i]) != []
  {
    issues := [];
    for i := 0 to |files|
      invariant issues == FlatMap(files[..i], FileIssues)
    {
      var found := ValidateCiFile(files[i].0, files[i].1);
      FlatMapPrefix(files, i, FileIssues);
      issues := issues + found;
    }
    assert files[..|files|] == files;
    FlatMapEmpty(files, FileIssues);
    code := if issues != [] then 1 else 0;
  }
}
