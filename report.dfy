/** The issue lines the repository's checking tools print: `<path>: <what is wrong>`. */
module Report {

  function Issue(path: string, text: string): string
  {
    path + ": " + text
  }

  /** Every issue names its file first. */
  lemma IssueNamesPath(path: string, text: string)
    ensures (path + ": ") <= Issue(path, text)
  {
    assert Issue(path, text)[..|path| + 2] == path + ": ";
  }

  /** A name framed by fixed text in an issue can be read back: the issue is one-to-one in the name. */
  lemma FramedNameInjective(path: string, before: string, a: string, b: string, after: string)
    requires Issue(path, before + a + after) == Issue(path, before + b + after)
    ensures a == b
  {
    var at := |path| + 2 + |before|;
    var s, t := Issue(path, before + a + after), Issue(path, before + b + after);
    assert |a| == |b|;
    assert s[at..at + |a|] == a;
    assert t[at..at + |b|] == b;
  }
}
