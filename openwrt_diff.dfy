/**
 * The OpenWrt diff engine: UCI files are compared line by line (after dropping
 * blank and `#` lines) and section by section, where a section is keyed by its
 * type and name and carries its `option`/`list` lines in order.
 */
module OpenWrtDiffEngine {
  import opened Wrappers
  import opened Strings
  import opened Seqs
  import opened LineDiff

  // ---------------------------------------------------------------- line filtering

  /** What both the parser and the line comparison keep of one line: its stripped
      text, unless that is empty or starts with `#`. */
  function KeptOf(line: string): seq<string>
  {
    var t := Strip(line);
    if t == "" || StartsWith(t, "#") then [] else [t]
  }

  /** The significant lines of a UCI file. */
  function FilteredLines(content: string): seq<string>
  {
    FlatMap(Split(content, '\n'), KeptOf)
  }

  /** Only whole-line comments are dropped: a stripped line not starting with `#`
      is kept as it is, even when a `#` occurs later in it. */
  lemma InlineCommentKept(line: string)
    requires line != "" && IsStrippedBy(line, Whitespace) && line[0] != '#'
    ensures KeptOf(line) == [line]
  {
    StripSetOfStripped(line, Whitespace);
  }

  /** Whatever is kept of a line is stripped. */
  lemma KeptAreStripped(line: string)
    ensures |KeptOf(line)| <= 1 && (KeptOf(line) != [] ==> Strip(KeptOf(line)[0]) == KeptOf(line)[0])
  {
    StripIdempotent(line);
  }

  /** Every filtered line is stripped. */
  lemma FilteredAreStripped(content: string)
    ensures forall t :: t in FilteredLines(content) ==> Strip(t) == t
  {
    var pieces := Split(content, '\n');
    forall t | t in FilteredLines(content) ensures Strip(t) == t {
      FlatMapMember(pieces, KeptOf, t);
      var k :| 0 <= k < |pieces| && t in KeptOf(pieces[k]);
      KeptAreStripped(pieces[k]);
    }
  }

  // ---------------------------------------------------------------- parsing

  /** A UCI section: its type, its name, and its option and list lines in order. */
  datatype UciSection = UciSection(kind: string, name: string, options: seq<string>)

  const Quotes: set<char> := {'\'', '"'}

  predicate IsConfigLine(line: string)
  {
    StartsWith(line, "config ")
  }

  predicate IsOptionLine(line: string)
  {
    StartsWith(line, "option ") || StartsWith(line, "list ")
  }

  /** The section a `config` line opens: the second whitespace-separated token is
      the type, the rest (quotes stripped) the name; missing parts become `""`. */
  function Header(line: string): UciSection
  {
    var parts := SplitWsMax(line, 2);
    UciSection(if |parts| > 1 then parts[1] else "",
               if |parts| > 2 then StripSet(parts[2], Quotes) else "",
               [])
  }

  /** How the parser treats a significant line: it opens a section, joins the
      open one, or is ignored. */
  datatype LineKind = Opens(header: UciSection) | Joins | Ignored

  function Kind(line: string): (k: LineKind)
    ensures k.Opens? <==> IsConfigLine(line)
    ensures k.Joins? <==> !IsConfigLine(line) && IsOptionLine(line)
    ensures k.Opens? ==> k.header.options == []
  {
    if IsConfigLine(line) then Opens(Header(line))
    else if IsOptionLine(line) then Joins
    else Ignored
  }

  /** The parser's state: the finished sections and the open one, if any. */
  datatype Parser = Parser(sections: seq<UciSection>, current: Option<UciSection>)

  /** The finished sections followed by the open one. */
  function Closed(st: Parser): seq<UciSection>
  {
    st.sections + (if st.current.Some? then [st.current.value] else [])
  }

  /** One significant line: an opening line closes the open section and opens a
      new one; a joining line is added to the open section, if there is one. */
  function ParseStep(st: Parser, line: string, kind: LineKind): Parser
  {
    match kind
    case Opens(h) => Parser(Closed(st), Some(h))
    case Joins =>
      if st.current.Some? then Parser(st.sections, Some(st.current.value.(options := st.current.value.options + [line])))
      else st
    case Ignored => st
  }

  /** Feed the remaining lines to the parser, then close it. */
  function ParseFrom(lines: seq<string>, st: Parser, classify: string -> LineKind): seq<UciSection>
  {
    if lines == [] then Closed(st) else ParseFrom(lines[1..], ParseStep(st, lines[0], classify(lines[0])), classify)
  }

  /** The sections of a UCI file. */
  function Parsed(content: string): seq<UciSection>
  {
    ParseFrom(FilteredLines(content), Parser([], None), Kind)
  }

  // The same sections, described by looking ahead from each opening line.

  /** The joining lines before the next opening line. */
  function OptionRun(lines: seq<string>, classify: string -> LineKind): (r: seq<string>)
    ensures forall k :: 0 <= k < |r| ==> classify(r[k]).Joins?
  {
    if lines == [] || classify(lines[0]).Opens? then []
    else (if classify(lines[0]).Joins? then [lines[0]] else []) + OptionRun(lines[1..], classify)
  }

  /** One section per opening line, in order, holding (after whatever its header
      holds) the joining lines that follow it. */
  function Sections(lines: seq<string>, classify: string -> LineKind): seq<UciSection>
  {
    if lines == [] then []
    else if classify(lines[0]).Opens? then
      var h := classify(lines[0]).header;
      [h.(options := h.options + OptionRun(lines[1..], classify))] + Sections(lines[1..], classify)
    else Sections(lines[1..], classify)
  }

  /** The headers of the opening lines, in order. */
  function Openings(lines: seq<string>, classify: string -> LineKind): seq<UciSection>
  {
    if lines == [] then []
    else (if classify(lines[0]).Opens? then [classify(lines[0]).header] else []) + Openings(lines[1..], classify)
  }

  /** The parser with no open section yields the sections the rest of the lines describe. */
  lemma {:induction false} ParseFromClosed(lines: seq<string>, done: seq<UciSection>, classify: string -> LineKind)
    ensures ParseFrom(lines, Parser(done, None), classify) == done + Sections(lines, classify)
  {
    if lines != [] {
      var line, rest := lines[0], lines[1..];
      if classify(line).Opens? {
        var h := classify(line).header;
        ParseFromOpen(rest, done, h, classify);
        assert Closed(Parser(done, None)) == done;
        AppendAssoc(done, [h.(options := h.options + OptionRun(rest, classify))], Sections(rest, classify));
      } else {
        ParseFromClosed(rest, done, classify);
      }
    } else {
      assert done + [] == done;
    }
  }

  /** With section `c` open, the rest of the lines extend it with their leading run of joining lines. */
  lemma {:induction false} ParseFromOpen(lines: seq<string>, done: seq<UciSection>, c: UciSection, classify: string -> LineKind)
    ensures ParseFrom(lines, Parser(done, Some(c)), classify)
         == done + [c.(options := c.options + OptionRun(lines, classify))] + Sections(lines, classify)
  {
    if lines == [] {
      assert c.options + [] == c.options;
    } else {
      var line, rest := lines[0], lines[1..];
      if classify(line).Opens? {
        var h := classify(line).header;
        ParseFromOpen(rest, done + [c], h, classify);
        assert c.options + [] == c.options;
        AppendAssoc(done + [c], [h.(options := h.options + OptionRun(rest, classify))], Sections(rest, classify));
      } else if classify(line).Joins? {
        var c' := c.(options := c.options + [line]);
        assert ParseStep(Parser(done, Some(c)), line, classify(line)) == Parser(done, Some(c'));
        assert Sections(lines, classify) == Sections(rest, classify);
        ParseFromOpen(rest, done, c', classify);
        assert OptionRun(lines, classify) == [line] + OptionRun(rest, classify);
        AppendAssoc(c.options, [line], OptionRun(rest, classify));
        assert c'.(options := c'.options + OptionRun(rest, classify)) == c.(options := c.options + OptionRun(lines, classify));
      } else {
        assert ParseStep(Parser(done, Some(c)), line, classify(line)) == Parser(done, Some(c));
        assert Sections(lines, classify) == Sections(rest, classify);
        ParseFromOpen(rest, done, c, classify);
        assert OptionRun(lines, classify) == [] + OptionRun(rest, classify) == OptionRun(rest, classify);
      }
    }
  }

  /** There is one section per opening line, with that line's type and name, in order. */
  lemma {:induction false} SectionsHeaders(lines: seq<string>, classify: string -> LineKind)
    ensures |Sections(lines, classify)| == |Openings(lines, classify)|
    ensures forall i :: 0 <= i < |Openings(lines, classify)| ==>
              Sections(lines, classify)[i].kind == Openings(lines, classify)[i].kind
              && Sections(lines, classify)[i].name == Openings(lines, classify)[i].name
  {
    if lines != [] {
      SectionsHeaders(lines[1..], classify);
      var ss, os := Sections(lines[1..], classify), Openings(lines[1..], classify);
      if classify(lines[0]).Opens? {
        assert forall i :: 1 <= i < |Openings(lines, classify)| ==>
          Sections(lines, classify)[i] == ss[i - 1] && Openings(lines, classify)[i] == os[i - 1];
      } else {
        assert Openings(lines, classify) == os;
      }
    }
  }

  /** Every line a section holds is a joining line. */
  lemma {:induction false} SectionsHoldJoins(lines: seq<string>, classify: string -> LineKind)
    requires forall l :: classify(l).Opens? ==> classify(l).header.options == []
    ensures forall i, k :: 0 <= i < |Sections(lines, classify)| && 0 <= k < |Sections(lines, classify)[i].options| ==>
              classify(Sections(lines, classify)[i].options[k]).Joins?
  {
    if lines != [] {
      SectionsHoldJoins(lines[1..], classify);
    }
  }

  /** The line-by-line parser agrees with the look-ahead description: one section
      per `config` line, holding only `option` and `list` lines. */
  lemma ParsedIsSections(content: string)
    ensures Parsed(content) == Sections(FilteredLines(content), Kind)
    ensures var heads := Openings(FilteredLines(content), Kind);
      && |Parsed(content)| == |heads|
      && forall i :: 0 <= i < |heads| ==> Parsed(content)[i].kind == heads[i].kind && Parsed(content)[i].name == heads[i].name
    ensures forall i, k :: 0 <= i < |Parsed(content)| && 0 <= k < |Parsed(content)[i].options| ==>
              IsOptionLine(Parsed(content)[i].options[k])
  {
    ParseFromClosed(FilteredLines(content), [], Kind);
    assert [] + Sections(FilteredLines(content), Kind) == Sections(FilteredLines(content), Kind);
    SectionsHeaders(FilteredLines(content), Kind);
    SectionsHoldJoins(FilteredLines(content), Kind);
  }

  /** Skipping the lines that `keep` drops: one raw line moves the parser by at
      most one step. */
  lemma ParseKeptStep<T>(raw: seq<T>, i: nat, keep: T -> seq<string>, st: Parser, classify: string -> LineKind)
    requires i < |raw| && |keep(raw[i])| <= 1
    ensures ParseFrom(FlatMap(raw[i..], keep), st, classify)
         == ParseFrom(FlatMap(raw[i + 1..], keep),
                      if keep(raw[i]) == [] then st else ParseStep(st, keep(raw[i])[0], classify(keep(raw[i])[0])),
                      classify)
  {
    assert raw[i..][0] == raw[i] && raw[i..][1..] == raw[i + 1..];
    var rest := FlatMap(raw[i + 1..], keep);
    assert FlatMap(raw[i..], keep) == keep(raw[i]) + rest;
    if keep(raw[i]) != [] {
      assert (keep(raw[i]) + rest)[0] == keep(raw[i])[0] && (keep(raw[i]) + rest)[1..] == rest;
    } else {
      assert keep(raw[i]) + rest == rest;
    }
  }

  /** One raw line of a UCI file moves the parser by one step, unless it is blank or a comment. */
  lemma ParseRawStep(raw: seq<string>, i: nat, st: Parser)
    requires i < |raw|
    ensures var line := Strip(raw[i]);
      ParseFrom(FlatMap(raw[i..], KeptOf), st, Kind)
      == ParseFrom(FlatMap(raw[i + 1..], KeptOf), if line == "" || StartsWith(line, "#") then st else ParseStep(st, line, Kind(line)), Kind)
  {
    ParseKeptStep(raw, i, KeptOf, st, Kind);
  }

  // ---------------------------------------------------------------- comparing one file

  /** The (type, name) key of every section. */
  function Keys(sections: seq<UciSection>): set<(string, string)>
  {
    set s | s in sections :: (s.kind, s.name)
  }

  /** The first section with the given key (`next(...)` over the list). */
  function FirstWithKey(sections: seq<UciSection>, key: (string, string)): Option<UciSection>
  {
    if sections == [] then None
    else if (sections[0].kind, sections[0].name) == key then Some(sections[0])
    else FirstWithKey(sections[1..], key)
  }

  /** The options of the first section with the given key. */
  function FirstOptions(sections: seq<UciSection>, key: (string, string)): seq<string>
  {
    match FirstWithKey(sections, key)
    case None => []
    case Some(s) => s.options
  }

  datatype ModifiedSection = ModifiedSection(kind: string, name: string, currentOptions: seq<string>, generatedOptions: seq<string>)

  /** The keys on both sides whose first sections have different option lists. */
  function ModifiedKeys(cur: seq<UciSection>, gen: seq<UciSection>): set<(string, string)>
  {
    set k | k in Keys(cur) * Keys(gen) && FirstOptions(cur, k) != FirstOptions(gen, k)
  }

  function ModifiedEntry(cur: seq<UciSection>, gen: seq<UciSection>, key: (string, string)): ModifiedSection
  {
    ModifiedSection(key.0, key.1, FirstOptions(cur, key), FirstOptions(gen, key))
  }

  /** The modified entries recorded by walking `keys` in order. */
  function ModifiedAlong(cur: seq<UciSection>, gen: seq<UciSection>, keys: seq<(string, string)>): seq<ModifiedSection>
  {
    if keys == [] then []
    else
      var m, k := ModifiedAlong(cur, gen, keys[..|keys| - 1]), keys[|keys| - 1];
      if FirstOptions(cur, k) != FirstOptions(gen, k) then m + [ModifiedEntry(cur, gen, k)] else m
  }

  function KeyOf(m: ModifiedSection): (string, string)
  {
    (m.kind, m.name)
  }

  /** The keys of the modified entries, in order. */
  function ModifiedKeyList(ms: seq<ModifiedSection>): (r: seq<(string, string)>)
    ensures |r| == |ms| && forall i :: 0 <= i < |ms| ==> r[i] == KeyOf(ms[i])
  {
    seq(|ms|, i requires 0 <= i < |ms| => KeyOf(ms[i]))
  }

  datatype FileDiff = FileDiff(
    hasChanges: bool,
    addedLines: seq<string>,
    removedLines: seq<string>,
    addedSections: seq<(string, string)>,    // in a set's iteration order
    removedSections: seq<(string, string)>,  // in a set's iteration order
    modifiedSections: seq<ModifiedSection>,
    unifiedDiff: seq<string>)

  /** `d` is what `_compare_configs` returns for the two file contents (up to set iteration order). */
  ghost predicate IsCompareOf(current: string, generated: string, d: FileDiff)
  {
    var cur, gen := Parsed(current), Parsed(generated);
    && d.unifiedDiff == UnifiedDiff(FilteredLines(current), FilteredLines(generated))
    && d.addedLines == FlatMap(d.unifiedDiff, AddedOf)
    && d.removedLines == FlatMap(d.unifiedDiff, RemovedOf)
    && d.hasChanges == (d.addedLines != [] || d.removedLines != [])
    && Lists(d.addedSections, Keys(gen) - Keys(cur))
    && Lists(d.removedSections, Keys(cur) - Keys(gen))
    && (exists common :: Lists(common, Keys(cur) * Keys(gen)) && d.modifiedSections == ModifiedAlong(cur, gen, common))
  }

  /** Walking the keys records each modified key once, in the walk's order. */
  lemma {:induction false} ModifiedAlongKeys(cur: seq<UciSection>, gen: seq<UciSection>, keys: seq<(string, string)>)
    requires Distinct(keys)
    ensures var ks := ModifiedKeyList(ModifiedAlong(cur, gen, keys));
      && Distinct(ks)
      && forall x :: x in ks <==> x in keys && FirstOptions(cur, x) != FirstOptions(gen, x)
  {
    if keys != [] {
      var init, k := keys[..|keys| - 1], keys[|keys| - 1];
      assert keys == init + [k];
      assert Distinct(init) && k !in init;
      ModifiedAlongKeys(cur, gen, init);
      var before := ModifiedAlong(cur, gen, init);
      if FirstOptions(cur, k) != FirstOptions(gen, k) {
        assert ModifiedKeyList(before + [ModifiedEntry(cur, gen, k)]) == ModifiedKeyList(before) + [k];
        DistinctAppend(ModifiedKeyList(before), k);
      }
    }
  }

  /** Every recorded entry holds the option lists of the first sections with its key. */
  lemma {:induction false} ModifiedAlongEntries(cur: seq<UciSection>, gen: seq<UciSection>, keys: seq<(string, string)>)
    ensures forall m :: m in ModifiedAlong(cur, gen, keys) ==> m == ModifiedEntry(cur, gen, KeyOf(m))
  {
    if keys != [] {
      var k := keys[|keys| - 1];
      ModifiedAlongEntries(cur, gen, keys[..|keys| - 1]);
      assert KeyOf(ModifiedEntry(cur, gen, k)) == k;
    }
  }

  /** The modified entries are exactly the common keys whose first sections' option lists differ. */
  lemma ModifiedSectionsSpec(current: string, generated: string, d: FileDiff)
    requires IsCompareOf(current, generated, d)
    ensures Lists(ModifiedKeyList(d.modifiedSections), ModifiedKeys(Parsed(current), Parsed(generated)))
    ensures forall m :: m in d.modifiedSections ==> m == ModifiedEntry(Parsed(current), Parsed(generated), KeyOf(m))
  {
    var cur, gen := Parsed(current), Parsed(generated);
    var common :| Lists(common, Keys(cur) * Keys(gen)) && d.modifiedSections == ModifiedAlong(cur, gen, common);
    ModifiedAlongKeys(cur, gen, common);
    ModifiedAlongEntries(cur, gen, common);
  }

  /** Files with the same significant lines show no change of any kind. */
  lemma SameLinesNoChanges(current: string, generated: string, d: FileDiff)
    requires FilteredLines(current) == FilteredLines(generated)
    requires IsCompareOf(current, generated, d)
    ensures !d.hasChanges && d.addedLines == [] && d.removedLines == []
    ensures d.addedSections == [] && d.removedSections == [] && d.modifiedSections == []
  {
    EqualGivesNoChanges(FilteredLines(current));
    var cur := Parsed(current);
    assert Keys(cur) - Keys(cur) == {};
    ListsCount(d.addedSections, Keys(cur) - Keys(cur));
    ListsCount(d.removedSections, Keys(cur) - Keys(cur));
    ModifiedSectionsSpec(current, generated, d);
    assert ModifiedKeys(cur, cur) == {};
    ListsCount(ModifiedKeyList(d.modifiedSections), ModifiedKeys(cur, cur));
  }

  /** A reported change means the significant lines differ. */
  lemma ChangesMeanDifferentLines(current: string, generated: string, d: FileDiff)
    requires IsCompareOf(current, generated, d) && d.hasChanges
    ensures FilteredLines(current) != FilteredLines(generated)
  {
    ChangesMeanDifferent(FilteredLines(current), FilteredLines(generated));
  }

  /** The added lines of the diff of two files' significant lines are an in-order
      subsequence of the generated ones, the removed lines of the current ones. */
  lemma FilteredChangesAreSubsequences(current: string, generated: string)
    ensures var a, b := FilteredLines(current), FilteredLines(generated);
      && IsSubsequence(FlatMap(UnifiedDiff(a, b), AddedOf), b)
      && IsSubsequence(FlatMap(UnifiedDiff(a, b), RemovedOf), a)
  {
    FilteredAreStripped(current);
    FilteredAreStripped(generated);
    var a, b := FilteredLines(current), FilteredLines(generated);
    assert forall i :: 0 <= i < |a| ==> a[i] in a;
    assert forall i :: 0 <= i < |b| ==> b[i] in b;
    FilteredSubsequences(a, b);
  }

  /** Removed lines are an in-order subsequence of the current significant lines,
      added lines of the generated ones. */
  lemma ChangedLinesAreSubsequences(current: string, generated: string, d: FileDiff)
    requires IsCompareOf(current, generated, d)
    ensures IsSubsequence(d.addedLines, FilteredLines(generated))
    ensures IsSubsequence(d.removedLines, FilteredLines(current))
  {
    FilteredChangesAreSubsequences(current, generated);
  }

  // ---------------------------------------------------------------- all files

  /** A file's content, `""` when it is missing. */
  function Content(files: map<string, string>, name: string): string
  {
    if name in files then files[name] else ""
  }

  datatype OpenWrtResult = OpenWrtResult(hasChanges: bool, files: map<string, FileDiff>, fileOrder: seq<string>)

  /** The files `compute_diff` compares: those named on either side with content on at least one. */
  function ComparedFiles(current: map<string, string>, generated: map<string, string>): set<string>
  {
    set f | f in current.Keys + generated.Keys && (Content(current, f) != "" || Content(generated, f) != "")
  }

  /** `r` is what `compute_diff` returns (up to set iteration order). */
  ghost predicate IsResultOf(current: map<string, string>, generated: map<string, string>, r: OpenWrtResult)
  {
    && r.files.Keys == ComparedFiles(current, generated)
    && (forall f :: f in r.files ==> IsCompareOf(Content(current, f), Content(generated, f), r.files[f]))
    && Lists(r.fileOrder, r.files.Keys)
    && r.hasChanges == (exists f :: f in r.files && r.files[f].hasChanges)
  }

  /** When every file has the same significant lines on both sides, nothing is reported. */
  lemma SameFilesNoChanges(current: map<string, string>, generated: map<string, string>, r: OpenWrtResult)
    requires forall f :: FilteredLines(Content(current, f)) == FilteredLines(Content(generated, f))
    requires IsResultOf(current, generated, r)
    ensures !r.hasChanges
  {
    forall f | f in r.files ensures !r.files[f].hasChanges {
      SameLinesNoChanges(Content(current, f), Content(generated, f), r.files[f]);
    }
  }

  // ---------------------------------------------------------------- summary

  const NoChangesText := "No changes detected" + " between current and generated configuration."
  const SummaryTitle := "OpenWrt UCI Configuration Differences:"
  const ReviewText := "Review carefully before applying!"

  function Rule(c: char): string
  {
    Repeat(c, 60)
  }

  /** How a section is named in the summary. */
  function Label(marker: string, key: (string, string)): string
  {
    marker + key.0 + " '" + key.1 + "'"
  }

  /** At most five sections behind `marker`. */
  function Labels(marker: string, keys: seq<(string, string)>): (r: seq<string>)
    ensures |r| == |Take(keys, 5)|
    ensures forall k :: 0 <= k < |r| ==> r[k] == Label(marker, keys[k])
  {
    var shown := Take(keys, 5);
    seq(|shown|, k requires 0 <= k < |shown| => Label(marker, shown[k]))
  }

  /** The added or removed sections; nothing when there are none. */
  function KeysBlock(title: string, marker: string, keys: seq<(string, string)>): seq<string>
  {
    if keys == [] then [] else [title + NatToString(|keys|)] + Labels(marker, keys)
  }

  /** The second line of a modified section: its option counts on both sides. */
  function OptionCounts(m: ModifiedSection): string
  {
    "      Options changed: " + NatToString(|m.currentOptions|) + " -> " + NatToString(|m.generatedOptions|)
  }

  function ModifiedLines(m: ModifiedSection): seq<string>
  {
    [Label("    ~ ", KeyOf(m)), OptionCounts(m)]
  }

  /** At most three modified sections, two lines each. */
  function ModifiedBlock(ms: seq<ModifiedSection>): seq<string>
  {
    if ms == [] then []
    else ["  Modified sections: " + NatToString(|ms|)] + FlatMap(Take(ms, 3), ModifiedLines)
  }

  function FileBlock(name: string, d: FileDiff): seq<string>
  {
    ["File: /etc/config/" + name, Rule('-')]
    + KeysBlock("  Added sections: ", "    + ", d.addedSections)
    + KeysBlock("  Removed sections: ", "    - ", d.removedSections)
    + ModifiedBlock(d.modifiedSections)
    + [""]
  }

  /** The block of one file: nothing for a file without changes. */
  function FileLinesIn(files: map<string, FileDiff>): string -> seq<string>
  {
    f => if f in files && files[f].hasChanges then FileBlock(f, files[f]) else []
  }

  function SummaryLines(r: OpenWrtResult): seq<string>
  {
    [SummaryTitle, Rule('='), ""] + FlatMap(r.fileOrder, FileLinesIn(r.files)) + [Rule('='), ReviewText]
  }

  /** The text `get_summary` returns for a result. */
  function Summary(r: OpenWrtResult): string
  {
    if !r.hasChanges then NoChangesText else Join(SummaryLines(r), "\n")
  }

  /** The summary is the no-change text exactly when no file has changes. */
  lemma SummaryNoChangesIff(r: OpenWrtResult)
    ensures Summary(r) == NoChangesText <==> !r.hasChanges
  {
    if r.hasChanges {
      var lines := SummaryLines(r);
      assert lines[0] == SummaryTitle;
      JoinStartsWith(lines, "\n");
      assert SummaryTitle <= Summary(r);
      assert Summary(r)[0] == SummaryTitle[0] == 'O';
      assert NoChangesText[0] == 'N';
    }
  }

  /** A section block names at most five sections, the first ones in order. */
  lemma KeysBlockShape(title: string, marker: string, keys: seq<(string, string)>)
    requires keys != []
    ensures var b := KeysBlock(title, marker, keys);
      var shown := if |keys| < 5 then |keys| else 5;
      && |b| == 1 + shown
      && b[0] == title + NatToString(|keys|)
      && forall k :: 0 <= k < shown ==> b[1 + k] == Label(marker, keys[k])
  {
  }

  /** The modified block shows at most three sections, each with its option counts. */
  lemma ModifiedBlockShape(ms: seq<ModifiedSection>)
    requires ms != []
    ensures var b := ModifiedBlock(ms);
      var shown := if |ms| < 3 then |ms| else 3;
      && |b| == 1 + 2 * shown
      && b[0] == "  Modified sections: " + NatToString(|ms|)
      && forall k :: 0 <= k < shown ==> b[1 + 2 * k] == Label("    ~ ", KeyOf(ms[k])) && b[2 + 2 * k] == OptionCounts(ms[k])
  {
    var shown := Take(ms, 3);
    FlatMapPairs(shown, ModifiedLines);
    var body := FlatMap(shown, ModifiedLines);
    var b := ModifiedBlock(ms);
    assert b == ["  Modified sections: " + NatToString(|ms|)] + body;
    forall k | 0 <= k < |shown| ensures b[1 + 2 * k] == Label("    ~ ", KeyOf(ms[k])) && b[2 + 2 * k] == OptionCounts(ms[k]) {
      assert b[1 + 2 * k] == body[2 * k] && b[2 + 2 * k] == body[2 * k + 1];
      assert shown[k] == ms[k];
    }
  }

  // ---------------------------------------------------------------- the engine

  /** Diff engine over the current and generated UCI files, by file name. */
  class OpenWrtDiff {
    const current: map<string, string>
    const generated: map<string, string>

    constructor(current: map<string, string>, generated: map<string, string>)
      ensures this.current == current && this.generated == generated
    {
      this.current := current;
      this.generated := generated;
    }

    /** The line-by-line section parser. */
    method ParseUciConfig(content: string) returns (sections: seq<UciSection>)
      ensures sections == Parsed(content)
    {
      var raw := Split(content, '\n');
      ghost var target := Parsed(content);
      var current: Option<UciSection> := None;
      sections := [];
      for i := 0 to |raw|
        invariant ParseFrom(FlatMap(raw[i..], KeptOf), Parser(sections, current), Kind) == target
      {
        var line := Strip(raw[i]);
        ghost var before := Parser(sections, current);
        ParseRawStep(raw, i, before);
        if line == "" || StartsWith(line, "#") {
          continue;
        }
        if StartsWith(line, "config ") {
          if current.Some? {
            sections := sections + [current.value];
          }
          assert sections == Closed(before);
          var parts := SplitWsMax(line, 2);
          var kind := if |parts| > 1 then parts[1] else "";
          var name := if |parts| > 2 then StripSet(parts[2], Quotes) else "";
          current := Some(UciSection(kind, name, []));
        } else if StartsWith(line, "option ") || StartsWith(line, "list ") {
          if current.Some? {
            current := Some(current.value.(options := current.value.options + [line]));
          }
        }
        assert Parser(sections, current) == ParseStep(before, line, Kind(line));
      }
      if current.Some? {
        sections := sections + [current.value];
      }
    }

    /** Walk the common keys in some order, recording the modified sections. */
    method CollectModified(cur: seq<UciSection>, gen: seq<UciSection>, common: seq<(string, string)>) returns (modified: seq<ModifiedSection>)
      ensures modified == ModifiedAlong(cur, gen, common)
    {
      modified := [];
      for i := 0 to |common|
        invariant modified == ModifiedAlong(cur, gen, common[..i])
      {
        var key := common[i];
        assert common[..i + 1][..i] == common[..i] && common[..i + 1][i] == key;
        var c, g := FirstWithKey(cur, key), FirstWithKey(gen, key);
        var co := if c.Some? then c.value.options else [];
        var go := if g.Some? then g.value.options else [];
        if co != go {
          modified := modified + [ModifiedSection(key.0, key.1, co, go)];
        }
      }
      assert common[..|common|] == common;
    }

    /** Compare one file. */
    method CompareConfigs(current: string, generated: string) returns (d: FileDiff)
      ensures IsCompareOf(current, generated, d)
    {
      var currentLines := FilteredLines(current);
      var generatedLines := FilteredLines(generated);
      var diff := UnifiedDiff(currentLines, generatedLines);
      var added, removed := ChangedLines(diff);
      var cur := ParseUciConfig(current);
      var gen := ParseUciConfig(generated);
      var curKeys, genKeys := Keys(cur), Keys(gen);
      var addedSections := Enumerate(genKeys - curKeys);
      var removedSections := Enumerate(curKeys - genKeys);
      var common := Enumerate(curKeys * genKeys);
      var modified := CollectModified(cur, gen, common);
      d := FileDiff(|added| > 0 || |removed| > 0, added, removed, addedSections, removedSections, modified, diff);
    }

    /** Compare every file named on either side. */
    method ComputeDiff() returns (r: OpenWrtResult)
      ensures IsResultOf(current, generated, r)
    {
      var names := Enumerate(current.Keys + generated.Keys);
      var files: map<string, FileDiff> := map[];
      var order: seq<string> := [];
      for i := 0 to |names|
        invariant forall f :: f in files <==> f in names[..i] && (Content(current, f) != "" || Content(generated, f) != "")
        invariant forall f :: f in files ==> IsCompareOf(Content(current, f), Content(generated, f), files[f])
        invariant Lists(order, files.Keys)
      {
        var f := names[i];
        assert names[..i + 1] == names[..i] + [f];
        assert f !in names[..i];
        var c, g := Content(current, f), Content(generated, f);
        if c != "" || g != "" {
          var d := CompareConfigs(c, g);
          ListsAdd(order, files.Keys, f);
          files := files[f := d];
          order := order + [f];
        }
      }
      assert names[..|names|] == names;
      assert files.Keys == ComparedFiles(current, generated);
      r := OpenWrtResult(exists f :: f in files && files[f].hasChanges, files, order);
    }

    /** Append the block of one listed section kind. */
    method AppendKeysBlock(lines: seq<string>, title: string, marker: string, keys: seq<(string, string)>) returns (out: seq<string>)
      ensures out == lines + KeysBlock(title, marker, keys)
    {
      out := lines;
      if keys != [] {
        out := out + [title + NatToString(|keys|)];
        ghost var head := out;
        var shown := Take(keys, 5);
        for k := 0 to |shown|
          invariant out == head + Labels(marker, keys)[..k]
        {
          assert Labels(marker, keys)[..k + 1] == Labels(marker, keys)[..k] + [Label(marker, shown[k])];
          out := out + [marker + shown[k].0 + " '" + shown[k].1 + "'"];
        }
        assert Labels(marker, keys)[..|shown|] == Labels(marker, keys);
      }
    }

    /** Append the modified-sections block. */
    method AppendModifiedBlock(lines: seq<string>, ms: seq<ModifiedSection>) returns (out: seq<string>)
      ensures out == lines + ModifiedBlock(ms)
    {
      out := lines;
      if ms != [] {
        out := out + ["  Modified sections: " + NatToString(|ms|)];
        ghost var head := out;
        var shown := Take(ms, 3);
        for k := 0 to |shown|
          invariant out == head + FlatMap(shown[..k], ModifiedLines)
        {
          var m := shown[k];
          FlatMapPrefix(shown, k, ModifiedLines);
          AppendAssoc(head, FlatMap(shown[..k], ModifiedLines), ModifiedLines(m));
          out := out + [Label("    ~ ", KeyOf(m)),
                        "      Options changed: " + NatToString(|m.currentOptions|) + " -> " + NatToString(|m.generatedOptions|)];
        }
        assert shown[..|shown|] == shown;
        AppendAssoc(lines, ["  Modified sections: " + NatToString(|ms|)], FlatMap(shown, ModifiedLines));
      }
    }

    /** Append the block of one changed file. */
    method AppendFileBlock(lines: seq<string>, name: string, d: FileDiff) returns (out: seq<string>)
      ensures out == lines + FileBlock(name, d)
    {
      out := lines + ["File: /etc/config/" + name, Rule('-')];
      out := AppendKeysBlock(out, "  Added sections: ", "    + ", d.addedSections);
      out := AppendKeysBlock(out, "  Removed sections: ", "    - ", d.removedSections);
      out := AppendModifiedBlock(out, d.modifiedSections);
      out := out + [""];
      Appended6(lines, ["File: /etc/config/" + name, Rule('-')],
                KeysBlock("  Added sections: ", "    + ", d.addedSections),
                KeysBlock("  Removed sections: ", "    - ", d.removedSections),
                ModifiedBlock(d.modifiedSections), [""]);
    }

    /** Render a result as `get_summary` does. */
    method SummaryOf(r: OpenWrtResult) returns (summary: string)
      ensures summary == Summary(r)
    {
      if !r.hasChanges {
        return NoChangesText;
      }
      var lines := [SummaryTitle, Rule('='), ""];
      ghost var head := lines;
      var f := FileLinesIn(r.files);
      for i := 0 to |r.fileOrder|
        invariant lines == head + FlatMap(r.fileOrder[..i], f)
      {
        var name := r.fileOrder[i];
        FlatMapPrefix(r.fileOrder, i, f);
        AppendAssoc(head, FlatMap(r.fileOrder[..i], f), f(name));
        if name in r.files && r.files[name].hasChanges {
          lines := AppendFileBlock(lines, name, r.files[name]);
        }
      }
      assert r.fileOrder[..|r.fileOrder|] == r.fileOrder;
      lines := lines + [Rule('='), ReviewText];
      summary := Join(lines, "\n");
    }

    /** The human-readable summary of the changes. */
    method GetSummary() returns (summary: string)
      ensures exists r :: IsResultOf(current, generated, r) && summary == Summary(r)
      ensures summary == NoChangesText <==> exists r :: IsResultOf(current, generated, r) && !r.hasChanges
    {
      var r := ComputeDiff();
      summary := SummaryOf(r);
      SummaryNoChangesIff(r);
      forall r' | IsResultOf(current, generated, r') ensures r'.hasChanges == r.hasChanges {
        assert r'.files.Keys == r.files.Keys;
        forall f | f in r.files ensures r'.files[f].hasChanges == r.files[f].hasChanges {
        }
      }
    }
  }
}
