/**
 * The RouterOS diff engine: both configurations are normalised into comparable
 * lines, compared line by line through an edit script, and grouped into sections
 * by the first path segment of each `/` command, so that each section's command
 * set can be compared.
 */
module RouterOSDiffEngine {
  import opened Wrappers
  import opened Strings
  import opened Seqs
  import opened LineDiff

  // ---------------------------------------------------------------- normalisation

  /** The line up to its first `#` (what `re.sub(r"#.*$", "", line)` keeps of a line without newlines). */
  function BeforeComment(line: string): (r: string)
    ensures r <= line && '#' !in r
    ensures |r| < |line| ==> line[|r|] == '#'
  {
    if line == [] || line[0] == '#' then [] else [line[0]] + BeforeComment(line[1..])
  }

  /** One line with its comment removed and surrounding whitespace stripped. */
  function NormalizeLine(line: string): string
  {
    Strip(BeforeComment(line))
  }

  /** What normalisation keeps of one line: nothing when it is empty. */
  function NormalizedOf(line: string): seq<string>
  {
    var n := NormalizeLine(line);
    if n == "" then [] else [n]
  }

  /** The comparable lines of a configuration. */
  function Normalized(config: string): seq<string>
  {
    FlatMap(Split(config, '\n'), NormalizedOf)
  }

  /** A line as normalisation leaves it. */
  predicate IsNormalLine(l: string)
  {
    l != "" && '#' !in l && '\n' !in l && Strip(l) == l
  }

  /** Stripping keeps only characters of the original. */
  lemma StripWithin(s: string, c: char)
    requires c !in s
    ensures c !in Strip(s)
  {
    StripSetSpec(s, Whitespace);
  }

  /** A normalised line has no comment, no newline and no surrounding whitespace. */
  lemma NormalizeLineIsNormal(line: string)
    requires '\n' !in line
    ensures forall l :: l in NormalizedOf(line) ==> IsNormalLine(l)
  {
    var b := BeforeComment(line);
    assert '\n' !in b by {
      assert forall k :: 0 <= k < |b| ==> b[k] == line[k];
    }
    StripWithin(b, '#');
    StripWithin(b, '\n');
    StripIdempotent(b);
  }

  /** Every line `Normalized` produces is a normal line. */
  lemma NormalizedAreNormal(config: string)
    ensures forall l :: l in Normalized(config) ==> IsNormalLine(l)
  {
    var pieces := Split(config, '\n');
    forall l | l in Normalized(config) ensures IsNormalLine(l) {
      FlatMapMember(pieces, NormalizedOf, l);
      var i :| 0 <= i < |pieces| && l in NormalizedOf(pieces[i]);
      NormalizeLineIsNormal(pieces[i]);
    }
  }

  /** A normal line normalises to itself. */
  lemma NormalLineFixed(l: string)
    requires IsNormalLine(l)
    ensures NormalizedOf(l) == [l]
  {
    assert BeforeComment(l) == l;
  }

  /** Joining normal lines with newlines and normalising again gives the same lines. */
  lemma NormalizeNormal(lines: seq<string>)
    requires forall k :: 0 <= k < |lines| ==> IsNormalLine(lines[k])
    ensures Normalized(Join(lines, "\n")) == lines
  {
    if lines == [] {
      assert Split("", '\n') == [""];
      assert NormalizeLine("") == "";
    } else {
      SplitJoin(lines, '\n');
      assert "\n" == ['\n'];
      forall k | 0 <= k < |lines| ensures NormalizedOf(lines[k]) == [lines[k]] {
        NormalLineFixed(lines[k]);
      }
      FlatMapOnes(lines, NormalizedOf);
    }
  }

  /** Normalising is idempotent: the normalised text of a normalised configuration is unchanged. */
  lemma NormalizeIdempotent(config: string)
    ensures Normalized(Join(Normalized(config), "\n")) == Normalized(config)
  {
    var lines := Normalized(config);
    NormalizedAreNormal(config);
    NormalizeNormal(lines);
  }

  // ---------------------------------------------------------------- sections

  /**
   * The section a `/` command opens: the first path segment of its first
   * whitespace-separated token, or `"general"` when that token has no `/`;
   * `None` for a line without any token, which is then not filed at all.
   */
  function SectionOf(line: string): Option<string>
  {
    var t := LStrip(line, Whitespace);
    if t == [] then None
    else
      var token := FirstToken(t);
      if '/' in token then SplitAtSeparator(token, '/'); Some(Split(token, '/')[1])
      else Some("general")
  }

  /** How the grouping loop treats a line: a `/` command opening a section, a `/`
      line without any token (skipped), or any other line. */
  datatype LineKind = Command(section: string) | Tokenless | Continuation

  function Classify(line: string): LineKind
  {
    if StartsWith(line, "/") then
      match SectionOf(line)
      case None => Tokenless
      case Some(s) => Command(s)
    else Continuation
  }

  /** The commands filed so far: sections in order of first use, and the lines of each. */
  datatype Grouping = Grouping(order: seq<string>, groups: map<string, seq<string>>, current: string)

  const Start: Grouping := Grouping([], map[], "general")

  /** The lines filed under `s` (none when `s` was never used). */
  function Group(g: Grouping, s: string): seq<string>
  {
    if s in g.groups then g.groups[s] else []
  }

  /** File `line` under `section`, which becomes the current section. */
  function Filed(g: Grouping, section: string, line: string): Grouping
  {
    Grouping(if section in g.groups then g.order else g.order + [section],
             g.groups[section := Group(g, section) + [line]],
             section)
  }

  /** The section a line of the given kind goes to, if any. */
  function FiledUnder(g: Grouping, kind: LineKind): Option<string>
  {
    match kind
    case Command(s) => Some(s)
    case Tokenless => None
    case Continuation => Some(g.current)
  }

  /** One iteration of the grouping loop. */
  function GroupStep(g: Grouping, kind: LineKind, line: string): Grouping
  {
    match FiledUnder(g, kind)
    case None => g
    case Some(s) => Filed(g, s, line)
  }

  /**
   * The grouping after the first `n` lines. The grouping lemmas below hold for any
   * way `classify` of telling commands apart; the engine uses `Classify`.
   */
  function Grouped(lines: seq<string>, n: nat, classify: string -> LineKind): Grouping
    requires n <= |lines|
  {
    if n == 0 then Start else GroupStep(Grouped(lines, n - 1, classify), classify(lines[n - 1]), lines[n - 1])
  }

  /** The sections of a configuration. */
  function Extracted(config: string): Grouping
  {
    var lines := Normalized(config);
    Grouped(lines, |lines|, Classify)
  }

  /** The section of the latest command among the first `n` lines, `"general"` if none. */
  function LastSection(lines: seq<string>, n: nat, classify: string -> LineKind): string
    requires n <= |lines|
  {
    if n == 0 then "general"
    else if classify(lines[n - 1]).Command? then classify(lines[n - 1]).section
    else LastSection(lines, n - 1, classify)
  }

  /** Where line `i` is filed: a command under its own section, a tokenless `/` line
      nowhere, any other line under the latest command before it. */
  function Owner(lines: seq<string>, i: nat, classify: string -> LineKind): Option<string>
    requires i < |lines|
  {
    match classify(lines[i])
    case Command(s) => Some(s)
    case Tokenless => None
    case Continuation => Some(LastSection(lines, i, classify))
  }

  /** The lines among the first `n` whose owner is `s`, in order. */
  function OwnedBy(lines: seq<string>, n: nat, s: string, classify: string -> LineKind): seq<string>
    requires n <= |lines|
  {
    if n == 0 then []
    else OwnedBy(lines, n - 1, s, classify) + (if Owner(lines, n - 1, classify) == Some(s) then [lines[n - 1]] else [])
  }

  /** Filing adds the line to its section only, and keeps the section order exact. */
  lemma FiledShape(g: Grouping, section: string, line: string)
    ensures forall s :: Group(Filed(g, section, line), s) == Group(g, s) + (if s == section then [line] else [])
    ensures Distinct(g.order) && (forall s :: s in g.order <==> s in g.groups) ==>
              Distinct(Filed(g, section, line).order) && forall s :: s in Filed(g, section, line).order <==> s in Filed(g, section, line).groups
  {
    if Distinct(g.order) && (forall s :: s in g.order <==> s in g.groups) && section !in g.groups {
      DistinctAppend(g.order, section);
    }
  }

  /** The current section is the latest command's. */
  lemma {:induction false} GroupedCurrent(lines: seq<string>, n: nat, classify: string -> LineKind)
    requires n <= |lines|
    ensures Grouped(lines, n, classify).current == LastSection(lines, n, classify)
  {
    if n > 0 {
      GroupedCurrent(lines, n - 1, classify);
    }
  }

  /** The grouping loop files every line under its owner, in order. */
  lemma {:induction false} GroupedGroups(lines: seq<string>, n: nat, classify: string -> LineKind)
    requires n <= |lines|
    ensures forall s :: Group(Grouped(lines, n, classify), s) == OwnedBy(lines, n, s, classify)
  {
    if n > 0 {
      GroupedGroups(lines, n - 1, classify);
      GroupedCurrent(lines, n - 1, classify);
      var g, kind := Grouped(lines, n - 1, classify), classify(lines[n - 1]);
      var owner := Owner(lines, n - 1, classify);
      assert FiledUnder(g, kind) == owner;
      if owner.Some? {
        FiledShape(g, owner.value, lines[n - 1]);
      }
      forall s ensures Group(Grouped(lines, n, classify), s) == OwnedBy(lines, n, s, classify) {
        assert OwnedBy(lines, n, s, classify) == OwnedBy(lines, n - 1, s, classify) + (if owner == Some(s) then [lines[n - 1]] else []);
      }
    }
  }

  /** The section order lists each used section once. */
  lemma {:induction false} GroupedOrder(lines: seq<string>, n: nat, classify: string -> LineKind)
    requires n <= |lines|
    ensures Distinct(Grouped(lines, n, classify).order)
    ensures forall s :: s in Grouped(lines, n, classify).order <==> s in Grouped(lines, n, classify).groups
  {
    if n > 0 {
      GroupedOrder(lines, n - 1, classify);
      var g, kind := Grouped(lines, n - 1, classify), classify(lines[n - 1]);
      if FiledUnder(g, kind).Some? {
        FiledShape(g, FiledUnder(g, kind).value, lines[n - 1]);
      }
    }
  }

  /** A normal line always has a first token, so a normal `/` command is never skipped. */
  lemma CommandFiled(line: string)
    requires IsNormalLine(line)
    ensures !Classify(line).Tokenless?
  {
    assert line[0] !in Whitespace by {
      StripSetSpec(line, Whitespace);
    }
  }

  /** The section of a `/` command is the first path segment of its first token. */
  lemma CommandSection(line: string)
    requires IsNormalLine(line) && StartsWith(line, "/")
    ensures Classify(line) == Command(Split(FirstToken(line), '/')[1])
  {
    CommandFiled(line);
    assert line[0] == '/' && line[0] !in Whitespace;
    assert FirstToken(line)[0] == '/';
  }

  /** Every normalised line is filed under exactly one section, which holds it in order. */
  lemma EveryLineFiled(config: string, i: nat)
    requires i < |Normalized(config)|
    ensures Owner(Normalized(config), i, Classify).Some?
    ensures Group(Extracted(config), Owner(Normalized(config), i, Classify).value)
              == OwnedBy(Normalized(config), |Normalized(config)|, Owner(Normalized(config), i, Classify).value, Classify)
  {
    var lines := Normalized(config);
    NormalizedAreNormal(config);
    assert lines[i] in lines;
    CommandFiled(lines[i]);
    GroupedGroups(lines, |lines|, Classify);
  }

  // ---------------------------------------------------------------- section changes

  datatype SectionChange = SectionChange(added: set<string>, removed: set<string>)

  /** The command set of section `s`. */
  function Commands(g: Grouping, s: string): set<string>
  {
    set l | l in Group(g, s)
  }

  /** The sections of either side whose command sets differ. */
  predicate SectionDiffers(cur: Grouping, gen: Grouping, s: string)
  {
    Commands(gen, s) - Commands(cur, s) != {} || Commands(cur, s) - Commands(gen, s) != {}
  }

  /** The change of every section among `done` whose command sets differ. */
  function ChangesWithin(cur: Grouping, gen: Grouping, done: set<string>): map<string, SectionChange>
  {
    map s | s in done && SectionDiffers(cur, gen, s)
      :: SectionChange(Commands(gen, s) - Commands(cur, s), Commands(cur, s) - Commands(gen, s))
  }

  /** Per-section changes: generated minus current as added, current minus generated as removed. */
  function SectionChanges(cur: Grouping, gen: Grouping): map<string, SectionChange>
  {
    ChangesWithin(cur, gen, cur.groups.Keys + gen.groups.Keys)
  }

  /** Walking one more section adds its change, if it has one. */
  lemma ChangesWithinAdd(cur: Grouping, gen: Grouping, done: set<string>, s: string)
    requires s !in done
    ensures ChangesWithin(cur, gen, done + {s}) ==
      if SectionDiffers(cur, gen, s)
      then ChangesWithin(cur, gen, done)[s := SectionChange(Commands(gen, s) - Commands(cur, s), Commands(cur, s) - Commands(gen, s))]
      else ChangesWithin(cur, gen, done)
  {
  }

  lemma ListedAdd<V>(order: seq<string>, m: map<string, V>, k: string, v: V)
    requires Lists(order, m.Keys) && k !in m
    ensures Lists(order + [k], m[k := v].Keys)
  {
    ListsAdd(order, m.Keys, k);
    assert m[k := v].Keys == m.Keys + {k};
  }

  /** The changes recorded by walking `names` in order. */
  function ChangesAlong(cur: Grouping, gen: Grouping, names: seq<string>): map<string, SectionChange>
  {
    if names == [] then map[]
    else
      var m, s := ChangesAlong(cur, gen, names[..|names| - 1]), names[|names| - 1];
      if SectionDiffers(cur, gen, s)
      then m[s := SectionChange(Commands(gen, s) - Commands(cur, s), Commands(cur, s) - Commands(gen, s))]
      else m
  }

  /** The changed sections met by walking `names`, in order. */
  function ChangedAlong(cur: Grouping, gen: Grouping, names: seq<string>): seq<string>
  {
    if names == [] then []
    else
      var o, s := ChangedAlong(cur, gen, names[..|names| - 1]), names[|names| - 1];
      if SectionDiffers(cur, gen, s) then o + [s] else o
  }

  /** Walking distinct names gives the changes of the sections among them, listed once each. */
  lemma {:induction false} ChangesAlongSpec(cur: Grouping, gen: Grouping, names: seq<string>)
    requires Distinct(names)
    ensures ChangesAlong(cur, gen, names) == ChangesWithin(cur, gen, set x | x in names)
    ensures Lists(ChangedAlong(cur, gen, names), ChangesAlong(cur, gen, names).Keys)
  {
    if names != [] {
      var init, s := names[..|names| - 1], names[|names| - 1];
      assert Distinct(init);
      ChangesAlongSpec(cur, gen, init);
      assert (set x | x in names) == (set x | x in init) + {s} by {
        assert names == init + [s];
      }
      assert s !in init;
      ChangesWithinAdd(cur, gen, (set x | x in init), s);
      if SectionDiffers(cur, gen, s) {
        ListedAdd(ChangedAlong(cur, gen, init), ChangesAlong(cur, gen, init), s,
                  SectionChange(Commands(gen, s) - Commands(cur, s), Commands(cur, s) - Commands(gen, s)));
      }
    }
  }

  /** Walking every section name once gives exactly the per-section changes. */
  lemma ChangesAlongAll(cur: Grouping, gen: Grouping, names: seq<string>)
    requires Distinct(names) && forall x :: x in names <==> x in cur.groups.Keys + gen.groups.Keys
    ensures ChangesAlong(cur, gen, names) == SectionChanges(cur, gen)
    ensures Lists(ChangedAlong(cur, gen, names), ChangesAlong(cur, gen, names).Keys)
  {
    ChangesAlongSpec(cur, gen, names);
    assert (set x | x in names) == cur.groups.Keys + gen.groups.Keys;
  }

  /** Equal groupings change no section. */
  lemma SameSectionsNoChanges(g: Grouping)
    ensures SectionChanges(g, g) == map[]
  {
    assert forall s :: !SectionDiffers(g, g, s);
  }

  /** A section is listed exactly when one of the two sides has a command the other lacks. */
  lemma SectionListedIff(cur: Grouping, gen: Grouping, s: string)
    ensures s in SectionChanges(cur, gen) <==>
              (exists l :: l in Group(gen, s) && l !in Group(cur, s)) || (exists l :: l in Group(cur, s) && l !in Group(gen, s))
  {
    if exists l :: l in Group(gen, s) && l !in Group(cur, s) {
      var l :| l in Group(gen, s) && l !in Group(cur, s);
      assert l in Commands(gen, s) - Commands(cur, s);
      assert s in gen.groups;
    }
    if exists l :: l in Group(cur, s) && l !in Group(gen, s) {
      var l :| l in Group(cur, s) && l !in Group(gen, s);
      assert l in Commands(cur, s) - Commands(gen, s);
      assert s in cur.groups;
    }
    if s in SectionChanges(cur, gen) {
      if Commands(gen, s) - Commands(cur, s) != {} {
        var l :| l in Commands(gen, s) - Commands(cur, s);
        assert l in Group(gen, s) && l !in Group(cur, s);
      } else {
        var l :| l in Commands(cur, s) - Commands(gen, s);
        assert l in Group(cur, s) && l !in Group(gen, s);
      }
    }
  }

  // ---------------------------------------------------------------- the result

  datatype DiffResult = DiffResult(
    hasChanges: bool,
    addedLines: seq<string>,
    removedLines: seq<string>,
    sectionChanges: map<string, SectionChange>,
    sectionOrder: seq<string>,   // the order the sections were inserted (a set's iteration order)
    unifiedDiff: seq<string>)

  /** `r` is what `compute_diff` returns for the two configurations (up to the order of set iteration). */
  ghost predicate IsDiffOf(current: string, generated: string, r: DiffResult)
  {
    && r.unifiedDiff == UnifiedDiff(Normalized(current), Normalized(generated))
    && r.addedLines == FlatMap(r.unifiedDiff, AddedOf)
    && r.removedLines == FlatMap(r.unifiedDiff, RemovedOf)
    && r.hasChanges == (r.addedLines != [] || r.removedLines != [])
    && r.sectionChanges == SectionChanges(Extracted(current), Extracted(generated))
    && Lists(r.sectionOrder, r.sectionChanges.Keys)
  }

  /** Configurations with the same normalised lines show no changes at all. */
  lemma SameLinesNoChanges(current: string, generated: string, r: DiffResult)
    requires Normalized(current) == Normalized(generated)
    requires IsDiffOf(current, generated, r)
    ensures !r.hasChanges && r.addedLines == [] && r.removedLines == []
    ensures r.sectionChanges == map[]
  {
    EqualGivesNoChanges(Normalized(current));
    SameSectionsNoChanges(Extracted(current));
  }

  /** A reported change means the normalised configurations differ. */
  lemma ChangesMeanDifferentLines(current: string, generated: string, r: DiffResult)
    requires IsDiffOf(current, generated, r) && r.hasChanges
    ensures Normalized(current) != Normalized(generated)
  {
    ChangesMeanDifferent(Normalized(current), Normalized(generated));
  }

  /** Removed lines are an in-order subsequence of the current normalised lines,
      added lines of the generated ones. */
  lemma ChangedLinesAreSubsequences(current: string, generated: string, r: DiffResult)
    requires IsDiffOf(current, generated, r)
    ensures IsSubsequence(r.addedLines, Normalized(generated))
    ensures IsSubsequence(r.removedLines, Normalized(current))
  {
    var a, b := Normalized(current), Normalized(generated);
    NormalizedAreNormal(current);
    NormalizedAreNormal(generated);
    assert forall i :: 0 <= i < |a| ==> a[i] in a;
    assert forall i :: 0 <= i < |b| ==> b[i] in b;
    FilteredSubsequences(a, b);
  }

  // ---------------------------------------------------------------- summary

  const NoChangesText := "No changes detected" + " between current and generated configuration."
  const SummaryTitle := "Configuration Differences:"
  const ReviewText := "Review carefully before applying!"

  /** A rule of 60 copies of `c`. */
  function Rule(c: char): string
  {
    Repeat(c, 60)
  }

  /** The first ten lines, each behind `marker`. */
  function Listed(marker: string, xs: seq<string>): (r: seq<string>)
    ensures |r| == |Take(xs, 10)|
    ensures forall k :: 0 <= k < |r| ==> r[k] == marker + xs[k]
  {
    var shown := Take(xs, 10);
    seq(|shown|, k requires 0 <= k < |shown| => marker + shown[k])
  }

  /** The `... and N more` line for more than ten items. */
  function More(n: nat): seq<string>
  {
    if n > 10 then ["  ... and " + NatToString(n - 10) + " more"] else []
  }

  /** The block for the added or the removed lines; nothing when there are none. */
  function LinesBlock(title: string, marker: string, xs: seq<string>): seq<string>
  {
    if xs == [] then []
    else [title + NatToString(|xs|), Rule('-')] + Listed(marker, xs) + More(|xs|) + [""]
  }

  function SectionLines(s: string, c: SectionChange): seq<string>
  {
    ["\n  Section: " + s]
    + (if c.added != {} then ["    Added: " + NatToString(|c.added|) + " command(s)"] else [])
    + (if c.removed != {} then ["    Removed: " + NatToString(|c.removed|) + " command(s)"] else [])
  }

  function SectionLinesIn(changes: map<string, SectionChange>): string -> seq<string>
  {
    s => if s in changes then SectionLines(s, changes[s]) else []
  }

  function SectionsBlock(r: DiffResult): seq<string>
  {
    if r.sectionChanges == map[] then []
    else ["Changes by section:", Rule('-')] + FlatMap(r.sectionOrder, SectionLinesIn(r.sectionChanges))
  }

  function SummaryLines(r: DiffResult): seq<string>
  {
    [SummaryTitle, Rule('='), ""]
    + LinesBlock("Added lines: ", "  + ", r.addedLines)
    + LinesBlock("Removed lines: ", "  - ", r.removedLines)
    + SectionsBlock(r)
    + ["", Rule('='), ReviewText]
  }

  /** The text `get_summary` returns for a diff result. */
  function Summary(r: DiffResult): string
  {
    if !r.hasChanges then NoChangesText else Join(SummaryLines(r), "\n")
  }

  /** The summary is the no-change text exactly when there are no changes. */
  lemma SummaryNoChangesIff(r: DiffResult)
    ensures Summary(r) == NoChangesText <==> !r.hasChanges
  {
    if r.hasChanges {
      var lines := SummaryLines(r);
      assert lines[0] == SummaryTitle;
      JoinStartsWith(lines, "\n");
      assert SummaryTitle <= Summary(r);
      assert Summary(r)[0] == SummaryTitle[0] == 'C';
      assert NoChangesText[0] == 'N';
    }
  }

  /** A block lists at most ten items, the first ones in order, and says how many it left out. */
  lemma LinesBlockShape(title: string, marker: string, xs: seq<string>)
    requires xs != []
    ensures var b := LinesBlock(title, marker, xs);
      var shown := if |xs| < 10 then |xs| else 10;
      && |b| == 3 + shown + (if |xs| > 10 then 1 else 0)
      && b[0] == title + NatToString(|xs|)
      && (forall k :: 0 <= k < shown ==> b[2 + k] == marker + xs[k])
      && (|xs| > 10 ==> b[2 + shown] == "  ... and " + NatToString(|xs| - 10) + " more")
      && b[|b| - 1] == ""
  {
    var b := LinesBlock(title, marker, xs);
    var head := [title + NatToString(|xs|), Rule('-')];
    var l := Listed(marker, xs);
    assert b == head + l + More(|xs|) + [""];
    forall k | 0 <= k < |l| ensures b[2 + k] == marker + xs[k] {
      assert b[2 + k] == l[k];
    }
  }

  // ---------------------------------------------------------------- the engine

  /** Diff engine over a current export and a generated configuration. */
  class RouterOSDiff {
    const current: string
    const generated: string

    constructor(current: string, generated: string)
      ensures this.current == current && this.generated == generated
    {
      this.current := current;
      this.generated := generated;
    }

    /** Drop comments and empty lines, strip the rest. */
    method NormalizeConfig(config: string) returns (lines: seq<string>)
      ensures lines == Normalized(config)
      ensures forall l :: l in lines ==> IsNormalLine(l)
    {
      var raw := Split(config, '\n');
      lines := [];
      for i := 0 to |raw|
        invariant lines == FlatMap(raw[..i], NormalizedOf)
      {
        FlatMapPrefix(raw, i, NormalizedOf);
        var line := Strip(BeforeComment(raw[i]));
        if line != "" {
          lines := lines + [line];
        }
      }
      assert raw[..|raw|] == raw;
      NormalizedAreNormal(config);
    }

    /** Group the normalised commands by section. */
    method ExtractCommands(config: string) returns (g: Grouping)
      ensures g == Extracted(config)
      ensures Distinct(g.order) && forall s :: s in g.order <==> s in g.groups
    {
      var lines := NormalizeConfig(config);
      g := Start;
      for i := 0 to |lines|
        invariant g == Grouped(lines, i, Classify)
      {
        var line := lines[i];
        if StartsWith(line, "/") {
          var section := SectionOf(line);
          if section.Some? {
            g := Filed(g, section.value, line);
          }
        } else {
          g := Filed(g, g.current, line);
        }
      }
      GroupedOrder(lines, |lines|, Classify);
    }

    /** Walk the union of the section names in some order, recording the ones that changed. */
    method CollectSectionChanges(cur: Grouping, gen: Grouping) returns (changes: map<string, SectionChange>, order: seq<string>)
      ensures changes == SectionChanges(cur, gen)
      ensures Lists(order, changes.Keys)
    {
      var names := Enumerate(cur.groups.Keys + gen.groups.Keys);
      changes, order := map[], [];
      for i := 0 to |names|
        invariant changes == ChangesAlong(cur, gen, names[..i])
        invariant order == ChangedAlong(cur, gen, names[..i])
      {
        var s := names[i];
        assert names[..i + 1][..i] == names[..i] && names[..i + 1][i] == s;
        var added, removed := Commands(gen, s) - Commands(cur, s), Commands(cur, s) - Commands(gen, s);
        if added != {} || removed != {} {
          changes := changes[s := SectionChange(added, removed)];
          order := order + [s];
        }
      }
      assert names[..|names|] == names;
      ChangesAlongAll(cur, gen, names);
    }

    /** Compare the two configurations. */
    method ComputeDiff() returns (r: DiffResult)
      ensures IsDiffOf(current, generated, r)
    {
      var currentLines := NormalizeConfig(current);
      var generatedLines := NormalizeConfig(generated);
      var diff := UnifiedDiff(currentLines, generatedLines);
      var added, removed := ChangedLines(diff);
      var currentSections := ExtractCommands(current);
      var generatedSections := ExtractCommands(generated);
      var changes, order := CollectSectionChanges(currentSections, generatedSections);
      r := DiffResult(|added| > 0 || |removed| > 0, added, removed, changes, order, diff);
    }

    /** Append the block for the added or the removed lines. */
    method AppendLinesBlock(lines: seq<string>, title: string, marker: string, xs: seq<string>) returns (out: seq<string>)
      ensures out == lines + LinesBlock(title, marker, xs)
    {
      out := lines;
      if xs != [] {
        out := out + [title + NatToString(|xs|), Rule('-')];
        ghost var head := out;
        var shown := Take(xs, 10);
        for k := 0 to |shown|
          invariant out == head + Listed(marker, xs)[..k]
        {
          assert Listed(marker, xs)[..k + 1] == Listed(marker, xs)[..k] + [marker + shown[k]];
          out := out + [marker + shown[k]];
        }
        assert Listed(marker, xs)[..|shown|] == Listed(marker, xs);
        if |xs| > 10 {
          out := out + ["  ... and " + NatToString(|xs| - 10) + " more"];
        }
        out := out + [""];
        assert out == lines + ([title + NatToString(|xs|), Rule('-')] + Listed(marker, xs) + More(|xs|) + [""]);
      }
    }

    /** Append the per-section block, in the order the sections were recorded. */
    method AppendSectionsBlock(lines: seq<string>, r: DiffResult) returns (out: seq<string>)
      ensures out == lines + SectionsBlock(r)
    {
      out := lines;
      if r.sectionChanges != map[] {
        out := out + ["Changes by section:", Rule('-')];
        ghost var head := out;
        var f := SectionLinesIn(r.sectionChanges);
        for i := 0 to |r.sectionOrder|
          invariant out == head + FlatMap(r.sectionOrder[..i], f)
        {
          var s := r.sectionOrder[i];
          FlatMapPrefix(r.sectionOrder, i, f);
          AppendAssoc(head, FlatMap(r.sectionOrder[..i], f), f(s));
          out := out + f(s);
        }
        assert r.sectionOrder[..|r.sectionOrder|] == r.sectionOrder;
        AppendAssoc(lines, ["Changes by section:", Rule('-')], FlatMap(r.sectionOrder, f));
      }
    }

    /** Render a diff result as `get_summary` does. */
    method SummaryOf(r: DiffResult) returns (summary: string)
      ensures summary == Summary(r)
    {
      if !r.hasChanges {
        return NoChangesText;
      }
      var lines := [SummaryTitle, Rule('='), ""];
      lines := AppendLinesBlock(lines, "Added lines: ", "  + ", r.addedLines);
      lines := AppendLinesBlock(lines, "Removed lines: ", "  - ", r.removedLines);
      lines := AppendSectionsBlock(lines, r);
      lines := lines + ["", Rule('='), ReviewText];
      summary := Join(lines, "\n");
    }

    /** The human-readable summary of the changes. */
    method GetSummary() returns (summary: string)
      ensures exists r :: IsDiffOf(current, generated, r) && summary == Summary(r)
      ensures summary == NoChangesText <==> exists r :: IsDiffOf(current, generated, r) && !r.hasChanges
    {
      var r := ComputeDiff();
      summary := SummaryOf(r);
      SummaryNoChangesIff(r);
      forall r' | IsDiffOf(current, generated, r') ensures r'.hasChanges == r.hasChanges {
      }
    }
  }
}
