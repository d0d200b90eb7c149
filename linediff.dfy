/**
 * A line-level diff standing in for `difflib.unified_diff`: an edit script
 * built from a longest common subsequence. Both diff engines use only what
 * the script says about each line (kept, deleted, inserted), so the script
 * is specified by what it preserves — reading its old side gives the old
 * lines, its new side the new lines — and not by difflib's own matching
 * heuristics.
 */
module LineDiff {
  import opened Seqs
  import opened Strings

  datatype Edit<T> = Keep(item: T) | Delete(item: T) | Insert(item: T)

  function Max(x: nat, y: nat): nat
  {
    if x >= y then x else y
  }

  /** Length of a longest common subsequence of `a` and `b`. */
  function LcsLength<T(==)>(a: seq<T>, b: seq<T>): nat
    decreases |a| + |b|
  {
    if a == [] || b == [] then 0
    else if a[0] == b[0] then 1 + LcsLength(a[1..], b[1..])
    else Max(LcsLength(a[1..], b), LcsLength(a, b[1..]))
  }

  /** An edit script turning `a` into `b` that keeps a longest common subsequence. */
  function Diff<T(==)>(a: seq<T>, b: seq<T>): seq<Edit<T>>
    decreases |a| + |b|
  {
    if a == [] && b == [] then []
    else if a == [] then [Insert(b[0])] + Diff(a, b[1..])
    else if b == [] then [Delete(a[0])] + Diff(a[1..], b)
    else if a[0] == b[0] then [Keep(a[0])] + Diff(a[1..], b[1..])
    else if LcsLength(a[1..], b) >= LcsLength(a, b[1..]) then [Delete(a[0])] + Diff(a[1..], b)
    else [Insert(b[0])] + Diff(a, b[1..])
  }

  /** The old side of a script: what it keeps or deletes. */
  function Before<T>(es: seq<Edit<T>>): seq<T>
  {
    if es == [] then []
    else (if es[0].Insert? then [] else [es[0].item]) + Before(es[1..])
  }

  /** The new side of a script: what it keeps or inserts. */
  function After<T>(es: seq<Edit<T>>): seq<T>
  {
    if es == [] then []
    else (if es[0].Delete? then [] else [es[0].item]) + After(es[1..])
  }

  /** The items a script deletes, in order. */
  function Deleted<T>(es: seq<Edit<T>>): seq<T>
  {
    if es == [] then []
    else (if es[0].Delete? then [es[0].item] else []) + Deleted(es[1..])
  }

  /** The items a script inserts, in order. */
  function Inserted<T>(es: seq<Edit<T>>): seq<T>
  {
    if es == [] then []
    else (if es[0].Insert? then [es[0].item] else []) + Inserted(es[1..])
  }

  /** The items a script keeps, in order. */
  function Kept<T>(es: seq<Edit<T>>): seq<T>
  {
    if es == [] then []
    else (if es[0].Keep? then [es[0].item] else []) + Kept(es[1..])
  }

  /** A script that only keeps. */
  predicate Unchanged<T>(es: seq<Edit<T>>)
  {
    forall i :: 0 <= i < |es| ==> es[i].Keep?
  }

  /** `x` is an in-order subsequence of `y`. */
  predicate IsSubsequence<T(==)>(x: seq<T>, y: seq<T>)
    decreases |y|
  {
    if x == [] then true
    else if y == [] then false
    else if x[0] == y[0] then IsSubsequence(x[1..], y[1..])
    else IsSubsequence(x, y[1..])
  }

  // ---------------------------------------------------------------- the script preserves both sides

  /** Reading the old side of the script gives back the old lines. */
  lemma {:induction false} DiffBefore<T>(a: seq<T>, b: seq<T>)
    ensures Before(Diff(a, b)) == a
    decreases |a| + |b|
  {
    if a == [] && b == [] {
    } else if a == [] {
      DiffBefore(a, b[1..]);
    } else if b == [] {
      DiffBefore(a[1..], b);
    } else if a[0] == b[0] {
      DiffBefore(a[1..], b[1..]);
    } else if LcsLength(a[1..], b) >= LcsLength(a, b[1..]) {
      DiffBefore(a[1..], b);
    } else {
      DiffBefore(a, b[1..]);
    }
  }

  /** Reading the new side of the script gives the new lines. */
  lemma {:induction false} DiffAfter<T>(a: seq<T>, b: seq<T>)
    ensures After(Diff(a, b)) == b
    decreases |a| + |b|
  {
    if a == [] && b == [] {
    } else if a == [] {
      DiffAfter(a, b[1..]);
    } else if b == [] {
      DiffAfter(a[1..], b);
    } else if a[0] == b[0] {
      DiffAfter(a[1..], b[1..]);
    } else if LcsLength(a[1..], b) >= LcsLength(a, b[1..]) {
      DiffAfter(a[1..], b);
    } else {
      DiffAfter(a, b[1..]);
    }
  }

  /** The script keeps a longest common subsequence: as many items as `LcsLength`. */
  lemma {:induction false} DiffKeepsLcs<T>(a: seq<T>, b: seq<T>)
    ensures |Kept(Diff(a, b))| == LcsLength(a, b)
    decreases |a| + |b|
  {
    if a == [] && b == [] {
    } else if a == [] {
      DiffKeepsLcs(a, b[1..]);
    } else if b == [] {
      DiffKeepsLcs(a[1..], b);
    } else if a[0] == b[0] {
      DiffKeepsLcs(a[1..], b[1..]);
    } else if LcsLength(a[1..], b) >= LcsLength(a, b[1..]) {
      DiffKeepsLcs(a[1..], b);
    } else {
      DiffKeepsLcs(a, b[1..]);
    }
  }

  /** A script that only keeps has equal sides. */
  lemma {:induction false} UnchangedSides<T>(es: seq<Edit<T>>)
    requires Unchanged(es)
    ensures Before(es) == After(es)
  {
    if es != [] {
      assert Unchanged(es[1..]) by {
        forall i | 0 <= i < |es[1..]| ensures es[1..][i].Keep? {
          assert es[1..][i] == es[i + 1];
        }
      }
      UnchangedSides(es[1..]);
    }
  }

  /** Diffing a sequence against itself only keeps. */
  lemma {:induction false} DiffSame<T>(a: seq<T>)
    ensures Diff(a, a) == seq(|a|, i requires 0 <= i < |a| => Keep(a[i]))
  {
    if a != [] {
      DiffSame(a[1..]);
    }
  }

  /** The script only keeps exactly when the two sides are equal. */
  lemma UnchangedIffEqual<T>(a: seq<T>, b: seq<T>)
    ensures Unchanged(Diff(a, b)) <==> a == b
  {
    DiffBefore(a, b);
    DiffAfter(a, b);
    if Unchanged(Diff(a, b)) {
      UnchangedSides(Diff(a, b));
    }
    if a == b {
      DiffSame(a);
    }
  }

  // ---------------------------------------------------------------- subsequences

  lemma {:induction false} SubsequenceOfSelf<T>(x: seq<T>)
    ensures IsSubsequence(x, x)
  {
    if x != [] {
      SubsequenceOfSelf(x[1..]);
    }
  }

  /** A subsequence of the tail of `y` is a subsequence of `y`. */
  lemma {:induction false} SubsequenceOfTail<T>(x: seq<T>, y: seq<T>)
    requires y != [] && IsSubsequence(x, y[1..])
    ensures IsSubsequence(x, y)
    decreases |y|, 0
  {
    if x != [] && x[0] == y[0] {
      SubsequenceDropHead(x, y[1..]);
    }
  }

  /** Without its first item a subsequence is still a subsequence. */
  lemma {:induction false} SubsequenceDropHead<T>(x: seq<T>, z: seq<T>)
    requires x != [] && IsSubsequence(x, z)
    ensures IsSubsequence(x[1..], z)
    decreases |z|, 1
  {
    if x[0] == z[0] {
      if z[1..] != [] || x[1..] == [] {
        if x[1..] != [] {
          SubsequenceOfTail(x[1..], z);
        }
      }
    } else {
      SubsequenceDropHead(x, z[1..]);
      SubsequenceOfTail(x[1..], z);
    }
  }

  /** Putting the same item in front of both keeps a subsequence a subsequence. */
  lemma SubsequenceCons<T>(h: T, x: seq<T>, y: seq<T>)
    requires IsSubsequence(x, y)
    ensures IsSubsequence([h] + x, [h] + y)
  {
    assert ([h] + x)[1..] == x && ([h] + y)[1..] == y;
  }

  /** What a script deletes is an in-order subsequence of its old side. */
  lemma {:induction false} DeletedSubsequence<T>(es: seq<Edit<T>>)
    ensures IsSubsequence(Deleted(es), Before(es))
  {
    if es != [] {
      DeletedSubsequence(es[1..]);
      var e := es[0];
      if e.Delete? {
        SubsequenceCons(e.item, Deleted(es[1..]), Before(es[1..]));
      } else if e.Keep? {
        assert Before(es)[1..] == Before(es[1..]) && Deleted(es) == Deleted(es[1..]);
        SubsequenceOfTail(Deleted(es), Before(es));
      } else {
        assert Before(es) == Before(es[1..]) && Deleted(es) == Deleted(es[1..]);
      }
    }
  }

  /** What a script inserts is an in-order subsequence of its new side. */
  lemma {:induction false} InsertedSubsequence<T>(es: seq<Edit<T>>)
    ensures IsSubsequence(Inserted(es), After(es))
  {
    if es != [] {
      InsertedSubsequence(es[1..]);
      var e := es[0];
      if e.Insert? {
        SubsequenceCons(e.item, Inserted(es[1..]), After(es[1..]));
      } else if e.Keep? {
        assert After(es)[1..] == After(es[1..]) && Inserted(es) == Inserted(es[1..]);
        SubsequenceOfTail(Inserted(es), After(es));
      } else {
        assert After(es) == After(es[1..]) && Inserted(es) == Inserted(es[1..]);
      }
    }
  }

  /** A script with a deletion or an insertion does not only keep. */
  lemma {:induction false} ChangesAreEdits<T>(es: seq<Edit<T>>)
    ensures Unchanged(es) ==> Deleted(es) == [] && Inserted(es) == []
  {
    if es != [] && Unchanged(es) {
      assert Unchanged(es[1..]) by {
        forall i | 0 <= i < |es[1..]| ensures es[1..][i].Keep? {
          assert es[1..][i] == es[i + 1];
        }
      }
      ChangesAreEdits(es[1..]);
    }
  }

  // ---------------------------------------------------------------- unified-diff text and its filter

  /** One body line of a unified diff: a marker character, then the line. */
  function EditLine(e: Edit<string>): string
  {
    match e
    case Keep(l) => " " + l
    case Delete(l) => "-" + l
    case Insert(l) => "+" + l
  }

  function EditLines(e: Edit<string>): seq<string>
  {
    [EditLine(e)]
  }

  /** The lines of a unified diff of the script, labelled `from` and `to`: nothing
      when the script only keeps, else the two file headers and one line per edit.
      Hunk headers (`@@ … @@`) and context trimming are not part of this model. */
  function UnifiedLines(from: string, to: string, es: seq<Edit<string>>): seq<string>
  {
    if Unchanged(es) then []
    else ["--- " + from, "+++ " + to] + FlatMap(es, EditLines)
  }

  /** What the engines keep of an added diff line: the text after `+`, stripped. */
  function AddedOf(line: string): seq<string>
  {
    if StartsWith(line, "+") && !StartsWith(line, "+++") then [Strip(line[1..])] else []
  }

  /** What the engines keep of a removed diff line (only when not an added one). */
  function RemovedOf(line: string): seq<string>
  {
    if StartsWith(line, "+") && !StartsWith(line, "+++") then []
    else if StartsWith(line, "-") && !StartsWith(line, "---") then [Strip(line[1..])]
    else []
  }

  /** Added lines the filter lets through, read off the script: every insertion
      except those whose line itself starts with `++`, stripped. */
  function ShownInserts(es: seq<Edit<string>>): seq<string>
  {
    if es == [] then []
    else
      var shown := if es[0].Insert? && !StartsWith(es[0].item, "++") then [Strip(es[0].item)] else [];
      shown + ShownInserts(es[1..])
  }

  /** Removed lines the filter lets through: deletions not starting with `--`, stripped. */
  function ShownDeletes(es: seq<Edit<string>>): seq<string>
  {
    if es == [] then []
    else
      var shown := if es[0].Delete? && !StartsWith(es[0].item, "--") then [Strip(es[0].item)] else [];
      shown + ShownDeletes(es[1..])
  }

  /**
   * The loop over the diff text that collects the added and removed lines;
   * `+++`/`---` lines are taken for file headers and skipped.
   */
  method ChangedLines(diff: seq<string>) returns (added: seq<string>, removed: seq<string>)
    ensures added == FlatMap(diff, AddedOf)
    ensures removed == FlatMap(diff, RemovedOf)
  {
    added, removed := [], [];
    for i := 0 to |diff|
      invariant added == FlatMap(diff[..i], AddedOf)
      invariant removed == FlatMap(diff[..i], RemovedOf)
    {
      var line := diff[i];
      FlatMapPrefix(diff, i, AddedOf);
      FlatMapPrefix(diff, i, RemovedOf);
      if StartsWith(line, "+") && !StartsWith(line, "+++") {
        added := added + [Strip(line[1..])];
      } else if StartsWith(line, "-") && !StartsWith(line, "---") {
        removed := removed + [Strip(line[1..])];
      }
    }
    assert diff[..|diff|] == diff;
  }

  /** A marked line starts with a longer marked prefix exactly when the line starts with the rest. */
  lemma MarkedPrefix(m: char, l: string, p: string)
    ensures StartsWith([m] + l, [m] + p) <==> StartsWith(l, p)
    ensures ([m] + l)[1..] == l
  {
    if p <= l {
      assert [m] + p <= [m] + l by {
        assert forall k :: 0 <= k < |[m] + p| ==> ([m] + p)[k] == ([m] + l)[k];
      }
    }
    if [m] + p <= [m] + l {
      assert forall k :: 0 <= k < |p| ==> p[k] == ([m] + p)[k + 1] == ([m] + l)[k + 1] == l[k];
    }
  }

  /** The added-line filter's view of one edit line. */
  lemma AddedOfEditLine(e: Edit<string>)
    ensures AddedOf(EditLine(e)) == (if e.Insert? && !StartsWith(e.item, "++") then [Strip(e.item)] else [])
  {
    var line := EditLine(e);
    match e
    case Keep(l) =>
      assert line[0] == ' ';
    case Delete(l) =>
      assert line[0] == '-';
    case Insert(l) =>
      assert line == ['+'] + l;
      MarkedPrefix('+', l, "++");
      assert "+++" == ['+'] + "++";
  }

  /** The removed-line filter's view of one edit line. */
  lemma RemovedOfEditLine(e: Edit<string>)
    ensures RemovedOf(EditLine(e)) == (if e.Delete? && !StartsWith(e.item, "--") then [Strip(e.item)] else [])
  {
    var line := EditLine(e);
    match e
    case Keep(l) =>
      assert line[0] == ' ';
    case Insert(l) =>
      assert line[0] == '+' && line[..1] == "+";
      if StartsWith(line, "+++") {
      } else {
        assert AddedOf(line) != [];
      }
    case Delete(l) =>
      assert line == ['-'] + l;
      assert line[0] == '-';
      MarkedPrefix('-', l, "--");
      assert "---" == ['-'] + "--";
  }

  lemma {:induction false} BodyFiltered(es: seq<Edit<string>>)
    ensures FlatMap(FlatMap(es, EditLines), AddedOf) == ShownInserts(es)
    ensures FlatMap(FlatMap(es, EditLines), RemovedOf) == ShownDeletes(es)
  {
    if es != [] {
      BodyFiltered(es[1..]);
      AddedOfEditLine(es[0]);
      RemovedOfEditLine(es[0]);
      var rest := FlatMap(es[1..], EditLines);
      assert FlatMap(es, EditLines) == [EditLine(es[0])] + rest;
      FlatMapAppend([EditLine(es[0])], rest, AddedOf);
      FlatMapAppend([EditLine(es[0])], rest, RemovedOf);
      assert FlatMap([EditLine(es[0])], AddedOf) == AddedOf(EditLine(es[0])) + FlatMap([], AddedOf);
      assert FlatMap([EditLine(es[0])], RemovedOf) == RemovedOf(EditLine(es[0])) + FlatMap([], RemovedOf);
    }
  }

  lemma {:induction false} NothingShownWhenUnchanged(es: seq<Edit<string>>)
    requires Unchanged(es)
    ensures ShownInserts(es) == [] && ShownDeletes(es) == []
  {
    if es != [] {
      assert es[0].Keep?;
      assert Unchanged(es[1..]) by {
        forall i | 0 <= i < |es[1..]| ensures es[1..][i].Keep? {
          assert es[1..][i] == es[i + 1];
        }
      }
      NothingShownWhenUnchanged(es[1..]);
    }
  }

  /** Filtering the unified diff yields exactly the shown insertions and deletions:
      the two header lines never pass, and neither do edits of lines that start
      with `++` (insertions) or `--` (deletions). */
  lemma {:induction false} UnifiedFiltered(from: string, to: string, es: seq<Edit<string>>)
    ensures FlatMap(UnifiedLines(from, to, es), AddedOf) == ShownInserts(es)
    ensures FlatMap(UnifiedLines(from, to, es), RemovedOf) == ShownDeletes(es)
  {
    if Unchanged(es) {
      NothingShownWhenUnchanged(es);
    } else {
      var headers := ["--- " + from, "+++ " + to];
      BodyFiltered(es);
      HeadersFiltered(from, to);
      FlatMapAppend(headers, FlatMap(es, EditLines), AddedOf);
      FlatMapAppend(headers, FlatMap(es, EditLines), RemovedOf);
    }
  }

  /** The two file headers pass neither filter. */
  lemma HeadersFiltered(from: string, to: string)
    ensures FlatMap(["--- " + from, "+++ " + to], AddedOf) == []
    ensures FlatMap(["--- " + from, "+++ " + to], RemovedOf) == []
  {
    var headers := ["--- " + from, "+++ " + to];
    var h0, h1 := headers[0], headers[1];
    assert h0[0] == '-' && h0[..3] == "---";
    assert h1[0] == '+' && h1[..3] == "+++";
    assert AddedOf(h0) == [] && RemovedOf(h0) == [];
    assert AddedOf(h1) == [] && RemovedOf(h1) == [];
    assert headers[1..] == [h1] && headers[1..][1..] == [];
    assert FlatMap(headers, AddedOf) == AddedOf(h0) + (AddedOf(h1) + FlatMap([], AddedOf));
    assert FlatMap(headers, RemovedOf) == RemovedOf(h0) + (RemovedOf(h1) + FlatMap([], RemovedOf));
  }

  /** Without surrounding whitespace, the shown insertions are an in-order subsequence
      of the script's new side. */
  lemma {:induction false} ShownInsertsSubsequence(es: seq<Edit<string>>)
    requires forall i :: 0 <= i < |es| ==> Strip(es[i].item) == es[i].item
    ensures IsSubsequence(ShownInserts(es), After(es))
  {
    if es != [] {
      var e, rest := es[0], es[1..];
      assert forall i :: 0 <= i < |rest| ==> rest[i] == es[i + 1];
      ShownInsertsSubsequence(rest);
      assert Strip(e.item) == e.item;
      if e.Delete? {
        assert After(es) == After(rest) && ShownInserts(es) == ShownInserts(rest);
      } else if e.Keep? || StartsWith(e.item, "++") {
        assert After(es)[1..] == After(rest) && ShownInserts(es) == ShownInserts(rest);
        SubsequenceOfTail(ShownInserts(es), After(es));
      } else {
        assert After(es) == [e.item] + After(rest);
        assert ShownInserts(es) == [e.item] + ShownInserts(rest);
        SubsequenceCons(e.item, ShownInserts(rest), After(rest));
      }
    }
  }

  /** Without surrounding whitespace, the shown deletions are an in-order subsequence
      of the script's old side. */
  lemma {:induction false} ShownDeletesSubsequence(es: seq<Edit<string>>)
    requires forall i :: 0 <= i < |es| ==> Strip(es[i].item) == es[i].item
    ensures IsSubsequence(ShownDeletes(es), Before(es))
  {
    if es != [] {
      var e, rest := es[0], es[1..];
      assert forall i :: 0 <= i < |rest| ==> rest[i] == es[i + 1];
      ShownDeletesSubsequence(rest);
      assert Strip(e.item) == e.item;
      if e.Insert? {
        assert Before(es) == Before(rest) && ShownDeletes(es) == ShownDeletes(rest);
      } else if e.Keep? || StartsWith(e.item, "--") {
        assert Before(es)[1..] == Before(rest) && ShownDeletes(es) == ShownDeletes(rest);
        SubsequenceOfTail(ShownDeletes(es), Before(es));
      } else {
        assert Before(es) == [e.item] + Before(rest);
        assert ShownDeletes(es) == [e.item] + ShownDeletes(rest);
        SubsequenceCons(e.item, ShownDeletes(rest), Before(rest));
      }
    }
  }

  // ---------------------------------------------------------------- what both engines rely on

  /** The unified diff of two line lists, as the engines request it. */
  function UnifiedDiff(a: seq<string>, b: seq<string>): seq<string>
  {
    UnifiedLines("current", "generated", Diff(a, b))
  }

  /** Equal line lists give an empty diff, hence no added and no removed lines. */
  lemma EqualGivesNoChanges(a: seq<string>)
    ensures UnifiedDiff(a, a) == []
    ensures FlatMap(UnifiedDiff(a, a), AddedOf) == [] && FlatMap(UnifiedDiff(a, a), RemovedOf) == []
  {
    UnchangedIffEqual(a, a);
  }

  /** Any added or removed line means the two line lists differ. */
  lemma ChangesMeanDifferent(a: seq<string>, b: seq<string>)
    requires FlatMap(UnifiedDiff(a, b), AddedOf) != [] || FlatMap(UnifiedDiff(a, b), RemovedOf) != []
    ensures a != b
  {
    if a == b {
      EqualGivesNoChanges(a);
    }
  }

  /** For lines without surrounding whitespace, the added lines are an in-order
      subsequence of `b` and the removed lines one of `a`. */
  lemma FilteredSubsequences(a: seq<string>, b: seq<string>)
    requires forall i :: 0 <= i < |a| ==> Strip(a[i]) == a[i]
    requires forall i :: 0 <= i < |b| ==> Strip(b[i]) == b[i]
    ensures IsSubsequence(FlatMap(UnifiedDiff(a, b), AddedOf), b)
    ensures IsSubsequence(FlatMap(UnifiedDiff(a, b), RemovedOf), a)
  {
    var es := Diff(a, b);
    DiffBefore(a, b);
    DiffAfter(a, b);
    DiffItems(a, b);
    UnifiedFiltered("current", "generated", es);
    ShownInsertsSubsequence(es);
    ShownDeletesSubsequence(es);
  }

  /** Every item of the script comes from one of the two sides. */
  lemma {:induction false} DiffItems<T>(a: seq<T>, b: seq<T>)
    ensures forall i :: 0 <= i < |Diff(a, b)| ==> Diff(a, b)[i].item in a || Diff(a, b)[i].item in b
    decreases |a| + |b|
  {
    if a == [] && b == [] {
    } else if a == [] {
      DiffItems(a, b[1..]);
    } else if b == [] {
      DiffItems(a[1..], b);
    } else if a[0] == b[0] {
      DiffItems(a[1..], b[1..]);
    } else if LcsLength(a[1..], b) >= LcsLength(a, b[1..]) {
      DiffItems(a[1..], b);
    } else {
      DiffItems(a, b[1..]);
    }
  }

  /** The header filter hides a change: deleting a line that starts with `--`
      yields a diff whose filtered added and removed lines are both empty. */
  lemma HiddenDeletion()
    ensures UnifiedDiff(["--x"], []) != []
    ensures FlatMap(UnifiedDiff(["--x"], []), AddedOf) == []
    ensures FlatMap(UnifiedDiff(["--x"], []), RemovedOf) == []
  {
    var es := Diff(["--x"], []);
    assert es == [Delete("--x")];
    assert !es[0].Keep?;
    UnifiedFiltered("current", "generated", es);
    assert "--x"[..2] == "--";
  }
}
