/**
 * The line diff between two snapshot texts, standing in for
 * `difflib.Differ().compare(old, new)`.
 *
 * Only what every line-based edit script guarantees is relied on: dropping
 * the added lines gives back the old text, dropping the removed lines gives
 * the new text, and identical texts give no added or removed line. The
 * script computed here keeps the common prefix and then lists the rest of
 * the old text as removed and the rest of the new text as added; it does
 * not reproduce difflib's matching or its '?' hint lines.
 */
module LineDiff {
  import opened JsonText

  datatype DiffLine = Unchanged(line: Line) | Added(line: Line) | Removed(line: Line)

  /** The old text the script starts from. */
  function Before(d: seq<DiffLine>): seq<Line>
  {
    if d == [] then []
    else (if d[0].Added? then [] else [d[0].line]) + Before(d[1..])
  }

  /** The new text the script arrives at. */
  function After(d: seq<DiffLine>): seq<Line>
  {
    if d == [] then []
    else (if d[0].Removed? then [] else [d[0].line]) + After(d[1..])
  }

  predicate IsChange(l: DiffLine) { l.Added? || l.Removed? }

  function RemovedAll(a: seq<Line>): (d: seq<DiffLine>)
    ensures |d| == |a| && forall i :: 0 <= i < |d| ==> d[i] == Removed(a[i])
  {
    if a == [] then [] else [Removed(a[0])] + RemovedAll(a[1..])
  }

  function AddedAll(b: seq<Line>): (d: seq<DiffLine>)
    ensures |d| == |b| && forall i :: 0 <= i < |d| ==> d[i] == Added(b[i])
  {
    if b == [] then [] else [Added(b[0])] + AddedAll(b[1..])
  }

  lemma {:induction false} BeforeAfterAppend(x: seq<DiffLine>, y: seq<DiffLine>)
    ensures Before(x + y) == Before(x) + Before(y)
    ensures After(x + y) == After(x) + After(y)
  {
    if x != [] {
      assert (x + y)[0] == x[0];
      assert (x + y)[1..] == x[1..] + y;
      BeforeAfterAppend(x[1..], y);
    } else {
      assert x + y == y;
    }
  }

  lemma {:induction false} RemovedSides(a: seq<Line>)
    ensures Before(RemovedAll(a)) == a && After(RemovedAll(a)) == []
  {
    if a != [] {
      RemovedSides(a[1..]);
      assert RemovedAll(a)[1..] == RemovedAll(a[1..]);
    }
  }

  lemma {:induction false} AddedSides(b: seq<Line>)
    ensures Before(AddedAll(b)) == [] && After(AddedAll(b)) == b
  {
    if b != [] {
      AddedSides(b[1..]);
      assert AddedAll(b)[1..] == AddedAll(b[1..]);
    }
  }

  /** `Differ().compare(a, b)`: an edit script from `a` to `b`. */
  function Compare(a: seq<Line>, b: seq<Line>): (d: seq<DiffLine>)
    ensures Before(d) == a && After(d) == b
  {
    if a != [] && b != [] && a[0] == b[0] then
      var d := [Unchanged(a[0])] + Compare(a[1..], b[1..]);
      assert d[1..] == Compare(a[1..], b[1..]);
      d
    else
      var d := RemovedAll(a) + AddedAll(b);
      BeforeAfterAppend(RemovedAll(a), AddedAll(b));
      RemovedSides(a);
      AddedSides(b);
      d
  }

  /** A script without changes leads back to where it started. */
  lemma {:induction false} NoChangeSameSides(d: seq<DiffLine>)
    ensures (forall i :: 0 <= i < |d| ==> !IsChange(d[i])) ==> Before(d) == After(d)
  {
    if d != [] {
      NoChangeSameSides(d[1..]);
      assert forall i :: 0 <= i < |d| - 1 ==> d[1..][i] == d[i + 1];
    }
  }

  /** Identical texts give only unchanged lines. */
  lemma {:induction false} CompareSelf(a: seq<Line>)
    ensures |Compare(a, a)| == |a|
    ensures forall i :: 0 <= i < |a| ==> Compare(a, a)[i] == Unchanged(a[i])
  {
    if a != [] {
      CompareSelf(a[1..]);
      assert Compare(a, a) == [Unchanged(a[0])] + Compare(a[1..], a[1..]);
    }
  }

  /** The script has an added or removed line exactly when the texts differ. */
  lemma ChangesIffDifferent(a: seq<Line>, b: seq<Line>)
    ensures (exists i :: 0 <= i < |Compare(a, b)| && IsChange(Compare(a, b)[i])) <==> a != b
  {
    if a == b {
      CompareSelf(a);
    } else {
      var d := Compare(a, b);
      NoChangeSameSides(d);
      assert Before(d) != After(d);
      var i :| 0 <= i < |d| && IsChange(d[i]);
      assert IsChange(Compare(a, b)[i]);
      assert exists j :: 0 <= j < |Compare(a, b)| && IsChange(Compare(a, b)[j]);
      assert a != b;
    }
  }

  /** Comparing the other way round swaps which text each side reproduces. */
  lemma Antisymmetric(a: seq<Line>, b: seq<Line>)
    ensures Before(Compare(b, a)) == After(Compare(a, b))
    ensures After(Compare(b, a)) == Before(Compare(a, b))
  {
  }

  /** Differ's two-character prefixes. */
  function Marker(l: DiffLine): string
  {
    match l
    case Unchanged(_) => "  "
    case Added(_) => "+ "
    case Removed(_) => "- "
  }

  /** The text lines of the diff, as `'\n'.join(diff)` splits back into. */
  function DiffText(d: seq<DiffLine>): (t: seq<string>)
    ensures |t| == |d|
    ensures forall i :: 0 <= i < |d| ==> t[i] == Marker(d[i]) + LineText(d[i].line)
  {
    if d == [] then [] else [Marker(d[0]) + LineText(d[0].line)] + DiffText(d[1..])
  }
}
