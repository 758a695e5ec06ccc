/**
 * Event versions and changelog entries (app/models/version.py).
 *
 * A version's `data` column holds the JSON text of a snapshot; it is kept as
 * the lines of that text. A changelog entry keeps the line diff it was made
 * from; its `diff_text` is `DiffTextOf`, one string per diff line.
 */
module Versions {
  import opened Wrappers
  import opened JsonText
  import opened LineDiff

  /** A row of `event_versions`; the constructor is `EventVersion.__init__`. */
  datatype EventVersion = EventVersion(eventId: int, versionNumber: int, data: seq<Line>, createdBy: int)

  /** A row of `changelog`; the constructor is `ChangeLog.__init__`. */
  datatype ChangeLog = ChangeLog(eventId: int, fromVersion: int, toVersion: int, diff: seq<DiffLine>, userId: int)

  /** `EventVersion.get_data_dict`: None where `json.loads` raises. */
  function GetDataDict(v: EventVersion): Option<Json>
  {
    Loads(v.data)
  }

  /** `get_data_dict` gives back the object whose dump was stored. */
  lemma GetDataDictInverts(v: EventVersion, j: Json)
    requires v.data == Dumps(j)
    ensures GetDataDict(v) == Some(j)
  {
    LoadsDumps(j);
  }

  /**
   * `self.diff_with(other)`: the diff runs from the other version's text to
   * this one's, and the entry is labelled from the other version to this one.
   */
  function DiffWith(self: EventVersion, other: EventVersion): (c: Option<ChangeLog>)
    ensures c.Some? <==> GetDataDict(self).Some? && GetDataDict(other).Some?
    ensures c.Some? ==> c.value.eventId == self.eventId && c.value.userId == self.createdBy
    ensures c.Some? ==> c.value.fromVersion == other.versionNumber && c.value.toVersion == self.versionNumber
    ensures c.Some? ==> Before(c.value.diff) == Dumps(GetDataDict(other).value)
                        && After(c.value.diff) == Dumps(GetDataDict(self).value)
  {
    match (GetDataDict(self), GetDataDict(other))
    case (Some(mine), Some(theirs)) =>
      Some(ChangeLog(self.eventId, other.versionNumber, self.versionNumber, Compare(Dumps(theirs), Dumps(mine)), self.createdBy))
    case _ => None
  }

  /**
   * For versions whose data are dumps: the removed side of the diff is the
   * other version's text, the added side this version's, and there is a
   * changed line exactly when the two snapshots differ.
   */
  lemma DiffOfSnapshots(self: EventVersion, other: EventVersion, mine: Json, theirs: Json)
    requires self.data == Dumps(mine) && other.data == Dumps(theirs)
    ensures DiffWith(self, other).Some?
    ensures Before(DiffWith(self, other).value.diff) == other.data
    ensures After(DiffWith(self, other).value.diff) == self.data
    ensures (exists i :: 0 <= i < |DiffWith(self, other).value.diff| && IsChange(DiffWith(self, other).value.diff[i]))
            <==> mine != theirs
  {
    GetDataDictInverts(self, mine);
    GetDataDictInverts(other, theirs);
    ChangesIffDifferent(other.data, self.data);
    DumpsInjective(mine, theirs);
    assert DiffWith(self, other).value.diff == Compare(other.data, self.data);
  }

  /** `diff_text.splitlines()`: one string per diff line. */
  function DiffTextOf(c: ChangeLog): seq<string>
  {
    DiffText(c.diff)
  }

  /** The class `get_html_diff` gives a line, by its first character. */
  function CssClass(line: string): (cls: string)
    ensures cls == "addition" <==> |line| > 0 && line[0] == '+'
    ensures cls == "deletion" <==> |line| > 0 && line[0] == '-'
    ensures cls == "info" <==> |line| > 0 && line[0] == '?'
    ensures cls == "unchanged" <==> |line| == 0 || line[0] !in "+-?"
  {
    if |line| > 0 && line[0] == '+' then "addition"
    else if |line| > 0 && line[0] == '-' then "deletion"
    else if |line| > 0 && line[0] == '?' then "info"
    else "unchanged"
  }

  function Block(line: string): string
  {
    "<div class=\"" + CssClass(line) + "\">" + line + "</div>"
  }

  /** The loop of `get_html_diff` over the lines of `diff_text`. */
  method RenderLines(lines: seq<string>) returns (html: seq<string>)
    ensures |html| == |lines|
    ensures forall i :: 0 <= i < |html| ==> html[i] == Block(lines[i])
  {
    html := [];
    var i := 0;
    while i < |lines|
      invariant 0 <= i <= |lines|
      invariant |html| == i
      invariant forall k :: 0 <= k < i ==> html[k] == Block(lines[k])
    {
      html := html + [Block(lines[i])];
      i := i + 1;
    }
  }

  /** `ChangeLog.get_html_diff`: one block per diff line, in order. */
  method HtmlDiff(c: ChangeLog) returns (html: seq<string>)
    ensures |html| == |c.diff|
    ensures forall i :: 0 <= i < |html| ==> html[i] == Block(DiffTextOf(c)[i])
  {
    html := RenderLines(DiffTextOf(c));
  }

  /** What the diff line's kind decides about its HTML class. */
  function KindClass(l: DiffLine): string
  {
    match l
    case Added(_) => "addition"
    case Removed(_) => "deletion"
    case Unchanged(_) => "unchanged"
  }

  /** Added lines render as additions, removed lines as deletions, the rest as unchanged. */
  lemma HtmlClassFollowsKind(c: ChangeLog)
    ensures forall i :: 0 <= i < |c.diff| ==> CssClass(DiffTextOf(c)[i]) == KindClass(c.diff[i])
  {
    forall i | 0 <= i < |c.diff|
      ensures CssClass(DiffTextOf(c)[i]) == KindClass(c.diff[i])
    {
      assert DiffTextOf(c)[i][0] == Marker(c.diff[i])[0];
    }
  }

  /** Two versions with the same snapshot render without additions or deletions. */
  lemma IdenticalRendersUnchanged(self: EventVersion, other: EventVersion, j: Json)
    requires self.data == Dumps(j) && other.data == Dumps(j)
    ensures DiffWith(self, other).Some?
    ensures forall i :: 0 <= i < |DiffTextOf(DiffWith(self, other).value)| ==>
              CssClass(DiffTextOf(DiffWith(self, other).value)[i]) == "unchanged"
  {
    DiffOfSnapshots(self, other, j, j);
    HtmlClassFollowsKind(DiffWith(self, other).value);
  }
}
