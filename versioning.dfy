/**
 * The versioning routes (app/routes/versioning.py): history and changelog
 * listings, one version, rollback and compare. The read-only routes are
 * functions of the database; rollback is a method that changes it.
 */
module Versioning {
  import opened Wrappers
  import opened JsonText
  import opened Permissions
  import opened Decorators
  import opened LineDiff
  import opened Versions
  import opened EventModel
  import opened Store

  const AnyRole: seq<string> := ["owner", "editor", "viewer"]

  /** `jwt_required_with_role(['owner', 'editor', 'viewer'])` on the route's `id`. */
  function ViewerGate(db: Database, id: int, caller: int): Gate
    reads db
  {
    JwtRequiredWithRole(Some(AnyRole), db.grants, caller, map["id" := id])
  }

  /** `min(request.args.get('per_page', 10, type=int), 100)` */
  function PerPage(requested: Option<int>): (n: int)
    ensures n <= 100 && n <= requested.GetOr(10)
    ensures n == 100 || n == requested.GetOr(10)
  {
    var asked := requested.GetOr(10);
    if asked < 100 then asked else 100
  }

  /** The page size `paginate(error_out=False)` works with: below 1 it falls back to 20. */
  function PageSize(perPage: int): (n: int)
    ensures 1 <= n && (perPage >= 1 ==> n == perPage) && (perPage < 1 ==> n == 20)
  {
    if perPage < 1 then 20 else perPage
  }

  /** The first row of a page; a page below 1 is page 1. */
  function PageStart(page: int, perPage: int): (s: int)
    ensures s >= 0
  {
    (if page < 1 then 0 else page - 1) * PageSize(perPage)
  }

  /** The number of rows on a page: a full page, what is left, or none past the end. */
  function PageLength(total: int, page: int, perPage: int): (n: int)
    ensures 0 <= n <= PageSize(perPage)
  {
    var start := PageStart(page, perPage);
    if start >= total then 0
    else if total - start < PageSize(perPage) then total - start
    else PageSize(perPage)
  }

  /**
   * `paginate(...).items`: the rows of one page, in the query's order: as
   * many rows as `PageLength` says, taken from the page's first row on.
   */
  function Paginate<T>(rows: seq<T>, page: int, perPage: int): (r: seq<T>)
    ensures |r| == PageLength(|rows|, page, perPage)
    ensures forall i :: 0 <= i < |r| ==> PageStart(page, perPage) + i < |rows| && r[i] == rows[PageStart(page, perPage) + i]
  {
    var start := PageStart(page, perPage);
    if start >= |rows| then []
    else if start + PageSize(perPage) <= |rows| then rows[start..start + PageSize(perPage)]
    else rows[start..]
  }

  /** `paginate(...).pages`: the fewest pages that hold every row. */
  function Pages(total: int, perPage: int): (n: int)
    ensures total <= 0 ==> n == 0
    ensures total > 0 ==> (n - 1) * PageSize(perPage) < total <= n * PageSize(perPage)
  {
    if total <= 0 then 0
    else
      var size := PageSize(perPage);
      var q := (total - 1) / size;
      assert q * size + (total - 1) % size == total - 1;
      q + 1
  }

  function Reverse<T>(s: seq<T>): (r: seq<T>)
    ensures |r| == |s| && forall i :: 0 <= i < |s| ==> r[i] == s[|s| - 1 - i]
  {
    if s == [] then [] else Reverse(s[1..]) + [s[0]]
  }

  datatype Listing<T> = Listing(status: int, items: seq<T>, total: int, pages: int, page: int, perPage: int)

  /** The event's versions as `order_by(version_number.desc())` returns them. */
  function HistoryOrder(e: Event): (r: seq<EventVersion>)
    reads e
    requires e.Valid()
    ensures |r| == |e.versions|
    ensures forall i, j :: 0 <= i < j < |r| ==> r[i].versionNumber > r[j].versionNumber
    ensures forall i :: 0 <= i < |r| ==> r[i].eventId == e.id && r[i] in e.versions
  {
    Reverse(e.versions)
  }

  /** `get_event_history` */
  function GetEventHistory(db: Database, id: int, caller: int, page: Option<int>, perPage: Option<int>): (r: Listing<EventVersion>)
    reads db, db.events.Values
    requires db.Valid()
    ensures r.status == 403 <==> ViewerGate(db, id, caller).Deny?
    ensures r.status == 404 <==> ViewerGate(db, id, caller).Run? && id !in db.events
    ensures r.status == 200 <==> ViewerGate(db, id, caller).Run? && id in db.events
    ensures r.status == 200 ==> r.perPage == PerPage(perPage) <= 100 && r.page == page.GetOr(1)
    ensures r.status == 200 ==> r.total == |db.events[id].versions| && r.pages == Pages(r.total, r.perPage)
    ensures r.status == 200 ==> r.items == HistoryPage(db.events[id], r.page, r.perPage)
    ensures r.status == 200 ==> |r.items| == PageLength(r.total, r.page, r.perPage)
    ensures r.status == 200 ==> forall i :: 0 <= i < |r.items| ==>
              r.items[i].versionNumber == db.events[id].currentVersion - PageStart(r.page, r.perPage) - i
    ensures r.status != 200 ==> r.items == []
  {
    if ViewerGate(db, id, caller).Deny? then Listing(403, [], 0, 0, 0, 0)
    else if id !in db.events then Listing(404, [], 0, 0, 0, 0)
    else
      var e := db.events[id];
      var size := PerPage(perPage);
      Listing(200, HistoryPage(e, page.GetOr(1), size), |e.versions|, Pages(|e.versions|, size), page.GetOr(1), size)
  }

  /**
   * One page of the event's versions, newest first: the i-th row is the
   * version numbered `currentVersion - start - i`.
   */
  function HistoryPage(e: Event, page: int, perPage: int): (r: seq<EventVersion>)
    reads e
    requires e.Valid()
    ensures |r| == PageLength(|e.versions|, page, perPage)
    ensures forall i :: 0 <= i < |r| ==>
              && PageStart(page, perPage) + i < |e.versions|
              && r[i] == e.versions[|e.versions| - 1 - PageStart(page, perPage) - i]
              && r[i].versionNumber == e.currentVersion - PageStart(page, perPage) - i
    ensures forall i, j :: 0 <= i < j < |r| ==> r[i].versionNumber > r[j].versionNumber
  {
    var rows := HistoryOrder(e);
    var items := Paginate(rows, page, perPage);
    assert forall i :: 0 <= i < |items| ==> items[i] == rows[PageStart(page, perPage) + i];
    items
  }

  /** `ChangeLog.query.filter_by(event_id=id)`, oldest first. */
  function LogsOf(logs: seq<ChangeLog>, id: int): (r: seq<ChangeLog>)
    ensures forall c :: c in r <==> c in logs && c.eventId == id
    ensures |r| <= |logs|
  {
    if logs == [] then []
    else LogsOf(logs[..|logs| - 1], id) + (if logs[|logs| - 1].eventId == id then [logs[|logs| - 1]] else [])
  }

  /** Filtering keeps insertion order: it distributes over concatenation. */
  lemma {:induction false} LogsOfConcat(a: seq<ChangeLog>, b: seq<ChangeLog>, id: int)
    ensures LogsOf(a + b, id) == LogsOf(a, id) + LogsOf(b, id)
    decreases |b|
  {
    if b == [] {
      assert a + b == a;
    } else {
      var last := b[|b| - 1];
      var tail := if last.eventId == id then [last] else [];
      assert (a + b)[..|a + b| - 1] == a + b[..|b| - 1];
      LogsOfConcat(a, b[..|b| - 1], id);
      assert LogsOf(a + b, id) == (LogsOf(a, id) + LogsOf(b[..|b| - 1], id)) + tail;
    }
  }

  /** A newly appended entry of the event comes first in the newest-first order. */
  lemma {:induction false} NewestLogFirst(logs: seq<ChangeLog>, c: ChangeLog)
    ensures Reverse(LogsOf(logs + [c], c.eventId))[0] == c
    ensures Reverse(LogsOf(logs + [c], c.eventId))[1..] == Reverse(LogsOf(logs, c.eventId))
  {
    assert (logs + [c])[..|logs + [c]| - 1] == logs;
    var r := Reverse(LogsOf(logs, c.eventId));
    assert Reverse(LogsOf(logs + [c], c.eventId))[1..] == r;
  }

  /**
   * `get_event_changelog`: the event's entries newest first. Entries carry
   * no timestamp in the model; their insertion order stands for it.
   */
  function GetEventChangelog(db: Database, id: int, caller: int, page: Option<int>, perPage: Option<int>): (r: Listing<ChangeLog>)
    reads db
    ensures r.status == 403 <==> ViewerGate(db, id, caller).Deny?
    ensures r.status == 404 <==> ViewerGate(db, id, caller).Run? && id !in db.events
    ensures r.status == 200 <==> ViewerGate(db, id, caller).Run? && id in db.events
    ensures r.status == 200 ==> r.perPage == PerPage(perPage) <= 100 && r.page == page.GetOr(1)
    ensures r.status == 200 ==> r.total == |LogsOf(db.changelogs, id)| && r.pages == Pages(r.total, r.perPage)
    ensures r.status == 200 ==> r.items == Paginate(Reverse(LogsOf(db.changelogs, id)), r.page, r.perPage)
    ensures r.status == 200 ==> |r.items| == PageLength(r.total, r.page, r.perPage)
    ensures r.status == 200 ==> forall i :: 0 <= i < |r.items| ==> r.items[i] in db.changelogs && r.items[i].eventId == id
    ensures r.status != 200 ==> r.items == []
  {
    if ViewerGate(db, id, caller).Deny? then Listing(403, [], 0, 0, 0, 0)
    else if id !in db.events then Listing(404, [], 0, 0, 0, 0)
    else
      var size := PerPage(perPage);
      var rows := Reverse(LogsOf(db.changelogs, id));
      var items := Paginate(rows, page.GetOr(1), size);
      assert forall i :: 0 <= i < |items| ==> items[i] in rows;
      Listing(200, items, |rows|, Pages(|rows|, size), page.GetOr(1), size)
  }

  /** `get_specific_version` */
  function GetSpecificVersion(db: Database, id: int, caller: int, n: int): (r: (int, Option<EventVersion>))
    reads db, db.events.Values
    requires db.Valid()
    ensures r.0 == 403 <==> ViewerGate(db, id, caller).Deny?
    ensures r.0 == 200 <==> ViewerGate(db, id, caller).Run? && id in db.events && 2 <= n <= db.events[id].currentVersion
    ensures r.0 == 200 || r.0 == 403 || r.0 == 404
    ensures r.0 == 200 ==> r.1.Some? && r.1.value.versionNumber == n && r.1.value.eventId == id
    ensures r.0 != 200 ==> r.1.None?
  {
    if ViewerGate(db, id, caller).Deny? then (403, None)
    else if id !in db.events then (404, None)
    else
      var v := db.events[id].FindVersion(n);
      if v.None? then (404, None) else (200, v)
  }

  datatype Comparison = Comparison(status: int, comparison: Option<ChangeLog>, fromVersion: int, toVersion: int)

  /**
   * `compare_versions` as written. Once both versions are found, the route
   * renders `source.diff_with(target).to_dict()`. That entry is never added
   * to the session, so its `timestamp` column default is never applied and
   * `timestamp.isoformat()` raises: every found pair answers 500.
   */
  function CompareVersions(db: Database, id: int, caller: int, from: Option<int>, to: Option<int>): (r: Comparison)
    reads db, db.events.Values
    requires db.Valid()
    ensures r.status == 403 <==> ViewerGate(db, id, caller).Deny?
    ensures r.status == 400 <==> ViewerGate(db, id, caller).Run? && id in db.events
                                 && (from.GetOr(0) == 0 || to.GetOr(0) == 0)
    ensures r.status == 404 <==> ViewerGate(db, id, caller).Run?
                                 && (id !in db.events
                                     || (from.GetOr(0) != 0 && to.GetOr(0) != 0
                                         && (db.events[id].FindVersion(from.value).None? || db.events[id].FindVersion(to.value).None?)))
    ensures r.status == 500 <==> ViewerGate(db, id, caller).Run? && id in db.events
                                 && from.GetOr(0) != 0 && to.GetOr(0) != 0
                                 && db.events[id].FindVersion(from.value).Some? && db.events[id].FindVersion(to.value).Some?
    ensures r.status in {400, 403, 404, 500} && r.comparison.None?
  {
    if ViewerGate(db, id, caller).Deny? then Comparison(403, None, 0, 0)
    else if id !in db.events then Comparison(404, None, 0, 0)
    else if from.GetOr(0) == 0 || to.GetOr(0) == 0 then Comparison(400, None, 0, 0)
    else
      var e := db.events[id];
      if e.FindVersion(from.value).None? || e.FindVersion(to.value).None? then Comparison(404, None, 0, 0)
      else Comparison(500, None, 0, 0)
  }

  /**
   * `compare_versions` as evidently intended: 200 with
   * `source.diff_with(target)`, so the entry runs from the requested `to` to
   * the requested `from`, while the outer fields echo the request. Nothing
   * is stored.
   */
  function CompareVersionsIntended(db: Database, id: int, caller: int, from: Option<int>, to: Option<int>): (r: Comparison)
    reads db, db.events.Values
    requires db.Valid()
    ensures r.status == 403 <==> ViewerGate(db, id, caller).Deny?
    ensures r.status == 400 <==> ViewerGate(db, id, caller).Run? && id in db.events
                                 && (from.GetOr(0) == 0 || to.GetOr(0) == 0)
    ensures r.status == 404 <==> ViewerGate(db, id, caller).Run?
                                 && (id !in db.events
                                     || (from.GetOr(0) != 0 && to.GetOr(0) != 0
                                         && (db.events[id].FindVersion(from.value).None? || db.events[id].FindVersion(to.value).None?)))
    ensures r.status == 500 <==> ViewerGate(db, id, caller).Run? && id in db.events
                                 && from.GetOr(0) != 0 && to.GetOr(0) != 0
                                 && db.events[id].FindVersion(from.value).Some? && db.events[id].FindVersion(to.value).Some?
                                 && DiffWith(db.events[id].versions[from.value - 2], db.events[id].versions[to.value - 2]).None?
    ensures r.status in {200, 400, 403, 404, 500}
    ensures r.status == 200 ==> r.comparison.Some? && r.fromVersion == from.value && r.toVersion == to.value
    ensures r.status == 200 ==> r.comparison == DiffWith(db.events[id].versions[from.value - 2], db.events[id].versions[to.value - 2])
    ensures r.status == 200 ==> r.comparison.value.fromVersion == to.value && r.comparison.value.toVersion == from.value
    ensures r.status == 200 ==> r.comparison.value.eventId == id
    ensures r.status != 200 ==> r.comparison.None?
  {
    if ViewerGate(db, id, caller).Deny? then Comparison(403, None, 0, 0)
    else if id !in db.events then Comparison(404, None, 0, 0)
    else if from.GetOr(0) == 0 || to.GetOr(0) == 0 then Comparison(400, None, 0, 0)
    else
      var e := db.events[id];
      var source := e.FindVersion(from.value);
      var target := e.FindVersion(to.value);
      if source.None? || target.None? then Comparison(404, None, 0, 0)
      else
        var diff := DiffWith(source.value, target.value);
        if diff.None? then Comparison(500, None, 0, 0)
        else Comparison(200, diff, from.value, to.value)
  }

  /**
   * Two found versions whose data decode: the route as written answers 500
   * where the intended route answers 200 with their diff.
   */
  lemma CompareFoundPairFails(db: Database, id: int, caller: int, from: int, to: int)
    requires db.Valid() && ViewerGate(db, id, caller).Run? && id in db.events
    requires from != 0 && to != 0
    requires db.events[id].FindVersion(from).Some? && db.events[id].FindVersion(to).Some?
    requires GetDataDict(db.events[id].versions[from - 2]).Some? && GetDataDict(db.events[id].versions[to - 2]).Some?
    ensures CompareVersions(db, id, caller, Some(from), Some(to)).status == 500
    ensures CompareVersionsIntended(db, id, caller, Some(from), Some(to)).status == 200
    ensures CompareVersionsIntended(db, id, caller, Some(from), Some(to)).comparison
            == DiffWith(db.events[id].versions[from - 2], db.events[id].versions[to - 2])
  {
  }

  /**
   * The part of `rollback_event` after the checks, on the stored event `id`
   * and its version `target`: 500 when the snapshot does not decode or a
   * field has the wrong JSON type (nothing changes), else 200 with the
   * current state stored as a new version, the six scalar fields copied
   * back, the pattern left alone and a changelog from the target to the
   * new snapshot appended.
   */
  method RestoreVersion(db: Database, id: int, target: EventVersion, caller: int) returns (status: int)
    modifies db`changelogs, db.events[id]
    requires db.Valid() && id in db.events
    ensures db.Valid()
    ensures status == 200 || status == 500
    ensures status == 500 <==> GetDataDict(target).None? || Restore(old(db.events[id].Current()), GetDataDict(target).value).None?
    ensures status == 500 ==> db.changelogs == old(db.changelogs) && unchanged(db.events[id])
    ensures status == 200 ==>
              var e := db.events[id];
              && e.currentVersion == old(e.currentVersion) + 1
              && e.versions == old(e.versions) + [EventVersion(id, e.currentVersion, Dumps(SnapshotData(old(e.Current()), old(e.pattern))), caller)]
              && Restore(old(e.Current()), GetDataDict(target).value) == Some(e.Current())
              && e.pattern == old(e.pattern)
              && DiffWith(e.versions[|e.versions| - 1], target).Some?
              && db.changelogs == old(db.changelogs) + [DiffWith(e.versions[|e.versions| - 1], target).value]
              && DiffWith(e.versions[|e.versions| - 1], target).value.fromVersion == target.versionNumber
              && DiffWith(e.versions[|e.versions| - 1], target).value.toVersion == e.currentVersion
  {
    var e := db.events[id];
    var data := GetDataDict(target);
    if data.None? {
      return 500;
    }
    var restored := Restore(e.Current(), data.value);
    if restored.None? {
      return 500;
    }
    var v := db.ReviseEvent(id, caller, restored.value, e.pattern);
    GetDataDictInverts(v, SnapshotData(old(e.Current()), e.pattern));
    var changelog := DiffWith(v, target);
    db.changelogs := db.changelogs + [changelog.value];
    return 200;
  }

  /**
   * `rollback_event` behind `editor_required`: 403 unless editor or owner,
   * 404 for a missing event or version, then as `RestoreVersion`.
   */
  method RollbackEvent(db: Database, id: int, versionId: int, caller: int) returns (status: int)
    modifies db`changelogs, if id in db.events then {db.events[id]} else {}
    requires db.Valid()
    ensures db.Valid()
    ensures status == 403 <==> EditorRequired(db.grants, caller, map["id" := id]).Deny?
    ensures status == 404 <==> EditorRequired(db.grants, caller, map["id" := id]).Run?
                               && (id !in db.events || !(2 <= versionId <= old(db.events[id].currentVersion)))
    ensures status in {200, 403, 404, 500}
    ensures status != 200 ==> db.changelogs == old(db.changelogs) && (id in db.events ==> unchanged(db.events[id]))
    ensures status == 200 || status == 500 ==>
              && id in db.events && 2 <= versionId <= old(db.events[id].currentVersion)
              && (status == 500 <==> GetDataDict(old(db.events[id].versions[versionId - 2])).None?
                                     || Restore(old(db.events[id].Current()),
                                                GetDataDict(old(db.events[id].versions[versionId - 2])).value).None?)
    ensures status == 200 ==>
              var e := db.events[id];
              var target := old(e.versions[versionId - 2]);
              && e.currentVersion == old(e.currentVersion) + 1
              && e.versions == old(e.versions) + [EventVersion(id, e.currentVersion, Dumps(SnapshotData(old(e.Current()), old(e.pattern))), caller)]
              && Restore(old(e.Current()), GetDataDict(target).value) == Some(e.Current())
              && e.pattern == old(e.pattern)
              && DiffWith(e.versions[|e.versions| - 1], target).Some?
              && db.changelogs == old(db.changelogs) + [DiffWith(e.versions[|e.versions| - 1], target).value]
              && DiffWith(e.versions[|e.versions| - 1], target).value.fromVersion == versionId
              && DiffWith(e.versions[|e.versions| - 1], target).value.toVersion == e.currentVersion
  {
    if EditorRequired(db.grants, caller, map["id" := id]).Deny? {
      return 403;
    }
    if id !in db.events {
      return 404;
    }
    var target := db.events[id].FindVersion(versionId);
    if target.None? {
      return 404;
    }
    status := RestoreVersion(db, id, target.value, caller);
  }
}
