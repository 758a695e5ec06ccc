/**
 * The event routes (app/routes/events.py). The handlers receive the
 * request body as `EventSchema().load` returned it: an `EventInput` whose
 * absent keys are None. `caller` is the JWT identity.
 */
module EventRoutes {
  import opened Wrappers
  import opened JsonText
  import opened Permissions
  import opened Decorators
  import opened Validators
  import opened Versions
  import opened EventModel
  import opened Store
  import opened Versioning

  /** `not title or not start_time or not end_time` */
  predicate MissingRequired(d: EventInput)
  {
    !StrTruthy(d.title) || d.startTime.None? || d.endTime.None?
  }

  /** The `Event(...)` that `create_event` builds, with its defaults. */
  function NewDetails(d: EventInput): (r: Details)
    requires !MissingRequired(d)
    ensures r.title == d.title.value && r.startTime == d.startTime.value && r.endTime == d.endTime.value
    ensures r.description == Some(d.description.GetOr("")) && r.location == d.location
    ensures r.isRecurring <==> d.isRecurring == Some(true)
  {
    Details(d.title.value, Some(d.description.GetOr("")), d.startTime.value, d.endTime.value, d.location, d.isRecurring.GetOr(false))
  }

  /** The `RecurrencePattern(...)` of create: None where indexing `type` or `RecurrenceType` raises. */
  function NewPattern(id: int, p: PatternInput): (r: Option<Pattern>)
    ensures r.Some? <==> p.kind.Some? && p.kind.value in TypeChoices
    ensures r.Some? ==> TypeValue(r.value.kind) == p.kind.value && r.value.id == id
    ensures r.Some? ==> r.value.interval == p.interval.GetOr(1)
    ensures r.Some? ==> && r.value.daysOfWeek == p.daysOfWeek && r.value.dayOfMonth == p.dayOfMonth
                        && r.value.monthOfYear == p.monthOfYear && r.value.endDate == p.endDate
                        && r.value.count == p.count && r.value.customRule == p.customRule
  {
    if p.kind.None? then None
    else match ParseType(p.kind.value)
      case None => None
      case Some(t) =>
        Some(Pattern(id, t, p.interval.GetOr(1), p.daysOfWeek, p.dayOfMonth, p.monthOfYear, p.endDate, p.count, p.customRule))
  }

  /**
   * The pattern a new event gets: one only when it is recurring and the
   * body has `recurrence_pattern`. The outer None is a raise.
   */
  function PatternFor(d: EventInput, id: int): (r: Option<Option<Pattern>>)
    requires !MissingRequired(d)
    ensures !(NewDetails(d).isRecurring && d.pattern.Some?) ==> r == Some(None)
    ensures NewDetails(d).isRecurring && d.pattern.Some? ==>
              (r.Some? <==> NewPattern(id, d.pattern.value).Some?) && (r.Some? ==> r.value == NewPattern(id, d.pattern.value))
  {
    if NewDetails(d).isRecurring && d.pattern.Some? then
      match NewPattern(id, d.pattern.value)
      case None => None
      case Some(p) => Some(Some(p))
    else Some(None)
  }

  /** A body the schema accepts passes the route's own required-field check and pattern construction. */
  lemma SchemaPassesRouteChecks(d: EventInput, id: int)
    requires EventWithinSchema(d)
    ensures !MissingRequired(d) && PatternFor(d, id).Some?
  {
  }

  /**
   * What `create_event` and each kept entry of `batch_create_events` add:
   * the event under the next id, its owner grant for the creator, and its
   * first version, number 2.
   */
  method AddEvent(db: Database, caller: int, d: Details, p: Option<Pattern>) returns (id: int)
    modifies db`events, db`grants, db`nextEventId
    requires db.Valid()
    ensures db.Valid()
    ensures id == old(db.nextEventId) && id !in old(db.events) && db.nextEventId == id + 1
    ensures id in db.events && db.events == old(db.events)[id := db.events[id]] && fresh(db.events[id])
    ensures db.grants == old(db.grants)[(id, caller) := Grant(id, caller, Owner, caller)]
    ensures GrantsOf(db.grants, id) == map[(id, caller) := Grant(id, caller, Owner, caller)]
    ensures OwnerCount(db.grants, id) == 1
    ensures var e := db.events[id];
            && e.Current() == d && e.pattern == p && e.creatorId == caller
            && e.currentVersion == 2
            && e.versions == [EventVersion(id, 2, Dumps(SnapshotData(d, p)), caller)]
  {
    id := db.nextEventId;
    var e := new Event(id, d.title, d.description, d.startTime, d.endTime, caller, d.location, d.isRecurring);
    e.pattern := p;
    var v := e.RecordVersion(caller);
    db.events := db.events[id := e];
    db.nextEventId := id + 1;
    FirstGrant(db.grants, id, caller);
    db.grants := db.grants[(id, caller) := Grant(id, caller, Owner, caller)];
  }

  /**
   * `create_event`: 400 when a required field is missing, 500 when the
   * pattern cannot be built, else 201 with one new event, one owner grant
   * and one version.
   */
  method CreateEvent(db: Database, caller: int, data: EventInput) returns (status: int, id: int)
    modifies db`events, db`grants, db`nextEventId, db`nextPatternId
    requires db.Valid()
    ensures db.Valid()
    ensures status == 400 <==> MissingRequired(data)
    ensures status == 500 <==> !MissingRequired(data) && PatternFor(data, old(db.nextPatternId)).None?
    ensures status in {201, 400, 500}
    ensures status != 201 ==> unchanged(db)
    ensures status == 201 ==>
              && id == old(db.nextEventId) && id !in old(db.events)
              && db.events.Keys == old(db.events).Keys + {id} && fresh(db.events[id])
              && (forall j | j in old(db.events) :: db.events[j] == old(db.events)[j])
              && db.grants == old(db.grants)[(id, caller) := Grant(id, caller, Owner, caller)]
              && OwnerCount(db.grants, id) == 1
              && db.events[id].Current() == NewDetails(data)
              && db.events[id].pattern == PatternFor(data, old(db.nextPatternId)).value
              && db.events[id].creatorId == caller
              && db.events[id].currentVersion == 2
              && db.events[id].versions == [EventVersion(id, 2, Dumps(SnapshotData(NewDetails(data), db.events[id].pattern)), caller)]
              && db.nextEventId == id + 1
              && db.nextPatternId == old(db.nextPatternId) + (if db.events[id].pattern.Some? then 1 else 0)
  {
    id := 0;
    if MissingRequired(data) {
      return 400, id;
    }
    var details := NewDetails(data);
    var pattern := PatternFor(data, db.nextPatternId);
    if pattern.None? {
      return 500, id;
    }
    if pattern.value.Some? {
      db.nextPatternId := db.nextPatternId + 1;
    }
    id := AddEvent(db, caller, details, pattern.value);
    return 201, id;
  }

  /** `data.get(key, current)` for a nullable column: a present key replaces, an absent one keeps. */
  function Replace<T>(given: Option<T>, current: Option<T>): Option<T>
  {
    if given.Some? then given else current
  }

  /** The six scalar assignments of `update_event`. */
  function UpdatedDetails(cur: Details, d: EventInput): (r: Details)
    ensures d.title.Some? ==> r.title == d.title.value
    ensures d.title.None? ==> r.title == cur.title
    ensures d.description.Some? ==> r.description == d.description
    ensures d.description.None? ==> r.description == cur.description
    ensures d.startTime.Some? ==> r.startTime == d.startTime.value
    ensures d.startTime.None? ==> r.startTime == cur.startTime
    ensures d.endTime.Some? ==> r.endTime == d.endTime.value
    ensures d.endTime.None? ==> r.endTime == cur.endTime
    ensures d.location.Some? ==> r.location == d.location
    ensures d.location.None? ==> r.location == cur.location
    ensures d.isRecurring.Some? ==> r.isRecurring == d.isRecurring.value
    ensures d.isRecurring.None? ==> r.isRecurring == cur.isRecurring
  {
    Details(d.title.GetOr(cur.title), Replace(d.description, cur.description), d.startTime.GetOr(cur.startTime),
            d.endTime.GetOr(cur.endTime), Replace(d.location, cur.location), d.isRecurring.GetOr(cur.isRecurring))
  }

  /** The body with no keys at all. */
  const EmptyInput := EventInput(None, None, None, None, None, None, None)

  /** An update with no keys keeps every field, and repeating an update changes nothing more. */
  lemma UpdatedDetailsLaws(cur: Details, d: EventInput)
    ensures UpdatedDetails(cur, EmptyInput) == cur
    ensures UpdatedDetails(UpdatedDetails(cur, d), d) == UpdatedDetails(cur, d)
  {
  }

  /**
   * The merge branch of `update_event` on the existing pattern: the same
   * row (same id), each present sub-field replacing the stored one. None
   * where `RecurrenceType(...)` raises.
   */
  function MergePattern(cur: Pattern, p: PatternInput): (r: Option<Pattern>)
    ensures r.Some? <==> p.kind.None? || p.kind.value in TypeChoices
    ensures r.Some? ==> r.value.id == cur.id
    ensures r.Some? ==> (p.kind.None? ==> r.value.kind == cur.kind) && (p.kind.Some? ==> TypeValue(r.value.kind) == p.kind.value)
    ensures r.Some? ==> r.value.interval == p.interval.GetOr(cur.interval)
    ensures r.Some? ==> && r.value.daysOfWeek == Replace(p.daysOfWeek, cur.daysOfWeek)
                        && r.value.dayOfMonth == Replace(p.dayOfMonth, cur.dayOfMonth)
                        && r.value.monthOfYear == Replace(p.monthOfYear, cur.monthOfYear)
                        && r.value.endDate == Replace(p.endDate, cur.endDate)
                        && r.value.count == Replace(p.count, cur.count)
                        && r.value.customRule == Replace(p.customRule, cur.customRule)
  {
    TypeValueRoundTrip(cur.kind, cur.kind);
    match ParseType(p.kind.GetOr(TypeValue(cur.kind)))
    case None => None
    case Some(t) =>
      Some(Pattern(cur.id, t, p.interval.GetOr(cur.interval), Replace(p.daysOfWeek, cur.daysOfWeek),
                   Replace(p.dayOfMonth, cur.dayOfMonth), Replace(p.monthOfYear, cur.monthOfYear),
                   Replace(p.endDate, cur.endDate), Replace(p.count, cur.count), Replace(p.customRule, cur.customRule)))
  }

  /** Merging no sub-fields leaves the pattern as it was; merging twice is merging once. */
  lemma MergePatternLaws(cur: Pattern, p: PatternInput)
    ensures MergePattern(cur, EmptyPattern) == Some(cur)
    ensures MergePattern(cur, p).Some? ==> MergePattern(MergePattern(cur, p).value, p) == MergePattern(cur, p)
  {
    TypeValueRoundTrip(cur.kind, cur.kind);
    if MergePattern(cur, p).Some? {
      var m := MergePattern(cur, p).value;
      TypeValueRoundTrip(m.kind, m.kind);
    }
  }

  /**
   * The pattern after `update_event`, from the new recurring flag: with
   * pattern data, created (taking id `nextId`) when there is none, merged
   * when there is one; without the flag, deleted. The outer None is a raise.
   */
  function UpdatedPattern(cur: Option<Pattern>, recurring: bool, input: Option<PatternInput>, nextId: int): (r: Option<Option<Pattern>>)
    ensures !recurring ==> r == Some(None)
    ensures recurring && input.None? ==> r == Some(cur)
    ensures recurring && input.Some? && cur.None? ==>
              (r.Some? <==> NewPattern(nextId, input.value).Some?) && (r.Some? ==> r.value == NewPattern(nextId, input.value))
    ensures recurring && input.Some? && cur.Some? ==>
              (r.Some? <==> MergePattern(cur.value, input.value).Some?) && (r.Some? ==> r.value == MergePattern(cur.value, input.value))
  {
    var step :=
      if recurring && input.Some? then
        if cur.None? then
          (match NewPattern(nextId, input.value) case None => None case Some(p) => Some(Some(p)))
        else
          (match MergePattern(cur.value, input.value) case None => None case Some(p) => Some(Some(p)))
      else Some(cur);
    if step.Some? && !recurring && step.value.Some? then Some(None) else step
  }

  /**
   * `update_event`: 403 unless editor or owner, 404 for a missing event,
   * 500 when the pattern cannot be built or merged (rolled back), else 200:
   * the version of the state before the update is stored, then the fields
   * and the pattern take their new values. Only this event changes.
   */
  method UpdateEvent(db: Database, id: int, caller: int, data: EventInput) returns (status: int)
    modifies db`nextPatternId, if id in db.events then {db.events[id]} else {}
    requires db.Valid()
    ensures db.Valid()
    ensures db.events == old(db.events) && db.grants == old(db.grants)
    ensures status == 403 <==> EditorRequired(db.grants, caller, map["id" := id]).Deny?
    ensures status == 404 <==> EditorRequired(db.grants, caller, map["id" := id]).Run? && id !in db.events
    ensures status in {200, 403, 404, 500}
    ensures status != 200 ==> db.nextPatternId == old(db.nextPatternId) && (id in db.events ==> unchanged(db.events[id]))
    ensures status == 500 <==>
              && EditorRequired(db.grants, caller, map["id" := id]).Run? && id in db.events
              && UpdatedPattern(old(db.events[id].pattern), UpdatedDetails(old(db.events[id].Current()), data).isRecurring,
                                data.pattern, old(db.nextPatternId)).None?
    ensures status == 200 ==>
              var e := db.events[id];
              var d := UpdatedDetails(old(e.Current()), data);
              && e.currentVersion == old(e.currentVersion) + 1
              && e.versions == old(e.versions) +
                   [EventVersion(id, e.currentVersion, Dumps(SnapshotData(old(e.Current()), old(e.pattern))), caller)]
              && e.Current() == d
              && e.pattern == UpdatedPattern(old(e.pattern), d.isRecurring, data.pattern, old(db.nextPatternId)).value
              && db.nextPatternId == old(db.nextPatternId) + (if old(e.pattern).None? && e.pattern.Some? then 1 else 0)
  {
    if EditorRequired(db.grants, caller, map["id" := id]).Deny? {
      return 403;
    }
    if id !in db.events {
      return 404;
    }
    var e := db.events[id];
    var details := UpdatedDetails(e.Current(), data);
    var pattern := UpdatedPattern(e.pattern, details.isRecurring, data.pattern, db.nextPatternId);
    if pattern.None? {
      return 500;
    }
    var created := e.pattern.None? && pattern.value.Some?;
    var v := db.ReviseEvent(id, caller, details, pattern.value);
    if created {
      db.nextPatternId := db.nextPatternId + 1;
    }
    return 200;
  }

  /** The version an update stores restores, on rollback, the details the event had before the update. */
  lemma UpdateVersionRestores(id: int, n: int, u: int, before: Details, p: Option<Pattern>, cur: Details)
    ensures GetDataDict(EventVersion(id, n, Dumps(SnapshotData(before, p)), u)).Some?
    ensures Restore(cur, GetDataDict(EventVersion(id, n, Dumps(SnapshotData(before, p)), u)).value) == Some(before)
  {
    GetDataDictInverts(EventVersion(id, n, Dumps(SnapshotData(before, p)), u), SnapshotData(before, p));
    RestoreSnapshot(cur, before, p);
  }

  /** The grant table without the rows of event `id`. */
  function WithoutEvent(g: Grants, id: int): (r: Grants)
    ensures forall k :: k in r <==> k in g && k.0 != id
    ensures forall k | k in r :: r[k] == g[k]
  {
    map k | k in g && k.0 != id :: g[k]
  }

  /** After the cascade the event has no owner, and every other event keeps its owners. */
  lemma WithoutEventOwners(g: Grants, id: int, e: int)
    ensures OwnerCount(WithoutEvent(g, id), id) == 0
    ensures e != id ==> OwnersOf(WithoutEvent(g, id), e) == OwnersOf(g, e)
  {
    assert OwnersOf(WithoutEvent(g, id), id) == {};
  }

  /**
   * `delete_event`: 403 unless owner, 404 for a missing event, else 200:
   * the event goes, and with it (by the cascades) its pattern, its
   * versions and all its grant rows. Changelog rows are kept.
   */
  method DeleteEvent(db: Database, id: int, caller: int) returns (status: int)
    modifies db`events, db`grants
    requires db.Valid()
    ensures db.Valid()
    ensures status == 403 <==> OwnerRequired(old(db.grants), caller, map["id" := id]).Deny?
    ensures status == 404 <==> OwnerRequired(old(db.grants), caller, map["id" := id]).Run? && id !in old(db.events)
    ensures status in {200, 403, 404}
    ensures status != 200 ==> unchanged(db)
    ensures status == 200 ==>
              && id in old(db.events)
              && db.events == old(db.events) - {id}
              && db.grants == WithoutEvent(old(db.grants), id)
  {
    if OwnerRequired(db.grants, caller, map["id" := id]).Deny? {
      return 403;
    }
    if id !in db.events {
      return 404;
    }
    db.events := db.events - {id};
    db.grants := WithoutEvent(db.grants, id);
    return 200;
  }

  /** The entries `batch_create_events` does not skip, in order. */
  function Kept(entries: seq<EventInput>): (r: seq<EventInput>)
    ensures |r| <= |entries|
    ensures forall i :: 0 <= i < |r| ==> !MissingRequired(r[i])
  {
    if entries == [] then []
    else (if MissingRequired(entries[0]) then [] else [entries[0]]) + Kept(entries[1..])
  }

  /** An entry is kept exactly when it is in the batch and has title, start and end. */
  lemma {:induction false} KeptMembers(entries: seq<EventInput>, x: EventInput)
    ensures x in Kept(entries) <==> x in entries && !MissingRequired(x)
  {
    if entries != [] {
      KeptMembers(entries[1..], x);
      assert entries == [entries[0]] + entries[1..];
    }
  }

  /** Skipping keeps the order of the batch: it distributes over concatenation. */
  lemma {:induction false} KeptConcat(a: seq<EventInput>, b: seq<EventInput>)
    ensures Kept(a + b) == Kept(a) + Kept(b)
  {
    if a == [] {
      assert a + b == b;
    } else {
      assert (a + b)[1..] == a[1..] + b;
      KeptConcat(a[1..], b);
    }
  }

  /** Entries the schema accepts are never skipped. */
  lemma {:induction false} SchemaKeepsAll(entries: seq<EventInput>)
    requires forall i :: 0 <= i < |entries| ==> EventWithinSchema(entries[i])
    ensures Kept(entries) == entries
  {
    if entries != [] {
      SchemaKeepsAll(entries[1..]);
    }
  }

  /** The grant table after owner rows for `ids`, in order, have been added. */
  function WithOwners(g: Grants, ids: seq<int>, u: int): Grants
  {
    if ids == [] then g
    else WithOwners(g, ids[..|ids| - 1], u)[(ids[|ids| - 1], u) := Grant(ids[|ids| - 1], u, Owner, u)]
  }

  /** Owner rows for new, distinct ids make each of those events owned once, by `u`. */
  lemma {:induction false} WithOwnersOwnedOnce(g: Grants, ids: seq<int>, u: int, start: int)
    requires forall k | k in g :: k.0 < start
    requires forall k :: 0 <= k < |ids| ==> ids[k] == start + k
    ensures forall k :: 0 <= k < |ids| ==>
              && (ids[k], u) in WithOwners(g, ids, u) && WithOwners(g, ids, u)[(ids[k], u)].role == Owner
              && OwnersOf(WithOwners(g, ids, u), ids[k]) == {(ids[k], u)}
    ensures forall k | k in WithOwners(g, ids, u) :: k.0 < start + |ids|
  {
    if ids != [] {
      var init := ids[..|ids| - 1];
      var last := ids[|ids| - 1];
      WithOwnersOwnedOnce(g, init, u, start);
      var h := WithOwners(g, init, u);
      forall k | 0 <= k < |ids|
        ensures OwnersOf(h[(last, u) := Grant(last, u, Owner, u)], ids[k]) == {(ids[k], u)}
      {
        OwnersAfterStore(h, (last, u), Grant(last, u, Owner, u), ids[k]);
        if k < |init| {
          assert init[k] == ids[k];
        } else {
          assert forall q | q in h :: q.0 < last;
        }
      }
    }
  }

  /** Whether a kept entry's pattern can be built; the pattern id does not matter. */
  predicate PatternBuilds(d: EventInput)
    requires !MissingRequired(d)
  {
    PatternFor(d, 0).Some?
  }

  /**
   * The tables after owner-granted events under the consecutive ids `ids`,
   * from `start` on, were added to `events0` and `grants0`.
   */
  ghost predicate Batched(events0: map<int, Event>, grants0: Grants, start: int, caller: int,
                          events: map<int, Event>, grants: Grants, next: int, ids: seq<int>)
  {
    && next == start + |ids|
    && (forall k :: 0 <= k < |ids| ==> ids[k] == start + k)
    && (forall j :: j in events <==> j in events0 || start <= j < next)
    && (forall j | j in events0 :: events[j] == events0[j])
    && grants == WithOwners(grants0, ids, caller)
  }

  /** Adding the next event and its owner row extends a batch by that id. */
  lemma BatchedStep(events0: map<int, Event>, grants0: Grants, start: int, caller: int,
                    events: map<int, Event>, grants: Grants, next: int, ids: seq<int>, e: Event)
    requires Batched(events0, grants0, start, caller, events, grants, next, ids)
    requires next !in events0
    ensures Batched(events0, grants0, start, caller, events[next := e],
                    grants[(next, caller) := Grant(next, caller, Owner, caller)], next + 1, ids + [next])
  {
    assert (ids + [next])[..|ids|] == ids;
  }

  /** Whether every kept entry's pattern can be built. */
  predicate PatternsBuild(entries: seq<EventInput>)
  {
    forall i :: 0 <= i < |Kept(entries)| ==> PatternBuilds(Kept(entries)[i])
  }

  /** `Kept` one entry at a time. */
  lemma KeptFirst(s: seq<EventInput>)
    requires s != []
    ensures MissingRequired(s[0]) ==> Kept(s) == Kept(s[1..])
    ensures !MissingRequired(s[0]) ==> Kept(s) == [s[0]] + Kept(s[1..])
  {
    if MissingRequired(s[0]) {
      assert Kept(s) == [] + Kept(s[1..]);
    }
  }

  /** One kept entry of the batch: its pattern, if any, takes the next pattern id. */
  method AddKept(db: Database, caller: int, x: EventInput, p: Option<Pattern>,
                 ghost events0: map<int, Event>, ghost grants0: Grants, ghost start: int, ghost ids: seq<int>)
    returns (id: int)
    modifies db`events, db`grants, db`nextEventId, db`nextPatternId
    requires db.Valid() && !MissingRequired(x)
    requires Batched(events0, grants0, start, caller, db.events, db.grants, db.nextEventId, ids)
    ensures db.Valid()
    ensures Batched(events0, grants0, start, caller, db.events, db.grants, db.nextEventId, ids + [id])
    ensures id == old(db.nextEventId) && id in db.events
    ensures db.nextPatternId == old(db.nextPatternId) + (if p.Some? then 1 else 0)
    ensures var e := db.events[id];
            && e.Current() == NewDetails(x) && e.pattern == p && e.creatorId == caller
            && e.currentVersion == 2
            && e.versions == [EventVersion(id, 2, Dumps(SnapshotData(NewDetails(x), p)), caller)]
  {
    if p.Some? {
      db.nextPatternId := db.nextPatternId + 1;
    }
    ghost var events, grants := db.events, db.grants;
    id := AddEvent(db, caller, NewDetails(x), p);
    BatchedStep(events0, grants0, start, caller, events, grants, id, ids, db.events[id]);
  }

  /**
   * The loop of `batch_create_events`: skips entries missing a required
   * field and adds the others in order; stops with `ok` false at the first
   * kept entry whose pattern cannot be built.
   */
  method AddEntries(db: Database, caller: int, entries: seq<EventInput>) returns (ok: bool, ids: seq<int>)
    modifies db`events, db`grants, db`nextEventId, db`nextPatternId
    requires db.Valid()
    ensures db.Valid()
    ensures ok <==> PatternsBuild(entries)
    ensures ok ==> |ids| == |Kept(entries)|
    ensures ok ==> Batched(old(db.events), old(db.grants), old(db.nextEventId), caller, db.events, db.grants, db.nextEventId, ids)
  {
    ids := [];
    ghost var done: seq<EventInput> := [];
    var i := 0;
    while i < |entries|
      invariant 0 <= i <= |entries|
      invariant db.Valid()
      invariant Kept(entries) == done + Kept(entries[i..])
      invariant |ids| == |done|
      invariant forall k :: 0 <= k < |done| ==> !MissingRequired(done[k]) && PatternBuilds(done[k])
      invariant Batched(old(db.events), old(db.grants), old(db.nextEventId), caller, db.events, db.grants, db.nextEventId, ids)
    {
      var x := entries[i];
      assert entries[i..][0] == x && entries[i..][1..] == entries[i + 1..];
      KeptFirst(entries[i..]);
      if !MissingRequired(x) {
        assert Kept(entries) == (done + [x]) + Kept(entries[i + 1..]);
        var pattern := PatternFor(x, db.nextPatternId);
        if pattern.None? {
          assert Kept(entries)[|done|] == x && !PatternBuilds(x);
          return false, ids;
        }
        var id := AddKept(db, caller, x, pattern.value, old(db.events), old(db.grants), old(db.nextEventId), ids);
        ids := ids + [id];
        done := done + [x];
      }
      i := i + 1;
    }
    assert Kept(entries) == done;
    assert PatternsBuild(entries);
    return true, ids;
  }

  /**
   * `batch_create_events`: 400 for an empty list, 500 when a kept entry's
   * pattern cannot be built, 400 when every entry is skipped (in both
   * cases the session is rolled back), else 201 with one event, owner
   * grant and version per kept entry, under consecutive ids.
   */
  method BatchCreateEvents(db: Database, caller: int, entries: seq<EventInput>) returns (status: int, ids: seq<int>)
    modifies db`events, db`grants, db`nextEventId, db`nextPatternId
    requires db.Valid()
    ensures db.Valid()
    ensures status == 400 <==> Kept(entries) == []
    ensures status == 500 <==> !PatternsBuild(entries)
    ensures status in {201, 400, 500}
    ensures status != 201 ==> unchanged(db) && ids == []
    ensures status == 201 ==>
              && |ids| == |Kept(entries)|
              && Batched(old(db.events), old(db.grants), old(db.nextEventId), caller, db.events, db.grants, db.nextEventId, ids)
              && (forall k :: 0 <= k < |ids| ==> OwnerCount(db.grants, ids[k]) == 1)
  {
    ids := [];
    if entries == [] {
      return 400, ids;
    }
    var events, grants, nextEventId, nextPatternId := db.events, db.grants, db.nextEventId, db.nextPatternId;
    var ok;
    ok, ids := AddEntries(db, caller, entries);
    if !ok {
      db.events, db.grants, db.nextEventId, db.nextPatternId := events, grants, nextEventId, nextPatternId;
      return 500, [];
    }
    if ids == [] {
      db.events, db.grants, db.nextEventId, db.nextPatternId := events, grants, nextEventId, nextPatternId;
      return 400, ids;
    }
    WithOwnersOwnedOnce(grants, ids, caller, nextEventId);
    return 201, ids;
  }

  /** ASCII `lower()`, as SQLite's `ilike` compiles to `lower(a) LIKE lower(b)`. */
  function LowerAscii(c: char): char
  {
    if 'A' <= c <= 'Z' then (c as int + 32) as char else c
  }

  /** Equal up to ASCII case. */
  predicate FoldEq(a: string, b: string)
  {
    |a| == |b| && forall i :: 0 <= i < |a| ==> LowerAscii(a[i]) == LowerAscii(b[i])
  }

  /** SQL `LIKE` without an escape character: `%` is any run, `_` any one character. */
  predicate Like(p: string, t: string)
    decreases |p| + |t|
  {
    if p == [] then t == []
    else if p[0] == '%' then Like(p[1..], t) || (t != [] && Like(p, t[1..]))
    else t != [] && (p[0] == '_' || LowerAscii(p[0]) == LowerAscii(t[0])) && Like(p[1..], t[1..])
  }

  predicate NoWildcards(s: string)
  {
    forall i :: 0 <= i < |s| ==> s[i] != '%' && s[i] != '_'
  }

  /** A lone `%` matches everything. */
  lemma {:induction false} PercentMatchesAll(t: string)
    ensures Like("%", t)
  {
    if t != [] {
      PercentMatchesAll(t[1..]);
    }
  }

  /** `s%` matches exactly the texts that start with `s`, up to case. */
  lemma {:induction false} PrefixLike(s: string, u: string)
    requires NoWildcards(s)
    ensures Like(s + "%", u) <==> |s| <= |u| && FoldEq(s, u[..|s|])
  {
    if s == [] {
      assert s + "%" == "%";
      PercentMatchesAll(u);
    } else {
      assert (s + "%")[0] == s[0];
      assert (s + "%")[1..] == s[1..] + "%";
      if u != [] {
        PrefixLike(s[1..], u[1..]);
        if |s| <= |u| {
          assert u[..|s|][1..] == u[1..][..|s| - 1];
          assert FoldEq(s, u[..|s|]) <==>
                 LowerAscii(s[0]) == LowerAscii(u[0]) && FoldEq(s[1..], u[1..][..|s| - 1]);
        }
      }
    }
  }

  /** `%q` matches exactly the texts with a suffix that `q` matches. */
  lemma {:induction false} LeadingPercent(q: string, t: string)
    ensures Like("%" + q, t) <==> exists i :: 0 <= i <= |t| && Like(q, t[i..])
  {
    assert ("%" + q)[0] == '%' && ("%" + q)[1..] == q;
    assert t[0..] == t;
    if t != [] {
      LeadingPercent(q, t[1..]);
      forall i | 0 <= i <= |t[1..]|
        ensures t[1..][i..] == t[i + 1..]
      {
      }
      if Like("%" + q, t[1..]) {
        var i :| 0 <= i <= |t[1..]| && Like(q, t[1..][i..]);
        assert Like(q, t[i + 1..]);
      }
      if exists i :: 0 <= i <= |t| && Like(q, t[i..]) {
        var i :| 0 <= i <= |t| && Like(q, t[i..]);
        if i > 0 {
          assert Like(q, t[1..][i - 1..]);
        }
      }
    }
  }

  /** `s` occurs in `t` at index `i`, up to ASCII case. */
  predicate OccursAt(s: string, t: string, i: int)
  {
    0 <= i && i + |s| <= |t| && FoldEq(s, t[i..i + |s|])
  }

  /** `ilike('%s%')` for a search text without wildcards: the title contains it, ignoring ASCII case. */
  lemma SearchIsContains(s: string, t: string)
    requires NoWildcards(s)
    ensures Like("%" + s + "%", t) <==> exists i :: OccursAt(s, t, i)
  {
    assert "%" + s + "%" == "%" + (s + "%");
    LeadingPercent(s + "%", t);
    forall i | 0 <= i <= |t|
      ensures Like(s + "%", t[i..]) <==> OccursAt(s, t, i)
    {
      PrefixLike(s, t[i..]);
      if i + |s| <= |t| {
        assert t[i..][..|s|] == t[i..i + |s|];
      }
    }
    if exists i :: OccursAt(s, t, i) {
      var i :| OccursAt(s, t, i);
      assert Like(s + "%", t[i..]);
    }
  }

  /** A `start_date` or `end_date` argument: absent or empty, unparsable, or a time. */
  datatype DateArg = NoDate | BadDate | Date(t: Time)

  datatype EventListing = EventListing(status: int, matches: set<int>, total: int, pages: int, page: int, perPage: int)

  predicate During(x: Time, a: Time, b: Time) { a <= x <= b }

  /** The filters of `get_events` on one event. */
  predicate Selected(d: Details, start: DateArg, end: DateArg, search: Option<string>)
  {
    && (start.Date? ==> d.endTime >= start.t)
    && (end.Date? ==> d.startTime <= end.t)
    && (StrTruthy(search) ==> Like("%" + search.value + "%", d.title))
  }

  /** With both bounds, the window filter keeps exactly the events that overlap the window. */
  lemma WindowIsOverlap(d: Details, s: Time, t: Time)
    requires s <= t && d.startTime <= d.endTime
    ensures Selected(d, Date(s), Date(t), None) <==> exists x :: During(x, s, t) && During(x, d.startTime, d.endTime)
  {
    if Selected(d, Date(s), Date(t), None) {
      var x := if s < d.startTime then d.startTime else s;
      assert During(x, s, t) && During(x, d.startTime, d.endTime);
    }
  }

  /**
   * The filter pipeline of `get_events`: 400 for an unparsable date, else
   * 200 with the events the caller holds a grant on that pass the filters,
   * their count, and the page arguments. `per_page` is capped at 100
   * before it is echoed; the rows of the requested page are not modelled.
   */
  function GetEvents(db: Database, caller: int, page: Option<int>, perPage: Option<int>,
                     startDate: DateArg, endDate: DateArg, search: Option<string>): (r: EventListing)
    reads db, db.events.Values
    ensures r.status == 400 <==> startDate.BadDate? || endDate.BadDate?
    ensures r.status in {200, 400}
    ensures r.status == 200 ==>
              forall id :: id in r.matches <==>
                id in db.events && (id, caller) in db.grants && Selected(db.events[id].Current(), startDate, endDate, search)
    ensures r.status == 200 ==> r.total == |r.matches| && r.pages == Pages(r.total, r.perPage)
    ensures r.status == 200 ==> r.page == page.GetOr(1) && r.perPage <= 100 && r.perPage == PerPage(perPage)
  {
    if startDate.BadDate? || endDate.BadDate? then EventListing(400, {}, 0, 0, 0, 0)
    else
      var matches := set id | id in db.events && (id, caller) in db.grants
                              && Selected(db.events[id].Current(), startDate, endDate, search);
      var size := PerPage(perPage);
      EventListing(200, matches, |matches|, Pages(|matches|, size), page.GetOr(1), size)
  }

  /**
   * `get_event`: the role list admits every role, so 403 without a grant,
   * 404 for a missing event, else 200 with the event's dictionary.
   */
  function GetEvent(db: Database, id: int, caller: int): (r: (int, Option<Json>))
    reads db, db.events.Values
    ensures id != 0 ==> (r.0 == 403 <==> (id, caller) !in db.grants)
    ensures r.0 == 404 <==> JwtRequiredWithRole(Some(["owner", "editor", "viewer"]), db.grants, caller, map["id" := id]).Run?
                            && id !in db.events
    ensures r.0 == 200 <==> r.1.Some?
    ensures r.0 == 200 ==> id in db.events && r.1 == Some(db.events[id].ToDict())
  {
    if JwtRequiredWithRole(Some(["owner", "editor", "viewer"]), db.grants, caller, map["id" := id]).Deny? then (403, None)
    else if id !in db.events then (404, None)
    else (200, Some(db.events[id].ToDict()))
  }
}
