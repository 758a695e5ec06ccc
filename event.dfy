/**
 * Events, their recurrence patterns and the snapshot `create_version`
 * stores (app/models/event.py).
 *
 * Datetimes are `Time` values and their ISO-8601 text is stood in for by
 * the JSON integer of the same value. The `created_at`/`updated_at`
 * timestamps are not modelled.
 */
module EventModel {
  import opened Wrappers
  import opened JsonText
  import opened Validators
  import opened Versions

  datatype RecurrenceType = Daily | Weekly | Monthly | Yearly | Custom

  /** `RecurrenceType.value` */
  function TypeValue(t: RecurrenceType): string
  {
    match t
    case Daily => "daily"
    case Weekly => "weekly"
    case Monthly => "monthly"
    case Yearly => "yearly"
    case Custom => "custom"
  }

  /** `RecurrenceType(s)`: None where Python raises ValueError. */
  function ParseType(s: string): (r: Option<RecurrenceType>)
    ensures r.Some? <==> s in TypeChoices
    ensures r.Some? ==> TypeValue(r.value) == s
  {
    if s == "daily" then Some(Daily)
    else if s == "weekly" then Some(Weekly)
    else if s == "monthly" then Some(Monthly)
    else if s == "yearly" then Some(Yearly)
    else if s == "custom" then Some(Custom)
    else None
  }

  /** The five values parse back to themselves and have distinct names. */
  lemma {:induction false} TypeValueRoundTrip(t: RecurrenceType, u: RecurrenceType)
    ensures ParseType(TypeValue(t)) == Some(t)
    ensures TypeValue(t) == TypeValue(u) ==> t == u
  {
    match t
    case Daily =>
    case Weekly =>
    case Monthly =>
    case Yearly =>
    case Custom =>
  }

  /** A row of `recurrence_patterns`. */
  datatype Pattern = Pattern(
    id: int,
    kind: RecurrenceType,
    interval: int,
    daysOfWeek: Option<string>,
    dayOfMonth: Option<int>,
    monthOfYear: Option<int>,
    endDate: Option<Time>,
    count: Option<int>,
    customRule: Option<string>)

  /** The six scalar columns of an event that snapshots record and rollback restores. */
  datatype Details = Details(
    title: string,
    description: Option<string>,
    startTime: Time,
    endTime: Time,
    location: Option<string>,
    isRecurring: bool)

  function StrOrNull(o: Option<string>): Json
  {
    if o.Some? then JStr(o.value) else JNull
  }

  function IntOrNull(o: Option<int>): Json
  {
    if o.Some? then JInt(o.value) else JNull
  }

  const PatternDictKeys: seq<string> :=
    ["id", "type", "interval", "days_of_week", "day_of_month", "month_of_year", "end_date", "count", "custom_rule"]

  /** `RecurrencePattern.to_dict`: every column, an absent end date as null. */
  function PatternToDict(p: Pattern): (j: Json)
    ensures j.JObject? && HasKeys(j.members, PatternDictKeys)
    ensures j.members[6].value == JNull <==> p.endDate.None?
    ensures j.members[1].value == JStr(TypeValue(p.kind))
  {
    JObject([
      Member("id", JInt(p.id)),
      Member("type", JStr(TypeValue(p.kind))),
      Member("interval", JInt(p.interval)),
      Member("days_of_week", StrOrNull(p.daysOfWeek)),
      Member("day_of_month", IntOrNull(p.dayOfMonth)),
      Member("month_of_year", IntOrNull(p.monthOfYear)),
      Member("end_date", IntOrNull(p.endDate)),
      Member("count", IntOrNull(p.count)),
      Member("custom_rule", StrOrNull(p.customRule))])
  }

  lemma PatternDictKeysDistinct()
    ensures DistinctKeys(PatternDictKeys)
  {
  }

  /** Each key of `RecurrencePattern.to_dict` looks up its column. */
  lemma PatternDictGets(p: Pattern)
    ensures Get(PatternToDict(p).members, "id") == Some(JInt(p.id))
    ensures Get(PatternToDict(p).members, "type") == Some(JStr(TypeValue(p.kind)))
    ensures Get(PatternToDict(p).members, "interval") == Some(JInt(p.interval))
    ensures Get(PatternToDict(p).members, "days_of_week") == Some(StrOrNull(p.daysOfWeek))
    ensures Get(PatternToDict(p).members, "day_of_month") == Some(IntOrNull(p.dayOfMonth))
    ensures Get(PatternToDict(p).members, "month_of_year") == Some(IntOrNull(p.monthOfYear))
    ensures Get(PatternToDict(p).members, "end_date") == Some(IntOrNull(p.endDate))
    ensures Get(PatternToDict(p).members, "count") == Some(IntOrNull(p.count))
    ensures Get(PatternToDict(p).members, "custom_rule") == Some(StrOrNull(p.customRule))
  {
    var ms := PatternToDict(p).members;
    PatternDictKeysDistinct();
    GetKeyed(ms, PatternDictKeys, 0);
    GetKeyed(ms, PatternDictKeys, 1);
    GetKeyed(ms, PatternDictKeys, 2);
    GetKeyed(ms, PatternDictKeys, 3);
    GetKeyed(ms, PatternDictKeys, 4);
    GetKeyed(ms, PatternDictKeys, 5);
    GetKeyed(ms, PatternDictKeys, 6);
    GetKeyed(ms, PatternDictKeys, 7);
    GetKeyed(ms, PatternDictKeys, 8);
  }

  const PatternSnapshotKeys: seq<string> :=
    ["type", "interval", "days_of_week", "day_of_month", "month_of_year", "end_date", "count", "custom_rule"]

  /** The `recurrence_pattern` entry of a snapshot: the eight pattern fields, no id. */
  function PatternSnapshot(p: Pattern): Json
  {
    JObject([
      Member("type", JStr(TypeValue(p.kind))),
      Member("interval", JInt(p.interval)),
      Member("days_of_week", StrOrNull(p.daysOfWeek)),
      Member("day_of_month", IntOrNull(p.dayOfMonth)),
      Member("month_of_year", IntOrNull(p.monthOfYear)),
      Member("end_date", IntOrNull(p.endDate)),
      Member("count", IntOrNull(p.count)),
      Member("custom_rule", StrOrNull(p.customRule))])
  }

  const SnapshotKeys: seq<string> := ["title", "description", "start_time", "end_time", "location", "is_recurring"]

  /** The `version_data` dictionary of `create_version`. */
  function SnapshotData(d: Details, p: Option<Pattern>): Json
  {
    if p.Some? then JObject(Scalars(d) + [Member("recurrence_pattern", PatternSnapshot(p.value))])
    else JObject(Scalars(d))
  }

  /** The six scalar entries of a snapshot, in the order `create_version` writes them. */
  function Scalars(d: Details): seq<Member>
  {
    [Member("title", JStr(d.title)),
     Member("description", StrOrNull(d.description)),
     Member("start_time", JInt(d.startTime)),
     Member("end_time", JInt(d.endTime)),
     Member("location", StrOrNull(d.location)),
     Member("is_recurring", JBool(d.isRecurring))]
  }

  /**
   * A snapshot holds the six scalar fields, and a `recurrence_pattern`
   * entry with the eight pattern fields exactly when the event has a pattern.
   */
  lemma SnapshotContents(d: Details, p: Option<Pattern>)
    ensures SnapshotData(d, p).JObject?
    ensures HasKeys(SnapshotData(d, p).members, SnapshotKeys + (if p.Some? then ["recurrence_pattern"] else []))
    ensures p.Some? ==> HasKeys(PatternSnapshot(p.value).members, PatternSnapshotKeys)
    ensures Get(SnapshotData(d, p).members, "recurrence_pattern").Some? <==> p.Some?
  {
    var ms := SnapshotData(d, p).members;
    if p.Some? {
      assert ms[6].key == "recurrence_pattern";
    } else {
      assert forall i :: 0 <= i < |ms| ==> ms[i].key in SnapshotKeys;
    }
  }

  /** One field of `rollback_event`: keep on an absent key, None where the value has the wrong type. */
  function RestoreStr(v: Option<Json>, keep: string): Option<string>
  {
    match v
    case None => Some(keep)
    case Some(JStr(s)) => Some(s)
    case Some(_) => None
  }

  function RestoreOptStr(v: Option<Json>, keep: Option<string>): Option<Option<string>>
  {
    match v
    case None => Some(keep)
    case Some(JStr(s)) => Some(Some(s))
    case Some(JNull) => Some(None)
    case Some(_) => None
  }

  /** `datetime.fromisoformat(...)`, which raises on None. */
  function RestoreTime(v: Option<Json>, keep: Time): Option<Time>
  {
    match v
    case None => Some(keep)
    case Some(JInt(t)) => Some(t)
    case Some(_) => None
  }

  function RestoreBool(v: Option<Json>, keep: bool): Option<bool>
  {
    match v
    case None => Some(keep)
    case Some(JBool(b)) => Some(b)
    case Some(_) => None
  }

  /** The six assignments of `rollback_event` from a decoded snapshot; None where they raise. */
  function Restore(cur: Details, data: Json): (r: Option<Details>)
    ensures r.Some? && data.JObject? && Get(data.members, "title").None? ==> r.value.title == cur.title
    ensures r.Some? && data.JObject? && Get(data.members, "description").None? ==> r.value.description == cur.description
    ensures r.Some? && data.JObject? && Get(data.members, "start_time").None? ==> r.value.startTime == cur.startTime
    ensures r.Some? && data.JObject? && Get(data.members, "end_time").None? ==> r.value.endTime == cur.endTime
    ensures r.Some? && data.JObject? && Get(data.members, "location").None? ==> r.value.location == cur.location
    ensures r.Some? && data.JObject? && Get(data.members, "is_recurring").None? ==> r.value.isRecurring == cur.isRecurring
    ensures data == JObject([]) ==> r == Some(cur)
  {
    if !data.JObject? then None
    else
      var ms := data.members;
      var title := RestoreStr(Get(ms, "title"), cur.title);
      var description := RestoreOptStr(Get(ms, "description"), cur.description);
      var start := RestoreTime(Get(ms, "start_time"), cur.startTime);
      var end := RestoreTime(Get(ms, "end_time"), cur.endTime);
      var location := RestoreOptStr(Get(ms, "location"), cur.location);
      var recurring := RestoreBool(Get(ms, "is_recurring"), cur.isRecurring);
      if title.None? || description.None? || start.None? || end.None? || location.None? || recurring.None? then None
      else Some(Details(title.value, description.value, start.value, end.value, location.value, recurring.value))
  }

  /** `get` on the six scalar entries. */
  lemma ScalarGets(d: Details)
    ensures Get(Scalars(d), "title") == Some(JStr(d.title))
    ensures Get(Scalars(d), "description") == Some(StrOrNull(d.description))
    ensures Get(Scalars(d), "start_time") == Some(JInt(d.startTime))
    ensures Get(Scalars(d), "end_time") == Some(JInt(d.endTime))
    ensures Get(Scalars(d), "location") == Some(StrOrNull(d.location))
    ensures Get(Scalars(d), "is_recurring") == Some(JBool(d.isRecurring))
  {
    var ms := Scalars(d);
    GetAt(ms, 5, "is_recurring");
    GetAt(ms, 4, "location");
    GetAt(ms, 3, "end_time");
    GetAt(ms, 2, "start_time");
    GetAt(ms, 1, "description");
    GetAt(ms, 0, "title");
  }

  /** The six scalar entries of a snapshot, as `get` finds them. */
  lemma SnapshotGets(d: Details, p: Option<Pattern>)
    ensures Get(SnapshotData(d, p).members, "title") == Some(JStr(d.title))
    ensures Get(SnapshotData(d, p).members, "description") == Some(StrOrNull(d.description))
    ensures Get(SnapshotData(d, p).members, "start_time") == Some(JInt(d.startTime))
    ensures Get(SnapshotData(d, p).members, "end_time") == Some(JInt(d.endTime))
    ensures Get(SnapshotData(d, p).members, "location") == Some(StrOrNull(d.location))
    ensures Get(SnapshotData(d, p).members, "is_recurring") == Some(JBool(d.isRecurring))
  {
    ScalarGets(d);
    if p.Some? {
      var ms := SnapshotData(d, p).members;
      assert ms[..|ms| - 1] == Scalars(d);
    }
  }

  /** An object whose six scalar entries hold `d` restores to `d`. */
  lemma RestoreFrom(cur: Details, ms: seq<Member>, d: Details)
    requires Get(ms, "title") == Some(JStr(d.title))
    requires Get(ms, "description") == Some(StrOrNull(d.description))
    requires Get(ms, "start_time") == Some(JInt(d.startTime))
    requires Get(ms, "end_time") == Some(JInt(d.endTime))
    requires Get(ms, "location") == Some(StrOrNull(d.location))
    requires Get(ms, "is_recurring") == Some(JBool(d.isRecurring))
    ensures Restore(cur, JObject(ms)) == Some(d)
  {
    var title := RestoreStr(Get(ms, "title"), cur.title);
    var description := RestoreOptStr(Get(ms, "description"), cur.description);
    var start := RestoreTime(Get(ms, "start_time"), cur.startTime);
    var end := RestoreTime(Get(ms, "end_time"), cur.endTime);
    var location := RestoreOptStr(Get(ms, "location"), cur.location);
    var recurring := RestoreBool(Get(ms, "is_recurring"), cur.isRecurring);
    assert title == Some(d.title) && description == Some(d.description);
    assert start == Some(d.startTime) && end == Some(d.endTime);
    assert location == Some(d.location) && recurring == Some(d.isRecurring);
  }

  /** Restoring a snapshot gives back exactly the details it recorded, whatever the current ones. */
  lemma RestoreSnapshot(cur: Details, d: Details, p: Option<Pattern>)
    ensures Restore(cur, SnapshotData(d, p)) == Some(d)
  {
    SnapshotGets(d, p);
    RestoreFrom(cur, SnapshotData(d, p).members, d);
  }

  /** An event row; its versions are the `versions` relationship. */
  class Event {
    const id: int
    const creatorId: int
    var title: string
    var description: Option<string>
    var startTime: Time
    var endTime: Time
    var location: Option<string>
    var isRecurring: bool
    var pattern: Option<Pattern>
    var currentVersion: int
    var versions: seq<EventVersion>

    /** The six scalar fields. */
    function Current(): Details
      reads this
    {
      Details(title, description, startTime, endTime, location, isRecurring)
    }

    /**
     * The version counter is one ahead of the number of stored versions,
     * which are numbered 2, 3, ... in order and belong to this event.
     */
    ghost predicate Valid()
      reads this
    {
      && currentVersion == |versions| + 1
      && forall i | 0 <= i < |versions| :: versions[i].eventId == id && versions[i].versionNumber == i + 2
    }

    /** `Event.__init__`, with the column defaults: counter 1, no pattern, no versions. */
    constructor (id: int, title: string, description: Option<string>, startTime: Time, endTime: Time,
                 creatorId: int, location: Option<string> := None, isRecurring: bool := false)
      ensures this.id == id && this.creatorId == creatorId
      ensures Current() == Details(title, description, startTime, endTime, location, isRecurring)
      ensures pattern == None && currentVersion == 1 && versions == []
      ensures Valid()
    {
      this.id := id;
      this.creatorId := creatorId;
      this.title := title;
      this.description := description;
      this.startTime := startTime;
      this.endTime := endTime;
      this.location := location;
      this.isRecurring := isRecurring;
      this.pattern := None;
      this.currentVersion := 1;
      this.versions := [];
    }

    /**
     * `Event.create_version`: bump the counter, then snapshot the current
     * fields under the new number. Nothing but the counter changes.
     */
    method CreateVersion(userId: int) returns (v: EventVersion)
      modifies this`currentVersion
      ensures currentVersion == old(currentVersion) + 1
      ensures v.eventId == id && v.versionNumber == currentVersion && v.createdBy == userId
      ensures v.data == Dumps(SnapshotData(Current(), pattern))
    {
      currentVersion := currentVersion + 1;
      var versionData := SnapshotData(Current(), pattern);
      v := EventVersion(id, currentVersion, Dumps(versionData), userId);
    }

    /** `create_version` followed by storing the version it returns. */
    method RecordVersion(userId: int) returns (v: EventVersion)
      modifies this`currentVersion, this`versions
      requires Valid()
      ensures Valid()
      ensures currentVersion == old(currentVersion) + 1
      ensures v == EventVersion(id, currentVersion, Dumps(SnapshotData(Current(), pattern)), userId)
      ensures versions == old(versions) + [v]
    {
      v := CreateVersion(userId);
      versions := versions + [v];
    }

    /**
     * The common course of `update_event` and `rollback_event` on the
     * event: `create_version` first, the new version stored, and only then
     * the new field values assigned.
     */
    method Revise(userId: int, d: Details, p: Option<Pattern>) returns (v: EventVersion)
      modifies this
      requires Valid()
      ensures Valid()
      ensures currentVersion == old(currentVersion) + 1
      ensures v == EventVersion(id, currentVersion, Dumps(SnapshotData(old(Current()), old(pattern))), userId)
      ensures versions == old(versions) + [v]
      ensures Current() == d && pattern == p
    {
      v := RecordVersion(userId);
      title := d.title;
      description := d.description;
      startTime := d.startTime;
      endTime := d.endTime;
      location := d.location;
      isRecurring := d.isRecurring;
      pattern := p;
    }

    /** `EventVersion.query.filter_by(event_id=id, version_number=n).first()` */
    function FindVersion(n: int): (r: Option<EventVersion>)
      reads this
      requires Valid()
      ensures r.Some? <==> 2 <= n <= currentVersion
      ensures r.Some? ==> r.value.versionNumber == n && r.value.eventId == id && r.value == versions[n - 2]
      ensures n == currentVersion && versions != [] ==> r == Some(versions[|versions| - 1])
    {
      if 2 <= n <= currentVersion then Some(versions[n - 2]) else None
    }

    /** `Event.to_dict`, without the two timestamps; absent values render as null. */
    function ToDict(): (j: Json)
      reads this
      ensures j.JObject? && HasKeys(j.members, EventDictKeys)
      ensures j.members[2].value == StrOrNull(description) && j.members[5].value == StrOrNull(location)
      ensures j.members[8].value == JNull <==> pattern.None?
      ensures j.members[9].value == JInt(currentVersion)
    {
      JObject([
        Member("id", JInt(id)),
        Member("title", JStr(title)),
        Member("description", StrOrNull(description)),
        Member("start_time", JInt(startTime)),
        Member("end_time", JInt(endTime)),
        Member("location", StrOrNull(location)),
        Member("is_recurring", JBool(isRecurring)),
        Member("creator_id", JInt(creatorId)),
        Member("recurrence_pattern", if pattern.Some? then PatternToDict(pattern.value) else JNull),
        Member("current_version", JInt(currentVersion))])
    }
  }

  lemma EventDictKeysDistinct()
    ensures DistinctKeys(EventDictKeys)
  {
  }

  /** Each key of `Event.to_dict` looks up its column; the pattern renders as its own dictionary. */
  lemma EventDictGets(e: Event)
    ensures Get(e.ToDict().members, "id") == Some(JInt(e.id))
    ensures Get(e.ToDict().members, "title") == Some(JStr(e.title))
    ensures Get(e.ToDict().members, "description") == Some(StrOrNull(e.description))
    ensures Get(e.ToDict().members, "start_time") == Some(JInt(e.startTime))
    ensures Get(e.ToDict().members, "end_time") == Some(JInt(e.endTime))
    ensures Get(e.ToDict().members, "location") == Some(StrOrNull(e.location))
    ensures Get(e.ToDict().members, "is_recurring") == Some(JBool(e.isRecurring))
    ensures Get(e.ToDict().members, "creator_id") == Some(JInt(e.creatorId))
    ensures Get(e.ToDict().members, "recurrence_pattern") == Some(if e.pattern.Some? then PatternToDict(e.pattern.value) else JNull)
    ensures Get(e.ToDict().members, "current_version") == Some(JInt(e.currentVersion))
  {
    var ms := e.ToDict().members;
    EventDictKeysDistinct();
    GetKeyed(ms, EventDictKeys, 0);
    GetKeyed(ms, EventDictKeys, 1);
    GetKeyed(ms, EventDictKeys, 2);
    GetKeyed(ms, EventDictKeys, 3);
    GetKeyed(ms, EventDictKeys, 4);
    GetKeyed(ms, EventDictKeys, 5);
    GetKeyed(ms, EventDictKeys, 6);
    GetKeyed(ms, EventDictKeys, 7);
    GetKeyed(ms, EventDictKeys, 8);
    GetKeyed(ms, EventDictKeys, 9);
  }

  const EventDictKeys: seq<string> :=
    ["id", "title", "description", "start_time", "end_time", "location", "is_recurring", "creator_id",
     "recurrence_pattern", "current_version"]
}
