/**
 * The database the routes work on, held in memory: the events by id, the
 * `permissions` table, the ids of the existing users, the `changelog`
 * table and the next free primary keys. Each route is one transaction: it
 * either commits all its changes or none.
 */
module Store {
  import opened Wrappers
  import opened JsonText
  import opened Permissions
  import opened Versions
  import opened EventModel

  class Database {
    var events: map<int, Event>
    var grants: Grants
    var users: set<int>
    var changelogs: seq<ChangeLog>
    var nextEventId: int
    var nextPatternId: int

    /**
     * Every event is stored under its own id and is valid, grant rows are
     * stored under their own key, and the next event id is above every id
     * an event or a grant uses.
     */
    ghost predicate Valid()
      reads this, events.Values
    {
      && WellKeyed(grants)
      && (forall id | id in events :: events[id].id == id && events[id].Valid())
      && (forall id | id in events :: id < nextEventId)
      && (forall k | k in grants :: k.0 < nextEventId)
    }

    /** An empty database with the given users. */
    constructor (users: set<int>)
      ensures Valid()
      ensures events == map[] && grants == map[] && this.users == users && changelogs == []
      ensures nextEventId == 1 && nextPatternId == 1
    {
      events := map[];
      grants := map[];
      this.users := users;
      changelogs := [];
      nextEventId := 1;
      nextPatternId := 1;
    }

    /** `Event.Revise` on the stored event `id`: only that event changes, and the database stays valid. */
    method ReviseEvent(id: int, userId: int, d: Details, p: Option<Pattern>) returns (v: EventVersion)
      modifies events[id]
      requires Valid() && id in events
      ensures Valid()
      ensures var e := events[id];
              && e.currentVersion == old(e.currentVersion) + 1
              && v == EventVersion(id, e.currentVersion, Dumps(SnapshotData(old(e.Current()), old(e.pattern))), userId)
              && e.versions == old(e.versions) + [v]
              && e.Current() == d && e.pattern == p
    {
      v := events[id].Revise(userId, d, p);
    }
  }

  /** Removing a key takes exactly that key out of the event's owners. */
  lemma OwnersAfterRemove(g: Grants, k: (int, int), e: int)
    ensures OwnersOf(g - {k}, e) == OwnersOf(g, e) - {k}
  {
  }

  /** Storing a grant at a key changes the event's owners at that key only. */
  lemma OwnersAfterStore(g: Grants, k: (int, int), x: Grant, e: int)
    ensures OwnersOf(g[k := x], e) ==
            if k.0 == e && x.role == Owner then OwnersOf(g, e) + {k} else OwnersOf(g, e) - {k}
  {
  }

  /** A new event's first grant is its only row and its only owner. */
  lemma FirstGrant(g: Grants, id: int, u: int)
    requires WellKeyed(g) && forall k | k in g :: k.0 != id
    ensures WellKeyed(g[(id, u) := Grant(id, u, Owner, u)])
    ensures GrantsOf(g[(id, u) := Grant(id, u, Owner, u)], id) == map[(id, u) := Grant(id, u, Owner, u)]
    ensures OwnersOf(g[(id, u) := Grant(id, u, Owner, u)], id) == {(id, u)}
    ensures OwnerCount(g[(id, u) := Grant(id, u, Owner, u)], id) == 1
  {
    var h := g[(id, u) := Grant(id, u, Owner, u)];
    assert OwnersOf(h, id) == {(id, u)};
  }

  /** A smaller set of owners is no larger in number. */
  lemma {:induction false} SubsetCount(a: set<(int, int)>, b: set<(int, int)>)
    requires a <= b
    ensures |a| <= |b|
    decreases |b|
  {
    if a != {} {
      var x :| x in a;
      SubsetCount(a - {x}, b - {x});
    }
  }
}
