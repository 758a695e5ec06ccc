/**
 * Roles, grants and the grant table (app/models/permission.py).
 *
 * A `Grant` is one row of the `permissions` table; the datatype's
 * constructor is `Permission.__init__`, which stores its four arguments as
 * given. The table is a map keyed by (event id, user id): the application
 * never creates two rows for the same pair, and every lookup in the source
 * is `filter_by(event_id=..., user_id=...).first()`.
 */
module Permissions {
  import opened Wrappers

  datatype Role = Owner | Editor | Viewer

  /** The column default of `Permission.role`. */
  const DefaultRole: Role := Viewer

  datatype Grant = Grant(eventId: int, userId: int, role: Role, grantedBy: int)

  type Grants = map<(int, int), Grant>

  /** `RoleType.value` */
  function RoleValue(r: Role): string
  {
    match r
    case Owner => "owner"
    case Editor => "editor"
    case Viewer => "viewer"
  }

  /** `RoleType(s)`: None where Python raises ValueError. */
  function ParseRole(s: string): (r: Option<Role>)
    ensures r.Some? <==> s in ["owner", "editor", "viewer"]
    ensures r.Some? ==> RoleValue(r.value) == s
  {
    if s == "owner" then Some(Owner)
    else if s == "editor" then Some(Editor)
    else if s == "viewer" then Some(Viewer)
    else None
  }

  predicate CanEdit(g: Grant) { g.role == Owner || g.role == Editor }
  predicate CanView(g: Grant) { true }
  predicate CanDelete(g: Grant) { g.role == Owner }
  predicate CanShare(g: Grant) { g.role == Owner }

  /** The privilege order owner > editor > viewer, as a rank. */
  function Rank(r: Role): nat
  {
    match r
    case Owner => 2
    case Editor => 1
    case Viewer => 0
  }

  /** Every role name parses back to its role, and the three roles have distinct names. */
  lemma {:induction false} RoleValueRoundTrip(r: Role, q: Role)
    ensures ParseRole(RoleValue(r)) == Some(r)
    ensures RoleValue(r) == RoleValue(q) ==> r == q
  {
    match r
    case Owner =>
    case Editor =>
    case Viewer =>
  }

  /** The four capability checks against the privilege order. */
  lemma Capabilities(g: Grant)
    ensures CanEdit(g) <==> Rank(g.role) >= 1
    ensures CanDelete(g) <==> Rank(g.role) == 2
    ensures CanShare(g) <==> CanDelete(g)
    ensures CanDelete(g) ==> CanEdit(g)
    ensures CanView(g)
  {
  }

  /** Rows are stored under their own (event id, user id). */
  ghost predicate WellKeyed(grants: Grants)
  {
    forall k | k in grants :: grants[k].eventId == k.0 && grants[k].userId == k.1
  }

  /** `Permission.query.filter_by(event_id=e, user_id=u).first()` */
  function Lookup(grants: Grants, e: int, u: int): Option<Grant>
  {
    if (e, u) in grants then Some(grants[(e, u)]) else None
  }

  /** `Permission.query.filter_by(event_id=e).all()`, as a table. */
  function GrantsOf(grants: Grants, e: int): (r: Grants)
    ensures forall k :: k in r <==> k in grants && k.0 == e
    ensures forall k | k in r :: r[k] == grants[k]
  {
    map k | k in grants && k.0 == e :: grants[k]
  }

  /** The keys of `filter_by(event_id=e, role=RoleType.OWNER)`. */
  function OwnersOf(grants: Grants, e: int): set<(int, int)>
  {
    set k | k in grants && k.0 == e && grants[k].role == Owner
  }

  function OwnerCount(grants: Grants, e: int): nat
  {
    |OwnersOf(grants, e)|
  }
}
