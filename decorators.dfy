/**
 * The decision logic of the route decorators (app/utils/decorators.py).
 *
 * A decorator either runs the wrapped handler, with the keyword arguments
 * it was given and possibly the grant it found, or answers by itself with a
 * status code. The JWT check itself is outside the model: `userId` is the
 * identity it yields. Path arguments are the integers Flask parsed from the
 * URL, so `kwargs` maps names to ints.
 */
module Decorators {
  import opened Wrappers
  import opened JsonText
  import opened Permissions

  datatype Gate =
    | Run(kwargs: map<string, int>, permission: Option<Grant>)
    | Deny(status: int, message: string)

  /** `kwargs.get('id')` */
  function PathId(kwargs: map<string, int>): Option<int>
  {
    if "id" in kwargs then Some(kwargs["id"]) else None
  }

  /** `jwt_required_with_role(roles)`: role-list membership, not rank. */
  function JwtRequiredWithRole(roles: Option<seq<string>>, grants: Grants, userId: int, kwargs: map<string, int>): (r: Gate)
    ensures r.Run? ==> r.kwargs == kwargs
    ensures r.Deny? ==> r.status == 403 && r.message == "Insufficient permissions"
    ensures (roles.None? || roles.value == []) ==> r == Run(kwargs, None)
    ensures ("id" !in kwargs || kwargs["id"] == 0) ==> r == Run(kwargs, None)
    ensures r.Run? && r.permission.Some? ==>
              r.permission == Lookup(grants, kwargs["id"], userId) && RoleValue(r.permission.value.role) in roles.value
    ensures roles.Some? && roles.value != [] && "id" in kwargs && kwargs["id"] != 0 ==>
              (r.Deny? <==> Lookup(grants, kwargs["id"], userId).None?
                            || RoleValue(Lookup(grants, kwargs["id"], userId).value.role) !in roles.value)
    ensures roles.Some? && roles.value != [] && "id" in kwargs && kwargs["id"] != 0 && r.Run? ==>
              r.permission == Lookup(grants, kwargs["id"], userId) && r.permission.Some?
  {
    if roles.None? || roles.value == [] then Run(kwargs, None)
    else if PathId(kwargs).None? || PathId(kwargs).value == 0 then Run(kwargs, None)
    else
      var permission := Lookup(grants, kwargs["id"], userId);
      if permission.None? || RoleValue(permission.value.role) !in roles.value then
        Deny(403, "Insufficient permissions")
      else
        Run(kwargs, permission)
  }

  /** `owner_required`: a grant with role owner; a missing `id` finds no grant. */
  function OwnerRequired(grants: Grants, userId: int, kwargs: map<string, int>): (r: Gate)
    ensures r.Run? <==> PathId(kwargs).Some? && Lookup(grants, PathId(kwargs).value, userId).Some?
                        && Lookup(grants, PathId(kwargs).value, userId).value.role == Owner
    ensures r.Run? ==> r.kwargs == kwargs && r.permission == Lookup(grants, PathId(kwargs).value, userId)
    ensures r.Deny? ==> r.status == 403
  {
    var permission := if PathId(kwargs).Some? then Lookup(grants, PathId(kwargs).value, userId) else None;
    if permission.None? || permission.value.role != Owner then
      Deny(403, "Only the owner can perform this action")
    else
      Run(kwargs, permission)
  }

  /** `editor_required`: a grant whose `can_edit()` holds. */
  function EditorRequired(grants: Grants, userId: int, kwargs: map<string, int>): (r: Gate)
    ensures r.Run? <==> PathId(kwargs).Some? && Lookup(grants, PathId(kwargs).value, userId).Some?
                        && CanEdit(Lookup(grants, PathId(kwargs).value, userId).value)
    ensures r.Run? ==> r.kwargs == kwargs && r.permission == Lookup(grants, PathId(kwargs).value, userId)
    ensures r.Deny? ==> r.status == 403
  {
    var permission := if PathId(kwargs).Some? then Lookup(grants, PathId(kwargs).value, userId) else None;
    if permission.None? || !CanEdit(permission.value) then
      Deny(403, "Editor or owner permissions required")
    else
      Run(kwargs, permission)
  }

  /** A role list tests membership: `['editor']` turns an owner away. */
  lemma EditorListDeniesOwner(grants: Grants, e: int, u: int)
    requires e != 0 && (e, u) in grants && grants[(e, u)].role == Owner
    ensures JwtRequiredWithRole(Some(["editor"]), grants, u, map["id" := e]).Deny?
    ensures EditorRequired(grants, u, map["id" := e]).Run?
  {
    assert RoleValue(Owner) !in ["editor"];
  }

  /** The fixed checks agree with the role lists that enumerate the roles they admit. */
  lemma FixedChecksAreRoleLists(grants: Grants, u: int, kwargs: map<string, int>)
    requires "id" in kwargs && kwargs["id"] != 0
    ensures OwnerRequired(grants, u, kwargs).Run? <==> JwtRequiredWithRole(Some(["owner"]), grants, u, kwargs).Run?
    ensures EditorRequired(grants, u, kwargs).Run? <==> JwtRequiredWithRole(Some(["owner", "editor"]), grants, u, kwargs).Run?
    ensures JwtRequiredWithRole(Some(["owner", "editor", "viewer"]), grants, u, kwargs).Run? <==> (kwargs["id"], u) in grants
  {
    var g := Lookup(grants, kwargs["id"], u);
    if g.Some? {
      match g.value.role
      case Owner =>
        assert RoleValue(Owner) in ["owner"];
      case Editor =>
        assert RoleValue(Editor) !in ["owner"];
        assert RoleValue(Editor) in ["owner", "editor"];
      case Viewer =>
        assert RoleValue(Viewer) !in ["owner", "editor"];
        assert RoleValue(Viewer) in ["owner", "editor", "viewer"];
    }
  }

  datatype JsonCheck = Pass | Reject(status: int, message: string)

  /** `[arg for arg in expected_args if arg not in data]` */
  function Missing(expected: seq<string>, keys: set<string>): (r: seq<string>)
    ensures forall x :: x in r <==> x in expected && x !in keys
    ensures |r| <= |expected|
  {
    if expected == [] then []
    else (if expected[0] in keys then [] else [expected[0]]) + Missing(expected[1..], keys)
  }

  /** The missing names keep the order of `expected_args`. */
  lemma {:induction false} MissingKeepsOrder(a: seq<string>, b: seq<string>, keys: set<string>)
    ensures Missing(a + b, keys) == Missing(a, keys) + Missing(b, keys)
  {
    if a == [] {
      assert a + b == b;
    } else {
      assert (a + b)[0] == a[0];
      assert (a + b)[1..] == a[1..] + b;
      MissingKeepsOrder(a[1..], b, keys);
    }
  }

  function Join(xs: seq<string>, sep: string): string
  {
    if xs == [] then "" else if |xs| == 1 then xs[0] else xs[0] + sep + Join(xs[1..], sep)
  }

  /** `validate_json(*expected_args)`; an empty JSON object is falsy like None. */
  function ValidateJson(expected: seq<string>, body: Option<map<string, Json>>): (r: JsonCheck)
    ensures r.Reject? ==> r.status == 400
    ensures (body.None? || body.value == map[]) ==> r == Reject(400, "No JSON data provided")
    ensures r.Pass? <==> body.Some? && body.value != map[] && forall x | x in expected :: x in body.value
    ensures body.Some? && body.value != map[] && r.Reject? ==>
              r.message == "Missing required fields: " + Join(Missing(expected, body.value.Keys), ", ")
  {
    if body.None? || body.value == map[] then Reject(400, "No JSON data provided")
    else
      var missing := Missing(expected, body.value.Keys);
      if missing != [] then
        assert missing[0] in missing;
        Reject(400, "Missing required fields: " + Join(missing, ", "))
      else Pass
  }
}
