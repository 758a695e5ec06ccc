/**
 * The sharing routes (app/routes/collaboration.py) as operations on the
 * grant table. Each handler runs behind its decorator, which is modelled
 * by the gate functions of `Decorators`; `caller` is the JWT identity.
 */
module Collaboration {
  import opened Wrappers
  import opened Permissions
  import opened Decorators
  import opened Store

  /** One entry of the request body as JSON gives it; absent keys are None. */
  datatype PermissionInput = PermissionInput(userId: Option<int>, role: Option<string>)

  /** One entry after `PermissionSchema` has loaded it. */
  datatype ShareRequest = ShareRequest(userId: int, role: Role)

  /** `PermissionSchema().load`: both fields required, the role one of the three names. */
  function LoadPermission(p: PermissionInput): (r: Option<ShareRequest>)
    ensures r.Some? <==> p.userId.Some? && p.role.Some? && p.role.value in ["owner", "editor", "viewer"]
    ensures r.Some? ==> r.value.userId == p.userId.value && RoleValue(r.value.role) == p.role.value
  {
    if p.userId.None? || p.role.None? then None
    else match ParseRole(p.role.value)
      case None => None
      case Some(role) => Some(ShareRequest(p.userId.value, role))
  }

  /** `PermissionSchema(many=True).load`: the whole list or a validation error. */
  function LoadShares(raw: seq<PermissionInput>): (r: Option<seq<ShareRequest>>)
    ensures r.Some? <==> forall i :: 0 <= i < |raw| ==> LoadPermission(raw[i]).Some?
    ensures r.Some? ==> |r.value| == |raw| && forall i :: 0 <= i < |raw| ==> r.value[i] == LoadPermission(raw[i]).value
  {
    if raw == [] then Some([])
    else match (LoadPermission(raw[0]), LoadShares(raw[1..]))
      case (Some(x), Some(xs)) => Some([x] + xs)
      case _ => None
  }

  /**
   * One iteration of `share_event`'s loop: an existing row gets the new
   * role and the caller as granter, otherwise a new row is added. On a
   * well-keyed table both branches store the same grant.
   */
  function ShareOne(g: Grants, e: int, caller: int, req: ShareRequest): (r: Grants)
    requires WellKeyed(g)
    ensures r == g[(e, req.userId) := Grant(e, req.userId, req.role, caller)]
    ensures (e, req.userId) in g ==> r.Keys == g.Keys
  {
    var k := (e, req.userId);
    if k in g then g[k := g[k].(role := req.role, grantedBy := caller)]
    else g[k := Grant(e, req.userId, req.role, caller)]
  }

  /** The table after the loop has handled every request, in order. */
  function ApplyShares(g: Grants, e: int, caller: int, reqs: seq<ShareRequest>): (r: Grants)
    requires WellKeyed(g)
    ensures WellKeyed(r)
  {
    if reqs == [] then g
    else ShareOne(ApplyShares(g, e, caller, reqs[..|reqs| - 1]), e, caller, reqs[|reqs| - 1])
  }

  /** Sharing adds exactly the rows of the users named that were missing. */
  lemma {:induction false} ApplySharesKeys(g: Grants, e: int, caller: int, reqs: seq<ShareRequest>)
    requires WellKeyed(g)
    ensures ApplyShares(g, e, caller, reqs).Keys == g.Keys + set i | 0 <= i < |reqs| :: (e, reqs[i].userId)
  {
    if reqs != [] {
      var init := reqs[..|reqs| - 1];
      ApplySharesKeys(g, e, caller, init);
      assert forall i :: 0 <= i < |init| ==> init[i] == reqs[i];
      var before := set i | 0 <= i < |init| :: (e, init[i].userId);
      var after := set i | 0 <= i < |reqs| :: (e, reqs[i].userId);
      assert after == before + {(e, reqs[|reqs| - 1].userId)};
    }
  }

  /** Every row other than the event's rows of the users named is as before. */
  lemma {:induction false} ApplySharesKeeps(g: Grants, e: int, caller: int, reqs: seq<ShareRequest>)
    requires WellKeyed(g)
    ensures forall k | k in g && (k.0 != e || forall i :: 0 <= i < |reqs| ==> reqs[i].userId != k.1) ::
              k in ApplyShares(g, e, caller, reqs) && ApplyShares(g, e, caller, reqs)[k] == g[k]
  {
    if reqs != [] {
      var init := reqs[..|reqs| - 1];
      ApplySharesKeeps(g, e, caller, init);
      assert forall i :: 0 <= i < |init| ==> init[i] == reqs[i];
    }
  }

  /** Each named user's row holds the role of the last request for them, granted by the caller. */
  lemma {:induction false} ApplySharesLastWins(g: Grants, e: int, caller: int, reqs: seq<ShareRequest>)
    requires WellKeyed(g)
    ensures forall i :: 0 <= i < |reqs| ==>
              && (e, reqs[i].userId) in ApplyShares(g, e, caller, reqs)
              && ApplyShares(g, e, caller, reqs)[(e, reqs[i].userId)].grantedBy == caller
    ensures forall i :: 0 <= i < |reqs| && (forall j :: i < j < |reqs| ==> reqs[j].userId != reqs[i].userId) ==>
              ApplyShares(g, e, caller, reqs)[(e, reqs[i].userId)].role == reqs[i].role
  {
    if reqs != [] {
      var init := reqs[..|reqs| - 1];
      ApplySharesLastWins(g, e, caller, init);
      assert forall i :: 0 <= i < |init| ==> init[i] == reqs[i];
    }
  }

  /** One share sets the owner status of its target row and leaves the event's other owners. */
  lemma ShareOneOwners(g: Grants, e: int, caller: int, req: ShareRequest)
    requires WellKeyed(g)
    ensures OwnersOf(ShareOne(g, e, caller, req), e) ==
            if req.role == Owner then OwnersOf(g, e) + {(e, req.userId)} else OwnersOf(g, e) - {(e, req.userId)}
  {
    OwnersAfterStore(g, (e, req.userId), Grant(e, req.userId, req.role, caller), e);
  }

  /**
   * `share_event` has no last-owner guard: the sole owner may share the
   * event with themself as viewer, and the event is left without owner.
   */
  lemma ShareCanDemoteSoleOwner()
    ensures var g := map[(1, 7) := Grant(1, 7, Owner, 7)];
            && OwnerRequired(g, 7, map["id" := 1]).Run?
            && OwnerCount(g, 1) == 1
            && OwnerCount(ApplyShares(g, 1, 7, [ShareRequest(7, Viewer)]), 1) == 0
  {
    var g := map[(1, 7) := Grant(1, 7, Owner, 7)];
    assert OwnersOf(g, 1) == {(1, 7)};
    var reqs := [ShareRequest(7, Viewer)];
    assert reqs[..0] == [];
    ShareOneOwners(g, 1, 7, reqs[0]);
    assert OwnersOf(ApplyShares(g, 1, 7, reqs), 1) == {};
  }

  /**
   * `share_event` behind `owner_required`: 403 unless the caller owns the
   * event, 404 for a missing event, 400 when the list does not load, 404 at
   * the first unknown user, else 200 with every request applied in order.
   * `shared` holds the keys of the rows the response lists.
   */
  method ShareEvent(db: Database, id: int, caller: int, raw: seq<PermissionInput>) returns (status: int, shared: seq<(int, int)>)
    modifies db`grants
    requires db.Valid()
    ensures db.Valid()
    ensures status == 403 <==> OwnerRequired(old(db.grants), caller, map["id" := id]).Deny?
    ensures status == 404 <==> OwnerRequired(old(db.grants), caller, map["id" := id]).Run?
                               && (id !in db.events
                                   || (LoadShares(raw).Some? && exists i :: 0 <= i < |raw| && raw[i].userId.value !in db.users))
    ensures status == 400 <==> OwnerRequired(old(db.grants), caller, map["id" := id]).Run? && id in db.events
                               && LoadShares(raw).None?
    ensures status == 200 || status == 400 || status == 403 || status == 404
    ensures status == 200 ==> db.grants == ApplyShares(old(db.grants), id, caller, LoadShares(raw).value)
    ensures status == 200 ==> |shared| == |raw| && forall i :: 0 <= i < |raw| ==> shared[i] == (id, raw[i].userId.value)
    ensures status != 200 ==> db.grants == old(db.grants)
  {
    shared := [];
    var gate := OwnerRequired(db.grants, caller, map["id" := id]);
    if gate.Deny? {
      return 403, shared;
    }
    if id !in db.events {
      return 404, shared;
    }
    var loaded := LoadShares(raw);
    if loaded.None? {
      return 400, shared;
    }
    var reqs := loaded.value;
    var missing, table;
    missing, table, shared := ShareAll(db.grants, db.users, id, caller, reqs);
    if missing {
      assert exists i :: 0 <= i < |raw| && raw[i].userId.value !in db.users;
      return 404, [];
    }
    ApplySharesKeys(db.grants, id, caller, reqs);
    db.grants := table;
    return 200, shared;
  }

  /**
   * The loop of `share_event` over loaded requests: stops at the first
   * unknown user, otherwise applies every request in order and lists the
   * key of each row it wrote.
   */
  method ShareAll(g: Grants, users: set<int>, id: int, caller: int, reqs: seq<ShareRequest>)
    returns (missing: bool, table: Grants, shared: seq<(int, int)>)
    requires WellKeyed(g)
    ensures missing <==> exists i :: 0 <= i < |reqs| && reqs[i].userId !in users
    ensures !missing ==> table == ApplyShares(g, id, caller, reqs)
    ensures !missing ==> |shared| == |reqs| && forall k :: 0 <= k < |reqs| ==> shared[k] == (id, reqs[k].userId)
  {
    table := g;
    shared := [];
    var i := 0;
    while i < |reqs|
      invariant 0 <= i <= |reqs|
      invariant WellKeyed(table)
      invariant table == ApplyShares(g, id, caller, reqs[..i])
      invariant |shared| == i && forall k :: 0 <= k < i ==> shared[k] == (id, reqs[k].userId)
      invariant forall k :: 0 <= k < i ==> reqs[k].userId in users
    {
      if reqs[i].userId !in users {
        return true, table, [];
      }
      assert reqs[..i + 1][..i] == reqs[..i];
      table := ShareOne(table, id, caller, reqs[i]);
      shared := shared + [(id, reqs[i].userId)];
      i := i + 1;
    }
    assert reqs[..|reqs|] == reqs;
    return false, table, shared;
  }

  /** `get_permissions`: any grant on the event lets the caller list all of them. */
  function GetPermissions(g: Grants, id: int, caller: int): (r: (int, Grants))
    ensures r.0 == 403 <==> (id, caller) !in g
    ensures r.0 == 403 || r.0 == 200
    ensures r.0 == 200 ==> r.1 == GrantsOf(g, id) && (id, caller) in r.1
    ensures r.0 == 403 ==> r.1 == map[]
  {
    if Lookup(g, id, caller).None? then (403, map[]) else (200, GrantsOf(g, id))
  }

  /**
   * `update_permission` behind `owner_required`. The two 404 checks come
   * before the body is loaded; demoting an owner needs another owner.
   */
  method UpdatePermission(db: Database, id: int, userId: int, caller: int, body: PermissionInput) returns (status: int)
    modifies db`grants
    requires db.Valid()
    ensures db.Valid()
    ensures status == 403 <==> OwnerRequired(old(db.grants), caller, map["id" := id]).Deny?
    ensures status == 404 <==> OwnerRequired(old(db.grants), caller, map["id" := id]).Run?
                               && (userId !in db.users || (id, userId) !in old(db.grants))
    ensures status == 400 && LoadPermission(body).Some? ==>
              old(db.grants)[(id, userId)].role == Owner && LoadPermission(body).value.role != Owner
              && OwnerCount(old(db.grants), id) <= 1
    ensures status == 200 <==> OwnerRequired(old(db.grants), caller, map["id" := id]).Run?
                               && userId in db.users && (id, userId) in old(db.grants)
                               && LoadPermission(body).Some?
                               && !(old(db.grants)[(id, userId)].role == Owner && LoadPermission(body).value.role != Owner
                                    && OwnerCount(old(db.grants), id) <= 1)
    ensures status == 200 || status == 400 || status == 403 || status == 404
    ensures status == 200 ==>
              db.grants == old(db.grants)[(id, userId) := Grant(id, userId, LoadPermission(body).value.role, caller)]
    ensures status != 200 ==> db.grants == old(db.grants)
    ensures OwnerCount(old(db.grants), id) >= 1 ==> OwnerCount(db.grants, id) >= 1
    ensures forall e | e != id :: OwnersOf(db.grants, e) == OwnersOf(old(db.grants), e)
  {
    var gate := OwnerRequired(db.grants, caller, map["id" := id]);
    if gate.Deny? {
      return 403;
    }
    if userId !in db.users {
      return 404;
    }
    var target := Lookup(db.grants, id, userId);
    if target.None? {
      return 404;
    }
    var data := LoadPermission(body);
    if data.None? {
      return 400;
    }
    if target.value.role == Owner && data.value.role != Owner {
      var owners := OwnersOf(db.grants, id);
      if |owners| <= 1 {
        return 400;
      }
    }
    var k := (id, userId);
    var g := db.grants;
    var updated := target.value.(role := data.value.role, grantedBy := caller);
    forall e
      ensures OwnersOf(g[k := updated], e) ==
              if k.0 == e && updated.role == Owner then OwnersOf(g, e) + {k} else OwnersOf(g, e) - {k}
    {
      OwnersAfterStore(g, k, updated, e);
    }
    if !(target.value.role == Owner && data.value.role != Owner) {
      assert k !in OwnersOf(g, id) || updated.role == Owner;
      SubsetCount(OwnersOf(g, id), OwnersOf(g[k := updated], id));
    } else {
      assert OwnersOf(g, id) == (OwnersOf(g, id) - {k}) + {k};
    }
    db.grants := g[k := updated];
    return 200;
  }

  /**
   * `remove_permission` behind `owner_required`: deletes exactly the
   * target row, unless it is the event's last owner.
   */
  method RemovePermission(db: Database, id: int, userId: int, caller: int) returns (status: int)
    modifies db`grants
    requires db.Valid()
    ensures db.Valid()
    ensures status == 403 <==> OwnerRequired(old(db.grants), caller, map["id" := id]).Deny?
    ensures status == 404 <==> OwnerRequired(old(db.grants), caller, map["id" := id]).Run?
                               && (userId !in db.users || (id, userId) !in old(db.grants))
    ensures status == 400 <==> OwnerRequired(old(db.grants), caller, map["id" := id]).Run?
                               && userId in db.users && (id, userId) in old(db.grants)
                               && old(db.grants)[(id, userId)].role == Owner && OwnerCount(old(db.grants), id) <= 1
    ensures status == 200 || status == 400 || status == 403 || status == 404
    ensures status == 200 ==> db.grants == old(db.grants) - {(id, userId)}
    ensures status != 200 ==> db.grants == old(db.grants)
    ensures OwnerCount(old(db.grants), id) >= 1 ==> OwnerCount(db.grants, id) >= 1
    ensures forall e | e != id :: OwnersOf(db.grants, e) == OwnersOf(old(db.grants), e)
  {
    var gate := OwnerRequired(db.grants, caller, map["id" := id]);
    if gate.Deny? {
      return 403;
    }
    if userId !in db.users {
      return 404;
    }
    var target := Lookup(db.grants, id, userId);
    if target.None? {
      return 404;
    }
    if target.value.role == Owner {
      var owners := OwnersOf(db.grants, id);
      if |owners| <= 1 {
        return 400;
      }
    }
    var k := (id, userId);
    var g := db.grants;
    forall e
      ensures OwnersOf(g - {k}, e) == OwnersOf(g, e) - {k}
    {
      OwnersAfterRemove(g, k, e);
    }
    if target.value.role != Owner {
      assert OwnersOf(g - {k}, id) == OwnersOf(g, id);
    } else {
      assert OwnersOf(g, id) == (OwnersOf(g, id) - {k}) + {k};
    }
    db.grants := g - {k};
    return 200;
  }
}
