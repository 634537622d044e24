/** Bot administrators: the `admins` table with its owner/admin roles and the
    owner-only management rules of the admin service. The table never loses
    its last owner through the service. */
module Admins {
  import opened Common

  datatype Role = Owner | Admin

  /** The two settings the service reads: `ADMIN_TG_IDS` and `OWNER_TG_ID`. */
  datatype AdminSettings = AdminSettings(adminIds: seq<int>, ownerId: Option<int>)

  /** Why a management request was turned down; the bot shows one fixed text per reason. */
  datatype Refusal = BadUserId | OwnerOnly | AlreadyOwner | NotAnAdmin | LastOwner | WriteFailed | UnknownRole

  datatype Outcome = Done | Refused(why: Refusal)

  // ------------------------------------------------------------ the table

  function Owners(roles: map<int, Role>): set<int> {
    set u | u in roles && roles[u] == Owner
  }

  function OwnerCount(roles: map<int, Role>): nat {
    |Owners(roles)|
  }

  predicate IsOwnerIn(roles: map<int, Role>, u: int) {
    u in roles && roles[u] == Owner
  }

  /** `add`: a new admin row, kept as it is when the user already has one.
      `registered` is the `users` table the foreign key points into; None is the
      insert that fails. */
  function Added(roles: map<int, Role>, registered: set<int>, u: int): (r: Option<map<int, Role>>)
    ensures r.None? <==> u !in roles && u !in registered
    ensures r.Some? ==> r.value.Keys == roles.Keys + {u} && Owners(r.value) == Owners(roles)
  {
    if u in roles then Some(roles)
    else if u in registered then Some(roles[u := Admin])
    else None
  }

  /** `upsert`: the row of `u` with the given role. */
  function Upserted(roles: map<int, Role>, registered: set<int>, u: int, role: Role): (r: Option<map<int, Role>>)
    ensures r.None? <==> u !in registered
    ensures r.Some? ==> r.value.Keys == roles.Keys + {u} && r.value[u] == role
    ensures r.Some? ==> forall v :: v in roles && v != u ==> v in r.value && r.value[v] == roles[v]
  {
    if u in registered then Some(roles[u := role]) else None
  }

  /** A write whose failure is swallowed. */
  function OrKeep(w: Option<map<int, Role>>, roles: map<int, Role>): map<int, Role> {
    if w.Some? then w.value else roles
  }

  /** Python truthiness of an optional user id. */
  predicate Given(p: Option<int>) {
    p.Some? && p.value != 0
  }

  /** `_configured_owner_uid`: the owner setting when it is a positive id. */
  function ConfiguredOwner(s: AdminSettings): (r: Option<int>)
    ensures r.Some? ==> r.value > 0 && s.ownerId == r
  {
    if s.ownerId.Some? && s.ownerId.value > 0 then s.ownerId else None
  }

  /** The first id of `list_user_ids()`, which lists the ids in ascending order. */
  ghost function Least(s: set<int>): (m: int)
    requires s != {}
    ensures m in s && forall v :: v in s ==> m <= v
  {
    LeastExists(s);
    var m :| m in s && forall v :: v in s ==> m <= v;
    m
  }

  lemma {:induction false} LeastExists(s: set<int>)
    requires s != {}
    ensures exists m :: m in s && forall v :: v in s ==> m <= v
    decreases |s|
  {
    SomeMember(s);
    var x :| x in s;
    if s - {x} != {} {
      SomeMember(s - {x});
      LeastExists(s - {x});
      var m :| m in s - {x} && forall v :: v in s - {x} ==> m <= v;
      var least := if x < m then x else m;
      forall v | v in s
        ensures least <= v
      {
        if v != x {
          assert v in s - {x};
        }
      }
      assert least in s;
    } else {
      assert forall v :: v in s ==> v == x;
    }
  }

  // ---------------------------------------------------- the service's rules

  /** The admin `_ensure_owner_exists` promotes when no owner is left: the
      preferred id when it names an admin, otherwise the first listed admin. */
  ghost function OwnerCandidate(roles: map<int, Role>, preferred: Option<int>): Option<int> {
    if Given(preferred) && preferred.value in roles then preferred
    else if roles.Keys != {} then Some(Least(roles.Keys))
    else None
  }

  /** `_ensure_owner_exists`: a table without an owner gets one when it has a candidate. */
  ghost function EnsuredOwner(roles: map<int, Role>, registered: set<int>, preferred: Option<int>): map<int, Role> {
    if OwnerCount(roles) > 0 then roles
    else
      var c := OwnerCandidate(roles, preferred);
      if Given(c) then OrKeep(Upserted(roles, registered, c.value, Owner), roles) else roles
  }

  /** An answer together with the table after the lazy writes that produced it. */
  datatype Checked = Checked(yes: bool, roles: map<int, Role>)

  /** `is_admin`: a stored admin; otherwise the configured owner or a configured
      admin is stored on first sight. */
  ghost function AdminCheck(roles: map<int, Role>, registered: set<int>, s: AdminSettings, u: int): Checked {
    var owner := ConfiguredOwner(s);
    if u in roles then Checked(true, roles)
    else if owner == Some(u) then
      var w := Upserted(roles, registered, u, Owner);
      if w.None? then Checked(false, roles)
      else Checked(true, EnsuredOwner(w.value, registered, Some(u)))
    else if u in s.adminIds then
      var w := Added(roles, registered, u);
      if w.None? then Checked(false, roles)
      else Checked(true, EnsuredOwner(w.value, registered, if owner.Some? then owner else Some(u)))
    else Checked(false, roles)
  }

  /** `is_owner` */
  ghost function OwnerCheck(roles: map<int, Role>, registered: set<int>, s: AdminSettings, u: int): Checked {
    var a := AdminCheck(roles, registered, s, u);
    if !a.yes then a
    else
      var r := EnsuredOwner(a.roles, registered, Some(u));
      Checked(IsOwnerIn(r, u), r)
  }

  datatype Reply = Reply(outcome: Outcome, roles: map<int, Role>)

  /** A write that ends a request: done, or refused with the table as it was. */
  function Finish(w: Option<map<int, Role>>, roles: map<int, Role>): Reply {
    if w.Some? then Reply(Done, w.value) else Reply(Refused(WriteFailed), roles)
  }

  ghost function AdminGranted(roles: map<int, Role>, registered: set<int>, s: AdminSettings, actor: int, target: int): Reply {
    if target <= 0 then Reply(Refused(BadUserId), roles)
    else
      var c := OwnerCheck(roles, registered, s, actor);
      if !c.yes then Reply(Refused(OwnerOnly), c.roles)
      else if IsOwnerIn(c.roles, target) then Reply(Refused(AlreadyOwner), c.roles)
      else Finish(Upserted(c.roles, registered, target, Admin), c.roles)
  }

  ghost function OwnerGranted(roles: map<int, Role>, registered: set<int>, s: AdminSettings, actor: int, target: int): Reply {
    if target <= 0 then Reply(Refused(BadUserId), roles)
    else
      var c := OwnerCheck(roles, registered, s, actor);
      if !c.yes then Reply(Refused(OwnerOnly), c.roles)
      else Finish(Upserted(c.roles, registered, target, Owner), c.roles)
  }

  ghost function OwnerDemoted(roles: map<int, Role>, registered: set<int>, s: AdminSettings, actor: int, target: int): Reply {
    if target <= 0 then Reply(Refused(BadUserId), roles)
    else
      var c := OwnerCheck(roles, registered, s, actor);
      if !c.yes then Reply(Refused(OwnerOnly), c.roles)
      else if target !in c.roles then Reply(Refused(NotAnAdmin), c.roles)
      else if IsOwnerIn(c.roles, target) && OwnerCount(c.roles) <= 1 then Reply(Refused(LastOwner), c.roles)
      else Finish(Upserted(c.roles, registered, target, Admin), c.roles)
  }

  ghost function AdminRemoved(roles: map<int, Role>, registered: set<int>, s: AdminSettings, actor: int, target: int): Reply {
    if target <= 0 then Reply(Refused(BadUserId), roles)
    else
      var c := OwnerCheck(roles, registered, s, actor);
      if !c.yes then Reply(Refused(OwnerOnly), c.roles)
      else if target !in c.roles then Reply(Refused(NotAnAdmin), c.roles)
      else if IsOwnerIn(c.roles, target) && OwnerCount(c.roles) <= 1 then Reply(Refused(LastOwner), c.roles)
      else Reply(Done, c.roles - {target})
  }

  /** `set_role`: "owner" grants the owner role; "admin" demotes an owner and
      grants the admin role to anyone else. */
  ghost function RoleSet(roles: map<int, Role>, registered: set<int>, s: AdminSettings, actor: int, target: int, role: string): Reply {
    var r := Lower(Trim(role));
    if r == "owner" then OwnerGranted(roles, registered, s, actor, target)
    else if r == "admin" then
      if IsOwnerIn(roles, target) then OwnerDemoted(roles, registered, s, actor, target)
      else AdminGranted(roles, registered, s, actor, target)
    else Reply(Refused(UnknownRole), roles)
  }

  /** The ids seeding goes through: the configured admins, led by the
      configured owner when that one is not among them. */
  function SeedIds(s: AdminSettings): seq<int> {
    var owner := ConfiguredOwner(s);
    if owner.Some? && owner.value !in s.adminIds then [owner.value] + s.adminIds else s.adminIds
  }

  /** `add` of every id in turn, each failure swallowed. */
  function AddAll(roles: map<int, Role>, registered: set<int>, ids: seq<int>): map<int, Role>
    decreases |ids|
  {
    if ids == [] then roles
    else
      var r := AddAll(roles, registered, ids[..|ids| - 1]);
      OrKeep(Added(r, registered, ids[|ids| - 1]), r)
  }

  /** `seed_admins_from_settings` */
  ghost function Seeded(roles: map<int, Role>, registered: set<int>, s: AdminSettings): map<int, Role> {
    var ids := SeedIds(s);
    var owner := ConfiguredOwner(s);
    var added := AddAll(roles, registered, ids);
    var r := if owner.Some? then OrKeep(Upserted(added, registered, owner.value, Owner), added) else added;
    EnsuredOwner(r, registered, if owner.Some? then owner else if ids != [] then Some(ids[0]) else None)
  }

  // ---------------------------------------------------------------- lemmas

  /** Promoting a candidate never removes an admin or an owner, and leaves a
      table with admins with an owner unless the only candidate is id 0. */
  lemma EnsuredOwnerFacts(roles: map<int, Role>, registered: set<int>, preferred: Option<int>)
    requires roles.Keys <= registered
    ensures var r := EnsuredOwner(roles, registered, preferred);
      r.Keys == roles.Keys && Owners(roles) <= Owners(r)
      && (OwnerCount(r) > 0 <==> OwnerCount(roles) > 0 || Given(OwnerCandidate(roles, preferred)))
  {
    var r := EnsuredOwner(roles, registered, preferred);
    var c := OwnerCandidate(roles, preferred);
    if OwnerCount(roles) == 0 && Given(c) {
      assert c.value in roles;
      assert c.value in Owners(r);
    }
    if OwnerCount(roles) == 0 && !Given(c) {
      assert r == roles;
    }
    if OwnerCount(roles) > 0 {
      assert r == roles;
    }
  }

  /** Owners are only added by the lazy checks. */
  lemma ChecksKeepOwners(roles: map<int, Role>, registered: set<int>, s: AdminSettings, u: int)
    requires roles.Keys <= registered
    ensures Owners(roles) <= Owners(AdminCheck(roles, registered, s, u).roles)
    ensures Owners(roles) <= Owners(OwnerCheck(roles, registered, s, u).roles)
    ensures AdminCheck(roles, registered, s, u).roles.Keys <= registered
    ensures OwnerCheck(roles, registered, s, u).roles.Keys <= registered
  {
    var a := AdminCheck(roles, registered, s, u);
    var owner := ConfiguredOwner(s);
    if u !in roles && owner == Some(u) && u in registered {
      var w := Upserted(roles, registered, u, Owner);
      EnsuredOwnerFacts(w.value, registered, Some(u));
    } else if u !in roles && owner != Some(u) && u in s.adminIds && u in registered {
      var w := Added(roles, registered, u);
      EnsuredOwnerFacts(w.value, registered, if owner.Some? then owner else Some(u));
    }
    if a.yes {
      EnsuredOwnerFacts(a.roles, registered, Some(u));
    }
  }

  /** `is_admin` answers yes exactly for a stored admin, or for a configured id
      whose row could be written; afterwards that user is stored. */
  lemma AdminCheckAnswers(roles: map<int, Role>, registered: set<int>, s: AdminSettings, u: int)
    requires roles.Keys <= registered
    ensures var a := AdminCheck(roles, registered, s, u);
      a.yes <==> u in roles || (u in registered && (ConfiguredOwner(s) == Some(u) || u in s.adminIds))
    ensures var a := AdminCheck(roles, registered, s, u);
      a.yes ==> u in a.roles && roles.Keys <= a.roles.Keys
    ensures var a := AdminCheck(roles, registered, s, u);
      !a.yes ==> a.roles == roles
  {
    var owner := ConfiguredOwner(s);
    if u !in roles && owner == Some(u) && u in registered {
      var w := Upserted(roles, registered, u, Owner);
      EnsuredOwnerFacts(w.value, registered, Some(u));
    } else if u !in roles && owner != Some(u) && u in s.adminIds && u in registered {
      var w := Added(roles, registered, u);
      EnsuredOwnerFacts(w.value, registered, if owner.Some? then owner else Some(u));
    }
  }

  /** Whatever a management request answers, a table that had an owner still has one. */
  lemma LastOwnerKept(roles: map<int, Role>, registered: set<int>, s: AdminSettings, actor: int, target: int, role: string)
    requires roles.Keys <= registered && OwnerCount(roles) > 0
    ensures OwnerCount(AdminGranted(roles, registered, s, actor, target).roles) > 0
    ensures OwnerCount(OwnerGranted(roles, registered, s, actor, target).roles) > 0
    ensures OwnerCount(OwnerDemoted(roles, registered, s, actor, target).roles) > 0
    ensures OwnerCount(AdminRemoved(roles, registered, s, actor, target).roles) > 0
    ensures OwnerCount(RoleSet(roles, registered, s, actor, target, role).roles) > 0
  {
    var c := OwnerCheck(roles, registered, s, actor);
    ChecksKeepOwners(roles, registered, s, actor);
    OwnersGrow(roles, c.roles);
    if target > 0 && c.yes {
      assert IsOwnerIn(c.roles, actor);
      assert actor in Owners(c.roles);
      OwnerKeptByWrite(c.roles, registered, target, Admin, actor);
      OwnerKeptByWrite(c.roles, registered, target, Owner, actor);
      if target in c.roles && !(IsOwnerIn(c.roles, target) && OwnerCount(c.roles) <= 1) {
        OwnerLeftAfterRemoval(c.roles, target);
        OwnerLeftAfterDemotion(c.roles, registered, target);
      }
    }
  }

  lemma OwnersGrow(a: map<int, Role>, b: map<int, Role>)
    requires Owners(a) <= Owners(b)
    ensures OwnerCount(a) <= OwnerCount(b)
  {
    SubsetCard(Owners(a), Owners(b));
  }

  lemma SubsetCard(a: set<int>, b: set<int>)
    requires a <= b
    ensures |a| <= |b|
  {
    assert b == a + (b - a);
  }

  /** A write to `target` keeps an owner other than the target. */
  lemma OwnerKeptByWrite(roles: map<int, Role>, registered: set<int>, target: int, role: Role, owner: int)
    requires IsOwnerIn(roles, owner)
    ensures (owner != target || role == Owner) ==> OwnerCount(OrKeep(Upserted(roles, registered, target, role), roles)) > 0
  {
    var r := OrKeep(Upserted(roles, registered, target, role), roles);
    if owner != target || role == Owner {
      assert owner in Owners(r);
    }
  }

  lemma OwnerLeftAfterRemoval(roles: map<int, Role>, target: int)
    requires OwnerCount(roles) > 0 && !(IsOwnerIn(roles, target) && OwnerCount(roles) <= 1)
    ensures OwnerCount(roles - {target}) > 0
  {
    SomeMember(Owners(roles));
    var o :| o in Owners(roles);
    if o == target {
      assert |Owners(roles) - {target}| == |Owners(roles)| - 1;
      SomeMember(Owners(roles) - {target});
      var p :| p in Owners(roles) - {target};
      assert p in Owners(roles - {target});
    } else {
      assert o in Owners(roles - {target});
    }
  }

  lemma OwnerLeftAfterDemotion(roles: map<int, Role>, registered: set<int>, target: int)
    requires OwnerCount(roles) > 0 && !(IsOwnerIn(roles, target) && OwnerCount(roles) <= 1)
    ensures OwnerCount(OrKeep(Upserted(roles, registered, target, Admin), roles)) > 0
  {
    var r := OrKeep(Upserted(roles, registered, target, Admin), roles);
    SomeMember(Owners(roles));
    var o :| o in Owners(roles);
    if o == target {
      assert |Owners(roles) - {target}| == |Owners(roles)| - 1;
      SomeMember(Owners(roles) - {target});
      var p :| p in Owners(roles) - {target};
      assert p in Owners(r);
    } else {
      assert o in Owners(r);
    }
  }

  /** Only an owner changes roles: a request that gets through leaves its actor
      an owner and the target with the requested role; `grant_admin` never
      demotes an owner. */
  lemma OwnerOnlyManagement(roles: map<int, Role>, registered: set<int>, s: AdminSettings, actor: int, target: int)
    ensures var r := AdminGranted(roles, registered, s, actor, target);
      r.outcome == Done ==> (target > 0 && target in r.roles && r.roles[target] == Admin
        && (actor != target ==> IsOwnerIn(r.roles, actor)))
    ensures var r := OwnerGranted(roles, registered, s, actor, target);
      r.outcome == Done ==> target > 0 && IsOwnerIn(r.roles, target) && IsOwnerIn(r.roles, actor)
    ensures var r := AdminRemoved(roles, registered, s, actor, target);
      r.outcome == Done ==> target > 0 && target !in r.roles && (actor != target ==> IsOwnerIn(r.roles, actor))
    ensures var r := OwnerDemoted(roles, registered, s, actor, target);
      r.outcome == Done ==> (target > 0 && target in r.roles && r.roles[target] == Admin
        && (actor != target ==> IsOwnerIn(r.roles, actor)))
  {
  }

  /** `grant_admin` never demotes an owner. */
  lemma GrantAdminKeepsOwners(roles: map<int, Role>, registered: set<int>, s: AdminSettings, actor: int, target: int)
    requires roles.Keys <= registered
    ensures Owners(roles) <= Owners(AdminGranted(roles, registered, s, actor, target).roles)
  {
    ChecksKeepOwners(roles, registered, s, actor);
  }

  /** The last owner cannot be demoted or removed: both requests are refused
      for the only owner of the table. */
  lemma LastOwnerRefused(roles: map<int, Role>, registered: set<int>, s: AdminSettings, owner: int)
    requires roles.Keys <= registered && owner > 0 && Owners(roles) == {owner}
    ensures OwnerDemoted(roles, registered, s, owner, owner).outcome == Refused(LastOwner)
    ensures AdminRemoved(roles, registered, s, owner, owner).outcome == Refused(LastOwner)
  {
    assert owner in Owners(roles);
    var c := OwnerCheck(roles, registered, s, owner);
    assert AdminCheck(roles, registered, s, owner) == Checked(true, roles);
    assert EnsuredOwner(roles, registered, Some(owner)) == roles;
    assert c == Checked(true, roles);
  }

  /** A refused request changes only what its lazy owner check wrote. */
  lemma RefusalsWriteNothing(roles: map<int, Role>, registered: set<int>, s: AdminSettings, actor: int, target: int)
    ensures var r := AdminGranted(roles, registered, s, actor, target);
      r.outcome.Refused? ==> r.roles == roles || r.roles == OwnerCheck(roles, registered, s, actor).roles
    ensures var r := OwnerDemoted(roles, registered, s, actor, target);
      r.outcome.Refused? ==> r.roles == roles || r.roles == OwnerCheck(roles, registered, s, actor).roles
    ensures var r := AdminRemoved(roles, registered, s, actor, target);
      r.outcome.Refused? ==> r.roles == roles || r.roles == OwnerCheck(roles, registered, s, actor).roles
    ensures target <= 0 ==> OwnerGranted(roles, registered, s, actor, target) == Reply(Refused(BadUserId), roles)
  {
  }

  /** `add` of a sequence: every registered id ends up stored, no other id is
      added, and no owner is lost. */
  lemma {:induction false} AddAllFacts(roles: map<int, Role>, registered: set<int>, ids: seq<int>)
    ensures var r := AddAll(roles, registered, ids);
      roles.Keys <= r.Keys && Owners(r) == Owners(roles)
      && (forall u :: u in ids && u in registered ==> u in r)
      && (forall u :: u in r ==> u in roles || (u in ids && u in registered))
    decreases |ids|
  {
    if ids != [] {
      var front := ids[..|ids| - 1];
      AddAllFacts(roles, registered, front);
      assert forall u :: u in ids ==> u in front || u == ids[|ids| - 1];
    }
  }

  /** Seeding stores every configured id that has a user row, makes the
      configured owner an owner, and adds nobody else. */
  lemma SeedFacts(roles: map<int, Role>, registered: set<int>, s: AdminSettings)
    requires roles.Keys <= registered
    ensures var r := Seeded(roles, registered, s);
      (forall u :: u in s.adminIds && u in registered ==> u in r)
      && (ConfiguredOwner(s).Some? && ConfiguredOwner(s).value in registered ==> IsOwnerIn(r, ConfiguredOwner(s).value))
      && (forall u :: u in r ==> u in roles || u in SeedIds(s))
      && Owners(roles) <= Owners(r)
  {
    var ids := SeedIds(s);
    var owner := ConfiguredOwner(s);
    AddAllFacts(roles, registered, ids);
    var added := AddAll(roles, registered, ids);
    assert forall u :: u in added ==> u in registered;
    var r := if owner.Some? then OrKeep(Upserted(added, registered, owner.value, Owner), added) else added;
    assert forall u :: u in s.adminIds ==> u in ids;
    EnsuredOwnerFacts(r, registered, if owner.Some? then owner else if ids != [] then Some(ids[0]) else None);
  }

  /** With two configured admins and no owner setting, seeding an empty table
      makes the first configured admin the owner and the second an admin. */
  lemma SeedFirstOwner()
    ensures Seeded(map[], {1001, 1002}, AdminSettings([1001, 1002], None)) == map[1001 := Owner, 1002 := Admin]
  {
    var s := AdminSettings([1001, 1002], None);
    var added := AddAll(map[], {1001, 1002}, [1001, 1002]);
    assert [1001, 1002][..1] == [1001];
    assert [1001][..0] == [];
    assert AddAll(map[], {1001, 1002}, [1001]) == map[1001 := Admin];
    assert added == map[1001 := Admin, 1002 := Admin];
    assert OwnerCount(added) == 0 by {
      assert Owners(added) == {};
    }
    assert OwnerCandidate(added, Some(1001)) == Some(1001);
  }

  // ------------------------------------------------------------ the objects

  /** The `admins` table. */
  class AdminsRepo {
    var roles: map<int, Role>
    /** Ids of the `users` table, which `admins.user_id` references. */
    var registered: set<int>

    predicate Valid()
      reads this
    {
      roles.Keys <= registered
    }

    constructor(registered: set<int>)
      ensures roles == map[] && this.registered == registered && Valid()
    {
      roles := map[];
      this.registered := registered;
    }

    method IsAdmin(u: int) returns (b: bool)
      ensures b <==> u in roles
    {
      b := u in roles;
    }

    method IsOwner(u: int) returns (b: bool)
      ensures b <==> IsOwnerIn(roles, u)
    {
      b := u in roles && roles[u] == Owner;
    }

    method CountOwners() returns (n: nat)
      ensures n == OwnerCount(roles)
    {
      n := |set u | u in roles && roles[u] == Owner|;
    }

    /** `add`; false where the insert fails. */
    method Add(u: int) returns (ok: bool)
      modifies this
      ensures registered == old(registered)
      ensures Added(old(roles), registered, u) == if ok then Some(roles) else None
      ensures !ok ==> roles == old(roles)
    {
      ok := true;
      if u !in roles {
        if u in registered {
          roles := roles[u := Admin];
        } else {
          ok := false;
        }
      }
    }

    /** `upsert`; false where the write fails. */
    method Upsert(u: int, role: Role) returns (ok: bool)
      modifies this
      ensures registered == old(registered)
      ensures Upserted(old(roles), registered, u, role) == if ok then Some(roles) else None
      ensures !ok ==> roles == old(roles)
    {
      ok := u in registered;
      if ok {
        roles := roles[u := role];
      }
    }

    method Remove(u: int)
      modifies this
      ensures registered == old(registered) && roles == old(roles) - {u}
    {
      roles := roles - {u};
    }

    /** The first id of `list_user_ids()`, which lists ids in ascending order. */
    method FirstUserId() returns (first: Option<int>)
      ensures roles.Keys == {} ==> first.None?
      ensures roles.Keys != {} ==> first == Some(Least(roles.Keys))
    {
      if roles.Keys == {} {
        return None;
      }
      var rest := roles.Keys;
      SomeMember(rest);
      var m :| m in rest;
      rest := rest - {m};
      while rest != {}
        invariant m in roles.Keys && rest <= roles.Keys
        invariant forall v :: v in roles.Keys && v !in rest ==> m <= v
        decreases |rest|
      {
        SomeMember(rest);
        var v :| v in rest;
        if v < m {
          m := v;
        }
        rest := rest - {v};
      }
      first := Some(m);
    }
  }

  /** The admin service over one `admins` table. */
  class AdminService {
    const admins: AdminsRepo
    const settings: AdminSettings

    constructor(admins: AdminsRepo, settings: AdminSettings)
      ensures this.admins == admins && this.settings == settings
    {
      this.admins := admins;
      this.settings := settings;
    }

    method ConfiguredOwnerUid() returns (owner: Option<int>)
      ensures owner == ConfiguredOwner(settings)
    {
      if settings.ownerId.Some? && settings.ownerId.value > 0 {
        owner := settings.ownerId;
      } else {
        owner := None;
      }
    }

    /** `_ensure_owner_exists` */
    method EnsureOwnerExists(preferred: Option<int>)
      modifies admins
      ensures admins.registered == old(admins.registered)
      ensures admins.roles == EnsuredOwner(old(admins.roles), admins.registered, preferred)
    {
      var n := admins.CountOwners();
      if n > 0 {
        return;
      }
      var candidate: Option<int> := None;
      var stored := false;
      if preferred.Some? && preferred.value != 0 {
        stored := admins.IsAdmin(preferred.value);
      }
      if stored {
        candidate := preferred;
      } else {
        candidate := admins.FirstUserId();
      }
      if candidate.Some? && candidate.value != 0 {
        var _ := admins.Upsert(candidate.value, Owner);
      }
    }

    /** `is_admin` */
    method IsAdmin(u: int) returns (yes: bool)
      modifies admins
      ensures admins.registered == old(admins.registered)
      ensures Checked(yes, admins.roles) == AdminCheck(old(admins.roles), admins.registered, settings, u)
    {
      yes := admins.IsAdmin(u);
      if yes {
        return;
      }
      var owner := ConfiguredOwnerUid();
      if owner == Some(u) {
        var ok := admins.Upsert(u, Owner);
        if !ok {
          return false;
        }
        EnsureOwnerExists(Some(u));
        return true;
      }
      if u in settings.adminIds {
        var ok := admins.Add(u);
        if !ok {
          return false;
        }
        EnsureOwnerExists(if owner.Some? then owner else Some(u));
        return true;
      }
      return false;
    }

    /** `is_owner` */
    method IsOwner(u: int) returns (yes: bool)
      modifies admins
      ensures admins.registered == old(admins.registered)
      ensures Checked(yes, admins.roles) == OwnerCheck(old(admins.roles), admins.registered, settings, u)
    {
      var admin := IsAdmin(u);
      if !admin {
        return false;
      }
      EnsureOwnerExists(Some(u));
      yes := admins.IsOwner(u);
    }

    /** Ends a request with a role write. */
    method WriteRole(target: int, role: Role) returns (outcome: Outcome)
      modifies admins
      ensures admins.registered == old(admins.registered)
      ensures Reply(outcome, admins.roles) == Finish(Upserted(old(admins.roles), admins.registered, target, role), old(admins.roles))
    {
      var ok := admins.Upsert(target, role);
      outcome := if ok then Done else Refused(WriteFailed);
    }

    method GrantAdmin(actor: int, target: int) returns (outcome: Outcome)
      modifies admins
      ensures admins.registered == old(admins.registered)
      ensures Reply(outcome, admins.roles) == AdminGranted(old(admins.roles), admins.registered, settings, actor, target)
    {
      if target <= 0 {
        return Refused(BadUserId);
      }
      var ownerActor := IsOwner(actor);
      if !ownerActor {
        return Refused(OwnerOnly);
      }
      var ownerTarget := admins.IsOwner(target);
      if ownerTarget {
        return Refused(AlreadyOwner);
      }
      outcome := WriteRole(target, Admin);
    }

    method GrantOwner(actor: int, target: int) returns (outcome: Outcome)
      modifies admins
      ensures admins.registered == old(admins.registered)
      ensures Reply(outcome, admins.roles) == OwnerGranted(old(admins.roles), admins.registered, settings, actor, target)
    {
      if target <= 0 {
        return Refused(BadUserId);
      }
      var ownerActor := IsOwner(actor);
      if !ownerActor {
        return Refused(OwnerOnly);
      }
      outcome := WriteRole(target, Owner);
    }

    method DemoteOwnerToAdmin(actor: int, target: int) returns (outcome: Outcome)
      modifies admins
      ensures admins.registered == old(admins.registered)
      ensures Reply(outcome, admins.roles) == OwnerDemoted(old(admins.roles), admins.registered, settings, actor, target)
    {
      if target <= 0 {
        return Refused(BadUserId);
      }
      var ownerActor := IsOwner(actor);
      if !ownerActor {
        return Refused(OwnerOnly);
      }
      var stored := admins.IsAdmin(target);
      if !stored {
        return Refused(NotAnAdmin);
      }
      var ownerTarget := admins.IsOwner(target);
      var n := admins.CountOwners();
      if ownerTarget && n <= 1 {
        return Refused(LastOwner);
      }
      outcome := WriteRole(target, Admin);
    }

    method RemoveAdmin(actor: int, target: int) returns (outcome: Outcome)
      modifies admins
      ensures admins.registered == old(admins.registered)
      ensures Reply(outcome, admins.roles) == AdminRemoved(old(admins.roles), admins.registered, settings, actor, target)
    {
      if target <= 0 {
        return Refused(BadUserId);
      }
      var ownerActor := IsOwner(actor);
      if !ownerActor {
        return Refused(OwnerOnly);
      }
      var stored := admins.IsAdmin(target);
      if !stored {
        return Refused(NotAnAdmin);
      }
      var ownerTarget := admins.IsOwner(target);
      var n := admins.CountOwners();
      if ownerTarget && n <= 1 {
        return Refused(LastOwner);
      }
      admins.Remove(target);
      outcome := Done;
    }

    method SetRole(actor: int, target: int, role: string) returns (outcome: Outcome)
      modifies admins
      ensures admins.registered == old(admins.registered)
      ensures Reply(outcome, admins.roles) == RoleSet(old(admins.roles), admins.registered, settings, actor, target, role)
    {
      var r := Lower(Trim(role));
      if r == "owner" {
        outcome := GrantOwner(actor, target);
      } else if r == "admin" {
        var ownerTarget := admins.IsOwner(target);
        if ownerTarget {
          outcome := DemoteOwnerToAdmin(actor, target);
        } else {
          outcome := GrantAdmin(actor, target);
        }
      } else {
        outcome := Refused(UnknownRole);
      }
    }

    /** `seed_admins_from_settings` */
    method SeedAdminsFromSettings()
      modifies admins
      ensures admins.registered == old(admins.registered)
      ensures admins.roles == Seeded(old(admins.roles), admins.registered, settings)
    {
      var owner := ConfiguredOwnerUid();
      var ids := SeedIds(settings);
      ghost var r0 := admins.roles;
      for i := 0 to |ids|
        invariant admins.registered == old(admins.registered)
        invariant admins.roles == AddAll(r0, admins.registered, ids[..i])
      {
        assert ids[..i + 1][..i] == ids[..i];
        var _ := admins.Add(ids[i]);
      }
      assert ids[..|ids|] == ids;
      if owner.Some? {
        var _ := admins.Upsert(owner.value, Owner);
      }
      EnsureOwnerExists(if owner.Some? then owner else if ids != [] then Some(ids[0]) else None);
    }
  }
}
