/** What role management does to the rows, one row at a time, and what a new account may do. */
module RbacLaws {
  import opened Common
  import opened Rbac
  import opened Scopes
  import opened Strings

  // ---- Assignments and grants ------------------------------------------------------------------------

  /** Only the tables that are named may differ. */
  ghost predicate Changes(before: Tables, after: Tables, userRoles: bool, rolePermissions: bool, roles: bool,
                          users: bool)
  {
    && (userRoles || after.userRoles == before.userRoles)
    && (rolePermissions || after.rolePermissions == before.rolePermissions)
    && (roles || after.roles == before.roles)
    && (users || (after.users == before.users && after.members == before.members
                  && after.identities == before.identities))
    && after.organizations == before.organizations && after.permissions == before.permissions
  }

  /** The user's roles in the organisation become the given ones; all other assignments stay. */
  lemma AssignedRows(db: Tables, organization: string, user: string, roleIds: seq<string>, a: UserRole)
    ensures var after := SetUserRoles(db, organization, user, roleIds);
            if Member(organization, user) in db.members
               && (forall i, j :: 0 <= i < j < |roleIds| ==> roleIds[i] != roleIds[j])
               && (forall i :: 0 <= i < |roleIds| ==>
                     roleIds[i] in db.roles && db.roles[roleIds[i]].organization == organization)
            then
              && Changes(db, after, true, false, false, false)
              && (a in after.userRoles <==>
                    if a.organization == organization && a.user == user then a.role in roleIds else a in db.userRoles)
            else after == db
  {
    assert a in RolesOf(organization, user, roleIds) <==>
           a.organization == organization && a.user == user && a.role in roleIds by {
      if i :| 0 <= i < |roleIds| && roleIds[i] == a.role && a == UserRole(organization, user, roleIds[i]) {
        assert a in RolesOf(organization, user, roleIds);
      }
    }
    assert MaySetUserRoles(db, organization, user, roleIds) <==>
           && Member(organization, user) in db.members
           && (forall i, j :: 0 <= i < j < |roleIds| ==> roleIds[i] != roleIds[j])
           && (forall i :: 0 <= i < |roleIds| ==>
                 roleIds[i] in db.roles && db.roles[roleIds[i]].organization == organization);
  }

  /** The role's permissions become the given ones; those of other roles stay. */
  lemma GrantedRows(db: Tables, organization: string, role: string, codes: seq<string>, p: RolePermission)
    ensures var after := SetRolePermissions(db, organization, role, codes);
            if role in db.roles && db.roles[role].organization == organization
               && (forall i, j :: 0 <= i < j < |codes| ==> codes[i] != codes[j])
               && (forall i :: 0 <= i < |codes| ==> codes[i] in db.permissions)
            then
              && Changes(db, after, false, true, false, false)
              && (p in after.rolePermissions <==> if p.role == role then p.code in codes else p in db.rolePermissions)
            else after == db
  {
    assert p in CodesOf(role, codes) <==> p.role == role && p.code in codes by {
      if i :| 0 <= i < |codes| && codes[i] == p.code && p == RolePermission(role, codes[i]) {
        assert p in CodesOf(role, codes);
      }
    }
    assert MaySetPermissions(db, organization, role, codes) <==>
           && role in db.roles && db.roles[role].organization == organization
           && (forall i, j :: 0 <= i < j < |codes| ==> codes[i] != codes[j])
           && (forall i :: 0 <= i < |codes| ==> codes[i] in db.permissions);
  }

  /** A role of the organisation that is no system role goes with its grants and assignments, and nothing else. */
  lemma DeletedRows(db: Tables, organization: string, role: string, a: UserRole, p: RolePermission, r: string)
    ensures var after := DeleteRole(db, organization, role);
            if role in db.roles && db.roles[role].organization == organization && !db.roles[role].isSystem then
              && Changes(db, after, true, true, true, false)
              && (r in after.roles <==> r in db.roles && r != role)
              && (r in after.roles ==> after.roles[r] == db.roles[r])
              && (a in after.userRoles <==> a in db.userRoles && a.role != role)
              && (p in after.rolePermissions <==> p in db.rolePermissions && p.role != role)
            else after == db
  {
  }

  /** The name is free in the organisation, or only `role` has it. */
  ghost predicate IsFree(db: Tables, organization: string, name: string, role: string) {
    forall r :: r in db.roles && r != role && db.roles[r].organization == organization ==> db.roles[r].name != name
  }

  /** A name that is free in the organisation makes a new role, which is no system role. */
  lemma CreatedRoleRows(db: Tables, organization: string, name: string, role: string)
    ensures CreateRole(db, organization, name, role) ==
            if Named(role) && role !in db.roles && organization in db.organizations
               && IsFree(db, organization, name, role)
            then db.(roles := db.roles[role := Role(organization, name, false)]) else db
  {
  }

  /** A role of the organisation takes a name that no other has, and stays the kind of role it was. */
  lemma RenamedRoleRows(db: Tables, organization: string, role: string, name: string)
    ensures RenameRole(db, organization, role, name) ==
            if role in db.roles && db.roles[role].organization == organization && IsFree(db, organization, name, role)
            then db.(roles := db.roles[role := Role(organization, name, db.roles[role].isSystem)]) else db
  {
  }

  /** A disabled account does not resolve anywhere, an active one exactly where it is a member. */
  lemma StatusDecides(db: Tables, organization: string, user: string, active: bool, elsewhere: string)
    requires Member(organization, user) in db.members
    ensures var after := SetUserStatus(db, organization, user, active);
            && (Resolves(after, elsewhere, user) <==> active && Member(elsewhere, user) in db.members)
            && (forall other :: other != user ==>
                  (Resolves(after, elsewhere, other) <==> Resolves(db, elsewhere, other)))
            && after.(users := db.users) == db
  {
  }

  /** A request with a blank field is refused, with or without a policy; any other needs one. */
  lemma BlankRequestsAreRefused(engine: Option<Engine>, user: string, organization: string, required: string)
    ensures Trim(user) == "" || Trim(organization) == "" || Trim(required) == "" ==>
              AllowedBy(engine, user, organization, required) == Success(false)
    ensures Trim(user) != "" && Trim(organization) != "" && Trim(required) != "" ==>
              (AllowedBy(engine, user, organization, required).Failure? <==> engine.None?)
  {
  }

  /** A new account is active and a member of its organisation, without a role. */
  lemma CreatedUserRows(db: Tables, organization: string, id: string)
    requires Keys(db)
    ensures var after := CreateUser(db, organization, id);
            if !Named(id) || id in db.users || organization !in db.organizations then after == db
            else
              && Resolves(after, organization, id) && PermissionList(after, organization, id) == {}
              && after.(users := db.users, members := db.members) == db
              && (forall m :: m in after.members <==> m in db.members || m == Member(organization, id))
              && (forall other :: other in db.users ==> other in after.users && after.users[other] == db.users[other])
  {
  }

  // ---- The first login ---------------------------------------------------------------------------------

  /** Who logs in with an identity nobody has, and no account to link, becomes a member with the Viewer role. */
  lemma NewcomerRows(db: Tables, organization: string, providerUser: string, id: string, a: UserRole)
    requires Keys(db) && Identity(organization, providerUser) !in db.identities
    requires Named(id) && id !in db.users && organization in db.organizations
    ensures var after := UpsertDingTalkIdentity(db, organization, providerUser, "", id);
            && Resolves(after, organization, id)
            && (forall m :: m in after.members <==> m in db.members || m == Member(organization, id))
            && after.identities == db.identities[Identity(organization, providerUser) := id]
            && Changes(db, after, true, false, false, true)
            && (a in after.userRoles <==>
                  if a.user == id then
                    && a.organization == organization
                    && a.role in db.roles && db.roles[a.role] == Role(organization, "Viewer", db.roles[a.role].isSystem)
                  else a in db.userRoles)
  {
  }

  /** Linking gives an existing member the identity and nothing more; a known identity changes nothing. */
  lemma LinkedRows(db: Tables, organization: string, providerUser: string, user: string, id: string)
    ensures var identity, after := Identity(organization, providerUser),
                                   UpsertDingTalkIdentity(db, organization, providerUser, user, id);
            && (identity in db.identities ==> after == db)
            && (identity !in db.identities && user != "" ==>
                  after == if Member(organization, user) in db.members
                           then db.(identities := db.identities[identity := user]) else db)
  {
  }

  lemma NamesDiffer()
    ensures "Owner" != "Viewer" && "Operator" != "Viewer"
  {
    assert "Owner"[0] == 'O' && "Operator"[0] == 'O' && "Viewer"[0] == 'V';
  }

  /** The seed has one role of that name. */
  lemma ViewerOfSeed(ids: SeedIds, viewer: set<string>, operator: set<string>, codes: set<string>, role: string)
    requires GoodIds(ids)
    ensures var roles := SeedWith(ids, viewer, operator, codes).roles;
            (role in roles && roles[role] == Role(ids.organization, "Viewer", roles[role].isSystem))
            <==> (role == ids.viewer)
  {
    NamesDiffer();
  }

  lemma NewcomersRole(ids: SeedIds, viewer: set<string>, operator: set<string>, codes: set<string>,
                      providerUser: string, id: string, role: string)
    requires GoodIds(ids) && Named(id) && id != ids.user && Keys(SeedWith(ids, viewer, operator, codes))
    ensures var db := SeedWith(ids, viewer, operator, codes);
            var after := UpsertDingTalkIdentity(db, ids.organization, providerUser, "", id);
            (UserRole(ids.organization, id, role) in after.userRoles) <==> (role == ids.viewer)
  {
    NewcomerRows(SeedWith(ids, viewer, operator, codes), ids.organization, providerUser, id,
                 UserRole(ids.organization, id, role));
    ViewerOfSeed(ids, viewer, operator, codes, role);
  }

  lemma ViewersList(ids: SeedIds, viewer: set<string>, operator: set<string>, codes: set<string>, db: Tables,
                    id: string)
    requires GoodIds(ids) && db.rolePermissions == SeedWith(ids, viewer, operator, codes).rolePermissions
    requires forall role :: (UserRole(ids.organization, id, role) in db.userRoles) <==> (role == ids.viewer)
    ensures PermissionList(db, ids.organization, id) == viewer
  {
    forall c | c in viewer ensures c in PermissionList(db, ids.organization, id) {
      assert RolePermission(ids.viewer, c) in Granting(ids.viewer, viewer);
    }
  }

  lemma NewcomersList(ids: SeedIds, viewer: set<string>, operator: set<string>, codes: set<string>,
                      providerUser: string, id: string)
    requires GoodIds(ids) && Named(id) && id != ids.user && Keys(SeedWith(ids, viewer, operator, codes))
    ensures var db := SeedWith(ids, viewer, operator, codes);
            var after := UpsertDingTalkIdentity(db, ids.organization, providerUser, "", id);
            PermissionList(after, ids.organization, id) == viewer
  {
    var db := SeedWith(ids, viewer, operator, codes);
    var after := UpsertDingTalkIdentity(db, ids.organization, providerUser, "", id);
    forall role ensures (UserRole(ids.organization, id, role) in after.userRoles) <==> (role == ids.viewer) {
      NewcomersRole(ids, viewer, operator, codes, providerUser, id, role);
    }
    assert after.rolePermissions == db.rolePermissions;
    ViewersList(ids, viewer, operator, codes, after, id);
  }

  lemma ViewersMayNotDoEverything()
    ensures VIEWER_CODES == {"stores:read", "assets:read", "approvals:read", "integrations:read", "reports:read"}
    ensures "*" !in VIEWER_CODES
  {
    assert forall c :: c in VIEWER_CODES ==> |c| > 1;
  }

  /** From the state that the migrations leave, a first login may do what viewers may, and not everything. */
  lemma NewcomersAreViewers(ids: SeedIds, providerUser: string, id: string)
    requires GoodIds(ids) && Named(id) && id != ids.user
    ensures var after := UpsertDingTalkIdentity(Seed(ids), ids.organization, providerUser, "", id);
            var list := PermissionList(after, ids.organization, id);
            && list == {"stores:read", "assets:read", "approvals:read", "integrations:read", "reports:read"}
            && "*" !in list
  {
    CodesAreNamed();
    SeedWithIsSound(ids, VIEWER_CODES, OPERATOR_CODES, CODES);
    NewcomersList(ids, VIEWER_CODES, OPERATOR_CODES, CODES, providerUser, id);
    ViewersMayNotDoEverything();
  }
}
