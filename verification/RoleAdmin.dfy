/** The programs over the role tables: the admin client's transactions and the authorizer with its engine. */
module RoleAdmin {
  import opened Common
  import opened Rbac
  import opened Scopes
  import opened Strings

  class AdminClient {
    var db: Tables

    constructor (db: Tables)
      ensures this.db == db
    {
      this.db := db;
    }

    method SetUserRoles(organization: string, user: string, roleIds: seq<string>) returns (ok: bool)
      modifies this
      ensures ok <==> MaySetUserRoles(old(db), organization, user, roleIds)
      ensures db == Rbac.SetUserRoles(old(db), organization, user, roleIds)
    {
      var saved := db;
      if Member(organization, user) !in db.members {
        return false;
      }
      db := db.(userRoles := OtherUserRoles(db, organization, user));
      for i := 0 to |roleIds|
        invariant db == saved.(userRoles := OtherUserRoles(saved, organization, user)
                                            + RolesOf(organization, user, roleIds[..i]))
        invariant Distinct(roleIds[..i]) && forall k :: 0 <= k < i ==> saved.RoleIn(organization, roleIds[k])
      {
        var row := UserRole(organization, user, roleIds[i]);
        if !db.RoleIn(organization, roleIds[i]) || row in db.userRoles {
          RefusedRole(saved, organization, user, roleIds, i);
          db := saved;
          return false;
        }
        AssignedRole(organization, user, roleIds, i);
        db := db.(userRoles := db.userRoles + {row});
      }
      assert roleIds[..|roleIds|] == roleIds;
      return true;
    }

    /** SetRolePermissions through replaceRoleValues. */
    method SetRolePermissions(organization: string, role: string, codes: seq<string>) returns (ok: bool)
      modifies this
      ensures ok <==> MaySetPermissions(old(db), organization, role, codes)
      ensures db == Rbac.SetRolePermissions(old(db), organization, role, codes)
    {
      var saved := db;
      if !db.RoleIn(organization, role) {
        return false;
      }
      db := db.(rolePermissions := OtherPermissions(db, role));
      for i := 0 to |codes|
        invariant db == saved.(rolePermissions := OtherPermissions(saved, role) + CodesOf(role, codes[..i]))
        invariant Distinct(codes[..i]) && forall k :: 0 <= k < i ==> codes[k] in saved.permissions
      {
        var row := RolePermission(role, codes[i]);
        if codes[i] !in db.permissions || row in db.rolePermissions {
          RefusedCode(saved, role, codes, i);
          db := saved;
          return false;
        }
        GrantedCode(role, codes, i);
        db := db.(rolePermissions := db.rolePermissions + {row});
      }
      assert codes[..|codes|] == codes;
      return true;
    }

    method DeleteRole(organization: string, role: string) returns (ok: bool)
      modifies this
      ensures ok <==> MayDeleteRole(old(db), organization, role)
      ensures db == Rbac.DeleteRole(old(db), organization, role)
    {
      if role !in db.roles || db.roles[role].organization != organization || db.roles[role].isSystem {
        return false;
      }
      db := db.(roles := db.roles - {role});
      db := db.(rolePermissions := OtherPermissions(db, role));
      db := db.(userRoles := set a | a in db.userRoles && a.role != role);
      return true;
    }

    /**
     `meanwhile` is what others (`steps`) leave between the lookup and the transaction. `profileFails`
     when the statement that writes the profile fails, say on an email that another account has.
     */
    method UpsertDingTalkIdentity(organization: string, providerUser: string, user: string, id: string,
                                  meanwhile: Tables, ghost steps: seq<Step>, profileFails: bool)
      returns (result: Result<string, ()>)
      requires meanwhile == Run(db, steps)
      modifies this
      ensures var identity := Identity(organization, providerUser);
              if identity in old(db).identities then
                && db == old(db)
                && result == if profileFails then Failure(()) else Success(db.identities[identity])
              else if profileFails || identity in meanwhile.identities then
                db == meanwhile && result.Failure?
              else
                && db == Rbac.UpsertDingTalkIdentity(meanwhile, organization, providerUser, user, id)
                && (result.Success? <==> identity in db.identities)
                && (result.Success? ==> result.value == db.identities[identity])
                && (result.Failure? ==> db == meanwhile)
    {
      var identity := Identity(organization, providerUser);
      if identity in db.identities {
        return if profileFails then Failure(()) else Success(db.identities[identity]);
      }
      db := meanwhile;
      result := LinkOrCreate(identity, user, id, profileFails);
      if result.Failure? {
        db := meanwhile;
      }
    }

    /** The transaction that links the given account, or creates one. */
    method LinkOrCreate(identity: Identity, user: string, id: string, profileFails: bool)
      returns (result: Result<string, ()>)
      modifies this
      ensures result.Success? <==>
              && !profileFails && identity !in old(db).identities
              && (if user != "" then Member(identity.organization, user) in old(db).members
                  else Named(id) && id !in old(db).users && identity.organization in old(db).organizations)
      ensures result.Success? ==>
                && db == Rbac.UpsertDingTalkIdentity(old(db), identity.organization, identity.providerUser, user, id)
                && identity in db.identities && result.value == db.identities[identity]
    {
      var organization := identity.organization;
      if user != "" {
        if Member(organization, user) !in db.members || identity in db.identities {
          return Failure(());
        }
        db := db.(identities := db.identities[identity := user]);
        return if profileFails then Failure(()) else Success(user);
      }
      if profileFails || !Named(id) || id in db.users || organization !in db.organizations {
        return Failure(());
      }
      db := db.(users := db.users[id := true], members := db.members + {Member(organization, id)});
      if identity in db.identities {
        return Failure(());
      }
      db := db.(identities := db.identities[identity := id]);
      db := db.(userRoles := db.userRoles + ViewerRoles(db, organization, id));
      return Success(id);
    }

    /** The principal's permissions, or nothing for a stranger or a disabled account. */
    method ResolvePrincipal(user: string, organization: string) returns (permissions: Option<set<string>>)
      ensures permissions.Some? <==> Resolves(db, organization, user)
      ensures permissions.Some? ==> permissions.value == PermissionList(db, organization, user)
    {
      if Member(organization, user) !in db.members || user !in db.users || !db.users[user] {
        return None;
      }
      var rows := set p | p in db.rolePermissions && UserRole(organization, user, p.role) in db.userRoles;
      var codes: set<string> := {};
      while rows != {}
        invariant rows <= db.rolePermissions
        invariant forall p :: p in rows ==> UserRole(organization, user, p.role) in db.userRoles
        invariant codes + (set p | p in rows :: p.code) == PermissionList(db, organization, user)
        decreases rows
      {
        var p :| p in rows;
        codes := codes + {p.code};
        rows := rows - {p};
      }
      return Some(codes);
    }
  }

  lemma AssignedRole(organization: string, user: string, roleIds: seq<string>, i: nat)
    requires i < |roleIds|
    ensures RolesOf(organization, user, roleIds[..i + 1]) ==
            RolesOf(organization, user, roleIds[..i]) + {UserRole(organization, user, roleIds[i])}
    ensures Distinct(roleIds[..i])
            && UserRole(organization, user, roleIds[i]) !in RolesOf(organization, user, roleIds[..i])
            ==> Distinct(roleIds[..i + 1])
  {
    var more, less := roleIds[..i + 1], roleIds[..i];
    assert more[i] == roleIds[i] && forall k :: 0 <= k < i ==> more[k] == less[k];
    forall k | 0 <= k < i
      ensures UserRole(organization, user, less[k]) in RolesOf(organization, user, less)
      ensures UserRole(organization, user, less[k]) in RolesOf(organization, user, more)
    {
      assert UserRole(organization, user, more[k]) == UserRole(organization, user, less[k]);
    }
    assert UserRole(organization, user, more[i]) in RolesOf(organization, user, more);
  }

  lemma RefusedRole(db: Tables, organization: string, user: string, roleIds: seq<string>, i: nat)
    requires i < |roleIds|
    requires !db.RoleIn(organization, roleIds[i])
             || UserRole(organization, user, roleIds[i]) in
                OtherUserRoles(db, organization, user) + RolesOf(organization, user, roleIds[..i])
    ensures !MaySetUserRoles(db, organization, user, roleIds)
  {
    if UserRole(organization, user, roleIds[i]) in RolesOf(organization, user, roleIds[..i]) {
      var k :| 0 <= k < i && roleIds[..i][k] == roleIds[i];
      assert roleIds[k] == roleIds[i];
    }
  }

  lemma GrantedCode(role: string, codes: seq<string>, i: nat)
    requires i < |codes|
    ensures CodesOf(role, codes[..i + 1]) == CodesOf(role, codes[..i]) + {RolePermission(role, codes[i])}
    ensures Distinct(codes[..i]) && RolePermission(role, codes[i]) !in CodesOf(role, codes[..i]) ==>
              Distinct(codes[..i + 1])
  {
    var more, less := codes[..i + 1], codes[..i];
    assert more[i] == codes[i] && forall k :: 0 <= k < i ==> more[k] == less[k];
    forall k | 0 <= k < i
      ensures RolePermission(role, less[k]) in CodesOf(role, less)
              && RolePermission(role, less[k]) in CodesOf(role, more)
    {
      assert RolePermission(role, more[k]) == RolePermission(role, less[k]);
    }
    assert RolePermission(role, more[i]) in CodesOf(role, more);
  }

  lemma RefusedCode(db: Tables, role: string, codes: seq<string>, i: nat)
    requires i < |codes|
    requires codes[i] !in db.permissions
             || RolePermission(role, codes[i]) in OtherPermissions(db, role) + CodesOf(role, codes[..i])
    ensures forall organization :: !MaySetPermissions(db, organization, role, codes)
  {
    if RolePermission(role, codes[i]) in CodesOf(role, codes[..i]) {
      var k :| 0 <= k < i && codes[..i][k] == codes[i];
      assert codes[k] == codes[i];
    }
  }

  /** The engine in memory and the store it is loaded from. */
  class Authorizer {
    const store: AdminClient
    var engine: Option<Engine>

    constructor (store: AdminClient)
      ensures this.store == store && engine == None
    {
      this.store, engine := store, None;
    }

    /** The old policy goes first: while loading, and after a load that fails, nothing is allowed. */
    method Reload(answers: bool) returns (ok: bool)
      modifies `engine
      ensures ok <==> answers && Loadable(LoadRBACPolicy(store.db))
      ensures engine == if ok then Some(EngineOf(LoadRBACPolicy(store.db))) else None
    {
      engine := None;
      if !answers {
        return false;
      }
      var snapshot := LoadRBACPolicy(store.db);
      var loaded := NewEngine(snapshot);
      if loaded.Failure? {
        return false;
      }
      engine := Some(loaded.value);
      return true;
    }

    method Allowed(user: string, organization: string, required: string) returns (result: Result<bool, ()>)
      ensures result == AllowedBy(engine, user, organization, required)
    {
      if Trim(user) == "" || Trim(organization) == "" || Trim(required) == "" {
        return Success(false);
      }
      if engine.None? {
        return Failure(());
      }
      var allowed := Enforce(engine.value, UserSubject(user), organization, required, "use");
      return Success(allowed);
    }
  }

  /** Load the policy, resolve the principal and ask: the answer is membership in the principal's list. */
  method LoadAndAsk(store: AdminClient, authorizer: Authorizer, user: string, organization: string, required: string)
    returns (permissions: Option<set<string>>, result: Result<bool, ()>)
    requires authorizer.store == store && Sound(store.db)
    modifies authorizer`engine
    ensures permissions.Some? <==> Resolves(store.db, organization, user)
    ensures permissions.Some? ==>
              result == Success(Named(required) && (required in permissions.value || "*" in permissions.value))
  {
    ListAndCasbinAgree(store.db, organization, user, required);
    var ok := authorizer.Reload(true);
    permissions := store.ResolvePrincipal(user, organization);
    result := authorizer.Allowed(user, organization, required);
    if permissions.Some? {
      FreshAnswerIsTheList(store.db, organization, user, required);
    }
  }

  /** Some policy matches; the role manager searches the links breadth first. */
  method Enforce(e: Engine, sub: string, dom: string, obj: string, act: string) returns (allowed: bool)
    ensures allowed <==> Enforces(e, sub, dom, obj, act)
  {
    allowed := false;
    var rest := e.policies;
    while rest != {}
      invariant rest <= e.policies
      invariant allowed <==> exists p :: p in e.policies && p !in rest && Matches(e, p, sub, dom, obj, act)
      decreases rest
    {
      var p :| p in rest;
      var linked := Linked(e, sub, p.sub, dom);
      if linked && dom == p.dom && (p.obj == "*" || obj == p.obj) && act == p.act {
        allowed := true;
      }
      rest := rest - {p};
    }
  }

  /** The names within `levels` links of `name`. */
  ghost predicate Reached(e: Engine, name: string, dom: string, levels: nat, names: set<string>) {
    forall r :: r in names <==> HasLink(e, name, r, dom, levels)
  }

  method Linked(e: Engine, name: string, role: string, dom: string) returns (linked: bool)
    ensures linked <==> HasLink(e, name, role, dom, MAX_HIERARCHY_LEVEL)
  {
    var names := {name};
    for level := 0 to MAX_HIERARCHY_LEVEL
      invariant Reached(e, name, dom, level, names)
    {
      ghost var before := names;
      names := names + set g | g in e.groupings && g.dom == dom && g.name in names :: g.role;
      OneLevelMore(e, name, dom, level, before, names);
    }
    return role in names;
  }

  lemma OneLevelMore(e: Engine, name: string, dom: string, levels: nat, before: set<string>, after: set<string>)
    requires Reached(e, name, dom, levels, before)
    requires after == before + set g | g in e.groupings && g.dom == dom && g.name in before :: g.role
    ensures Reached(e, name, dom, levels + 1, after)
  {
    forall r ensures r in after <==> HasLink(e, name, r, dom, levels + 1) {
      LastLink(e, name, r, dom, levels);
      if r in after && r !in before {
        var g :| g in e.groupings && g.dom == dom && g.name in before && g.role == r;
        assert Grouping(g.name, r, dom) in e.groupings;
      }
    }
  }

  /** Links may be followed from the far end as well. */
  lemma {:induction false} LastLink(e: Engine, name: string, role: string, dom: string, levels: nat)
    ensures HasLink(e, name, role, dom, levels + 1) <==>
              HasLink(e, name, role, dom, levels)
              || exists last :: HasLink(e, name, last, dom, levels) && Grouping(last, role, dom) in e.groupings
    decreases levels
  {
    if levels > 0 {
      forall middle: string
        ensures HasLink(e, middle, role, dom, levels) <==>
                  HasLink(e, middle, role, dom, levels - 1)
                  || exists last ::
                       HasLink(e, middle, last, dom, levels - 1) && Grouping(last, role, dom) in e.groupings
      {
        LastLink(e, middle, role, dom, levels - 1);
      }
      LastLink(e, name, role, dom, levels - 1);
    }
  }
}
