/**
 Role management on the tables, the permission list that SQL joins compute, and the
 Casbin decision on the loaded policy. Identifiers are non-blank text (UUIDs).
 */
module Rbac {
  import opened Common
  import opened Scopes
  import opened Strings

  datatype Member = Member(organization: string, user: string)

  datatype Role = Role(organization: string, name: string, isSystem: bool)

  datatype UserRole = UserRole(organization: string, user: string, role: string)

  datatype RolePermission = RolePermission(role: string, code: string)

  datatype Identity = Identity(organization: string, providerUser: string)

  /** `users` says of each user whether its status is active. */
  datatype Tables = Tables(
    organizations: set<string>, users: map<string, bool>, members: set<Member>,
    roles: map<string, Role>, permissions: set<string>,
    rolePermissions: set<RolePermission>, userRoles: set<UserRole>, identities: map<Identity, string>)
  {
    predicate RoleIn(organization: string, role: string) {
      role in roles && roles[role].organization == organization
    }

    predicate NameTaken(organization: string, name: string) {
      exists r :: r in roles && roles[r].organization == organization && roles[r].name == name
    }
  }

  // ---- What every step keeps ------------------------------------------------------------------------

  /** Not blank. Identifiers are UUIDs, and permission codes are written by the migrations. */
  predicate Named(s: string) {
    Trim(s) != ""
  }

  /** The keys the schema enforces. */
  ghost predicate Keys(db: Tables) {
    && (forall m :: m in db.members ==> m.organization in db.organizations && m.user in db.users)
    && (forall r :: r in db.roles ==> Named(r) && db.roles[r].organization in db.organizations)
    && (forall p :: p in db.rolePermissions ==> p.role in db.roles && p.code in db.permissions)
    && (forall a :: a in db.userRoles ==>
          a.role in db.roles && a.user in db.users && a.organization in db.organizations)
    && (forall c :: c in db.permissions ==> Named(c))
    && (forall u :: u in db.users ==> Named(u)) && (forall o :: o in db.organizations ==> Named(o))
  }

  /** What the schema does not enforce: a role is only assigned within its own organisation. */
  ghost predicate RolesStayHome(db: Tables) {
    forall a :: a in db.userRoles ==> db.RoleIn(a.organization, a.role)
  }

  ghost predicate Sound(db: Tables) {
    Keys(db) && RolesStayHome(db)
  }

  // ---- Role management ------------------------------------------------------------------------------

  function RolesOf(organization: string, user: string, roleIds: seq<string>): set<UserRole> {
    set i | 0 <= i < |roleIds| :: UserRole(organization, user, roleIds[i])
  }

  function OtherUserRoles(db: Tables, organization: string, user: string): set<UserRole> {
    set a | a in db.userRoles && !(a.organization == organization && a.user == user)
  }

  /**
   The user's roles become the given ones, if the user is a member and they are distinct roles of the organisation.
   */
  ghost predicate MaySetUserRoles(db: Tables, organization: string, user: string, roleIds: seq<string>) {
    && Member(organization, user) in db.members && Distinct(roleIds)
    && forall i :: 0 <= i < |roleIds| ==> db.RoleIn(organization, roleIds[i])
  }

  ghost function SetUserRoles(db: Tables, organization: string, user: string, roleIds: seq<string>): Tables {
    if MaySetUserRoles(db, organization, user, roleIds)
    then db.(userRoles := OtherUserRoles(db, organization, user) + RolesOf(organization, user, roleIds))
    else db
  }

  function CodesOf(role: string, codes: seq<string>): set<RolePermission> {
    set i | 0 <= i < |codes| :: RolePermission(role, codes[i])
  }

  function OtherPermissions(db: Tables, role: string): set<RolePermission> {
    set p | p in db.rolePermissions && p.role != role
  }

  ghost predicate MaySetPermissions(db: Tables, organization: string, role: string, codes: seq<string>) {
    db.RoleIn(organization, role) && Distinct(codes) && forall i :: 0 <= i < |codes| ==> codes[i] in db.permissions
  }

  ghost function SetRolePermissions(db: Tables, organization: string, role: string, codes: seq<string>): Tables {
    if MaySetPermissions(db, organization, role, codes)
    then db.(rolePermissions := OtherPermissions(db, role) + CodesOf(role, codes))
    else db
  }

  predicate MayDeleteRole(db: Tables, organization: string, role: string) {
    db.RoleIn(organization, role) && !db.roles[role].isSystem
  }

  /** ON DELETE CASCADE takes the role's permissions and assignments along. */
  function DeleteRole(db: Tables, organization: string, role: string): Tables {
    if !MayDeleteRole(db, organization, role) then db
    else db.(roles := db.roles - {role},
             rolePermissions := OtherPermissions(db, role),
             userRoles := set a | a in db.userRoles && a.role != role)
  }

  function CreateRole(db: Tables, organization: string, name: string, id: string): Tables {
    if !Named(id) || id in db.roles || organization !in db.organizations || db.NameTaken(organization, name) then db
    else db.(roles := db.roles[id := Role(organization, name, false)])
  }

  function RenameRole(db: Tables, organization: string, role: string, name: string): Tables {
    if !db.RoleIn(organization, role) || (db.roles[role].name != name && db.NameTaken(organization, name)) then db
    else db.(roles := db.roles[role := db.roles[role].(name := name)])
  }

  function CreateUser(db: Tables, organization: string, id: string): Tables {
    if !Named(id) || id in db.users || organization !in db.organizations then db
    else db.(users := db.users[id := true], members := db.members + {Member(organization, id)})
  }

  function SetUserStatus(db: Tables, organization: string, user: string, active: bool): Tables {
    if Member(organization, user) !in db.members then db else db.(users := db.users[user := active])
  }

  function ViewerRoles(db: Tables, organization: string, user: string): set<UserRole> {
    set r | r in db.roles && db.roles[r].organization == organization && db.roles[r].name == "Viewer" ::
      UserRole(organization, user, r)
  }

  /** `user` is the account to link, if any; `id` the identifier a new account would get. */
  function UpsertDingTalkIdentity(db: Tables, organization: string, providerUser: string, user: string,
                                  id: string): Tables {
    var identity := Identity(organization, providerUser);
    if identity in db.identities then db
    else if user != "" then
      if Member(organization, user) !in db.members then db
      else db.(identities := db.identities[identity := user])
    else if !Named(id) || id in db.users || organization !in db.organizations then db
    else
      db.(users := db.users[id := true], members := db.members + {Member(organization, id)},
          identities := db.identities[identity := id],
          userRoles := db.userRoles + ViewerRoles(db, organization, id))
  }

  datatype Step =
    | DoSetUserRoles(organization: string, user: string, roleIds: seq<string>)
    | DoSetRolePermissions(organization: string, role: string, codes: seq<string>)
    | DoDeleteRole(organization: string, role: string)
    | DoCreateRole(organization: string, name: string, id: string)
    | DoRenameRole(organization: string, role: string, name: string)
    | DoCreateUser(organization: string, id: string)
    | DoSetUserStatus(organization: string, user: string, active: bool)
    | DoUpsertIdentity(organization: string, providerUser: string, user: string, id: string)

  ghost function Next(db: Tables, step: Step): Tables {
    match step
    case DoSetUserRoles(organization, user, roleIds) => SetUserRoles(db, organization, user, roleIds)
    case DoSetRolePermissions(organization, role, codes) => SetRolePermissions(db, organization, role, codes)
    case DoDeleteRole(organization, role) => DeleteRole(db, organization, role)
    case DoCreateRole(organization, name, id) => CreateRole(db, organization, name, id)
    case DoRenameRole(organization, role, name) => RenameRole(db, organization, role, name)
    case DoCreateUser(organization, id) => CreateUser(db, organization, id)
    case DoSetUserStatus(organization, user, active) => SetUserStatus(db, organization, user, active)
    case DoUpsertIdentity(organization, providerUser, user, id) =>
      UpsertDingTalkIdentity(db, organization, providerUser, user, id)
  }

  ghost function Run(db: Tables, steps: seq<Step>): Tables
    decreases |steps|
  {
    if steps == [] then db else Run(Next(db, steps[0]), steps[1..])
  }

  lemma SetUserRolesKeepsSound(db: Tables, organization: string, user: string, roleIds: seq<string>)
    requires Sound(db)
    ensures Sound(SetUserRoles(db, organization, user, roleIds))
  {
  }

  lemma SetRolePermissionsKeepsSound(db: Tables, organization: string, role: string, codes: seq<string>)
    requires Sound(db)
    ensures Sound(SetRolePermissions(db, organization, role, codes))
  {
  }

  lemma DeleteRoleKeepsSound(db: Tables, organization: string, role: string)
    requires Sound(db)
    ensures Sound(DeleteRole(db, organization, role))
  {
  }

  lemma UpsertIdentityKeepsSound(db: Tables, organization: string, providerUser: string, user: string, id: string)
    requires Sound(db)
    ensures Sound(UpsertDingTalkIdentity(db, organization, providerUser, user, id))
  {
  }

  lemma StepKeepsSound(db: Tables, step: Step)
    requires Sound(db)
    ensures Sound(Next(db, step))
  {
    match step
    case DoSetUserRoles(organization, user, roleIds) => SetUserRolesKeepsSound(db, organization, user, roleIds);
    case DoSetRolePermissions(organization, role, codes) => SetRolePermissionsKeepsSound(db, organization, role, codes);
    case DoDeleteRole(organization, role) => DeleteRoleKeepsSound(db, organization, role);
    case DoUpsertIdentity(organization, providerUser, user, id) =>
      UpsertIdentityKeepsSound(db, organization, providerUser, user, id);
    case DoCreateRole(organization, name, id) =>
    case DoRenameRole(organization, role, name) =>
    case DoCreateUser(organization, id) =>
    case DoSetUserStatus(organization, user, active) =>
  }

  lemma {:induction false} RunKeepsSound(db: Tables, steps: seq<Step>)
    requires Sound(db)
    ensures Sound(Run(db, steps))
    decreases |steps|
  {
    if steps != [] {
      StepKeepsSound(db, steps[0]);
      RunKeepsSound(Next(db, steps[0]), steps[1..]);
    }
  }

  // ---- The permission list ---------------------------------------------------------------------------

  /** ResolvePrincipal finds the user: a member of the organisation whose account is active. */
  predicate Resolves(db: Tables, organization: string, user: string) {
    Member(organization, user) in db.members && user in db.users && db.users[user]
  }

  /** user_roles joined with role_permissions on the role alone. */
  function PermissionList(db: Tables, organization: string, user: string): set<string> {
    set p | p in db.rolePermissions && UserRole(organization, user, p.role) in db.userRoles :: p.code
  }

  // ---- The Casbin model --------------------------------------------------------------------------------

  datatype RolePolicy = RolePolicy(role: string, organization: string, permission: string)

  datatype Snapshot = Snapshot(policies: set<RolePolicy>, assignments: set<UserRole>)

  datatype Policy = Policy(sub: string, dom: string, obj: string, act: string)

  datatype Grouping = Grouping(name: string, role: string, dom: string)

  datatype Engine = Engine(policies: set<Policy>, groupings: set<Grouping>)

  /** LoadRBACPolicy */
  function LoadRBACPolicy(db: Tables): Snapshot {
    Snapshot(
      set p | p in db.rolePermissions && p.role in db.roles ::
        RolePolicy(p.role, db.roles[p.role].organization, p.code),
      set a | a in db.userRoles && db.RoleIn(a.organization, a.role))
  }

  function UserSubject(id: string): string {
    "user::" + id
  }

  function RoleSubject(id: string): string {
    "role::" + id
  }

  lemma SubjectsAreDisjoint(user: string, role: string)
    ensures UserSubject(user) != RoleSubject(role)
  {
    assert UserSubject(user)[0] == 'u' && RoleSubject(role)[0] == 'r';
  }

  lemma SubjectsAreInjective(a: string, b: string)
    ensures UserSubject(a) == UserSubject(b) ==> a == b
    ensures RoleSubject(a) == RoleSubject(b) ==> a == b
  {
    assert UserSubject(a)[6..] == a && UserSubject(b)[6..] == b;
    assert RoleSubject(a)[6..] == a && RoleSubject(b)[6..] == b;
  }

  /** The role manager's g(name, role, dom): equal names, or links followed up to a depth. */
  ghost predicate HasLink(e: Engine, name: string, role: string, dom: string, levels: nat)
    decreases levels
  {
    || name == role
    || (levels > 0 && exists middle ::
          Grouping(name, middle, dom) in e.groupings && HasLink(e, middle, role, dom, levels - 1))
  }

  const MAX_HIERARCHY_LEVEL: nat := 10

  /** The matcher, for the policy p. */
  ghost predicate Matches(e: Engine, p: Policy, sub: string, dom: string, obj: string, act: string) {
    && HasLink(e, sub, p.sub, dom, MAX_HIERARCHY_LEVEL)
    && dom == p.dom && (p.obj == "*" || obj == p.obj) && act == p.act
  }

  ghost predicate Enforces(e: Engine, sub: string, dom: string, obj: string, act: string) {
    exists p :: p in e.policies && Matches(e, p, sub, dom, obj, act)
  }

  ghost predicate Loadable(s: Snapshot) {
    && (forall p :: p in s.policies ==> p.role != "" && p.organization != "" && p.permission != "")
    && (forall a :: a in s.assignments ==> a.user != "" && a.role != "" && a.organization != "")
  }

  function PolicyOf(p: RolePolicy): Policy {
    Policy(RoleSubject(p.role), p.organization, p.permission, "use")
  }

  function GroupingOf(a: UserRole): Grouping {
    Grouping(UserSubject(a.user), RoleSubject(a.role), a.organization)
  }

  function EngineOf(s: Snapshot): Engine {
    Engine(set p | p in s.policies :: PolicyOf(p), set a | a in s.assignments :: GroupingOf(a))
  }

  method NewEngine(s: Snapshot) returns (result: Result<Engine, string>)
    ensures result.Success? <==> Loadable(s)
    ensures result.Success? ==> result.value == EngineOf(s)
  {
    var engine := Engine({}, {});
    var rest := s.policies;
    while rest != {}
      invariant rest <= s.policies && engine.groupings == {}
      invariant forall p :: p in s.policies && p !in rest ==> p.role != "" && p.organization != "" && p.permission != ""
      invariant engine.policies == set p | p in s.policies && p !in rest :: PolicyOf(p)
      decreases rest
    {
      var p :| p in rest;
      if p.role == "" || p.organization == "" || p.permission == "" {
        return Failure("invalid role policy");
      }
      engine := engine.(policies := engine.policies + {PolicyOf(p)});
      rest := rest - {p};
    }
    var assignments := s.assignments;
    while assignments != {}
      invariant assignments <= s.assignments && engine.policies == EngineOf(s).policies
      invariant forall a :: a in s.assignments && a !in assignments ==>
                  a.user != "" && a.role != "" && a.organization != ""
      invariant engine.groupings == set a | a in s.assignments && a !in assignments :: GroupingOf(a)
      decreases assignments
    {
      var a :| a in assignments;
      if a.user == "" || a.role == "" || a.organization == "" {
        return Failure("invalid user role assignment");
      }
      engine := engine.(groupings := engine.groupings + {GroupingOf(a)});
      assignments := assignments - {a};
    }
    return Success(engine);
  }

  // ---- Agreement -----------------------------------------------------------------------------------------

  /** No link starts at a role, so following links further than one step finds nothing. */
  lemma LinksCollapse(s: Snapshot, user: string, role: string, organization: string, levels: nat)
    requires levels > 0
    ensures HasLink(EngineOf(s), UserSubject(user), RoleSubject(role), organization, levels)
            <==> UserRole(organization, user, role) in s.assignments
  {
    var e := EngineOf(s);
    SubjectsAreDisjoint(user, role);
    if UserRole(organization, user, role) in s.assignments {
      assert Grouping(UserSubject(user), RoleSubject(role), organization) in e.groupings;
      assert HasLink(e, RoleSubject(role), RoleSubject(role), organization, levels - 1);
    }
    if HasLink(e, UserSubject(user), RoleSubject(role), organization, levels) {
      var middle :| Grouping(UserSubject(user), middle, organization) in e.groupings
                    && HasLink(e, middle, RoleSubject(role), organization, levels - 1);
      var a :| a in s.assignments
               && GroupingOf(a) == Grouping(UserSubject(user), middle, organization);
      SubjectsAreInjective(a.user, user);
      RolesHaveNoLinks(s, a.role, role, organization, levels - 1);
      SubjectsAreInjective(a.role, role);
    }
  }

  lemma RolesHaveNoLinks(s: Snapshot, from: string, role: string, organization: string, levels: nat)
    requires HasLink(EngineOf(s), RoleSubject(from), RoleSubject(role), organization, levels)
    ensures RoleSubject(from) == RoleSubject(role)
  {
    forall middle | Grouping(RoleSubject(from), middle, organization) in EngineOf(s).groupings ensures false {
      var a :| a in s.assignments && UserSubject(a.user) == RoleSubject(from);
      SubjectsAreDisjoint(a.user, from);
    }
  }

  /** The decision without Casbin: some policy of a directly assigned role. */
  lemma EnforcesIsDirect(s: Snapshot, user: string, organization: string, required: string)
    ensures Enforces(EngineOf(s), UserSubject(user), organization, required, "use") <==>
              exists p ::
                p in s.policies && p.organization == organization && (p.permission == "*" || p.permission == required)
                          && UserRole(organization, user, p.role) in s.assignments
  {
    var e := EngineOf(s);
    if Enforces(e, UserSubject(user), organization, required, "use") {
      var q :| q in e.policies && Matches(e, q, UserSubject(user), organization, required, "use");
      var p :| p in s.policies && q == Policy(RoleSubject(p.role), p.organization, p.permission, "use");
      LinksCollapse(s, user, p.role, organization, MAX_HIERARCHY_LEVEL);
    }
    if p :| p in s.policies && p.organization == organization && (p.permission == "*" || p.permission == required)
            && UserRole(organization, user, p.role) in s.assignments
    {
      LinksCollapse(s, user, p.role, organization, MAX_HIERARCHY_LEVEL);
      var q := Policy(RoleSubject(p.role), p.organization, p.permission, "use");
      assert q in e.policies && Matches(e, q, UserSubject(user), organization, required, "use");
    }
  }

  /** Both sides agree as long as roles stay in their organisation. */
  lemma ListAndCasbinAgree(db: Tables, organization: string, user: string, required: string)
    requires Sound(db)
    ensures Loadable(LoadRBACPolicy(db))
    ensures Enforces(EngineOf(LoadRBACPolicy(db)), UserSubject(user), organization, required, "use") <==>
              required in PermissionList(db, organization, user) || "*" in PermissionList(db, organization, user)
  {
    var s, list := LoadRBACPolicy(db), PermissionList(db, organization, user);
    EnforcesIsDirect(s, user, organization, required);
    forall code | code in list
      ensures exists p :: p in s.policies && p.organization == organization && p.permission == code
                          && UserRole(organization, user, p.role) in s.assignments
    {
      var p :| p in db.rolePermissions && UserRole(organization, user, p.role) in db.userRoles && p.code == code;
      assert db.RoleIn(organization, p.role);
      assert RolePolicy(p.role, organization, code) in s.policies;
    }
    forall p | p in s.policies && p.organization == organization
               && UserRole(organization, user, p.role) in s.assignments
      ensures p.permission in list
    {
      assert RolePermission(p.role, p.permission) in db.rolePermissions;
    }
  }

  /** One assignment across organisations is enough for the list to claim what Casbin refuses. */
  lemma ForeignAssignmentsDisagree(db: Tables, a: UserRole, code: string)
    requires Keys(db) && a in db.userRoles && !db.RoleIn(a.organization, a.role)
    requires forall b :: b in db.userRoles && b.organization == a.organization && b.user == a.user ==> b == a
    requires RolePermission(a.role, code) in db.rolePermissions
    ensures code in PermissionList(db, a.organization, a.user)
    ensures !Enforces(EngineOf(LoadRBACPolicy(db)), UserSubject(a.user), a.organization, code, "use")
  {
    EnforcesIsDirect(LoadRBACPolicy(db), a.user, a.organization, code);
  }

  /** Granted by a role that is assigned to the user in the organisation and belongs to it. */
  ghost predicate HomeGrants(db: Tables, organization: string, user: string, code: string) {
    exists p :: p in db.rolePermissions && UserRole(organization, user, p.role) in db.userRoles && p.code == code
                && db.RoleIn(organization, p.role)
  }

  /** Granted by an assigned role that belongs to another organisation. */
  ghost predicate ForeignGrants(db: Tables, organization: string, user: string, code: string) {
    exists p :: p in db.rolePermissions && UserRole(organization, user, p.role) in db.userRoles && p.code == code
                && !db.RoleIn(organization, p.role)
  }

  /** Casbin hears home roles only. */
  lemma EnforcesIsHome(db: Tables, organization: string, user: string, required: string)
    requires Keys(db)
    ensures Enforces(EngineOf(LoadRBACPolicy(db)), UserSubject(user), organization, required, "use") <==>
            HomeGrants(db, organization, user, required) || HomeGrants(db, organization, user, "*")
  {
    var s := LoadRBACPolicy(db);
    EnforcesIsDirect(s, user, organization, required);
    forall p | p in db.rolePermissions && db.RoleIn(organization, p.role)
               && UserRole(organization, user, p.role) in db.userRoles
      ensures RolePolicy(p.role, organization, p.code) in s.policies
    {
    }
  }

  /** The list hears every role. */
  lemma ListIsAnyRole(db: Tables, organization: string, user: string, code: string)
    ensures code in PermissionList(db, organization, user) <==>
            HomeGrants(db, organization, user, code) || ForeignGrants(db, organization, user, code)
  {
  }

  ghost predicate AgreeOn(db: Tables, organization: string, user: string, required: string) {
    Enforces(EngineOf(LoadRBACPolicy(db)), UserSubject(user), organization, required, "use") <==>
    required in PermissionList(db, organization, user) || "*" in PermissionList(db, organization, user)
  }

  /**
   Within the keys alone, list and Casbin agree on everything if and only if foreign roles grant
   nothing that a home role does not grant too, unless a home role grants everything.
   */
  lemma AgreementIsHome(db: Tables, organization: string, user: string)
    requires Keys(db)
    ensures (forall required :: AgreeOn(db, organization, user, required)) <==>
            || HomeGrants(db, organization, user, "*")
            || forall code :: ForeignGrants(db, organization, user, code) ==> HomeGrants(db, organization, user, code)
  {
    forall required
      ensures AgreeOn(db, organization, user, required) <==>
              || HomeGrants(db, organization, user, required) || HomeGrants(db, organization, user, "*")
              || !(ForeignGrants(db, organization, user, required) || ForeignGrants(db, organization, user, "*"))
    {
      EnforcesIsHome(db, organization, user, required);
      ListIsAnyRole(db, organization, user, required);
      ListIsAnyRole(db, organization, user, "*");
    }
    if code :| ForeignGrants(db, organization, user, code) && !HomeGrants(db, organization, user, code) {
      assert HomeGrants(db, organization, user, "*") || !AgreeOn(db, organization, user, code);
    }
  }

  lemma EveryReachableStateAgrees(db: Tables, steps: seq<Step>, organization: string, user: string, required: string)
    requires Sound(db)
    ensures var now := Run(db, steps);
            && Loadable(LoadRBACPolicy(now))
            && (Enforces(EngineOf(LoadRBACPolicy(now)), UserSubject(user), organization, required, "use") <==>
                required in PermissionList(now, organization, user) || "*" in PermissionList(now, organization, user))
  {
    RunKeepsSound(db, steps);
    ListAndCasbinAgree(Run(db, steps), organization, user, required);
  }

  // ---- The authorizer's answer ---------------------------------------------------------------------------

  /** What Allowed answers with this engine; a failure means that no policy is loaded. */
  ghost function AllowedBy(engine: Option<Engine>, user: string, organization: string,
                           required: string): Result<bool, ()> {
    if !Named(user) || !Named(organization) || !Named(required) then Success(false)
    else if engine.None? then Failure(())
    else Success(Enforces(engine.value, UserSubject(user), organization, required, "use"))
  }

  /** For a principal that resolves, a freshly loaded policy allows exactly what the principal's list holds. */
  lemma FreshAnswerIsTheList(db: Tables, organization: string, user: string, required: string)
    requires Sound(db) && Resolves(db, organization, user)
    ensures var list := PermissionList(db, organization, user);
            AllowedBy(Some(EngineOf(LoadRBACPolicy(db))), user, organization, required) ==
            Success(Named(required) && (required in list || "*" in list))
  {
    ListAndCasbinAgree(db, organization, user, required);
    assert Member(organization, user) in db.members && Member(organization, user).organization == organization;
  }

  lemma EveryReachableStateAnswers(db: Tables, steps: seq<Step>, organization: string, user: string, required: string)
    requires Sound(db) && Resolves(Run(db, steps), organization, user)
    ensures var now := Run(db, steps);
            var list := PermissionList(now, organization, user);
            AllowedBy(Some(EngineOf(LoadRBACPolicy(now))), user, organization, required) ==
            Success(Named(required) && (required in list || "*" in list))
  {
    RunKeepsSound(db, steps);
    FreshAnswerIsTheList(Run(db, steps), organization, user, required);
  }

  // ---- The state that the migrations leave ----------------------------------------------------------------

  const VIEWER_CODES := {"stores:read", "assets:read", "approvals:read", "integrations:read", "reports:read"}
  const OPERATOR_CODES := VIEWER_CODES + {"stores:write", "assets:write", "approvals:request", "shopify:sync"}
  const CODES := OPERATOR_CODES + {"integrations:manage", "rbac:manage", "*", "settings:manage", "menus:manage"}

  /** The five UUIDs of the seed. */
  datatype SeedIds = SeedIds(organization: string, user: string, owner: string, operator: string, viewer: string)

  ghost predicate GoodIds(ids: SeedIds) {
    && Named(ids.organization) && Named(ids.user) && Named(ids.owner) && Named(ids.operator) && Named(ids.viewer)
    && ids.owner != ids.operator && ids.owner != ids.viewer && ids.operator != ids.viewer
  }

  function Granting(role: string, codes: set<string>): set<RolePermission> {
    set c | c in codes :: RolePermission(role, c)
  }

  function SeedWith(ids: SeedIds, viewer: set<string>, operator: set<string>, codes: set<string>): Tables {
    Tables({ids.organization}, map[ids.user := true], {Member(ids.organization, ids.user)},
           map[ids.owner := Role(ids.organization, "Owner", true),
               ids.operator := Role(ids.organization, "Operator", true),
               ids.viewer := Role(ids.organization, "Viewer", true)],
           codes, Granting(ids.owner, {"*"}) + Granting(ids.operator, operator) + Granting(ids.viewer, viewer),
           {UserRole(ids.organization, ids.user, ids.owner)}, map[])
  }

  function Seed(ids: SeedIds): Tables {
    SeedWith(ids, VIEWER_CODES, OPERATOR_CODES, CODES)
  }

  lemma SeedWithIsSound(ids: SeedIds, viewer: set<string>, operator: set<string>, codes: set<string>)
    requires GoodIds(ids) && viewer <= codes && operator <= codes && "*" in codes
    requires forall c :: c in codes ==> Named(c)
    ensures Sound(SeedWith(ids, viewer, operator, codes))
  {
    var db := SeedWith(ids, viewer, operator, codes);
    assert forall p :: p in db.rolePermissions ==> p.role in db.roles && p.code in codes;
    OneOrganizationIsSound(db, ids.organization, ids.user, ids.owner);
  }

  lemma OneOrganizationIsSound(db: Tables, organization: string, user: string, role: string)
    requires db.organizations == {organization} && db.users.Keys == {user} && db.members == {Member(organization, user)}
    requires db.userRoles == {UserRole(organization, user, role)} && role in db.roles
    requires Named(organization) && Named(user) && forall c :: c in db.permissions ==> Named(c)
    requires forall r :: r in db.roles ==> Named(r) && db.roles[r].organization == organization
    requires forall p :: p in db.rolePermissions ==> p.role in db.roles && p.code in db.permissions
    ensures Sound(db)
  {
  }

  lemma CodesAreNamed()
    ensures forall c :: c in CODES ==> Named(c)
    ensures VIEWER_CODES <= CODES && OPERATOR_CODES <= CODES && "*" in CODES
  {
    forall c | c in CODES ensures Named(c) {
      TextStays(c);
    }
  }

  /** From there on, whatever role management does. */
  lemma RepositoryAnswers(ids: SeedIds, steps: seq<Step>, organization: string, user: string, required: string)
    requires GoodIds(ids) && Resolves(Run(Seed(ids), steps), organization, user)
    ensures var now := Run(Seed(ids), steps);
            var list := PermissionList(now, organization, user);
            AllowedBy(Some(EngineOf(LoadRBACPolicy(now))), user, organization, required) ==
            Success(Named(required) && (required in list || "*" in list))
  {
    CodesAreNamed();
    SeedWithIsSound(ids, VIEWER_CODES, OPERATOR_CODES, CODES);
    EveryReachableStateAnswers(Seed(ids), steps, organization, user, required);
  }
}
