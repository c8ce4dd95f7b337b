/**
 * Groups, memberships and roles: the hooks in front of the authorization requests, the requests themselves,
 * each taken as one step, and the join behind the permission check.
 */
module GroupRoles {
  import opened Prelude

  datatype Group = Group(name: string, ownerId: nat)

  datatype Member = Member(groupId: nat, userId: nat)

  /** A row that gives a role to a membership. The table has no uniqueness constraint. */
  datatype UserRole = UserRole(memberId: nat, roleId: nat)

  /** roles: ids by name. permissions: names by id. rolePermissions: pairs of a role id and a permission id. */
  datatype Catalog = Catalog(roles: map<string, nat>, permissions: map<nat, string>, rolePermissions: set<(nat, nat)>)

  /** tasks: the group that each task refers to. */
  datatype State = State(users: set<nat>, groups: map<nat, Group>, members: map<nat, Member>, rows: seq<UserRole>,
                         tasks: map<nat, nat>, nextGroup: nat, nextMember: nat)

  /**
   * How `ROLES.some(roles.includes)` reads: the method is passed without its array, which throws whenever it
   * is evaluated; what it evidently means is whether the user has one of the two roles.
   */
  datatype Reading = Literal | Intended

  const MANAGERS: set<string> := {"group_manager", "role_manager"}

  datatype Request =
    | CreateGroup(actor: nat, name: string)
    | DeleteGroup(actor: nat, groupId: nat)
    | AddUser(actor: nat, groupId: nat, userId: nat)
    | DeleteUser(actor: nat, groupId: nat, userId: nat)
    | AddRole(actor: nat, groupId: nat, userId: nat, role: string)
    | DeleteRole(actor: nat, groupId: nat, userId: nat, role: string)
    | Register(userId: nat)
    | TaskAdded(taskId: nat, groupId: nat)
    | TaskRemoved(taskId: nat)

  datatype Response = Ok | GroupNotFound | Unauthorized | Conflict | UserNotFound | AccessDenied | ServerError

  // Queries

  ghost predicate IsMember(s: State, groupId: nat, userId: nat) {
    exists m :: m in s.members && s.members[m] == Member(groupId, userId)
  }

  ghost function MemberId(s: State, groupId: nat, userId: nat): (m: nat)
    requires IsMember(s, groupId, userId)
    ensures m in s.members && s.members[m] == Member(groupId, userId)
  {
    var m :| m in s.members && s.members[m] == Member(groupId, userId);
    m
  }

  /** Membership m is that of the user in the group, and has the role. */
  ghost predicate RowOf(s: State, m: nat, groupId: nat, userId: nat, roleId: nat) {
    m in s.members && s.members[m] == Member(groupId, userId) && UserRole(m, roleId) in s.rows
  }

  ghost predicate HasRoleId(s: State, groupId: nat, userId: nat, roleId: nat) {
    exists m :: RowOf(s, m, groupId, userId, roleId)
  }

  ghost predicate HasRole(c: Catalog, s: State, groupId: nat, userId: nat, role: string) {
    role in c.roles && HasRoleId(s, groupId, userId, c.roles[role])
  }

  ghost predicate IsManager(c: Catalog, s: State, groupId: nat, userId: nat) {
    exists role :: role in MANAGERS && HasRole(c, s, groupId, userId, role)
  }

  predicate IsOwner(s: State, groupId: nat, userId: nat) {
    groupId in s.groups && s.groups[groupId].ownerId == userId
  }

  /** The four-table join. */
  ghost predicate Joined(c: Catalog, s: State, groupId: nat, userId: nat, permission: string) {
    exists pair, m :: pair in c.rolePermissions && pair.1 in c.permissions && c.permissions[pair.1] == permission
                      && RowOf(s, m, groupId, userId, pair.0)
  }

  // What the hooks decide: None lets the request pass

  function GroupOwnerVerdict(s: State, actor: nat, groupId: nat): Option<Response> {
    if groupId !in s.groups then Some(GroupNotFound)
    else if s.groups[groupId].ownerId != actor then Some(Unauthorized)
    else None
  }

  ghost function RoleVerdict(c: Catalog, s: State, actor: nat, groupId: nat, role: string): Option<Response> {
    if groupId !in s.groups then Some(GroupNotFound)
    else if s.groups[groupId].ownerId == actor then None
    else if !HasRole(c, s, groupId, actor, role) then Some(Unauthorized)
    else None
  }

  ghost function PermissionVerdict(c: Catalog, s: State, actor: nat, groupId: nat,
                                   permission: string): Option<Response> {
    if groupId !in s.groups then Some(GroupNotFound)
    else if s.groups[groupId].ownerId == actor then None
    else if !Joined(c, s, groupId, actor, permission) then Some(Unauthorized)
    else None
  }

  // Changes of the tables

  function Keep(rows: seq<UserRole>, members: map<nat, Member>): (r: seq<UserRole>)
  {
    if rows == [] then []
    else
      var n := |rows| - 1;
      Keep(rows[..n], members) + if rows[n].memberId in members then [rows[n]] else []
  }

  function Without(rows: seq<UserRole>, row: UserRole): (r: seq<UserRole>) {
    if rows == [] then []
    else
      var n := |rows| - 1;
      Without(rows[..n], row) + if rows[n] != row then [rows[n]] else []
  }

  /** Deleting memberships cascades to their role rows. */
  function WithMembers(s: State, members: map<nat, Member>): State {
    s.(members := members, rows := Keep(s.rows, members))
  }

  function CreateGroupStep(s: State, actor: nat, name: string): (State, Response) {
    if exists g :: g in s.groups && s.groups[g].name == name then (s, Conflict)
    else if actor !in s.users then (s, ServerError)
    else
      (s.(groups := s.groups[s.nextGroup := Group(name, actor)],
          members := s.members[s.nextMember := Member(s.nextGroup, actor)],
          nextGroup := s.nextGroup + 1, nextMember := s.nextMember + 1), Ok)
  }

  /** Whether a task refers to the group: the reference has no cascade. */
  predicate HasTask(s: State, groupId: nat) {
    exists t :: t in s.tasks && s.tasks[t] == groupId
  }

  function DeleteGroupStep(s: State, groupId: nat): (State, Response) {
    if HasTask(s, groupId) then (s, ServerError)
    else
      (WithMembers(s.(groups := s.groups - {groupId}),
                   map m | m in s.members && s.members[m].groupId != groupId :: s.members[m]), Ok)
  }

  ghost function AddUserStep(s: State, groupId: nat, userId: nat): (State, Response) {
    if userId !in s.users then (s, UserNotFound)
    else if IsMember(s, groupId, userId) then (s, Conflict)
    else (s.(members := s.members[s.nextMember := Member(groupId, userId)], nextMember := s.nextMember + 1), Ok)
  }

  /** The non-owner's guard: under the literal reading evaluating it fails. */
  ghost function ManagerGuard(r: Reading, c: Catalog, s: State, groupId: nat, userId: nat): Option<Response> {
    match r
    case Literal => Some(ServerError)
    case Intended => if IsManager(c, s, groupId, userId) then Some(AccessDenied) else None
  }

  ghost function DeleteUserStep(r: Reading, c: Catalog, s: State, actor: nat, groupId: nat, userId: nat)
    : (State, Response)
    requires groupId in s.groups
  {
    var guard := ManagerGuard(r, c, s, groupId, userId);
    if actor == userId then (s, Conflict)
    else if actor != s.groups[groupId].ownerId && guard.Some? then (s, guard.value)
    else if actor != s.groups[groupId].ownerId && userId == s.groups[groupId].ownerId then (s, AccessDenied)
    else (WithMembers(s, map m | m in s.members && s.members[m] != Member(groupId, userId) :: s.members[m]), Ok)
  }

  ghost function AddRoleStep(r: Reading, c: Catalog, s: State, actor: nat, groupId: nat, userId: nat, role: string)
    : (State, Response)
    requires groupId in s.groups
  {
    var guard := ManagerGuard(r, c, s, groupId, userId);
    if actor == userId then (s, Conflict)
    else if actor != s.groups[groupId].ownerId && guard.Some? then (s, guard.value)
    else if HasRole(c, s, groupId, userId, role) then (s, AccessDenied)
    else if role !in c.roles || !IsMember(s, groupId, userId) then (s, ServerError)
    else (s.(rows := s.rows + [UserRole(MemberId(s, groupId, userId), c.roles[role])]), Ok)
  }

  ghost function DeleteRoleStep(c: Catalog, s: State, actor: nat, groupId: nat, userId: nat, role: string)
    : (State, Response)
    requires groupId in s.groups
  {
    if actor == userId then (s, Conflict)
    else if actor != s.groups[groupId].ownerId && role in MANAGERS then (s, AccessDenied)
    else if role !in c.roles || !IsMember(s, groupId, userId) then (s, ServerError)
    else (s.(rows := Without(s.rows, UserRole(MemberId(s, groupId, userId), c.roles[role]))), Ok)
  }

  /** A request behind its hook. */
  ghost function Step(r: Reading, c: Catalog, s: State, request: Request): (State, Response) {
    match request
    case CreateGroup(actor, name) => CreateGroupStep(s, actor, name)
    case DeleteGroup(actor, groupId) =>
      var hook := GroupOwnerVerdict(s, actor, groupId);
      if hook.Some? then (s, hook.value) else DeleteGroupStep(s, groupId)
    case AddUser(actor, groupId, userId) =>
      var hook := RoleVerdict(c, s, actor, groupId, "group_manager");
      if hook.Some? then (s, hook.value) else AddUserStep(s, groupId, userId)
    case DeleteUser(actor, groupId, userId) =>
      var hook := RoleVerdict(c, s, actor, groupId, "group_manager");
      if hook.Some? then (s, hook.value) else DeleteUserStep(r, c, s, actor, groupId, userId)
    case AddRole(actor, groupId, userId, role) =>
      var hook := RoleVerdict(c, s, actor, groupId, "role_manager");
      if hook.Some? then (s, hook.value) else AddRoleStep(r, c, s, actor, groupId, userId, role)
    case DeleteRole(actor, groupId, userId, role) =>
      var hook := RoleVerdict(c, s, actor, groupId, "role_manager");
      if hook.Some? then (s, hook.value) else DeleteRoleStep(c, s, actor, groupId, userId, role)
    case Register(userId) => (s.(users := s.users + {userId}), Ok)
    case TaskAdded(taskId, groupId) =>
      if groupId in s.groups && taskId !in s.tasks then (s.(tasks := s.tasks[taskId := groupId]), Ok)
      else (s, ServerError)
    case TaskRemoved(taskId) => (s.(tasks := s.tasks - {taskId}), Ok)
  }

  const START: State := State({}, map[], map[], [], map[], 0, 0)

  ghost function After(r: Reading, c: Catalog, requests: seq<Request>): State {
    if requests == [] then START
    else Step(r, c, After(r, c, requests[..|requests| - 1]), requests[|requests| - 1]).0
  }

  // What every run keeps

  ghost predicate GroupsOk(s: State) {
    && (forall g :: g in s.groups ==> g < s.nextGroup && IsMember(s, g, s.groups[g].ownerId))
    && forall g, h :: g in s.groups && h in s.groups && g != h ==> s.groups[g].name != s.groups[h].name
  }

  ghost predicate MembersOk(s: State) {
    && (forall m :: m in s.members ==> m < s.nextMember && s.members[m].groupId in s.groups)
    && forall m, k :: m in s.members && k in s.members && m != k ==> s.members[m] != s.members[k]
  }

  ghost predicate RowsOk(c: Catalog, s: State) {
    && (forall i :: 0 <= i < |s.rows| ==> s.rows[i].memberId in s.members && s.rows[i].roleId in c.roles.Values)
    && forall i, k :: 0 <= i < k < |s.rows| ==> s.rows[i] != s.rows[k]
  }

  ghost predicate TasksOk(s: State) {
    forall t :: t in s.tasks ==> s.tasks[t] in s.groups
  }

  /** The owner is a member, nothing is there twice, and nothing dangles. */
  ghost predicate Inv(c: Catalog, s: State) {
    GroupsOk(s) && MembersOk(s) && RowsOk(c, s) && TasksOk(s)
  }

  lemma {:induction false} KeepIsExact(rows: seq<UserRole>, members: map<nat, Member>)
    ensures forall row :: row in Keep(rows, members) <==> row in rows && row.memberId in members
    ensures (forall i, k :: 0 <= i < k < |rows| ==> rows[i] != rows[k]) ==>
              forall i, k :: 0 <= i < k < |Keep(rows, members)| ==> Keep(rows, members)[i] != Keep(rows, members)[k]
  {
    if rows != [] {
      var n := |rows| - 1;
      KeepIsExact(rows[..n], members);
      assert rows == rows[..n] + [rows[n]];
    }
  }

  lemma {:induction false} WithoutIsExact(rows: seq<UserRole>, gone: UserRole)
    ensures forall row :: row in Without(rows, gone) <==> row in rows && row != gone
  {
    if rows != [] {
      var n := |rows| - 1;
      WithoutIsExact(rows[..n], gone);
      forall row ensures row in Without(rows, gone) <==> row in rows && row != gone {
        assert rows == rows[..n] + [rows[n]];
        assert row in rows <==> row in rows[..n] || row == rows[n];
        assert Without(rows, gone) == Without(rows[..n], gone) + if rows[n] != gone then [rows[n]] else [];
        assert row in Without(rows, gone) <==> row in Without(rows[..n], gone) || (row == rows[n] && row != gone);
      }
    }
  }

  lemma {:induction false} WithoutIsDistinct(rows: seq<UserRole>, gone: UserRole)
    requires forall i, k :: 0 <= i < k < |rows| ==> rows[i] != rows[k]
    ensures forall i, k :: 0 <= i < k < |Without(rows, gone)| ==> Without(rows, gone)[i] != Without(rows, gone)[k]
  {
    if rows != [] {
      var n := |rows| - 1;
      var front := Without(rows[..n], gone);
      WithoutIsDistinct(rows[..n], gone);
      WithoutIsExact(rows[..n], gone);
      assert rows[n] !in rows[..n];
      assert forall i :: 0 <= i < |front| ==> front[i] in rows[..n];
      assert Without(rows, gone) == front + if rows[n] != gone then [rows[n]] else [];
    }
  }

  lemma CreateGroupKeeps(c: Catalog, s: State, actor: nat, name: string)
    requires Inv(c, s)
    ensures Inv(c, CreateGroupStep(s, actor, name).0)
  {
    var r := CreateGroupStep(s, actor, name).0;
    if r != s {
      forall g | g in r.groups ensures g < r.nextGroup && IsMember(r, g, r.groups[g].ownerId) {
        var m := if g == s.nextGroup then s.nextMember else MemberId(s, g, s.groups[g].ownerId);
        assert m in r.members && r.members[m] == Member(g, r.groups[g].ownerId);
      }
    }
  }

  /** Memberships that remain keep the invariant, as long as every remaining group keeps its owner. */
  lemma WithMembersKeeps(c: Catalog, s: State, groups: map<nat, Group>, members: map<nat, Member>)
    requires Inv(c, s)
    requires forall g :: g in groups ==> g in s.groups && groups[g] == s.groups[g]
    requires forall m :: m in members ==> m in s.members && members[m] == s.members[m] && members[m].groupId in groups
    requires forall t :: t in s.tasks ==> s.tasks[t] in groups
    requires forall m :: (m in s.members && s.members[m].groupId in groups
                          && s.members[m].userId == groups[s.members[m].groupId].ownerId) ==> m in members
    ensures Inv(c, WithMembers(s.(groups := groups), members))
  {
    var r := WithMembers(s.(groups := groups), members);
    KeepIsExact(s.rows, members);
    forall g | g in r.groups ensures IsMember(r, g, r.groups[g].ownerId) {
      var m := MemberId(s, g, s.groups[g].ownerId);
      assert m in r.members && r.members[m] == Member(g, r.groups[g].ownerId);
    }
    forall i | 0 <= i < |r.rows| ensures r.rows[i].memberId in r.members && r.rows[i].roleId in c.roles.Values {
      assert r.rows[i] in r.rows;
    }
  }

  lemma DeleteGroupKeeps(c: Catalog, s: State, groupId: nat)
    requires Inv(c, s)
    ensures Inv(c, DeleteGroupStep(s, groupId).0)
  {
    if !HasTask(s, groupId) {
      WithMembersKeeps(c, s, s.groups - {groupId},
                       map m | m in s.members && s.members[m].groupId != groupId :: s.members[m]);
    }
  }

  lemma AddUserKeeps(c: Catalog, s: State, groupId: nat, userId: nat)
    requires Inv(c, s) && groupId in s.groups
    ensures Inv(c, AddUserStep(s, groupId, userId).0)
  {
    var r := AddUserStep(s, groupId, userId).0;
    if r != s {
      forall g | g in r.groups ensures IsMember(r, g, r.groups[g].ownerId) {
        var m := MemberId(s, g, s.groups[g].ownerId);
        assert m in r.members && r.members[m] == Member(g, r.groups[g].ownerId);
      }
      forall m | m in s.members ensures s.members[m] != Member(groupId, userId) {
        assert !IsMember(s, groupId, userId);
      }
    }
  }

  lemma DeleteUserKeeps(r: Reading, c: Catalog, s: State, actor: nat, groupId: nat, userId: nat)
    requires Inv(c, s) && groupId in s.groups
    ensures Inv(c, DeleteUserStep(r, c, s, actor, groupId, userId).0)
  {
    var t := DeleteUserStep(r, c, s, actor, groupId, userId).0;
    if t != s {
      assert userId != s.groups[groupId].ownerId;
      WithMembersKeeps(c, s, s.groups,
                       map m | m in s.members && s.members[m] != Member(groupId, userId) :: s.members[m]);
    }
  }

  lemma RowsChange(c: Catalog, s: State, rows: seq<UserRole>)
    requires Inv(c, s) && RowsOk(c, s.(rows := rows))
    ensures Inv(c, s.(rows := rows))
  {
    forall g | g in s.groups ensures IsMember(s.(rows := rows), g, s.groups[g].ownerId) {
      assert IsMember(s, g, s.groups[g].ownerId);
    }
  }

  lemma AddRoleKeeps(r: Reading, c: Catalog, s: State, actor: nat, groupId: nat, userId: nat, role: string)
    requires Inv(c, s) && groupId in s.groups
    ensures Inv(c, AddRoleStep(r, c, s, actor, groupId, userId, role).0)
  {
    var t := AddRoleStep(r, c, s, actor, groupId, userId, role).0;
    if t != s {
      var m := MemberId(s, groupId, userId);
      assert !HasRoleId(s, groupId, userId, c.roles[role]);
      assert !RowOf(s, m, groupId, userId, c.roles[role]);
      RowsChange(c, s, t.rows);
    }
  }

  lemma DeleteRoleKeeps(c: Catalog, s: State, actor: nat, groupId: nat, userId: nat, role: string)
    requires Inv(c, s) && groupId in s.groups
    ensures Inv(c, DeleteRoleStep(c, s, actor, groupId, userId, role).0)
  {
    var t := DeleteRoleStep(c, s, actor, groupId, userId, role).0;
    if t != s {
      WithoutIsExact(s.rows, UserRole(MemberId(s, groupId, userId), c.roles[role]));
      WithoutIsDistinct(s.rows, UserRole(MemberId(s, groupId, userId), c.roles[role]));
      forall i | 0 <= i < |t.rows| ensures t.rows[i].memberId in s.members && t.rows[i].roleId in c.roles.Values {
        assert t.rows[i] in t.rows;
      }
      RowsChange(c, s, t.rows);
    }
  }

  lemma RegisterKeeps(c: Catalog, s: State, userId: nat)
    requires Inv(c, s)
    ensures Inv(c, s.(users := s.users + {userId}))
  {
    forall g | g in s.groups ensures IsMember(s.(users := s.users + {userId}), g, s.groups[g].ownerId) {
      assert IsMember(s, g, s.groups[g].ownerId);
    }
  }

  lemma TasksKeep(c: Catalog, s: State, tasks: map<nat, nat>)
    requires Inv(c, s) && forall t :: t in tasks ==> tasks[t] in s.groups
    ensures Inv(c, s.(tasks := tasks))
  {
    forall g | g in s.groups ensures IsMember(s.(tasks := tasks), g, s.groups[g].ownerId) {
      assert IsMember(s, g, s.groups[g].ownerId);
    }
  }

  lemma TasksRefer(c: Catalog, s: State)
    requires Inv(c, s)
    ensures TasksOk(s)
  {
  }

  lemma StepKeepsInv(r: Reading, c: Catalog, s: State, request: Request)
    requires Inv(c, s)
    ensures Inv(c, Step(r, c, s, request).0)
  {
    hide Inv;
    match request
    case CreateGroup(actor, name) => CreateGroupKeeps(c, s, actor, name);
    case DeleteGroup(actor, groupId) => DeleteGroupKeeps(c, s, groupId);
    case AddUser(actor, groupId, userId) =>
      if groupId in s.groups {
        AddUserKeeps(c, s, groupId, userId);
      }
    case DeleteUser(actor, groupId, userId) =>
      if groupId in s.groups {
        DeleteUserKeeps(r, c, s, actor, groupId, userId);
      }
    case AddRole(actor, groupId, userId, role) =>
      if groupId in s.groups {
        AddRoleKeeps(r, c, s, actor, groupId, userId, role);
      }
    case DeleteRole(actor, groupId, userId, role) =>
      if groupId in s.groups {
        DeleteRoleKeeps(c, s, actor, groupId, userId, role);
      }
    case Register(userId) => RegisterKeeps(c, s, userId);
    case TaskAdded(taskId, groupId) =>
      TasksRefer(c, s);
      if groupId in s.groups {
        TasksKeep(c, s, s.tasks[taskId := groupId]);
      }
    case TaskRemoved(taskId) =>
      TasksRefer(c, s);
      TasksKeep(c, s, s.tasks - {taskId});
  }

  /** In every run: owners are members, no membership or role is there twice, and no row dangles. */
  lemma {:induction false} InvAlways(r: Reading, c: Catalog, requests: seq<Request>)
    ensures Inv(c, After(r, c, requests))
  {
    if requests != [] {
      var n := |requests| - 1;
      InvAlways(r, c, requests[..n]);
      StepKeepsInv(r, c, After(r, c, requests[..n]), requests[n]);
    }
  }

  // Who may change what

  /** Only the memberships of the members that go lose their roles. */
  lemma RolesOfRemaining(s: State, groups: map<nat, Group>, members: map<nat, Member>, g: nat, u: nat, roleId: nat)
    requires forall m :: m in members ==> m in s.members && members[m] == s.members[m]
    requires forall m, k :: m in members && k in s.members && s.members[k] == members[m] ==> k in members
    ensures HasRoleId(WithMembers(s.(groups := groups), members), g, u, roleId) <==>
            HasRoleId(s, g, u, roleId) && Member(g, u) in members.Values
  {
    var t := WithMembers(s.(groups := groups), members);
    KeepIsExact(s.rows, members);
    if HasRoleId(t, g, u, roleId) {
      var m :| RowOf(t, m, g, u, roleId);
      assert RowOf(s, m, g, u, roleId);
    }
    if HasRoleId(s, g, u, roleId) && Member(g, u) in members.Values {
      var m :| RowOf(s, m, g, u, roleId);
      assert RowOf(t, m, g, u, roleId);
    }
  }

  lemma RolesAfterDeleteGroup(c: Catalog, s: State, groupId: nat, g: nat, u: nat, roleId: nat)
    requires Inv(c, s)
    ensures HasRoleId(DeleteGroupStep(s, groupId).0, g, u, roleId) <==>
            (HasTask(s, groupId) || g != groupId) && HasRoleId(s, g, u, roleId)
  {
    if HasTask(s, groupId) {
      return;
    }
    var members := map m | m in s.members && s.members[m].groupId != groupId :: s.members[m];
    RolesOfRemaining(s, s.groups - {groupId}, members, g, u, roleId);
    if HasRoleId(s, g, u, roleId) && g != groupId {
      var m :| RowOf(s, m, g, u, roleId);
      assert members[m] == Member(g, u);
    }
  }

  lemma RolesAfterDeleteUser(s: State, groupId: nat, userId: nat, g: nat, u: nat, roleId: nat)
    ensures var members := map m | m in s.members && s.members[m] != Member(groupId, userId) :: s.members[m];
            HasRoleId(WithMembers(s, members), g, u, roleId) <==>
            (g, u) != (groupId, userId) && HasRoleId(s, g, u, roleId)
  {
    var members := map m | m in s.members && s.members[m] != Member(groupId, userId) :: s.members[m];
    assert s.(groups := s.groups) == s;
    RolesOfRemaining(s, s.groups, members, g, u, roleId);
    if HasRoleId(s, g, u, roleId) && (g, u) != (groupId, userId) {
      var m :| RowOf(s, m, g, u, roleId);
      assert members[m] == Member(g, u);
    }
  }

  lemma RolesAfterNewMember(c: Catalog, s: State, t: State, member: Member, g: nat, u: nat, roleId: nat)
    requires Inv(c, s) && t.members == s.members[s.nextMember := member] && t.rows == s.rows
    ensures HasRoleId(t, g, u, roleId) <==> HasRoleId(s, g, u, roleId)
  {
    if HasRoleId(s, g, u, roleId) {
      var m :| RowOf(s, m, g, u, roleId);
      assert RowOf(t, m, g, u, roleId);
    }
    if HasRoleId(t, g, u, roleId) {
      var m :| RowOf(t, m, g, u, roleId);
      assert m in s.members;
      assert RowOf(s, m, g, u, roleId);
    }
  }

  lemma RolesAfterAddRole(s: State, groupId: nat, userId: nat, added: nat, g: nat, u: nat, roleId: nat)
    requires IsMember(s, groupId, userId)
    ensures HasRoleId(s.(rows := s.rows + [UserRole(MemberId(s, groupId, userId), added)]), g, u, roleId) <==>
            HasRoleId(s, g, u, roleId) || (g, u, roleId) == (groupId, userId, added)
  {
    var t := s.(rows := s.rows + [UserRole(MemberId(s, groupId, userId), added)]);
    if HasRoleId(s, g, u, roleId) {
      var m :| RowOf(s, m, g, u, roleId);
      assert RowOf(t, m, g, u, roleId);
    }
    if HasRoleId(t, g, u, roleId) {
      var m :| RowOf(t, m, g, u, roleId);
      assert RowOf(s, m, g, u, roleId) || UserRole(m, roleId) == UserRole(MemberId(s, groupId, userId), added);
    }
    assert RowOf(t, MemberId(s, groupId, userId), groupId, userId, added);
  }

  lemma RolesAfterDeleteRole(c: Catalog, s: State, groupId: nat, userId: nat, gone: nat, g: nat, u: nat, roleId: nat)
    requires Inv(c, s) && IsMember(s, groupId, userId)
    ensures HasRoleId(s.(rows := Without(s.rows, UserRole(MemberId(s, groupId, userId), gone))), g, u, roleId) <==>
            HasRoleId(s, g, u, roleId) && (g, u, roleId) != (groupId, userId, gone)
  {
    var row := UserRole(MemberId(s, groupId, userId), gone);
    var t := s.(rows := Without(s.rows, row));
    WithoutIsExact(s.rows, row);
    if HasRoleId(s, g, u, roleId) && (g, u, roleId) != (groupId, userId, gone) {
      var m :| RowOf(s, m, g, u, roleId);
      assert RowOf(t, m, g, u, roleId);
    }
    if HasRoleId(t, g, u, roleId) {
      var m :| RowOf(t, m, g, u, roleId);
      assert RowOf(s, m, g, u, roleId) && UserRole(m, roleId) != row;
    }
  }

  predicate Denotes(c: Catalog, role: string, roleId: nat) {
    role in c.roles && c.roles[role] == roleId
  }

  /** What a granted request does to the roles of any user in any group: no other role comes or goes. */
  ghost predicate RoleAfter(c: Catalog, s: State, request: Request, groupId: nat, userId: nat, roleId: nat) {
    var had := HasRoleId(s, groupId, userId, roleId);
    match request
    case DeleteGroup(_, g) => had && g != groupId
    case DeleteUser(_, g, u) => had && (g, u) != (groupId, userId)
    case AddRole(_, g, u, role) => had || ((g, u) == (groupId, userId) && Denotes(c, role, roleId))
    case DeleteRole(_, g, u, role) => had && !((g, u) == (groupId, userId) && Denotes(c, role, roleId))
    case _ => had
  }

  lemma {:induction false} RolesAfter(r: Reading, c: Catalog, s: State, request: Request, groupId: nat, userId: nat,
                                      roleId: nat)
    requires Inv(c, s)
    ensures var (t, response) := Step(r, c, s, request);
            && (response != Ok ==> t == s)
            && (HasRoleId(t, groupId, userId, roleId) <==>
                if response == Ok then RoleAfter(c, s, request, groupId, userId, roleId)
                else HasRoleId(s, groupId, userId, roleId))
  {
    var (t, response) := Step(r, c, s, request);
    hide Inv, HasRole, IsManager, HasRoleId, IsMember, Without, Keep, WithMembers;
    match request
    case CreateGroup(actor, name) =>
      if response == Ok {
        RolesAfterNewMember(c, s, t, Member(s.nextGroup, actor), groupId, userId, roleId);
      }
    case DeleteGroup(actor, g) => RolesAfterDeleteGroup(c, s, g, groupId, userId, roleId);
    case AddUser(actor, g, u) =>
      if response == Ok {
        RolesAfterNewMember(c, s, t, Member(g, u), groupId, userId, roleId);
      }
    case DeleteUser(actor, g, u) => RolesAfterDeleteUser(s, g, u, groupId, userId, roleId);
    case AddRole(actor, g, u, role) =>
      if response == Ok {
        RolesAfterAddRole(s, g, u, c.roles[role], groupId, userId, roleId);
      }
    case DeleteRole(actor, g, u, role) =>
      if response == Ok {
        RolesAfterDeleteRole(c, s, g, u, c.roles[role], groupId, userId, roleId);
      }
    case _ => RolesDependOnTables(s, t, groupId, userId, roleId);
  }

  lemma RolesDependOnTables(s: State, t: State, groupId: nat, userId: nat, roleId: nat)
    requires t.members == s.members && t.rows == s.rows
    ensures HasRoleId(t, groupId, userId, roleId) <==> HasRoleId(s, groupId, userId, roleId)
  {
    if HasRoleId(s, groupId, userId, roleId) {
      var m :| RowOf(s, m, groupId, userId, roleId);
      assert RowOf(t, m, groupId, userId, roleId);
    }
    if HasRoleId(t, groupId, userId, roleId) {
      var m :| RowOf(t, m, groupId, userId, roleId);
      assert RowOf(s, m, groupId, userId, roleId);
    }
  }

  function Actor(request: Request): Option<nat> {
    if request.Register? || request.TaskAdded? || request.TaskRemoved? then None else Some(request.actor)
  }

  /** Different role names have different ids. */
  ghost predicate Injective(c: Catalog) {
    forall a, b :: a in c.roles && b in c.roles && c.roles[a] == c.roles[b] ==> a == b
  }

  /** A manager's role is only ever taken away by a request of the group's owner. */
  lemma {:induction false} ManagerRoleLostOnlyToOwner(r: Reading, c: Catalog, s: State, request: Request, g: nat,
                                                      u: nat, role: string)
    requires Inv(c, s) && Injective(c) && role in MANAGERS
    requires HasRole(c, s, g, u, role) && !HasRole(c, Step(r, c, s, request).0, g, u, role)
    ensures Actor(request).Some? && IsOwner(s, g, Actor(request).value)
  {
    RolesAfter(r, c, s, request, g, u, c.roles[role]);
    hide Inv, HasRoleId, WithMembers, IsMember, Without;
    if request.DeleteUser? {
      assert IsManager(c, s, g, u);
    }
  }

  /**
   * A role is only ever given by a request to add just that role, and then by the owner, or (under the
   * intended reading alone) by another role manager to a user who is not yet a manager. Literally read, only
   * owners give roles. As intended, a role manager may make another user a manager.
   */
  lemma {:induction false} RoleGainedOnlyFrom(r: Reading, c: Catalog, s: State, request: Request, g: nat, u: nat,
                                              role: string)
    requires Inv(c, s) && Injective(c) && role in c.roles && !HasRole(c, s, g, u, role)
    ensures HasRole(c, Step(r, c, s, request).0, g, u, role) <==>
            && request.AddRole? && request.groupId == g && request.userId == u && request.role == role
            && request.actor != u && IsMember(s, g, u) && g in s.groups
            && (IsOwner(s, g, request.actor)
                || (r == Intended && HasRole(c, s, g, request.actor, "role_manager")
                    && !HasRole(c, s, g, u, "group_manager") && !HasRole(c, s, g, u, "role_manager")))
  {
    RolesAfter(r, c, s, request, g, u, c.roles[role]);
    hide Inv, HasRoleId, WithMembers, IsMember, Without, IsManager;
    ManagerIff(c, s, g, u);
  }

  lemma ManagerIff(c: Catalog, s: State, g: nat, u: nat)
    ensures IsManager(c, s, g, u) <==> HasRole(c, s, g, u, "group_manager") || HasRole(c, s, g, u, "role_manager")
  {
    hide HasRole;
    assert "group_manager" in MANAGERS && "role_manager" in MANAGERS;
  }

  lemma MembersAfterChange(s: State, t: State, groupId: nat, userId: nat)
    requires t.members == s.members
    ensures IsMember(t, groupId, userId) <==> IsMember(s, groupId, userId)
  {
    if IsMember(s, groupId, userId) {
      var m := MemberId(s, groupId, userId);
      assert m in t.members && t.members[m] == Member(groupId, userId);
    }
    if IsMember(t, groupId, userId) {
      var m := MemberId(t, groupId, userId);
      assert m in s.members && s.members[m] == Member(groupId, userId);
    }
  }

  lemma MembersAfterNew(s: State, t: State, added: Member, groupId: nat, userId: nat)
    requires t.members == s.members[s.nextMember := added] && s.nextMember !in s.members
    ensures IsMember(t, groupId, userId) <==> IsMember(s, groupId, userId) || added == Member(groupId, userId)
  {
    if IsMember(s, groupId, userId) {
      var m := MemberId(s, groupId, userId);
      assert m in t.members && t.members[m] == Member(groupId, userId);
    }
    if IsMember(t, groupId, userId) {
      var m := MemberId(t, groupId, userId);
      assert m == s.nextMember || (m in s.members && s.members[m] == Member(groupId, userId));
    }
    assert s.nextMember in t.members && t.members[s.nextMember] == added;
  }

  lemma MembersAfterRemoval(s: State, t: State, groupId: nat, userId: nat)
    requires forall m :: m in t.members ==> m in s.members && t.members[m] == s.members[m]
    requires forall m :: m in s.members && s.members[m] == Member(groupId, userId) ==> m in t.members
    ensures IsMember(t, groupId, userId) <==> IsMember(s, groupId, userId)
  {
    if IsMember(s, groupId, userId) {
      var m := MemberId(s, groupId, userId);
      assert m in t.members && t.members[m] == Member(groupId, userId);
    }
    if IsMember(t, groupId, userId) {
      var m := MemberId(t, groupId, userId);
      assert m in s.members && s.members[m] == Member(groupId, userId);
    }
  }

  /** The user whose membership of the group a granted request ends or begins, if any. */
  ghost predicate Joins(request: Request, g: nat, u: nat) {
    request.AddUser? && request.groupId == g && request.userId == u
  }

  ghost predicate Leaves(request: Request, g: nat, u: nat) {
    || (request.DeleteUser? && request.groupId == g && request.userId == u)
    || (request.DeleteGroup? && request.groupId == g)
  }

  /** A membership of an existing group comes and goes by the granted requests for it, and by no other. */
  lemma {:induction false} MembershipChanges(r: Reading, c: Catalog, s: State, request: Request, g: nat, u: nat)
    requires Inv(c, s) && g in s.groups
    ensures var (t, response) := Step(r, c, s, request);
            IsMember(t, g, u) <==>
            if response == Ok && Joins(request, g, u) then true
            else if response == Ok && Leaves(request, g, u) then false
            else IsMember(s, g, u)
  {
    var (t, response) := Step(r, c, s, request);
    hide RowsOk, HasRole, IsManager, Without, Keep, IsMember;
    if response != Ok {
      RolesAfter(r, c, s, request, g, u, 0);
    } else {
      match request
      case CreateGroup(actor, name) => MembersAfterNew(s, t, Member(s.nextGroup, actor), g, u);
      case AddUser(_, h, v) => MembersAfterNew(s, t, Member(h, v), g, u);
      case DeleteGroup(_, h) =>
        if h == g {
          NotAMember(t, g, u);
        } else {
          MembersAfterRemoval(s, t, g, u);
        }
      case DeleteUser(_, h, v) =>
        if Member(h, v) == Member(g, u) {
          NotAMember(t, g, u);
        } else {
          MembersAfterRemoval(s, t, g, u);
        }
      case _ => MembersAfterChange(s, t, g, u);
    }
  }

  /** Whatever the answer says: a membership begins exactly so. */
  lemma {:induction false} MemberGainedIff(r: Reading, c: Catalog, s: State, request: Request, g: nat, u: nat)
    requires Inv(c, s) && !IsMember(s, g, u)
    ensures IsMember(Step(r, c, s, request).0, g, u) <==>
            || (&& request.CreateGroup? && request.actor == u && u in s.users && g == s.nextGroup
                && forall h :: h in s.groups ==> s.groups[h].name != request.name)
            || (&& request.AddUser? && request.groupId == g && request.userId == u && u in s.users && g in s.groups
                && (IsOwner(s, g, request.actor) || HasRole(c, s, g, request.actor, "group_manager")))
  {
    if g in s.groups {
      MembershipChanges(r, c, s, request, g, u);
      hide RowsOk, HasRole, IsManager, Without, Keep, IsMember, MembersOk;
    } else {
      MemberOfNewGroup(r, c, s, request, g, u);
    }
  }

  lemma MemberOfNewGroup(r: Reading, c: Catalog, s: State, request: Request, g: nat, u: nat)
    requires Inv(c, s) && g !in s.groups
    ensures IsMember(Step(r, c, s, request).0, g, u) <==>
            && request.CreateGroup? && request.actor == u && u in s.users && g == s.nextGroup
            && forall h :: h in s.groups ==> s.groups[h].name != request.name
  {
    NobodyThere(c, s, g, u);
    hide Inv, IsMember;
    if request.CreateGroup? {
      if Step(r, c, s, request).0 != s {
        MembersAfterNew(s, Step(r, c, s, request).0, Member(s.nextGroup, request.actor), g, u);
      }
    } else if request.AddUser? {
      NoMemberByAddUser(r, c, s, request, g, u);
    } else if request.DeleteGroup? || request.DeleteUser? {
      NoMemberByRemoval(r, c, s, request, g, u);
    } else {
      NoMemberByOthers(r, c, s, request, g, u);
    }
  }

  lemma NoMemberByAddUser(r: Reading, c: Catalog, s: State, request: Request, g: nat, u: nat)
    requires request.AddUser? && g !in s.groups && !IsMember(s, g, u) && s.nextMember !in s.members
    ensures !IsMember(Step(r, c, s, request).0, g, u)
  {
    hide HasRole, IsMember;
    if Step(r, c, s, request).0 != s {
      MembersAfterNew(s, Step(r, c, s, request).0, Member(request.groupId, request.userId), g, u);
    }
  }

  lemma NoMemberByRemoval(r: Reading, c: Catalog, s: State, request: Request, g: nat, u: nat)
    requires (request.DeleteGroup? || request.DeleteUser?) && !IsMember(s, g, u)
    ensures !IsMember(Step(r, c, s, request).0, g, u)
  {
    hide HasRole, IsManager, Keep, IsMember;
    MembersFewer(s, Step(r, c, s, request).0, g, u);
  }

  lemma NoMemberByOthers(r: Reading, c: Catalog, s: State, request: Request, g: nat, u: nat)
    requires !request.CreateGroup? && !request.AddUser? && !request.DeleteGroup? && !request.DeleteUser?
    requires !IsMember(s, g, u)
    ensures !IsMember(Step(r, c, s, request).0, g, u)
  {
    hide HasRole, IsManager, Without, IsMember;
    MembersAfterChange(s, Step(r, c, s, request).0, g, u);
  }

  lemma NobodyThere(c: Catalog, s: State, g: nat, u: nat)
    requires Inv(c, s) && g !in s.groups
    ensures !IsMember(s, g, u) && s.nextMember !in s.members
  {
  }

  lemma MembersFewer(s: State, t: State, g: nat, u: nat)
    requires !IsMember(s, g, u) && forall m :: m in t.members ==> m in s.members && t.members[m] == s.members[m]
    ensures !IsMember(t, g, u)
  {
  }

  /** And it ends exactly so, under either reading of the guard. */
  ghost predicate EndsMembership(r: Reading, c: Catalog, s: State, request: Request, g: nat, u: nat) {
    || (&& request.DeleteGroup? && request.groupId == g && IsOwner(s, g, request.actor)
        && forall t :: t in s.tasks ==> s.tasks[t] != g)
    || (&& request.DeleteUser? && request.groupId == g && request.userId == u && request.actor != u
        && (|| IsOwner(s, g, request.actor)
            || (&& r == Intended && HasRole(c, s, g, request.actor, "group_manager") && !IsOwner(s, g, u)
                && !HasRole(c, s, g, u, "group_manager") && !HasRole(c, s, g, u, "role_manager"))))
  }

  lemma MemberIsInGroup(c: Catalog, s: State, g: nat, u: nat)
    requires Inv(c, s) && IsMember(s, g, u)
    ensures g in s.groups
  {
  }

  lemma {:induction false} MemberLostIff(r: Reading, c: Catalog, s: State, request: Request, g: nat, u: nat)
    requires Inv(c, s) && IsMember(s, g, u)
    ensures !IsMember(Step(r, c, s, request).0, g, u) <==> EndsMembership(r, c, s, request, g, u)
  {
    MemberIsInGroup(c, s, g, u);
    MembershipChanges(r, c, s, request, g, u);
    ManagerIff(c, s, g, u);
    hide Inv, HasRole, IsManager, Without, Keep, IsMember;
  }

  lemma RoleOfMember(c: Catalog, s: State, g: nat, u: nat, role: string)
    requires HasRole(c, s, g, u, role)
    ensures IsMember(s, g, u)
  {
  }

  // The answers

  /** What the hooks for managers answer, and to whom they do not: to the owner and the holders of the role. */
  ghost predicate HookAnswers(c: Catalog, s: State, actor: nat, g: nat, role: string, response: Response) {
    && (response == GroupNotFound <==> g !in s.groups)
    && (response == Unauthorized <==> g in s.groups && !IsOwner(s, g, actor) && !HasRole(c, s, g, actor, role))
  }

  ghost predicate Passes(c: Catalog, s: State, actor: nat, g: nat, role: string) {
    g in s.groups && (IsOwner(s, g, actor) || HasRole(c, s, g, actor, role))
  }

  lemma {:induction false} AddUserAnswers(r: Reading, c: Catalog, s: State, actor: nat, g: nat, u: nat)
    ensures var response := Step(r, c, s, AddUser(actor, g, u)).1;
            && HookAnswers(c, s, actor, g, "group_manager", response)
            && (Passes(c, s, actor, g, "group_manager") ==>
                  response == if u !in s.users then UserNotFound else if IsMember(s, g, u) then Conflict else Ok)
  {
    hide HasRole, IsMember;
  }

  lemma {:induction false} DeleteUserAnswers(r: Reading, c: Catalog, s: State, actor: nat, g: nat, u: nat)
    ensures var response := Step(r, c, s, DeleteUser(actor, g, u)).1;
            && HookAnswers(c, s, actor, g, "group_manager", response)
            && (Passes(c, s, actor, g, "group_manager") ==>
                  response ==
                  if actor == u then Conflict
                  else if IsOwner(s, g, actor) then Ok
                  else if r == Literal then ServerError
                  else if HasRole(c, s, g, u, "group_manager") || HasRole(c, s, g, u, "role_manager")
                          || IsOwner(s, g, u)
                  then AccessDenied else Ok)
  {
    ManagerIff(c, s, g, u);
    hide HasRole, IsManager, WithMembers;
  }

  lemma {:induction false} AddRoleAnswers(r: Reading, c: Catalog, s: State, actor: nat, g: nat, u: nat, role: string)
    ensures var response := Step(r, c, s, AddRole(actor, g, u, role)).1;
            && HookAnswers(c, s, actor, g, "role_manager", response)
            && (Passes(c, s, actor, g, "role_manager") ==>
                  response ==
                  if actor == u then Conflict
                  else if !IsOwner(s, g, actor) && r == Literal then ServerError
                  else if !IsOwner(s, g, actor)
                          && (HasRole(c, s, g, u, "group_manager") || HasRole(c, s, g, u, "role_manager"))
                  then AccessDenied
                  else if HasRole(c, s, g, u, role) then AccessDenied
                  else if role in c.roles && IsMember(s, g, u) then Ok else ServerError)
  {
    ManagerIff(c, s, g, u);
    hide HasRole, IsManager, IsMember;
  }

  lemma {:induction false} DeleteRoleAnswers(r: Reading, c: Catalog, s: State, actor: nat, g: nat, u: nat,
                                             role: string)
    ensures var response := Step(r, c, s, DeleteRole(actor, g, u, role)).1;
            && HookAnswers(c, s, actor, g, "role_manager", response)
            && (Passes(c, s, actor, g, "role_manager") ==>
                  response ==
                  if actor == u then Conflict
                  else if !IsOwner(s, g, actor) && (role == "group_manager" || role == "role_manager")
                  then AccessDenied
                  else if role in c.roles && IsMember(s, g, u) then Ok else ServerError)
  {
    hide HasRole, IsMember, Without;
  }

  /** Groups are created by registered users under new names, and deleted by their owners when no task is in them. */
  lemma {:induction false} GroupAnswers(r: Reading, c: Catalog, s: State, actor: nat, name: string, g: nat)
    ensures Step(r, c, s, CreateGroup(actor, name)).1 ==
            if exists h :: h in s.groups && s.groups[h].name == name then Conflict
            else if actor in s.users then Ok else ServerError
    ensures Step(r, c, s, DeleteGroup(actor, g)).1 ==
            if g !in s.groups then GroupNotFound
            else if s.groups[g].ownerId != actor then Unauthorized
            else if exists t :: t in s.tasks && s.tasks[t] == g then ServerError else Ok
  {
    hide WithMembers;
  }

  predicate Takes(request: Request, g: nat, u: nat, role: string) {
    request.DeleteRole? && request.groupId == g && request.userId == u && request.role == role
  }

  lemma RoleGoesWhenGranted(r: Reading, c: Catalog, s: State, request: Request, g: nat, u: nat, role: string)
    requires Inv(c, s) && Injective(c) && HasRole(c, s, g, u, role)
    ensures var (t, response) := Step(r, c, s, request);
            !HasRole(c, t, g, u, role) <==> response == Ok && (Leaves(request, g, u) || Takes(request, g, u, role))
  {
    RolesAfter(r, c, s, request, g, u, c.roles[role]);
    hide Inv, Step, HasRoleId;
  }

  lemma GrantedEnds(r: Reading, c: Catalog, s: State, request: Request, g: nat, u: nat)
    requires g in s.groups
    ensures Step(r, c, s, request).1 == Ok && Leaves(request, g, u) <==> EndsMembership(r, c, s, request, g, u)
  {
    hide HasRole, Step;
    if request.DeleteGroup? {
      GroupAnswers(r, c, s, request.actor, "", request.groupId);
    } else if request.DeleteUser? {
      DeleteUserAnswers(r, c, s, request.actor, request.groupId, request.userId);
    }
  }

  lemma GrantedTakes(r: Reading, c: Catalog, s: State, request: Request, g: nat, u: nat, role: string)
    requires g in s.groups && IsMember(s, g, u) && role in c.roles
    ensures Step(r, c, s, request).1 == Ok && Takes(request, g, u, role) <==>
            && request.DeleteRole? && request.groupId == g && request.userId == u && request.role == role
            && request.actor != u
            && (|| IsOwner(s, g, request.actor)
                || (&& HasRole(c, s, g, request.actor, "role_manager")
                    && role != "group_manager" && role != "role_manager"))
  {
    hide HasRole, IsMember, Step;
    if request.DeleteRole? {
      DeleteRoleAnswers(r, c, s, request.actor, request.groupId, request.userId, request.role);
    }
  }

  /**
   * A role ends with the membership, or by a request for just this role. Only the owner's request takes the role
   * of a manager away.
   */
  lemma {:induction false} RoleLostIff(r: Reading, c: Catalog, s: State, request: Request, g: nat, u: nat,
                                       role: string)
    requires Inv(c, s) && Injective(c) && HasRole(c, s, g, u, role)
    ensures !HasRole(c, Step(r, c, s, request).0, g, u, role) <==>
            || EndsMembership(r, c, s, request, g, u)
            || (&& request.DeleteRole? && request.groupId == g && request.userId == u && request.role == role
                && request.actor != u
                && (|| IsOwner(s, g, request.actor)
                    || (&& HasRole(c, s, g, request.actor, "role_manager")
                        && role != "group_manager" && role != "role_manager")))
  {
    RoleOfMember(c, s, g, u, role);
    MemberIsInGroup(c, s, g, u);
    RoleGoesWhenGranted(r, c, s, request, g, u, role);
    hide *;
    GrantedEnds(r, c, s, request, g, u);
    GrantedTakes(r, c, s, request, g, u, role);
  }

  /** Users only ever come, and tasks come and go by their own requests. */
  lemma {:induction false} UsersAndTasksAfter(r: Reading, c: Catalog, s: State, request: Request, u: nat, x: nat)
    ensures var t := Step(r, c, s, request).0;
            && (u in t.users <==> u in s.users || request == Register(u))
            && (x in t.tasks <==>
                  if x in s.tasks then request != TaskRemoved(x)
                  else request.TaskAdded? && request.taskId == x && request.groupId in s.groups)
            && (x in t.tasks ==> t.tasks[x] == if x in s.tasks then s.tasks[x] else request.groupId)
  {
    hide HasRole, IsManager, IsMember, Without, Keep;
  }

  lemma NotAMember(s: State, g: nat, u: nat)
    requires forall m :: m in s.members ==> s.members[m] != Member(g, u)
    ensures !IsMember(s, g, u)
  {
  }

  /** Nobody but its owner and its managers changes anything in a group. */
  lemma {:induction false} OthersChangeNothing(r: Reading, c: Catalog, s: State, request: Request, g: nat, u: nat,
                                               roleId: nat)
    requires Inv(c, s) && g in s.groups
    requires Actor(request).Some? ==>
               !IsOwner(s, g, Actor(request).value) && !IsManager(c, s, g, Actor(request).value)
    ensures var t := Step(r, c, s, request).0;
            && g in t.groups && t.groups[g] == s.groups[g]
            && (IsMember(t, g, u) <==> IsMember(s, g, u))
            && (HasRoleId(t, g, u, roleId) <==> HasRoleId(s, g, u, roleId))
  {
    MembershipChanges(r, c, s, request, g, u);
    RolesAfter(r, c, s, request, g, u, roleId);
    GroupsAfter(r, c, s, request, g);
    hide Inv, HasRole, HasRoleId, WithMembers, IsMember, Without;
  }

  /** A group keeps its name and owner while it exists. Its owner can end it, unless a task refers to it. */
  lemma {:induction false} GroupsAfter(r: Reading, c: Catalog, s: State, request: Request, g: nat)
    requires Inv(c, s) && g in s.groups
    ensures var (t, response) := Step(r, c, s, request);
            && (g in t.groups ==> t.groups[g] == s.groups[g])
            && (g !in t.groups <==>
                  request.DeleteGroup? && request.groupId == g && IsOwner(s, g, request.actor) && !HasTask(s, g))
  {
    hide HasRole, IsManager, IsMember, Without, Keep, RowsOk, MembersOk;
  }

  /** In every run the owner of a group is the user who created it, and is a member of it. */
  lemma {:induction false} OwnerIsCreator(r: Reading, c: Catalog, requests: seq<Request>, g: nat) returns (i: nat)
    requires g in After(r, c, requests).groups
    ensures i < |requests| && requests[i].CreateGroup?
    ensures After(r, c, requests[..i]).nextGroup == g
    ensures After(r, c, requests).groups[g] == Group(requests[i].name, requests[i].actor)
    ensures IsMember(After(r, c, requests), g, requests[i].actor)
  {
    var n := |requests| - 1;
    var s := After(r, c, requests[..n]);
    InvAlways(r, c, requests);
    InvAlways(r, c, requests[..n]);
    if g in s.groups {
      i := OwnerIsCreator(r, c, requests[..n], g);
      assert requests[..n][..i] == requests[..i];
      GroupsAfter(r, c, s, requests[n], g);
    } else {
      i := n;
      NewGroup(r, c, s, requests[n], g);
    }
  }

  lemma NewGroup(r: Reading, c: Catalog, s: State, request: Request, g: nat)
    requires g !in s.groups && g in Step(r, c, s, request).0.groups
    ensures request.CreateGroup? && g == s.nextGroup
    ensures Step(r, c, s, request).0.groups[g] == Group(request.name, request.actor)
  {
    hide HasRole, IsManager, IsMember, Without, Keep;
  }

  // Permissions

  /** Ids are given in the order of the inserted names. */
  function IndexOf(names: seq<string>, name: string): (i: nat)
    requires name in names
    ensures i < |names| && names[i] == name
  {
    if names[|names| - 1] == name then |names| - 1 else IndexOf(names[..|names| - 1], name)
  }

  ghost predicate GrantsOk(roleNames: seq<string>, permissionNames: seq<string>, grants: map<string, seq<string>>) {
    && (forall r :: r in grants ==> r in roleNames)
    && forall r, p :: r in grants && p in grants[r] ==> p in permissionNames
  }

  /** The tables that the migration fills, for any lists of names and any grants. */
  ghost function Filled(roleNames: seq<string>, permissionNames: seq<string>, grants: map<string, seq<string>>): Catalog
    requires GrantsOk(roleNames, permissionNames, grants)
  {
    Catalog(
      map r | r in roleNames :: IndexOf(roleNames, r),
      map i: nat | i < |permissionNames| :: permissionNames[i],
      set r, p | r in grants && p in grants[r] :: (IndexOf(roleNames, r), IndexOf(permissionNames, p)))
  }

  lemma {:induction false} FilledIsInjective(roleNames: seq<string>, permissionNames: seq<string>, grants: map<string,
                                             seq<string>>)
    requires GrantsOk(roleNames, permissionNames, grants)
    ensures Injective(Filled(roleNames, permissionNames, grants))
  {
    var c := Filled(roleNames, permissionNames, grants);
    forall a, b | a in c.roles && b in c.roles && c.roles[a] == c.roles[b] ensures a == b {
      assert roleNames[c.roles[a]] == a && roleNames[c.roles[b]] == b;
    }
  }

  /** Over the tables that the migration fills: managers are unmade by the owner alone. */
  lemma {:induction false} ManagerUnmadeByOwner(roleNames: seq<string>, permissionNames: seq<string>,
                                                grants: map<string, seq<string>>, r: Reading, requests: seq<Request>,
                                                request: Request, g: nat, u: nat, role: string)
    requires GrantsOk(roleNames, permissionNames, grants) && role in MANAGERS
    requires var c := Filled(roleNames, permissionNames, grants); var s := After(r, c, requests);
             HasRole(c, s, g, u, role) && !HasRole(c, Step(r, c, s, request).0, g, u, role)
    ensures var c := Filled(roleNames, permissionNames, grants);
            Actor(request).Some? && IsOwner(After(r, c, requests), g, Actor(request).value)
  {
    var c := Filled(roleNames, permissionNames, grants);
    hide Inv, HasRole, Step, Filled, After;
    FilledIsInjective(roleNames, permissionNames, grants);
    InvAlways(r, c, requests);
    ManagerRoleLostOnlyToOwner(r, c, After(r, c, requests), request, g, u, role);
  }

  /** Over the tables that the migration fills, in every run: who gives a role, and to whom. */
  lemma {:induction false} RoleGivenIff(roleNames: seq<string>, permissionNames: seq<string>,
                                        grants: map<string, seq<string>>, r: Reading, requests: seq<Request>,
                                        request: Request, g: nat, u: nat, role: string)
    requires GrantsOk(roleNames, permissionNames, grants) && role in roleNames
    requires var c := Filled(roleNames, permissionNames, grants); !HasRole(c, After(r, c, requests), g, u, role)
    ensures var c := Filled(roleNames, permissionNames, grants); var s := After(r, c, requests);
            HasRole(c, Step(r, c, s, request).0, g, u, role) <==>
            && request.AddRole? && request.groupId == g && request.userId == u && request.role == role
            && request.actor != u && IsMember(s, g, u) && g in s.groups
            && (IsOwner(s, g, request.actor)
                || (r == Intended && HasRole(c, s, g, request.actor, "role_manager")
                    && !HasRole(c, s, g, u, "group_manager") && !HasRole(c, s, g, u, "role_manager")))
  {
    var c := Filled(roleNames, permissionNames, grants);
    assert role in c.roles;
    hide Inv, HasRole, IsManager, IsMember, Step, Filled, After;
    FilledIsInjective(roleNames, permissionNames, grants);
    InvAlways(r, c, requests);
    RoleGainedOnlyFrom(r, c, After(r, c, requests), request, g, u, role);
  }

  /**
   * The permission check passes if and only if the group exists and the user owns it or holds, in that
   * group, a role that the migration grants the permission to.
   */
  lemma {:induction false} PermissionHookIff(roleNames: seq<string>, permissionNames: seq<string>, grants: map<string,
                                             seq<string>>,
                          s: State, actor: nat, groupId: nat, permission: string)
    requires GrantsOk(roleNames, permissionNames, grants)
    ensures var c := Filled(roleNames, permissionNames, grants);
            PermissionVerdict(c, s, actor, groupId, permission) == None <==>
            && groupId in s.groups
            && (IsOwner(s, groupId, actor)
                || exists r :: r in grants && permission in grants[r] && HasRole(c, s, groupId, actor, r))
  {
    var c := Filled(roleNames, permissionNames, grants);
    if Joined(c, s, groupId, actor, permission) {
      var pair, m :| pair in c.rolePermissions && pair.1 in c.permissions && c.permissions[pair.1] == permission
                     && RowOf(s, m, groupId, actor, pair.0);
      var r, p :| r in grants && p in grants[r] && pair == (IndexOf(roleNames, r), IndexOf(permissionNames, p));
      assert HasRoleId(s, groupId, actor, c.roles[r]);
      assert p == permission;
    }
    if r :| r in grants && permission in grants[r] && HasRole(c, s, groupId, actor, r) {
      var pair := (IndexOf(roleNames, r), IndexOf(permissionNames, permission));
      var m :| RowOf(s, m, groupId, actor, pair.0);
      assert pair in c.rolePermissions && pair.1 in c.permissions;
    }
  }

  // The tables of the migration

  const ROLE_NAMES: seq<string> :=
    ["group_manager", "role_manager", "task_manager", "task_viewer", "metric_viewer"]

  const PERMISSION_NAMES: seq<string> :=
    ["add_to_group", "remove_from_group", "add_role", "remove_role", "create_task", "delete_task", "update_task",
     "view_task", "stop_task", "start_task", "view_metrics"]

  const GRANTS: map<string, seq<string>> := map[
    "group_manager" := ["add_to_group", "remove_from_group"],
    "role_manager" := ["add_role", "remove_role"],
    "task_manager" := ["create_task", "delete_task", "update_task", "view_task", "stop_task", "start_task"],
    "task_viewer" := ["view_task"],
    "metric_viewer" := ["view_metrics"]]

  /** The roles that open a permission. */
  ghost predicate Opens(role: string, permission: string) {
    match role
    case "group_manager" => permission in {"add_to_group", "remove_from_group"}
    case "role_manager" => permission in {"add_role", "remove_role"}
    case "task_manager" =>
      permission in {"create_task", "delete_task", "update_task", "view_task", "stop_task", "start_task"}
    case "task_viewer" => permission == "view_task"
    case "metric_viewer" => permission == "view_metrics"
    case _ => false
  }

  lemma OpensIff(role: string, permission: string)
    ensures Opens(role, permission) <==> role in GRANTS && permission in GRANTS[role]
  {
  }

  lemma OpenedIsNamed(role: string, permission: string)
    requires Opens(role, permission)
    ensures permission in PERMISSION_NAMES
  {
    var p := PERMISSION_NAMES;
    assert p[0] in p && p[1] in p && p[2] in p && p[3] in p && p[4] in p && p[5] in p;
    assert p[6] in p && p[7] in p && p[8] in p && p[9] in p && p[10] in p;
  }

  lemma GranteesAreNamed(role: string)
    requires role in GRANTS
    ensures role in ROLE_NAMES
  {
    var n := ROLE_NAMES;
    assert n[0] in n && n[1] in n && n[2] in n && n[3] in n && n[4] in n;
  }

  /** What the migration grants is between roles and permissions that it has named. */
  lemma {:induction false} MigrationIsOk()
    ensures GrantsOk(ROLE_NAMES, PERMISSION_NAMES, GRANTS)
  {
    var roles, permissions, grants := ROLE_NAMES, PERMISSION_NAMES, GRANTS;
    hide ROLE_NAMES, PERMISSION_NAMES, GRANTS, Opens;
    forall r | r in grants ensures r in roles {
      GranteesAreNamed(r);
    }
    forall r, p | r in grants && p in grants[r] ensures p in permissions {
      OpensIff(r, p);
      OpenedIsNamed(r, p);
    }
  }

  /** In a server whose tables the migration has filled: who passes the check in front of the task requests. */
  lemma {:induction false} WhoPasses(s: State, actor: nat, groupId: nat, permission: string)
    requires GrantsOk(ROLE_NAMES, PERMISSION_NAMES, GRANTS)
    ensures var c := Filled(ROLE_NAMES, PERMISSION_NAMES, GRANTS);
            PermissionVerdict(c, s, actor, groupId, permission) == None <==>
            && groupId in s.groups
            && (IsOwner(s, groupId, actor) || exists r :: Opens(r, permission) && HasRole(c, s, groupId, actor, r))
  {
    hide Opens, HasRole, PermissionVerdict, Filled;
    PermissionHookIff(ROLE_NAMES, PERMISSION_NAMES, GRANTS, s, actor, groupId, permission);
    forall r ensures Opens(r, permission) <==> r in GRANTS && permission in GRANTS[r] {
      OpensIff(r, permission);
    }
  }

  // The program

  class AuthorizationService {
    const reading: Reading
    const catalog: Catalog
    var users: set<nat>
    var groups: map<nat, Group>
    var members: map<nat, Member>
    var rows: seq<UserRole>
    var tasks: map<nat, nat>
    var nextGroup: nat
    var nextMember: nat

    constructor (reading: Reading, catalog: Catalog)
      ensures this.reading == reading && this.catalog == catalog && View() == START && Valid()
    {
      this.reading, this.catalog := reading, catalog;
      users, groups, members, rows, tasks, nextGroup, nextMember := {}, map[], map[], [], map[], 0, 0;
    }

    ghost function View(): State
      reads this
    {
      State(users, groups, members, rows, tasks, nextGroup, nextMember)
    }

    ghost predicate Valid()
      reads this
    {
      Inv(catalog, View())
    }

    method FindRoles(groupId: nat, userId: nat) returns (roles: set<string>)
      ensures forall role :: role in roles <==> HasRole(catalog, View(), groupId, userId, role)
    {
      roles := set role | role in catalog.roles &&
        exists m :: m in members && members[m] == Member(groupId, userId) && UserRole(m, catalog.roles[role]) in rows;
      forall role ensures role in roles <==> HasRole(catalog, View(), groupId, userId, role) {
        if role in roles {
          var m :| m in members && members[m] == Member(groupId, userId) && UserRole(m, catalog.roles[role]) in rows;
          assert RowOf(View(), m, groupId, userId, catalog.roles[role]);
        }
      }
    }

    method FindPermissions(groupId: nat, userId: nat) returns (permissions: set<string>)
      ensures forall permission :: permission in permissions <==>
                Joined(catalog, View(), groupId, userId, permission)
    {
      permissions := set pair, m | pair in catalog.rolePermissions && pair.1 in catalog.permissions && m in members
        && members[m] == Member(groupId, userId) && UserRole(m, pair.0) in rows :: catalog.permissions[pair.1];
      forall permission
        ensures permission in permissions <==> Joined(catalog, View(), groupId, userId, permission)
      {
        if permission in permissions {
          var pair, m :| pair in catalog.rolePermissions && pair.1 in catalog.permissions && m in members
            && members[m] == Member(groupId, userId) && UserRole(m, pair.0) in rows
            && catalog.permissions[pair.1] == permission;
          assert RowOf(View(), m, groupId, userId, pair.0);
        }
      }
    }

    method FindUserGroup(groupId: nat, userId: nat) returns (id: Option<nat>)
      requires Valid()
      ensures id == if IsMember(View(), groupId, userId) then Some(MemberId(View(), groupId, userId)) else None
    {
      if exists m :: m in members && members[m] == Member(groupId, userId) {
        var m :| m in members && members[m] == Member(groupId, userId);
        return Some(m);
      }
      return None;
    }

    method RoleHook(actor: nat, groupId: nat, role: string) returns (rejection: Option<Response>)
      ensures rejection == RoleVerdict(catalog, View(), actor, groupId, role)
    {
      if groupId !in groups {
        return Some(GroupNotFound);
      }
      if groups[groupId].ownerId == actor {
        return None;
      }
      var roles := FindRoles(groupId, actor);
      rejection := if role !in roles then Some(Unauthorized) else None;
    }

    method PermissionHook(actor: nat, groupId: nat, permission: string) returns (rejection: Option<Response>)
      ensures rejection == PermissionVerdict(catalog, View(), actor, groupId, permission)
    {
      if groupId !in groups {
        return Some(GroupNotFound);
      }
      if groups[groupId].ownerId == actor {
        return None;
      }
      var permissions := FindPermissions(groupId, actor);
      rejection := if permission !in permissions then Some(Unauthorized) else None;
    }

    /** None when evaluating `ROLES.some(roles.includes)` throws. */
    method SomeManagerRole(roles: set<string>) returns (answer: Option<bool>)
      ensures answer == if reading == Literal then None else Some(exists role :: role in MANAGERS && role in roles)
    {
      answer := if reading == Literal then None else Some(exists role :: role in MANAGERS && role in roles);
    }

    method CreateGroup(name: string, userId: nat) returns (response: Response)
      modifies this
      ensures (View(), response) == CreateGroupStep(old(View()), userId, name)
    {
      if exists g :: g in groups && groups[g].name == name {
        return Conflict;
      }
      if userId !in users {
        return ServerError;
      }
      var groupId := nextGroup;
      groups, nextGroup := groups[groupId := Group(name, userId)], nextGroup + 1;
      members, nextMember := members[nextMember := Member(groupId, userId)], nextMember + 1;
      response := Ok;
    }

    /** Rows of memberships that are gone go with them. */
    method CascadeToRoles()
      modifies this`rows
      ensures rows == Keep(old(rows), members)
    {
      var kept := [];
      for i := 0 to |rows|
        invariant kept == Keep(rows[..i], members) && rows == old(rows)
      {
        assert rows[..i + 1][..i] == rows[..i];
        if rows[i].memberId in members {
          kept := kept + [rows[i]];
        }
      }
      assert rows[..|rows|] == rows;
      rows := kept;
    }

    method DeleteGroup(groupId: nat) returns (response: Response)
      modifies this
      ensures (View(), response) == DeleteGroupStep(old(View()), groupId)
    {
      if exists t :: t in tasks && tasks[t] == groupId {
        return ServerError;
      }
      groups := groups - {groupId};
      members := map m | m in members && members[m].groupId != groupId :: members[m];
      CascadeToRoles();
      response := Ok;
    }

    method AddUserToGroup(groupId: nat, userId: nat) returns (response: Response)
      modifies this
      ensures (View(), response) == AddUserStep(old(View()), groupId, userId)
    {
      if userId !in users {
        return UserNotFound;
      }
      if exists m :: m in members && members[m] == Member(groupId, userId) {
        return Conflict;
      }
      members, nextMember := members[nextMember := Member(groupId, userId)], nextMember + 1;
      response := Ok;
    }

    method DeleteUserFromGroup(groupId: nat, managerId: nat, userId: nat) returns (response: Response)
      requires groupId in groups
      modifies this
      ensures (View(), response) == DeleteUserStep(reading, catalog, old(View()), managerId, groupId, userId)
    {
      if managerId == userId {
        return Conflict;
      }
      var ownerId := groups[groupId].ownerId;
      if managerId != ownerId {
        var roles := FindRoles(groupId, userId);
        var isManager := SomeManagerRole(roles);
        if isManager.None? {
          return ServerError;
        }
        if isManager.value || userId == ownerId {
          return AccessDenied;
        }
      }
      members := map m | m in members && members[m] != Member(groupId, userId) :: members[m];
      CascadeToRoles();
      response := Ok;
    }

    method AddUserRole(groupId: nat, managerId: nat, userId: nat, role: string) returns (response: Response)
      requires Valid() && groupId in groups
      modifies this
      ensures (View(), response) == AddRoleStep(reading, catalog, old(View()), managerId, groupId, userId, role)
    {
      if managerId == userId {
        return Conflict;
      }
      var userRoles := FindRoles(groupId, userId);
      if managerId != groups[groupId].ownerId {
        var isManager := SomeManagerRole(userRoles);
        if isManager.None? {
          return ServerError;
        }
        if isManager.value {
          return AccessDenied;
        }
      }
      if role in userRoles {
        return AccessDenied;
      }
      var id := FindUserGroup(groupId, userId);
      if role !in catalog.roles || id.None? {
        return ServerError;
      }
      rows := rows + [UserRole(id.value, catalog.roles[role])];
      response := Ok;
    }

    method DeleteUserRole(groupId: nat, managerId: nat, userId: nat, role: string) returns (response: Response)
      requires Valid() && groupId in groups
      modifies this
      ensures (View(), response) == DeleteRoleStep(catalog, old(View()), managerId, groupId, userId, role)
    {
      if managerId == userId {
        return Conflict;
      }
      if managerId != groups[groupId].ownerId && role in MANAGERS {
        return AccessDenied;
      }
      var id := FindUserGroup(groupId, userId);
      if role !in catalog.roles || id.None? {
        return ServerError;
      }
      var gone, kept := UserRole(id.value, catalog.roles[role]), [];
      for i := 0 to |rows|
        invariant kept == Without(rows[..i], gone) && View() == old(View())
      {
        assert rows[..i + 1][..i] == rows[..i];
        if rows[i] != gone {
          kept := kept + [rows[i]];
        }
      }
      assert rows[..|rows|] == rows;
      rows := kept;
      response := Ok;
    }

    /** The routes for the members of a group, behind the hook for group managers. */
    method HandleMembers(request: Request) returns (response: Response)
      requires Valid() && (request.AddUser? || request.DeleteUser?)
      modifies this
      ensures (View(), response) == Step(reading, catalog, old(View()), request)
    {
      hide Inv, HasRole, AddUserStep, DeleteUserStep;
      var rejection := RoleHook(request.actor, request.groupId, "group_manager");
      if rejection.Some? {
        return rejection.value;
      }
      if request.AddUser? {
        response := AddUserToGroup(request.groupId, request.userId);
      } else {
        response := DeleteUserFromGroup(request.groupId, request.actor, request.userId);
      }
    }

    /** The routes for the roles of a member, behind the hook for role managers. */
    method HandleRoles(request: Request) returns (response: Response)
      requires Valid() && (request.AddRole? || request.DeleteRole?)
      modifies this
      ensures (View(), response) == Step(reading, catalog, old(View()), request)
    {
      hide Inv, HasRole, AddRoleStep, DeleteRoleStep;
      var rejection := RoleHook(request.actor, request.groupId, "role_manager");
      if rejection.Some? {
        return rejection.value;
      }
      if request.AddRole? {
        response := AddUserRole(request.groupId, request.actor, request.userId, request.role);
      } else {
        response := DeleteUserRole(request.groupId, request.actor, request.userId, request.role);
      }
    }

    /** A route: the hook, and the request if the hook lets it pass. */
    method Handle(request: Request) returns (response: Response)
      requires Valid()
      modifies this
      ensures Valid() && (View(), response) == Step(reading, catalog, old(View()), request)
    {
      StepKeepsInv(reading, catalog, View(), request);
      hide Inv, HasRole, AddUserStep, DeleteUserStep, AddRoleStep, DeleteRoleStep;
      if request.AddUser? || request.DeleteUser? {
        response := HandleMembers(request);
      } else if request.AddRole? || request.DeleteRole? {
        response := HandleRoles(request);
      } else {
        response := HandleOther(request);
      }
    }

    method HandleOther(request: Request) returns (response: Response)
      requires Valid() && !request.AddUser? && !request.DeleteUser? && !request.AddRole? && !request.DeleteRole?
      modifies this
      ensures (View(), response) == Step(reading, catalog, old(View()), request)
    {
      hide Inv, CreateGroupStep, DeleteGroupStep;
      match request {
        case CreateGroup(actor, name) =>
          response := CreateGroup(name, actor);
        case DeleteGroup(actor, groupId) =>
          if groupId !in groups {
            return GroupNotFound;
          }
          if groups[groupId].ownerId != actor {
            return Unauthorized;
          }
          response := DeleteGroup(groupId);
        case Register(userId) =>
          users := users + {userId};
          response := Ok;
        case TaskAdded(taskId, groupId) =>
          if groupId !in groups || taskId in tasks {
            return ServerError;
          }
          tasks := tasks[taskId := groupId];
          response := Ok;
        case TaskRemoved(taskId) =>
          tasks := tasks - {taskId};
          response := Ok;
      }
    }
  }
}
