/**
  The authorisation rules of the core service's workspace, target, donor
  and source services. A guarded operation either is refused with an HTTP
  exception or goes on to make one database call, which is returned as a
  value; the calls themselves are not modelled further.

  Two families of workspace checks exist:
  - `WorkspacesService` knows only the owner and the memberships;
  - `TargetsService` and `WorkspaceDonorsService` also let a global FATHER or
    ADMIN through.
*/
module Access {
  import opened Wrappers
  import opened Database

  const Father := "FATHER"
  const Admin := "ADMIN"

  /** The authenticated user of a request (`UserFromToken`): its id and global role. */
  datatype Caller = Caller(id: string, role: string)

  /** A `WorkspaceUserResponse`: a member and its role in the workspace. */
  datatype Membership = Membership(userId: string, role: string)

  datatype Workspace = Workspace(ownerId: string)

  datatype Target = Target(workspaceId: string)

  /**
    What the database service answers about workspaces: the workspaces by id,
    the member list of each workspace (an absent list reads as empty) and the
    targets by id.
  */
  datatype Directory = Directory(
    workspaces: map<string, Workspace>,
    members: map<string, seq<Membership>>,
    targets: map<string, Target>)

  datatype Denial = NotFoundError(message: string) | ForbiddenError(message: string)

  /** The outcome of a guard. */
  datatype Decision = Granted | Refused(denial: Denial)

  /** The database call a permitted operation makes. */
  datatype Call =
    | UpdateWorkspace(workspaceId: string)
    | DeleteWorkspace(workspaceId: string)
    | AddWorkspaceUser(workspaceId: string, userId: string, role: string)
    | RemoveWorkspaceUser(workspaceId: string, userId: string)
    | ListWorkspaceUsers(workspaceId: string)
    | CreateTarget(workspaceId: string)
    | ListTargets(workspaceId: string)
    | UpdateTarget(targetId: string)
    | DeleteTarget(targetId: string)
    | AddDonor(workspaceId: string, sourceId: string)
    | RemoveDonor(workspaceId: string, sourceId: string)
    | ListDonors(workspaceId: string)
    | UpdateDonor(workspaceId: string, sourceId: string)
    | CreateSource
    | UpdateSource(sourceId: string)
    | SetSourceActive(sourceId: string, isActive: bool)
    | DeleteSource(sourceId: string)

  const WorkspaceNotFound := NotFoundError("Workspace not found")

  /** `listWorkspaceUsers`: `users || []`. */
  function Members(dir: Directory, workspaceId: string): seq<Membership> {
    if workspaceId in dir.members then dir.members[workspaceId] else []
  }

  /** `users.find(u => u.user_id === userId)`: the first membership of the user. */
  function FindMember(ms: seq<Membership>, userId: string): (r: Option<Membership>)
    ensures r.Some? <==> exists i :: 0 <= i < |ms| && ms[i].userId == userId
    ensures r.Some? ==> r.value.userId == userId
    ensures r.Some? ==> exists i :: 0 <= i < |ms| && ms[i] == r.value && forall j :: 0 <= j < i ==> ms[j].userId != userId
  {
    if |ms| == 0 then None
    else if ms[0].userId == userId then Some(ms[0])
    else
      var r := FindMember(ms[1..], userId);
      assert forall i :: 0 < i < |ms| ==> ms[i] == ms[1..][i - 1];
      r
  }

  /** `users.some(u => u.user_id === userId)` */
  predicate IsMember(ms: seq<Membership>, userId: string) {
    exists i :: 0 <= i < |ms| && ms[i].userId == userId
  }

  /** The user's first membership exists and has role ADMIN. */
  predicate IsAdminMember(ms: seq<Membership>, userId: string) {
    var m := FindMember(ms, userId);
    m.Some? && m.value.role == Admin
  }

  predicate IsOwner(dir: Directory, workspaceId: string, userId: string)
    requires workspaceId in dir.workspaces
  {
    dir.workspaces[workspaceId].ownerId == userId
  }

  /** A global role that opens every workspace to the target and donor services. */
  predicate GlobalRole(role: string) {
    role == Father || role == Admin
  }

  // ---------------------------------------------------------------------------
  // WorkspacesService

  /** `checkAccess`: the owner or any member. */
  function CheckAccess(dir: Directory, workspaceId: string, userId: string): (d: Decision)
    ensures workspaceId !in dir.workspaces ==> d == Refused(WorkspaceNotFound)
    ensures d.Granted? <==> (workspaceId in dir.workspaces &&
      (IsOwner(dir, workspaceId, userId) || IsMember(Members(dir, workspaceId), userId)))
    ensures d.Refused? && workspaceId in dir.workspaces ==> d == Refused(ForbiddenError("Access denied to this workspace"))
  {
    if workspaceId !in dir.workspaces then Refused(WorkspaceNotFound)
    else if IsOwner(dir, workspaceId, userId) then Granted
    else if IsMember(Members(dir, workspaceId), userId) then Granted
    else Refused(ForbiddenError("Access denied to this workspace"))
  }

  /** `checkOwner` */
  function CheckOwner(dir: Directory, workspaceId: string, userId: string): (d: Decision)
    ensures workspaceId !in dir.workspaces ==> d == Refused(WorkspaceNotFound)
    ensures d.Granted? <==> workspaceId in dir.workspaces && IsOwner(dir, workspaceId, userId)
  {
    if workspaceId !in dir.workspaces then Refused(WorkspaceNotFound)
    else if !IsOwner(dir, workspaceId, userId) then Refused(ForbiddenError("Only workspace owner can perform this action"))
    else Granted
  }

  /** `checkOwnerOrAdmin`: the owner or an ADMIN member; a global role does not count. */
  function CheckOwnerOrAdmin(dir: Directory, workspaceId: string, userId: string): (d: Decision)
    ensures workspaceId !in dir.workspaces ==> d == Refused(WorkspaceNotFound)
    ensures d.Granted? <==> (workspaceId in dir.workspaces &&
      (IsOwner(dir, workspaceId, userId) || IsAdminMember(Members(dir, workspaceId), userId)))
  {
    if workspaceId !in dir.workspaces then Refused(WorkspaceNotFound)
    else if IsOwner(dir, workspaceId, userId) then Granted
    else if !IsAdminMember(Members(dir, workspaceId), userId) then Refused(ForbiddenError("Admin access required"))
    else Granted
  }

  /** Runs `call` when the guard grants. */
  function Guarded(d: Decision, call: Call): (r: Result<Call, Denial>)
    ensures r.Ok? <==> d.Granted?
    ensures r.Ok? ==> r.value == call
    ensures d.Refused? ==> r == Err(d.denial)
  {
    match d
    case Granted => Ok(call)
    case Refused(e) => Err(e)
  }

  /** `findOne` */
  function FindWorkspace(dir: Directory, workspaceId: string, userId: string): (r: Result<Workspace, Denial>)
    ensures r.Ok? <==> CheckAccess(dir, workspaceId, userId).Granted?
    ensures r.Ok? ==> r.value == dir.workspaces[workspaceId]
  {
    if workspaceId !in dir.workspaces then Err(WorkspaceNotFound)
    else match CheckAccess(dir, workspaceId, userId)
      case Refused(e) => Err(e)
      case Granted => Ok(dir.workspaces[workspaceId])
  }

  /** `update` */
  function UpdateWorkspaceAs(dir: Directory, workspaceId: string, userId: string): (r: Result<Call, Denial>)
    ensures r.Ok? <==> CheckOwnerOrAdmin(dir, workspaceId, userId).Granted?
  {
    Guarded(CheckOwnerOrAdmin(dir, workspaceId, userId), UpdateWorkspace(workspaceId))
  }

  /** `remove`: only the owner. */
  function RemoveWorkspaceAs(dir: Directory, workspaceId: string, userId: string): (r: Result<Call, Denial>)
    ensures r.Ok? <==> workspaceId in dir.workspaces && IsOwner(dir, workspaceId, userId)
  {
    Guarded(CheckOwner(dir, workspaceId, userId), DeleteWorkspace(workspaceId))
  }

  /** `addUser` */
  function AddUserAs(dir: Directory, workspaceId: string, userId: string, newUser: string, role: string)
    : (r: Result<Call, Denial>)
    ensures r.Ok? <==> CheckOwnerOrAdmin(dir, workspaceId, userId).Granted?
  {
    Guarded(CheckOwnerOrAdmin(dir, workspaceId, userId), AddWorkspaceUser(workspaceId, newUser, role))
  }

  /** `removeUser`: owner-or-admin, and the owner cannot be removed. */
  function RemoveUserAs(dir: Directory, workspaceId: string, userId: string, removed: string): (r: Result<Call, Denial>)
    ensures r.Ok? <==> CheckOwnerOrAdmin(dir, workspaceId, userId).Granted? && !IsOwner(dir, workspaceId, removed)
    ensures r.Ok? ==> r.value == RemoveWorkspaceUser(workspaceId, removed)
  {
    match CheckOwnerOrAdmin(dir, workspaceId, userId)
    case Refused(e) => Err(e)
    case Granted =>
      if IsOwner(dir, workspaceId, removed) then Err(ForbiddenError("Cannot remove workspace owner"))
      else Ok(RemoveWorkspaceUser(workspaceId, removed))
  }

  /** `listUsers` */
  function ListUsersAs(dir: Directory, workspaceId: string, userId: string): (r: Result<Call, Denial>)
    ensures r.Ok? <==> CheckAccess(dir, workspaceId, userId).Granted?
  {
    Guarded(CheckAccess(dir, workspaceId, userId), ListWorkspaceUsers(workspaceId))
  }

  // ---------------------------------------------------------------------------
  // TargetsService and WorkspaceDonorsService (the same two checks)

  /** `checkWorkspaceAccess`: the owner, a global FATHER/ADMIN, or an ADMIN member. */
  function CheckModify(dir: Directory, user: Caller, workspaceId: string): (d: Decision)
    ensures workspaceId !in dir.workspaces ==> d == Refused(WorkspaceNotFound)
    ensures d.Granted? <==> (workspaceId in dir.workspaces &&
      (IsOwner(dir, workspaceId, user.id) || GlobalRole(user.role) || IsAdminMember(Members(dir, workspaceId), user.id)))
  {
    if workspaceId !in dir.workspaces then Refused(WorkspaceNotFound)
    else if IsOwner(dir, workspaceId, user.id) then Granted
    else if GlobalRole(user.role) then Granted
    else if !IsAdminMember(Members(dir, workspaceId), user.id) then
      Refused(ForbiddenError("You do not have permission to modify this workspace"))
    else Granted
  }

  /** `checkWorkspaceViewAccess`: the owner, a global FATHER/ADMIN, or any member. */
  function CheckView(dir: Directory, user: Caller, workspaceId: string): (d: Decision)
    ensures workspaceId !in dir.workspaces ==> d == Refused(WorkspaceNotFound)
    ensures d.Granted? <==> (workspaceId in dir.workspaces &&
      (IsOwner(dir, workspaceId, user.id) || GlobalRole(user.role) || IsMember(Members(dir, workspaceId), user.id)))
    ensures d.Refused? && workspaceId in dir.workspaces ==>
      d == Refused(ForbiddenError("You do not have access to this workspace"))
  {
    if workspaceId !in dir.workspaces then Refused(WorkspaceNotFound)
    else if IsOwner(dir, workspaceId, user.id) then Granted
    else if GlobalRole(user.role) then Granted
    else if FindMember(Members(dir, workspaceId), user.id).None? then
      Refused(ForbiddenError("You do not have access to this workspace"))
    else Granted
  }

  /** `TargetsService.findOne`: view access, then the target must exist and belong to the workspace. */
  function FindTarget(dir: Directory, user: Caller, workspaceId: string, targetId: string): (r: Result<Target, Denial>)
    ensures r.Ok? <==> (CheckView(dir, user, workspaceId).Granted? &&
      targetId in dir.targets && dir.targets[targetId].workspaceId == workspaceId)
    ensures CheckView(dir, user, workspaceId).Granted? && targetId !in dir.targets ==> r == Err(NotFoundError("Target not found"))
    ensures (CheckView(dir, user, workspaceId).Granted? && targetId in dir.targets &&
             dir.targets[targetId].workspaceId != workspaceId) ==> r == Err(NotFoundError("Target not found in this workspace"))
  {
    match CheckView(dir, user, workspaceId)
    case Refused(e) => Err(e)
    case Granted =>
      if targetId !in dir.targets then Err(NotFoundError("Target not found"))
      else if dir.targets[targetId].workspaceId != workspaceId then Err(NotFoundError("Target not found in this workspace"))
      else Ok(dir.targets[targetId])
  }

  /** `create` */
  function CreateTargetAs(dir: Directory, user: Caller, workspaceId: string): (r: Result<Call, Denial>)
    ensures r.Ok? <==> CheckModify(dir, user, workspaceId).Granted?
  {
    Guarded(CheckModify(dir, user, workspaceId), CreateTarget(workspaceId))
  }

  /** `findAll` */
  function ListTargetsAs(dir: Directory, user: Caller, workspaceId: string): (r: Result<Call, Denial>)
    ensures r.Ok? <==> CheckView(dir, user, workspaceId).Granted?
  {
    Guarded(CheckView(dir, user, workspaceId), ListTargets(workspaceId))
  }

  /** The guard of `update` and `remove`: modify access, then `findOne`. */
  function TargetGuard(dir: Directory, user: Caller, workspaceId: string, targetId: string): Decision {
    match CheckModify(dir, user, workspaceId)
    case Refused(e) => Refused(e)
    case Granted =>
      match FindTarget(dir, user, workspaceId, targetId)
      case Err(e) => Refused(e)
      case Ok(_) => Granted
  }

  /** `update` */
  function UpdateTargetAs(dir: Directory, user: Caller, workspaceId: string, targetId: string): (r: Result<Call, Denial>)
    ensures r.Ok? ==> r.value == UpdateTarget(targetId)
  {
    Guarded(TargetGuard(dir, user, workspaceId, targetId), UpdateTarget(targetId))
  }

  /** `remove` */
  function RemoveTargetAs(dir: Directory, user: Caller, workspaceId: string, targetId: string): (r: Result<Call, Denial>)
    ensures r.Ok? ==> r.value == DeleteTarget(targetId)
  {
    Guarded(TargetGuard(dir, user, workspaceId, targetId), DeleteTarget(targetId))
  }

  /** `addDonor` */
  function AddDonorAs(dir: Directory, user: Caller, workspaceId: string, sourceId: string): (r: Result<Call, Denial>)
    ensures r.Ok? <==> CheckModify(dir, user, workspaceId).Granted?
  {
    Guarded(CheckModify(dir, user, workspaceId), AddDonor(workspaceId, sourceId))
  }

  /** `removeDonor` */
  function RemoveDonorAs(dir: Directory, user: Caller, workspaceId: string, sourceId: string): (r: Result<Call, Denial>)
    ensures r.Ok? <==> CheckModify(dir, user, workspaceId).Granted?
  {
    Guarded(CheckModify(dir, user, workspaceId), RemoveDonor(workspaceId, sourceId))
  }

  /** `updateDonor` */
  function UpdateDonorAs(dir: Directory, user: Caller, workspaceId: string, sourceId: string): (r: Result<Call, Denial>)
    ensures r.Ok? <==> CheckModify(dir, user, workspaceId).Granted?
  {
    Guarded(CheckModify(dir, user, workspaceId), UpdateDonor(workspaceId, sourceId))
  }

  /** `listDonors` */
  function ListDonorsAs(dir: Directory, user: Caller, workspaceId: string): (r: Result<Call, Denial>)
    ensures r.Ok? <==> CheckView(dir, user, workspaceId).Granted?
  {
    Guarded(CheckView(dir, user, workspaceId), ListDonors(workspaceId))
  }

  // ---------------------------------------------------------------------------
  // SourcesService

  /** `checkAdminAccess` */
  function CheckAdminAccess(user: Caller): (d: Decision)
    ensures d.Granted? <==> GlobalRole(user.role)
    ensures d.Refused? ==> d.denial == ForbiddenError("Only FATHER and ADMIN can manage sources")
  {
    if user.role != Father && user.role != Admin then Refused(ForbiddenError("Only FATHER and ADMIN can manage sources"))
    else Granted
  }

  /** `findOne`: no role check. */
  function FindSource(db: Db, id: string): (r: Result<SourceView, Denial>)
    ensures r.Ok? <==> id in db.sources.rows
    ensures r.Err? ==> r.error == NotFoundError("Source not found")
  {
    match LookUpSource(db, id)
    case None => Err(NotFoundError("Source not found"))
    case Some(v) => Ok(v)
  }

  /** The guard of `update`, `setActive` and `remove`: the role first, then the source must exist. */
  function SourceGuard(db: Db, user: Caller, id: string): Decision {
    match CheckAdminAccess(user)
    case Refused(e) => Refused(e)
    case Granted =>
      match FindSource(db, id)
      case Err(e) => Refused(e)
      case Ok(_) => Granted
  }

  /** `create` */
  function CreateSourceAs(user: Caller): (r: Result<Call, Denial>)
    ensures r.Ok? <==> GlobalRole(user.role)
  {
    Guarded(CheckAdminAccess(user), CreateSource)
  }

  /** `update`: the call has no `isActive` field. */
  function UpdateSourceAs(db: Db, user: Caller, id: string): (r: Result<Call, Denial>)
    ensures r.Ok? ==> r.value == UpdateSource(id)
  {
    Guarded(SourceGuard(db, user, id), UpdateSource(id))
  }

  /** `setActive` */
  function SetSourceActiveAs(db: Db, user: Caller, id: string, isActive: bool): (r: Result<Call, Denial>)
    ensures r.Ok? ==> r.value == SetSourceActive(id, isActive)
  {
    Guarded(SourceGuard(db, user, id), SetSourceActive(id, isActive))
  }

  /** `remove` */
  function RemoveSourceAs(db: Db, user: Caller, id: string): (r: Result<Call, Denial>)
    ensures r.Ok? ==> r.value == DeleteSource(id)
  {
    Guarded(SourceGuard(db, user, id), DeleteSource(id))
  }

  // ---------------------------------------------------------------------------
  // Properties

  /** The first membership found is a membership: an ADMIN member is a member. */
  lemma AdminMemberIsMember(ms: seq<Membership>, userId: string)
    requires IsAdminMember(ms, userId)
    ensures IsMember(ms, userId)
  {
  }

  /** Owner-or-admin access implies view access, and owner access implies both. */
  lemma WorkspaceChecksNested(dir: Directory, workspaceId: string, userId: string)
    ensures CheckOwner(dir, workspaceId, userId).Granted? ==> CheckOwnerOrAdmin(dir, workspaceId, userId).Granted?
    ensures CheckOwnerOrAdmin(dir, workspaceId, userId).Granted? ==> CheckAccess(dir, workspaceId, userId).Granted?
  {
    if CheckOwnerOrAdmin(dir, workspaceId, userId).Granted? && !IsOwner(dir, workspaceId, userId) {
      AdminMemberIsMember(Members(dir, workspaceId), userId);
    }
  }

  /** Modify access implies view access. */
  lemma ModifyImpliesView(dir: Directory, user: Caller, workspaceId: string)
    requires CheckModify(dir, user, workspaceId).Granted?
    ensures CheckView(dir, user, workspaceId).Granted?
  {
    if !IsOwner(dir, workspaceId, user.id) && !GlobalRole(user.role) {
      AdminMemberIsMember(Members(dir, workspaceId), user.id);
    }
  }

  /** The target and donor checks extend the workspace checks with the global-role bypass. */
  lemma BypassExtendsWorkspaceChecks(dir: Directory, user: Caller, workspaceId: string)
    ensures CheckOwnerOrAdmin(dir, workspaceId, user.id).Granted? ==> CheckModify(dir, user, workspaceId).Granted?
    ensures CheckAccess(dir, workspaceId, user.id).Granted? ==> CheckView(dir, user, workspaceId).Granted?
    ensures !GlobalRole(user.role) ==>
      (CheckModify(dir, user, workspaceId).Granted? <==> CheckOwnerOrAdmin(dir, workspaceId, user.id).Granted?)
  {
  }

  /** A global FATHER who is neither owner nor member may edit targets but not the workspace itself. */
  lemma NoBypassInWorkspaces()
    ensures var dir := Directory(map["w" := Workspace("o")], map[], map[]);
      && CheckModify(dir, Caller("f", Father), "w").Granted?
      && UpdateWorkspaceAs(dir, "w", "f") == Err(ForbiddenError("Admin access required"))
  {
  }

  /** Update and remove of a target are allowed exactly with modify access to a target of that workspace. */
  lemma TargetMutationGuard(dir: Directory, user: Caller, workspaceId: string, targetId: string)
    ensures UpdateTargetAs(dir, user, workspaceId, targetId).Ok? <==>
      CheckModify(dir, user, workspaceId).Granted? && targetId in dir.targets && dir.targets[targetId].workspaceId == workspaceId
    ensures RemoveTargetAs(dir, user, workspaceId, targetId).Ok? <==> UpdateTargetAs(dir, user, workspaceId, targetId).Ok?
    ensures CheckModify(dir, user, workspaceId).Refused? ==>
      UpdateTargetAs(dir, user, workspaceId, targetId) == Err(CheckModify(dir, user, workspaceId).denial)
  {
    if CheckModify(dir, user, workspaceId).Granted? {
      ModifyImpliesView(dir, user, workspaceId);
    }
  }

  /** The owner can never be removed from the workspace, whoever asks. */
  lemma OwnerNeverRemoved(dir: Directory, workspaceId: string, userId: string)
    requires workspaceId in dir.workspaces
    ensures RemoveUserAs(dir, workspaceId, userId, dir.workspaces[workspaceId].ownerId).Err?
  {
  }

  /** A missing workspace is NotFound before any membership is looked at, for every workspace operation. */
  lemma MissingWorkspaceFirst(dir: Directory, user: Caller, workspaceId: string, members: map<string, seq<Membership>>)
    requires workspaceId !in dir.workspaces
    ensures CheckAccess(dir, workspaceId, user.id) == CheckOwnerOrAdmin(dir, workspaceId, user.id)
         == CheckModify(dir, user, workspaceId) == CheckView(dir, user, workspaceId) == Refused(WorkspaceNotFound)
    ensures CheckModify(dir.(members := members), user, workspaceId) == CheckModify(dir, user, workspaceId)
    ensures ListDonorsAs(dir, user, workspaceId) == AddDonorAs(dir, user, workspaceId, "") == Err(WorkspaceNotFound)
  {
  }

  /** A caller without a global role and with no membership cannot even list the donors. */
  lemma StrangerCannotView(dir: Directory, user: Caller, workspaceId: string)
    requires workspaceId in dir.workspaces && !IsOwner(dir, workspaceId, user.id)
    requires !GlobalRole(user.role) && !IsMember(Members(dir, workspaceId), user.id)
    ensures ListDonorsAs(dir, user, workspaceId) == Err(ForbiddenError("You do not have access to this workspace"))
  {
  }

  /** The role check comes before the existence check: without a global role a source mutation is always Forbidden. */
  lemma SourceRoleFirst(db: Db, user: Caller, id: string, isActive: bool)
    requires !GlobalRole(user.role)
    ensures var e := Err(ForbiddenError("Only FATHER and ADMIN can manage sources"));
      && UpdateSourceAs(db, user, id) == e && SetSourceActiveAs(db, user, id, isActive) == e
      && RemoveSourceAs(db, user, id) == e && CreateSourceAs(user) == e
  {
  }

  /** With a global role a source mutation goes ahead exactly when the source exists. */
  lemma SourceMutationGuard(db: Db, user: Caller, id: string)
    requires GlobalRole(user.role)
    ensures UpdateSourceAs(db, user, id).Ok? <==> id in db.sources.rows
    ensures id !in db.sources.rows ==> RemoveSourceAs(db, user, id) == Err(NotFoundError("Source not found"))
  {
  }
}
