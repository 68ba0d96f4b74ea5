/** The identity-service gateway (`KeystoneClient`) over an abstract in-memory identity service.

    The service is a `State` value: its domains, projects, users, roles and role assignments in
    listing order, the next fresh id, the session token, a fault oracle and the log of API calls
    issued so far. Every API call is logged and then consults the oracle: while a call kind is in `faults`, the next call of that kind fails
    with a `ServiceFailure` and one occurrence is used up. A `Conflict` is never injected; it
    comes from the store itself, when a name is created twice. */
module Keystone {
  import opened Common
  import opened Utils
  import Config

  type Id = nat

  datatype Domain = Domain(id: Id, name: string, description: string, enabled: bool)
  datatype Project = Project(id: Id, name: string, domainId: Id, description: string, enabled: bool)
  /** `email` is None when the service holds no email attribute for the user. */
  datatype User = User(id: Id, name: string, domainId: Id, email: Option<string>, enabled: bool)
  datatype Role = Role(id: Id, name: string)
  datatype Assignment = Assignment(userId: Id, projectId: Id, roleId: Id)

  /** The identity-service API calls the gateway makes. */
  datatype Call =
    | DomainsList | DomainsCreate
    | ProjectsList | ProjectsCreate | ProjectsDelete | ProjectsUpdate
    | UsersList | UsersGet | UsersCreate | UsersUpdate
    | RolesList | RolesCreate | RolesGrant | RolesRevoke
    | AssignmentsList | SessionToken

  datatype State = State(
    domains: seq<Domain>,
    projects: seq<Project>,
    users: seq<User>,
    roles: seq<Role>,
    assignments: seq<Assignment>,
    nextId: Id,
    token: Option<string>,
    faults: multiset<Call>,
    calls: seq<Call>)

  // ---------------------------------------------------------------------------
  // Sequences
  // ---------------------------------------------------------------------------

  function Filter<T(!new)>(xs: seq<T>, p: T -> bool): (r: seq<T>)
    ensures forall x :: x in r <==> x in xs && p(x)
    ensures |r| <= |xs|
  {
    if xs == [] then []
    else (if p(xs[0]) then [xs[0]] else []) + Filter(xs[1..], p)
  }

  /** The first element satisfying `p`. */
  function First<T(!new)>(xs: seq<T>, p: T -> bool): (r: Option<T>)
    ensures r.None? <==> forall x :: x in xs ==> !p(x)
    ensures r.Some? ==> exists i :: 0 <= i < |xs| && xs[i] == r.value && p(xs[i]) && forall j :: 0 <= j < i ==> !p(xs[j])
  {
    if xs == [] then None
    else if p(xs[0]) then Some(xs[0])
    else
      var r := First(xs[1..], p);
      assert r.Some? ==> exists i :: 0 <= i < |xs| && xs[i] == r.value && p(xs[i]) && forall j :: 0 <= j < i ==> !p(xs[j]) by {
        if r.Some? {
          var i :| 0 <= i < |xs[1..]| && xs[1..][i] == r.value && p(xs[1..][i]) && forall j :: 0 <= j < i ==> !p(xs[1..][j]);
          assert xs[i + 1] == r.value && forall j :: 0 <= j < i + 1 ==> !p(xs[j]);
        }
      }
      r
  }

  /** The head of a filtered listing is the first match. */
  lemma {:induction false} FilterHead<T(!new)>(xs: seq<T>, p: T -> bool)
    ensures Filter(xs, p) == [] <==> First(xs, p).None?
    ensures Filter(xs, p) != [] ==> Filter(xs, p)[0] == First(xs, p).value
  {
    if xs != [] && !p(xs[0]) {
      FilterHead(xs[1..], p);
    }
  }

  /** The listing a lookup returns, as `items[0] if items else None`. */
  function Head<T>(xs: seq<T>): Option<T> {
    if xs == [] then None else Some(xs[0])
  }

  predicate NoDup<T(==)>(xs: seq<T>) {
    forall i, j :: 0 <= i < j < |xs| ==> xs[i] != xs[j]
  }

  // ---------------------------------------------------------------------------
  // Listing filters
  // ---------------------------------------------------------------------------

  function DomainNamed(name: string): Domain -> bool { (d: Domain) => d.name == name }

  /** `domain=None` does not restrict a listing; a domain restricts it to that domain's id. */
  predicate InDomain(domainId: Id, domain: Option<Domain>) {
    domain.None? || domainId == domain.value.id
  }

  function ProjectNamed(name: string, domain: Option<Domain>): Project -> bool {
    (p: Project) => p.name == name && InDomain(p.domainId, domain)
  }

  function UserNamed(name: string, domain: Option<Domain>): User -> bool {
    (u: User) => u.name == name && InDomain(u.domainId, domain)
  }

  function RoleNamed(name: string): Role -> bool { (r: Role) => r.name == name }

  function AssignmentOf(userId: Id, projectId: Id): Assignment -> bool {
    (a: Assignment) => a.userId == userId && a.projectId == projectId
  }

  function AssignmentIn(projectId: Id): Assignment -> bool { (a: Assignment) => a.projectId == projectId }

  function UserWithId(id: Id): User -> bool { (u: User) => u.id == id }

  function UserOf(domainId: Id): User -> bool { (u: User) => u.domainId == domainId }

  function ProjectOther(id: Id): Project -> bool { (p: Project) => p.id != id }

  function AssignmentOutside(projectId: Id): Assignment -> bool { (a: Assignment) => a.projectId != projectId }

  function AssignmentOther(a: Assignment): Assignment -> bool { (b: Assignment) => b != a }

  function SetEnabled(ps: seq<Project>, id: Id, enabled: bool): (r: seq<Project>)
    ensures |r| == |ps|
    ensures forall i :: 0 <= i < |ps| ==> r[i] == if ps[i].id == id then ps[i].(enabled := enabled) else ps[i]
  {
    if ps == [] then []
    else [if ps[0].id == id then ps[0].(enabled := enabled) else ps[0]] + SetEnabled(ps[1..], id, enabled)
  }

  function SetEmail(us: seq<User>, id: Id, email: string): (r: seq<User>)
    ensures |r| == |us|
    ensures forall i :: 0 <= i < |us| ==> r[i] == if us[i].id == id then us[i].(email := Some(email)) else us[i]
  {
    if us == [] then []
    else [if us[0].id == id then us[0].(email := Some(email)) else us[0]] + SetEmail(us[1..], id, email)
  }

  // ---------------------------------------------------------------------------
  // The identity-service API
  // ---------------------------------------------------------------------------

  function CallName(c: Call): string {
    match c
    case DomainsList => "domains.list"
    case DomainsCreate => "domains.create"
    case ProjectsList => "projects.list"
    case ProjectsCreate => "projects.create"
    case ProjectsDelete => "projects.delete"
    case ProjectsUpdate => "projects.update"
    case UsersList => "users.list"
    case UsersGet => "users.get"
    case UsersCreate => "users.create"
    case UsersUpdate => "users.update"
    case RolesList => "roles.list"
    case RolesCreate => "roles.create"
    case RolesGrant => "roles.grant"
    case RolesRevoke => "roles.revoke"
    case AssignmentsList => "role_assignments.list"
    case SessionToken => "session.get_token"
  }

  function Failure(c: Call): Error { ServiceFailure(CallName(c) + " failed") }
  function NotFound(c: Call): Error { ServiceFailure(CallName(c) + ": not found") }
  function Clash(c: Call, name: string): Error { Conflict(CallName(c) + ": " + name + " already exists") }

  /** Call `c` is issued: it joins the log of calls. */
  function Issue(s: State, c: Call): State {
    s.(calls := s.calls + [c])
  }

  /** The oracle's injected failure of call `c` is used up. */
  function Consume(s: State, c: Call): State
    requires c in s.faults
  {
    s.(faults := s.faults - multiset{c})
  }

  function ApiListDomains(s0: State, name: string): (State, Result<seq<Domain>>) {
    var s := Issue(s0, DomainsList);
    if DomainsList in s.faults then (Consume(s, DomainsList), Err(Failure(DomainsList)))
    else (s, Ok(Filter(s.domains, DomainNamed(name))))
  }

  function ApiCreateDomain(s0: State, name: string, description: string): (State, Result<Domain>) {
    var s := Issue(s0, DomainsCreate);
    if DomainsCreate in s.faults then (Consume(s, DomainsCreate), Err(Failure(DomainsCreate)))
    else if First(s.domains, DomainNamed(name)).Some? then (s, Err(Clash(DomainsCreate, name)))
    else
      var d := Domain(s.nextId, name, description, true);
      (s.(domains := s.domains + [d], nextId := s.nextId + 1), Ok(d))
  }

  function ApiListProjects(s0: State, name: string, domain: Option<Domain>): (State, Result<seq<Project>>) {
    var s := Issue(s0, ProjectsList);
    if ProjectsList in s.faults then (Consume(s, ProjectsList), Err(Failure(ProjectsList)))
    else (s, Ok(Filter(s.projects, ProjectNamed(name, domain))))
  }

  /** Creating a project needs a domain; a name already used in that domain is a Conflict. */
  function ApiCreateProject(s0: State, name: string, domain: Option<Domain>, description: string): (State, Result<Project>) {
    var s := Issue(s0, ProjectsCreate);
    if ProjectsCreate in s.faults then (Consume(s, ProjectsCreate), Err(Failure(ProjectsCreate)))
    else if domain.None? then (s, Err(NotFound(ProjectsCreate)))
    else if First(s.projects, ProjectNamed(name, domain)).Some? then (s, Err(Clash(ProjectsCreate, name)))
    else
      var p := Project(s.nextId, name, domain.value.id, description, true);
      (s.(projects := s.projects + [p], nextId := s.nextId + 1), Ok(p))
  }

  /** Deleting a project also drops the role assignments held in it. */
  function ApiDeleteProject(s0: State, p: Project): (State, Result<()>) {
    var s := Issue(s0, ProjectsDelete);
    if ProjectsDelete in s.faults then (Consume(s, ProjectsDelete), Err(Failure(ProjectsDelete)))
    else if forall q :: q in s.projects ==> q.id != p.id then
      (s, Err(NotFound(ProjectsDelete)))
    else
      (s.(projects := Filter(s.projects, ProjectOther(p.id)),
          assignments := Filter(s.assignments, AssignmentOutside(p.id))), Ok(()))
  }

  function ApiUpdateProjectEnabled(s0: State, p: Project, enabled: bool): (State, Result<()>) {
    var s := Issue(s0, ProjectsUpdate);
    if ProjectsUpdate in s.faults then (Consume(s, ProjectsUpdate), Err(Failure(ProjectsUpdate)))
    else if forall q :: q in s.projects ==> q.id != p.id then (s, Err(NotFound(ProjectsUpdate)))
    else (s.(projects := SetEnabled(s.projects, p.id, enabled)), Ok(()))
  }

  function ApiListUsers(s0: State, name: string, domain: Option<Domain>): (State, Result<seq<User>>) {
    var s := Issue(s0, UsersList);
    if UsersList in s.faults then (Consume(s, UsersList), Err(Failure(UsersList)))
    else (s, Ok(Filter(s.users, UserNamed(name, domain))))
  }

  function ApiCreateUser(s0: State, name: string, email: Option<string>, domain: Option<Domain>, enabled: bool): (State, Result<User>) {
    var s := Issue(s0, UsersCreate);
    if UsersCreate in s.faults then (Consume(s, UsersCreate), Err(Failure(UsersCreate)))
    else if domain.None? then (s, Err(NotFound(UsersCreate)))
    else if First(s.users, UserNamed(name, domain)).Some? then (s, Err(Clash(UsersCreate, name)))
    else
      var u := User(s.nextId, name, domain.value.id, email, enabled);
      (s.(users := s.users + [u], nextId := s.nextId + 1), Ok(u))
  }

  function ApiUpdateUserEmail(s0: State, u: User, email: string): (State, Result<()>) {
    var s := Issue(s0, UsersUpdate);
    if UsersUpdate in s.faults then (Consume(s, UsersUpdate), Err(Failure(UsersUpdate)))
    else if forall v :: v in s.users ==> v.id != u.id then (s, Err(NotFound(UsersUpdate)))
    else (s.(users := SetEmail(s.users, u.id, email)), Ok(()))
  }

  function ApiListRoles(s0: State, name: string): (State, Result<seq<Role>>) {
    var s := Issue(s0, RolesList);
    if RolesList in s.faults then (Consume(s, RolesList), Err(Failure(RolesList)))
    else (s, Ok(Filter(s.roles, RoleNamed(name))))
  }

  function ApiCreateRole(s0: State, name: string): (State, Result<Role>) {
    var s := Issue(s0, RolesCreate);
    if RolesCreate in s.faults then (Consume(s, RolesCreate), Err(Failure(RolesCreate)))
    else if First(s.roles, RoleNamed(name)).Some? then (s, Err(Clash(RolesCreate, name)))
    else
      var r := Role(s.nextId, name);
      (s.(roles := s.roles + [r], nextId := s.nextId + 1), Ok(r))
  }

  predicate HasProject(s: State, id: Id) { exists p :: p in s.projects && p.id == id }
  predicate HasUser(s: State, id: Id) { exists u :: u in s.users && u.id == id }
  predicate HasRole(s: State, id: Id) { exists r :: r in s.roles && r.id == id }

  /** Granting an assignment that already exists is a Conflict; a missing (None) or unknown
      role, user or project is refused. */
  function ApiGrant(s0: State, role: Option<Role>, user: Option<User>, project: Option<Project>): (State, Result<()>) {
    var s := Issue(s0, RolesGrant);
    if RolesGrant in s.faults then (Consume(s, RolesGrant), Err(Failure(RolesGrant)))
    else if role.None? || user.None? || project.None? then (s, Err(NotFound(RolesGrant)))
    else if !HasRole(s, role.value.id) || !HasUser(s, user.value.id) || !HasProject(s, project.value.id) then
      (s, Err(NotFound(RolesGrant)))
    else
      var a := Assignment(user.value.id, project.value.id, role.value.id);
      if a in s.assignments then (s, Err(Clash(RolesGrant, role.value.name)))
      else (s.(assignments := s.assignments + [a]), Ok(()))
  }

  function ApiRevoke(s0: State, roleId: Id, userId: Id, projectId: Id): (State, Result<()>) {
    var s := Issue(s0, RolesRevoke);
    if RolesRevoke in s.faults then (Consume(s, RolesRevoke), Err(Failure(RolesRevoke)))
    else
      var a := Assignment(userId, projectId, roleId);
      if a !in s.assignments then (s, Err(NotFound(RolesRevoke)))
      else (s.(assignments := Filter(s.assignments, AssignmentOther(a))), Ok(()))
  }

  function ApiListAssignments(s0: State, user: User, project: Project): (State, Result<seq<Assignment>>) {
    var s := Issue(s0, AssignmentsList);
    if AssignmentsList in s.faults then (Consume(s, AssignmentsList), Err(Failure(AssignmentsList)))
    else (s, Ok(Filter(s.assignments, AssignmentOf(user.id, project.id))))
  }

  /** All assignments held in a project, whoever holds them. */
  function ApiListProjectAssignments(s0: State, project: Project): (State, Result<seq<Assignment>>) {
    var s := Issue(s0, AssignmentsList);
    if AssignmentsList in s.faults then (Consume(s, AssignmentsList), Err(Failure(AssignmentsList)))
    else (s, Ok(Filter(s.assignments, AssignmentIn(project.id))))
  }

  /** A user by id; an unknown id is NotFound. */
  function ApiGetUser(s0: State, id: Id): (State, Result<User>) {
    var s := Issue(s0, UsersGet);
    if UsersGet in s.faults then (Consume(s, UsersGet), Err(Failure(UsersGet)))
    else match First(s.users, UserWithId(id))
      case None => (s, Err(NotFound(UsersGet)))
      case Some(u) => (s, Ok(u))
  }

  /** Every user of a domain. */
  function ApiListDomainUsers(s0: State, domain: Domain): (State, Result<seq<User>>) {
    var s := Issue(s0, UsersList);
    if UsersList in s.faults then (Consume(s, UsersList), Err(Failure(UsersList)))
    else (s, Ok(Filter(s.users, UserOf(domain.id))))
  }

  function ApiGetToken(s0: State): (State, Result<Option<string>>) {
    var s := Issue(s0, SessionToken);
    if SessionToken in s.faults then (Consume(s, SessionToken), Err(Failure(SessionToken)))
    else (s, Ok(s.token))
  }

  // ---------------------------------------------------------------------------
  // Gateway operations, as functions of the service state
  // ---------------------------------------------------------------------------

  /** `retry_on_exception` catches every exception by default. */
  function CatchAll(e: Error): bool { true }

  /** What a decorated call returns or raises once its retries are over. */
  function RunResult<T>(run: Run<State, T, Error>): (State, Result<T>) {
    match run.outcome
    case Done(v) => (run.state, Ok(v))
    case Failed(e) => (run.state, Err(e))
    case Unexpected => (run.state, Err(RuntimeError(UnexpectedRetryMessage)))
  }

  const TokenFailedMessage := "Failed to get token, make sure the session is properly initialized before asking for token: "

  /** One call of `get_token`. */
  function GetTokenOnce(s: State): (State, Attempt<Option<string>, Error>) {
    var (s1, t) := ApiGetToken(s);
    if t.Ok? then (s1, Returned(t.value))
    else (s1, Raised(KeystoneClientError(TokenFailedMessage + t.error.Message())))
  }

  function GetTokenStep(): State -> (State, Attempt<Option<string>, Error>) {
    s => GetTokenOnce(s)
  }

  /** `get_token`, retried. */
  function GetTokenF(s: State): (State, Result<Option<string>>) {
    RunResult(RetryF(DefaultPolicy, CatchAll, GetTokenStep(), s))
  }

  /** `get_domain`: the first domain listed under the name; a listing error gives None. */
  function GetDomainF(s: State, name: string): (State, Option<Domain>) {
    var (s1, r) := ApiListDomains(s, name);
    (s1, if r.Ok? then Head(r.value) else None)
  }

  function DomainDescription(name: string): string { "Domain " + name + " created by ensure_domain" }

  /** `ensure_domain` */
  function EnsureDomainF(s: State, name: string): (State, Result<Option<Domain>>) {
    var (s1, d) := GetDomainF(s, name);
    if d.Some? then (s1, Ok(d))
    else
      var (s2, cr) := ApiCreateDomain(s1, name, DomainDescription(name));
      if cr.Ok? then (s2, Ok(Some(cr.value)))
      else if cr.error.Conflict? then
        var (s3, d2) := GetDomainF(s2, name);
        (s3, Ok(d2))
      else (s2, Err(KeystoneClientError("Failed to create domain: " + cr.error.Message())))
  }

  /** `get_project`: without a domain, the configured domain is looked up first (and when that
      lookup gives None the listing is not restricted to a domain). */
  function GetProjectF(s: State, c: Config.OpenStackConfig, name: string, domain: Option<Domain>): (State, Option<Project>) {
    var (s1, d) := if domain.None? then GetDomainF(s, c.domainName) else (s, domain);
    var (s2, r) := ApiListProjects(s1, name, d);
    (s2, if r.Ok? then Head(r.value) else None)
  }

  /** The dictionary `get_resource` returns for a project. */
  function ResourceInfo(backendId: string, p: Project): map<string, Value> {
    map[
      "backend_id" := Str(backendId),
      "project_id" := Int(p.id),
      "project_name" := Str(p.name),
      "enabled" := Bool(p.enabled),
      "domain_id" := Int(p.domainId),
      "description" := Str(p.description)]
  }

  /** `get_resource` */
  function GetResourceF(s: State, c: Config.OpenStackConfig, backendId: string): (State, Option<map<string, Value>>) {
    var (s1, p) := GetProjectF(s, c, backendId, None);
    (s1, if p.None? then None else Some(ResourceInfo(backendId, p.value)))
  }

  function ProjectDescription(name: string, description: string): string {
    if description == "" then "Project " + name else description
  }

  function CreateProjectFailed(name: string): string {
    "Failed to create project in create_project func " + name + ": "
  }

  /** One call of `create_project`. */
  function CreateProjectOnce(s: State, c: Config.OpenStackConfig, name: string, domain: Option<Domain>, description: string)
    : (State, Attempt<Option<Project>, Error>)
  {
    var (s1, dr) := if domain.None? then EnsureDomainF(s, c.domainName) else (s, Ok(domain));
    if dr.Err? then (s1, Raised(KeystoneClientError(CreateProjectFailed(name) + dr.error.Message())))
    else
      var (s2, cr) := ApiCreateProject(s1, name, dr.value, ProjectDescription(name, description));
      if cr.Ok? then (s2, Returned(Some(cr.value)))
      else if cr.error.Conflict? then
        var (s3, p) := GetProjectF(s2, c, name, dr.value);
        (s3, Returned(p))
      else (s2, Raised(KeystoneClientError(CreateProjectFailed(name) + cr.error.Message())))
  }

  function CreateProjectStep(c: Config.OpenStackConfig, name: string, domain: Option<Domain>, description: string)
    : State -> (State, Attempt<Option<Project>, Error>)
  {
    s => CreateProjectOnce(s, c, name, domain, description)
  }

  /** `create_project`, retried. */
  function CreateProjectF(s: State, c: Config.OpenStackConfig, name: string, domain: Option<Domain>, description: string)
    : (State, Result<Option<Project>>)
  {
    RunResult(RetryF(DefaultPolicy, CatchAll, CreateProjectStep(c, name, domain, description), s))
  }

  /** `delete_project`: every error gives False. */
  function DeleteProjectF(s: State, c: Config.OpenStackConfig, name: string, domain: Option<Domain>): (State, bool) {
    var (s1, p) := GetProjectF(s, c, name, domain);
    if p.None? then (s1, false)
    else
      var (s2, r) := ApiDeleteProject(s1, p.value);
      (s2, r.Ok?)
  }

  /** `enable_project`: an update error propagates. */
  function EnableProjectF(s: State, c: Config.OpenStackConfig, name: string, domain: Option<Domain>): (State, Result<()>) {
    var (s1, p) := GetProjectF(s, c, name, domain);
    if p.None? then (s1, Ok(()))
    else ApiUpdateProjectEnabled(s1, p.value, true)
  }

  /** `disable_project`: the update is issued twice. */
  function DisableProjectF(s: State, c: Config.OpenStackConfig, name: string, domain: Option<Domain>): (State, Result<()>) {
    var (s1, p) := GetProjectF(s, c, name, domain);
    if p.None? then (s1, Ok(()))
    else
      var (s2, r) := ApiUpdateProjectEnabled(s1, p.value, false);
      if r.Err? then (s2, r)
      else ApiUpdateProjectEnabled(s2, p.value, false)
  }

  /** `get_user` */
  function GetUserF(s: State, c: Config.OpenStackConfig, name: string, domain: Option<Domain>): (State, Option<User>) {
    var (s1, d) := if domain.None? then GetDomainF(s, c.domainName) else (s, domain);
    var (s2, r) := ApiListUsers(s1, name, d);
    (s2, if r.Ok? then Head(r.value) else None)
  }

  /** Whether `ensure_user` updates an existing user's email. */
  predicate EmailNeedsSync(c: Config.OpenStackConfig, u: User, email: Option<string>) {
    Truthy(email) && c.syncUserEmails && u.email.Some? && u.email.value != email.value
  }

  function UserNotFoundMessage(username: string): string {
    "User " + username + " not found and auto-creation disabled"
  }

  function CreateUserFailed(username: string): string { "Failed to create user " + username + ": " }

  /** One call of `ensure_user`. */
  function EnsureUserOnce(s: State, c: Config.OpenStackConfig, username: string, email: Option<string>,
                          domain: Option<Domain>, enabled: Option<bool>): (State, Attempt<Option<User>, Error>)
  {
    var (s1, u) := GetUserF(s, c, username, domain);
    if u.Some? then
      if EmailNeedsSync(c, u.value, email) then
        var (s2, _) := ApiUpdateUserEmail(s1, u.value, email.value);
        (s2, Returned(u))
      else (s1, Returned(u))
    else if !c.createUsersIfNotExist then (s1, Raised(KeystoneClientError(UserNotFoundMessage(username))))
    else
      var (s2, dr) := if domain.None? then EnsureDomainF(s1, c.domainName) else (s1, Ok(domain));
      if dr.Err? then (s2, Raised(KeystoneClientError(CreateUserFailed(username) + dr.error.Message())))
      else
        var on := if enabled.None? then c.userEnabledByDefault else enabled.value;
        var (s3, cr) := ApiCreateUser(s2, username, email, dr.value, on);
        if cr.Ok? then (s3, Returned(Some(cr.value)))
        else if cr.error.Conflict? then
          var (s4, u2) := GetUserF(s3, c, username, dr.value);
          (s4, Returned(u2))
        else (s3, Raised(KeystoneClientError(CreateUserFailed(username) + cr.error.Message())))
  }

  function EnsureUserStep(c: Config.OpenStackConfig, username: string, email: Option<string>,
                          domain: Option<Domain>, enabled: Option<bool>): State -> (State, Attempt<Option<User>, Error>)
  {
    s => EnsureUserOnce(s, c, username, email, domain, enabled)
  }

  /** `ensure_user`, retried. */
  function EnsureUserF(s: State, c: Config.OpenStackConfig, username: string, email: Option<string>,
                       domain: Option<Domain>, enabled: Option<bool>): (State, Result<Option<User>>)
  {
    RunResult(RetryF(DefaultPolicy, CatchAll, EnsureUserStep(c, username, email, domain, enabled), s))
  }

  /** `get_role` */
  function GetRoleF(s: State, name: string): (State, Option<Role>) {
    var (s1, r) := ApiListRoles(s, name);
    (s1, if r.Ok? then Head(r.value) else None)
  }

  /** `ensure_role` */
  function EnsureRoleF(s: State, name: string): (State, Result<Option<Role>>) {
    var (s1, r) := GetRoleF(s, name);
    if r.Some? then (s1, Ok(r))
    else
      var (s2, cr) := ApiCreateRole(s1, name);
      if cr.Ok? then (s2, Ok(Some(cr.value)))
      else if cr.error.Conflict? then
        var (s3, r2) := GetRoleF(s2, name);
        (s3, Ok(r2))
      else (s2, Err(KeystoneClientError("Failed to create role: " + cr.error.Message())))
  }

  /** One call of `assign_role`: a Conflict counts as granted, every other error as False. */
  function AssignRoleOnce(s: State, user: Option<User>, project: Option<Project>, roleName: string): (State, Attempt<bool, Error>) {
    var (s1, rr) := EnsureRoleF(s, roleName);
    if rr.Err? then (s1, Returned(false))
    else
      var (s2, g) := ApiGrant(s1, rr.value, user, project);
      (s2, Returned(g.Ok? || g.error.Conflict?))
  }

  function AssignRoleStep(user: Option<User>, project: Option<Project>, roleName: string): State -> (State, Attempt<bool, Error>) {
    s => AssignRoleOnce(s, user, project, roleName)
  }

  /** `assign_role`, decorated with retries. */
  function AssignRoleF(s: State, user: Option<User>, project: Option<Project>, roleName: string): (State, Result<bool>) {
    RunResult(RetryF(DefaultPolicy, CatchAll, AssignRoleStep(user, project, roleName), s))
  }

  /** `revoke_role`: False when the role does not exist or the revoke fails. */
  function RevokeRoleF(s: State, user: User, project: Project, roleName: string): (State, bool) {
    var (s1, r) := GetRoleF(s, roleName);
    if r.None? then (s1, false)
    else
      var (s2, x) := ApiRevoke(s1, r.value.id, user.id, project.id);
      (s2, x.Ok?)
  }

  /** The loop of `revoke_all_project_roles`: every listed assignment is revoked in turn, and
      the result is False when any revoke failed. */
  function RevokeEach(s: State, user: User, project: Project, listed: seq<Assignment>): (State, bool)
    decreases |listed|
  {
    if listed == [] then (s, true)
    else
      var (s1, x) := ApiRevoke(s, listed[0].roleId, user.id, project.id);
      var (s2, ok) := RevokeEach(s1, user, project, listed[1..]);
      (s2, x.Ok? && ok)
  }

  /** `revoke_all_project_roles` */
  function RevokeAllF(s: State, user: User, project: Project): (State, bool) {
    var (s1, l) := ApiListAssignments(s, user, project);
    if l.Err? then (s1, false)
    else if l.value == [] then (s1, true)
    else RevokeEach(s1, user, project, l.value)
  }

  // ---------------------------------------------------------------------------
  // The client
  // ---------------------------------------------------------------------------

  /** `KeystoneClient`: the configuration it was built with and the identity service it talks
      to. Each method issues the API calls the source issues, in the same order. */
  class KeystoneClient {
    const config: Config.OpenStackConfig
    var st: State

    constructor(config: Config.OpenStackConfig, service: State)
      ensures this.config == config && st == service
    {
      this.config := config;
      st := service;
    }

    method GetToken() returns (r: Result<Option<string>>)
      modifies this
      ensures (st, r) == GetTokenF(old(st))
    {
      var run := Retry(DefaultPolicy, CatchAll, GetTokenStep(), st);
      st := run.state;
      r := RunResult(run).1;
    }

    method GetDomain(name: string) returns (d: Option<Domain>)
      modifies this
      ensures (st, d) == GetDomainF(old(st), name)
    {
      var (s1, r) := ApiListDomains(st, name);
      st := s1;
      d := if r.Ok? then Head(r.value) else None;
    }

    method EnsureDomain(name: string) returns (r: Result<Option<Domain>>)
      modifies this
      ensures (st, r) == EnsureDomainF(old(st), name)
    {
      var d := GetDomain(name);
      if d.Some? {
        return Ok(d);
      }
      var (s2, cr) := ApiCreateDomain(st, name, DomainDescription(name));
      st := s2;
      if cr.Ok? {
        r := Ok(Some(cr.value));
      } else if cr.error.Conflict? {
        var d2 := GetDomain(name);
        r := Ok(d2);
      } else {
        r := Err(KeystoneClientError("Failed to create domain: " + cr.error.Message()));
      }
    }

    method GetProject(name: string, domain: Option<Domain>) returns (p: Option<Project>)
      modifies this
      ensures (st, p) == GetProjectF(old(st), config, name, domain)
    {
      var d := domain;
      if d.None? {
        d := GetDomain(config.domainName);
      }
      var (s2, r) := ApiListProjects(st, name, d);
      st := s2;
      p := if r.Ok? then Head(r.value) else None;
    }

    method GetResource(backendId: string) returns (info: Option<map<string, Value>>)
      modifies this
      ensures (st, info) == GetResourceF(old(st), config, backendId)
    {
      var p := GetProject(backendId, None);
      if p.None? {
        return None;
      }
      info := Some(ResourceInfo(backendId, p.value));
    }

    method CreateProject(name: string, domain: Option<Domain>, description: string) returns (r: Result<Option<Project>>)
      modifies this
      ensures (st, r) == CreateProjectF(old(st), config, name, domain, description)
    {
      var run := Retry(DefaultPolicy, CatchAll, CreateProjectStep(config, name, domain, description), st);
      st := run.state;
      r := RunResult(run).1;
    }

    method DeleteProject(name: string, domain: Option<Domain>) returns (deleted: bool)
      modifies this
      ensures (st, deleted) == DeleteProjectF(old(st), config, name, domain)
    {
      var p := GetProject(name, domain);
      if p.None? {
        return false;
      }
      var (s2, r) := ApiDeleteProject(st, p.value);
      st := s2;
      deleted := r.Ok?;
    }

    method EnableProject(name: string, domain: Option<Domain>) returns (r: Result<()>)
      modifies this
      ensures (st, r) == EnableProjectF(old(st), config, name, domain)
    {
      var p := GetProject(name, domain);
      r := Ok(());
      if p.Some? {
        var (s2, u) := ApiUpdateProjectEnabled(st, p.value, true);
        st := s2;
        r := u;
      }
    }

    method DisableProject(name: string, domain: Option<Domain>) returns (r: Result<()>)
      modifies this
      ensures (st, r) == DisableProjectF(old(st), config, name, domain)
    {
      var p := GetProject(name, domain);
      r := Ok(());
      if p.Some? {
        var (s2, u) := ApiUpdateProjectEnabled(st, p.value, false);
        st := s2;
        r := u;
        if r.Ok? {
          var (s3, u2) := ApiUpdateProjectEnabled(st, p.value, false);
          st := s3;
          r := u2;
        }
      }
    }

    method GetUser(name: string, domain: Option<Domain>) returns (u: Option<User>)
      modifies this
      ensures (st, u) == GetUserF(old(st), config, name, domain)
    {
      var d := domain;
      if d.None? {
        d := GetDomain(config.domainName);
      }
      var (s2, r) := ApiListUsers(st, name, d);
      st := s2;
      u := if r.Ok? then Head(r.value) else None;
    }

    method EnsureUser(username: string, email: Option<string>, domain: Option<Domain>, enabled: Option<bool>)
      returns (r: Result<Option<User>>)
      modifies this
      ensures (st, r) == EnsureUserF(old(st), config, username, email, domain, enabled)
    {
      var run := Retry(DefaultPolicy, CatchAll, EnsureUserStep(config, username, email, domain, enabled), st);
      st := run.state;
      r := RunResult(run).1;
    }

    method GetRole(name: string) returns (role: Option<Role>)
      modifies this
      ensures (st, role) == GetRoleF(old(st), name)
    {
      var (s1, r) := ApiListRoles(st, name);
      st := s1;
      role := if r.Ok? then Head(r.value) else None;
    }

    method EnsureRole(name: string) returns (r: Result<Option<Role>>)
      modifies this
      ensures (st, r) == EnsureRoleF(old(st), name)
    {
      var role := GetRole(name);
      if role.Some? {
        return Ok(role);
      }
      var (s2, cr) := ApiCreateRole(st, name);
      st := s2;
      if cr.Ok? {
        r := Ok(Some(cr.value));
      } else if cr.error.Conflict? {
        var r2 := GetRole(name);
        r := Ok(r2);
      } else {
        r := Err(KeystoneClientError("Failed to create role: " + cr.error.Message()));
      }
    }

    method AssignRole(user: Option<User>, project: Option<Project>, roleName: string) returns (r: Result<bool>)
      modifies this
      ensures (st, r) == AssignRoleF(old(st), user, project, roleName)
    {
      var run := Retry(DefaultPolicy, CatchAll, AssignRoleStep(user, project, roleName), st);
      st := run.state;
      r := RunResult(run).1;
    }

    method RevokeRole(user: User, project: Project, roleName: string) returns (revoked: bool)
      modifies this
      ensures (st, revoked) == RevokeRoleF(old(st), user, project, roleName)
    {
      var role := GetRole(roleName);
      if role.None? {
        return false;
      }
      var (s2, x) := ApiRevoke(st, role.value.id, user.id, project.id);
      st := s2;
      revoked := x.Ok?;
    }

    method RevokeAllProjectRoles(user: User, project: Project) returns (success: bool)
      modifies this
      ensures (st, success) == RevokeAllF(old(st), user, project)
    {
      var (s1, l) := ApiListAssignments(st, user, project);
      st := s1;
      if l.Err? {
        return false;
      }
      var assignments := l.value;
      if assignments == [] {
        return true;
      }
      success := true;
      var i := 0;
      while i < |assignments|
        invariant 0 <= i <= |assignments|
        invariant RevokeEach(s1, user, project, assignments) ==
          var (s2, ok) := RevokeEach(st, user, project, assignments[i..]);
          (s2, success && ok)
      {
        assert assignments[i..][1..] == assignments[i + 1..];
        var (s2, x) := ApiRevoke(st, assignments[i].roleId, user.id, project.id);
        st := s2;
        if x.Err? {
          success := false;
        }
        i := i + 1;
      }
    }
  }
}
