/** The client adapter (`OpenStackClient`): waldur-site-agent's resources are projects and its
    associations are role assignments, on top of the gateway. Each operation is a function of
    the identity-service state, and the class's methods are proved to compute it. */
module OpenStack {
  import opened Common
  import opened Utils
  import opened Keystone
  import Config

  /** `ClientResource` as the adapter fills it. */
  datatype ClientResource = ClientResource(name: string, description: string, organization: string)

  /** `Association`: project name, user name and the number of roles the user holds there. */
  datatype Association = Association(account: string, user: string, value: nat)

  /** What `str(e)` gives for the AttributeError raised when a None project's id is read. */
  const NoneHasNoId := "'NoneType' object has no attribute 'id'"

  // ---------------------------------------------------------------------------
  // Health and resources
  // ---------------------------------------------------------------------------

  /** `ping`: True when a truthy token is obtained; an error gives False. */
  function PingF(s: State): (State, bool) {
    var (s1, t) := GetTokenF(s);
    (s1, t.Ok? && Truthy(t.value))
  }

  /** `get_resource`: the project found under the name, with the configured domain's name as
      organisation ("" when that domain is not found). */
  function ClientGetResourceF(s: State, c: Config.OpenStackConfig, resourceId: string): (State, Option<ClientResource>) {
    var (s1, p) := GetProjectF(s, c, resourceId, None);
    if p.None? then (s1, None)
    else
      var (s2, d) := GetDomainF(s1, c.domainName);
      (s2, Some(ClientResource(p.value.name, p.value.description, if d.Some? then d.value.name else "")))
  }

  function CreateResourceFailed(name: string): string { "Failed to create resource '" + name + "': " }

  /** `create_resource`: an existing project is kept; otherwise one is created. Either way the
      name is returned. A gateway that yields no project fails when its id is logged. */
  function CreateResourceF(s: State, c: Config.OpenStackConfig, name: string, description: string): (State, Result<string>) {
    var (s1, existing) := GetProjectF(s, c, name, None);
    if existing.Some? then (s1, Ok(name))
    else
      var (s2, r) := CreateProjectF(s1, c, name, None, description);
      if r.Err? then (s2, Err(KeystoneClientError(CreateResourceFailed(name) + r.error.Message())))
      else if r.value.None? then (s2, Err(KeystoneClientError(CreateResourceFailed(name) + NoneHasNoId)))
      else (s2, Ok(name))
  }

  function DeletedMessage(name: string): string { "Successfully deleted project '" + name + "'" }
  function ProjectNotFoundMessage(name: string): string { "Project '" + name + "' not found" }

  /** `delete_resource`. The gateway's `delete_project` reports every failure as False, so the
      error-wrapping branch of the source is never reached and a message is always returned. */
  function DeleteResourceF(s: State, c: Config.OpenStackConfig, name: string): (State, string) {
    var (s1, deleted) := DeleteProjectF(s, c, name, None);
    (s1, if deleted then DeletedMessage(name) else ProjectNotFoundMessage(name))
  }

  function CreateProjectFailedMessage(name: string): string { "Failed to create project '" + name + "': " }

  /** `create_project`: the created (or already existing) project; every failure, including a
      gateway that yields no project, becomes KeystoneClientError. */
  function ClientCreateProjectF(s: State, c: Config.OpenStackConfig, name: string, description: string): (State, Result<Project>) {
    var (s1, r) := CreateProjectF(s, c, name, None, description);
    if r.Err? then (s1, Err(KeystoneClientError(CreateProjectFailedMessage(name) + r.error.Message())))
    else if r.value.None? then (s1, Err(KeystoneClientError(CreateProjectFailedMessage(name) + NoneHasNoId)))
    else (s1, Ok(r.value.value))
  }

  /** `enable_project`: True unless the gateway raises. */
  function ClientEnableProjectF(s: State, c: Config.OpenStackConfig, name: string): (State, bool) {
    var (s1, r) := EnableProjectF(s, c, name, None);
    (s1, r.Ok?)
  }

  /** `disable_project`: True unless the gateway raises. */
  function ClientDisableProjectF(s: State, c: Config.OpenStackConfig, name: string): (State, bool) {
    var (s1, r) := DisableProjectF(s, c, name, None);
    (s1, r.Ok?)
  }

  const MetadataKeys: set<string> := {"project_id", "project_name", "domain", "enabled", "description"}

  function ProjectMetadata(p: Project): map<string, Value> {
    map[
      "project_id" := Int(p.id),
      "project_name" := Str(p.name),
      "domain" := Int(p.domainId),
      "enabled" := Bool(p.enabled),
      "description" := Str(p.description)]
  }

  /** `get_project_metadata`: `{}` when the project is not found. */
  function GetProjectMetadataF(s: State, c: Config.OpenStackConfig, name: string): (State, map<string, Value>) {
    var (s1, p) := GetProjectF(s, c, name, None);
    (s1, if p.None? then map[] else ProjectMetadata(p.value))
  }

  // ---------------------------------------------------------------------------
  // Associations
  // ---------------------------------------------------------------------------

  /** `get_association`: an association exists when the user holds at least one role in the
      project; its value is the number of roles. */
  function GetAssociationF(s: State, c: Config.OpenStackConfig, username: string, resourceId: string): (State, Option<Association>) {
    var (s1, p) := GetProjectF(s, c, resourceId, None);
    if p.None? then (s1, None)
    else
      var (s2, u) := GetUserF(s1, c, username, None);
      if u.None? then (s2, None)
      else
        var (s3, l) := ApiListAssignments(s2, u.value, p.value);
        if l.Err? || l.value == [] then (s3, None)
        else (s3, Some(Association(resourceId, username, |l.value|)))
  }

  function CreateAssociationFailed(username: string, resourceId: string): string {
    "Failed to create association for user '" + username + "' in project '" + resourceId + "': "
  }

  function AssignFailedMessage(username: string, resourceId: string): string {
    "Failed to assign role to user '" + username + "' in project '" + resourceId + "'"
  }

  function AssignedMessage(role: string, username: string, resourceId: string): string {
    "Successfully assigned role '" + role + "' to user '" + username + "' in project '" + resourceId + "'"
  }

  /** `create_association`: a missing project is created, the user is ensured and the default
      role granted; any failure, including a False grant, is raised wrapped. */
  function CreateAssociationF(s: State, c: Config.OpenStackConfig, username: string, resourceId: string): (State, Result<string>) {
    var (s1, found) := GetProjectF(s, c, resourceId, None);
    var (s2, pr) := if found.Some? then (s1, Ok(found)) else CreateProjectF(s1, c, resourceId, None, "");
    if pr.Err? then (s2, Err(KeystoneClientError(CreateAssociationFailed(username, resourceId) + pr.error.Message())))
    else
      var (s3, ur) := EnsureUserF(s2, c, username, None, None, None);
      if ur.Err? then (s3, Err(KeystoneClientError(CreateAssociationFailed(username, resourceId) + ur.error.Message())))
      else
        var (s4, granted) := AssignRoleF(s3, ur.value, pr.value, c.defaultRole);
        if granted.Err? then (s4, Err(KeystoneClientError(CreateAssociationFailed(username, resourceId) + granted.error.Message())))
        else if !granted.value then
          (s4, Err(KeystoneClientError(CreateAssociationFailed(username, resourceId) + AssignFailedMessage(username, resourceId))))
        else (s4, Ok(AssignedMessage(c.defaultRole, username, resourceId)))
  }

  function UserNotFound(username: string): string { "User '" + username + "' not found" }

  function RevokedMessage(username: string, resourceId: string): string {
    "Successfully revoked all roles from user '" + username + "' in project '" + resourceId + "'"
  }

  function DeleteAssociationFailed(username: string, resourceId: string): string {
    "Failed to delete association for user '" + username + "' from project '" + resourceId + "': "
      + "Failed to revoke roles from user '" + username + "' in project '" + resourceId + "'"
  }

  /** `delete_association`: a missing project or user is reported by message; a failed
      revocation is raised. */
  function DeleteAssociationF(s: State, c: Config.OpenStackConfig, username: string, resourceId: string): (State, Result<string>) {
    var (s1, p) := GetProjectF(s, c, resourceId, None);
    if p.None? then (s1, Ok(ProjectNotFoundMessage(resourceId)))
    else
      var (s2, u) := GetUserF(s1, c, username, None);
      if u.None? then (s2, Ok(UserNotFound(username)))
      else
        var (s3, ok) := RevokeAllF(s2, u.value, p.value);
        if ok then (s3, Ok(RevokedMessage(username, resourceId)))
        else (s3, Err(KeystoneClientError(DeleteAssociationFailed(username, resourceId))))
  }

  // ---------------------------------------------------------------------------
  // Users
  // ---------------------------------------------------------------------------

  /** The loop of `list_resource_users`: each listed holder is looked up by id and its name added
      once; a holder that cannot be resolved is skipped. */
  function ResolveNames(s: State, listed: seq<Assignment>, names: seq<string>): (State, seq<string>)
    decreases |listed|
  {
    if listed == [] then (s, names)
    else
      var (s1, u) := ApiGetUser(s, listed[0].userId);
      ResolveNames(s1, listed[1..], if u.Ok? && u.value.name !in names then names + [u.value.name] else names)
  }

  /** `list_resource_users` */
  function ListResourceUsersF(s: State, c: Config.OpenStackConfig, resourceId: string): (State, seq<string>) {
    var (s1, p) := GetProjectF(s, c, resourceId, None);
    if p.None? then (s1, [])
    else
      var (s2, l) := ApiListProjectAssignments(s1, p.value);
      if l.Err? then (s2, []) else ResolveNames(s2, l.value, [])
  }

  /** `list_users`: every user of the named domain (the configured one when no name is given). */
  function ListUsersF(s: State, c: Config.OpenStackConfig, domainName: Option<string>): (State, seq<User>) {
    var name := if Truthy(domainName) then domainName.value else c.domainName;
    var (s1, d) := GetDomainF(s, name);
    if d.None? then (s1, [])
    else
      var (s2, r) := ApiListDomainUsers(s1, d.value);
      (s2, if r.Ok? then r.value else [])
  }

  // ---------------------------------------------------------------------------
  // The client
  // ---------------------------------------------------------------------------

  /** `OpenStackClient`: the gateway it wraps. */
  class OpenStackClient {
    const keystone: KeystoneClient

    constructor(keystone: KeystoneClient)
      ensures this.keystone == keystone
    {
      this.keystone := keystone;
    }

    method Ping() returns (ok: bool)
      modifies keystone
      ensures (keystone.st, ok) == PingF(old(keystone.st))
    {
      var t := keystone.GetToken();
      ok := t.Ok? && Truthy(t.value);
    }

    method GetResource(resourceId: string) returns (r: Option<ClientResource>)
      modifies keystone
      ensures (keystone.st, r) == ClientGetResourceF(old(keystone.st), keystone.config, resourceId)
    {
      var p := keystone.GetProject(resourceId, None);
      if p.None? {
        return None;
      }
      var d := keystone.GetDomain(keystone.config.domainName);
      r := Some(ClientResource(p.value.name, p.value.description, if d.Some? then d.value.name else ""));
    }

    method CreateResource(name: string, description: string) returns (r: Result<string>)
      modifies keystone
      ensures (keystone.st, r) == CreateResourceF(old(keystone.st), keystone.config, name, description)
    {
      var existing := keystone.GetProject(name, None);
      if existing.Some? {
        return Ok(name);
      }
      var created := keystone.CreateProject(name, None, description);
      if created.Err? {
        r := Err(KeystoneClientError(CreateResourceFailed(name) + created.error.Message()));
      } else if created.value.None? {
        r := Err(KeystoneClientError(CreateResourceFailed(name) + NoneHasNoId));
      } else {
        r := Ok(name);
      }
    }

    method DeleteResource(name: string) returns (message: string)
      modifies keystone
      ensures (keystone.st, message) == DeleteResourceF(old(keystone.st), keystone.config, name)
    {
      var deleted := keystone.DeleteProject(name, None);
      message := if deleted then DeletedMessage(name) else ProjectNotFoundMessage(name);
    }

    method CreateProject(name: string, description: string) returns (r: Result<Project>)
      modifies keystone
      ensures (keystone.st, r) == ClientCreateProjectF(old(keystone.st), keystone.config, name, description)
    {
      var created := keystone.CreateProject(name, None, description);
      if created.Err? {
        r := Err(KeystoneClientError(CreateProjectFailedMessage(name) + created.error.Message()));
      } else if created.value.None? {
        r := Err(KeystoneClientError(CreateProjectFailedMessage(name) + NoneHasNoId));
      } else {
        r := Ok(created.value.value);
      }
    }

    method EnableProject(name: string) returns (ok: bool)
      modifies keystone
      ensures (keystone.st, ok) == ClientEnableProjectF(old(keystone.st), keystone.config, name)
    {
      var r := keystone.EnableProject(name, None);
      ok := r.Ok?;
    }

    method DisableProject(name: string) returns (ok: bool)
      modifies keystone
      ensures (keystone.st, ok) == ClientDisableProjectF(old(keystone.st), keystone.config, name)
    {
      var r := keystone.DisableProject(name, None);
      ok := r.Ok?;
    }

    method GetProjectMetadata(name: string) returns (metadata: map<string, Value>)
      modifies keystone
      ensures (keystone.st, metadata) == GetProjectMetadataF(old(keystone.st), keystone.config, name)
    {
      var p := keystone.GetProject(name, None);
      metadata := if p.None? then map[] else ProjectMetadata(p.value);
    }

    method GetAssociation(username: string, resourceId: string) returns (a: Option<Association>)
      modifies keystone
      ensures (keystone.st, a) == GetAssociationF(old(keystone.st), keystone.config, username, resourceId)
    {
      var p := keystone.GetProject(resourceId, None);
      if p.None? {
        return None;
      }
      var u := keystone.GetUser(username, None);
      if u.None? {
        return None;
      }
      var (s3, l) := ApiListAssignments(keystone.st, u.value, p.value);
      keystone.st := s3;
      if l.Err? || l.value == [] {
        return None;
      }
      a := Some(Association(resourceId, username, |l.value|));
    }

    method CreateAssociation(username: string, resourceId: string) returns (r: Result<string>)
      modifies keystone
      ensures (keystone.st, r) == CreateAssociationF(old(keystone.st), keystone.config, username, resourceId)
    {
      var project := keystone.GetProject(resourceId, None);
      if project.None? {
        var created := keystone.CreateProject(resourceId, None, "");
        if created.Err? {
          return Err(KeystoneClientError(CreateAssociationFailed(username, resourceId) + created.error.Message()));
        }
        project := created.value;
      }
      var user := keystone.EnsureUser(username, None, None, None);
      if user.Err? {
        return Err(KeystoneClientError(CreateAssociationFailed(username, resourceId) + user.error.Message()));
      }
      var granted := keystone.AssignRole(user.value, project, keystone.config.defaultRole);
      if granted.Err? {
        r := Err(KeystoneClientError(CreateAssociationFailed(username, resourceId) + granted.error.Message()));
      } else if !granted.value {
        r := Err(KeystoneClientError(CreateAssociationFailed(username, resourceId) + AssignFailedMessage(username, resourceId)));
      } else {
        r := Ok(AssignedMessage(keystone.config.defaultRole, username, resourceId));
      }
    }

    method DeleteAssociation(username: string, resourceId: string) returns (r: Result<string>)
      modifies keystone
      ensures (keystone.st, r) == DeleteAssociationF(old(keystone.st), keystone.config, username, resourceId)
    {
      var project := keystone.GetProject(resourceId, None);
      if project.None? {
        return Ok(ProjectNotFoundMessage(resourceId));
      }
      var user := keystone.GetUser(username, None);
      if user.None? {
        return Ok(UserNotFound(username));
      }
      var ok := keystone.RevokeAllProjectRoles(user.value, project.value);
      if ok {
        r := Ok(RevokedMessage(username, resourceId));
      } else {
        r := Err(KeystoneClientError(DeleteAssociationFailed(username, resourceId)));
      }
    }

    method ListResourceUsers(resourceId: string) returns (names: seq<string>)
      modifies keystone
      ensures (keystone.st, names) == ListResourceUsersF(old(keystone.st), keystone.config, resourceId)
    {
      var project := keystone.GetProject(resourceId, None);
      if project.None? {
        return [];
      }
      var (s2, l) := ApiListProjectAssignments(keystone.st, project.value);
      keystone.st := s2;
      if l.Err? {
        return [];
      }
      var assignments := l.value;
      names := [];
      for i := 0 to |assignments|
        invariant ResolveNames(s2, assignments, []) == ResolveNames(keystone.st, assignments[i..], names)
      {
        assert assignments[i..][1..] == assignments[i + 1..];
        var (s3, u) := ApiGetUser(keystone.st, assignments[i].userId);
        keystone.st := s3;
        if u.Ok? && u.value.name !in names {
          names := names + [u.value.name];
        }
      }
    }

    method ListUsers(domainName: Option<string>) returns (users: seq<User>)
      modifies keystone
      ensures (keystone.st, users) == ListUsersF(old(keystone.st), keystone.config, domainName)
    {
      var name := if Truthy(domainName) then domainName.value else keystone.config.domainName;
      var d := keystone.GetDomain(name);
      if d.None? {
        return [];
      }
      var (s2, r) := ApiListDomainUsers(keystone.st, d.value);
      keystone.st := s2;
      users := if r.Ok? then r.value else [];
    }
  }
}
