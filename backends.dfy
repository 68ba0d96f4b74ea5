/** The waldur-site-agent backend (`OpenStackBackend`): the resource lifecycle and membership
    sync on top of the client adapter, and username management
    (`OpenStackUsernameManagementBackend`). Each operation is a function of the identity-service
    state; the classes' methods are proved to compute it. */
module Backends {
  import opened Common
  import opened Utils
  import opened Keystone
  import opened OpenStack
  import Config

  /** The attributes of a Waldur resource the backend reads; a missing attribute is `None`. */
  datatype WaldurResource = WaldurResource(
    backendId: Option<string>,
    uuid: Option<string>,
    name: Option<string>,
    description: Option<string>)

  /** The resource type every backend id is validated under. */
  const ManagedProject := "waldur_managed_project"

  /** `_extract_backend_id`: the backend id if set, else the uuid, else "". */
  function ExtractBackendId(r: WaldurResource): (id: string)
    ensures id != "" <==> Truthy(r.backendId) || Truthy(r.uuid)
    ensures Truthy(r.backendId) ==> id == r.backendId.value
    ensures id != "" && !Truthy(r.backendId) ==> Some(id) == r.uuid
  {
    if Truthy(r.backendId) then r.backendId.value
    else if Truthy(r.uuid) then r.uuid.value
    else ""
  }

  /** The characters `str.strip()` removes (those for which `str.isspace()` holds). */
  predicate IsSpace(c: char) {
    || c == ' ' || '\t' <= c <= '\r' || '\U{1C}' <= c <= '\U{1F}' || c == '\U{85}' || c == '\U{A0}'
    || c == '\U{1680}' || '\U{2000}' <= c <= '\U{200A}' || c == '\U{2028}' || c == '\U{2029}'
    || c == '\U{202F}' || c == '\U{205F}' || c == '\U{3000}'
  }

  /** `not s or not s.strip()` */
  predicate Blank(s: string) {
    forall i :: 0 <= i < |s| ==> IsSpace(s[i])
  }

  // ---------------------------------------------------------------------------
  // Resource lifecycle
  // ---------------------------------------------------------------------------

  const UuidMissingMessage := "Cannot create resource: waldur_resource.uuid is missing. UUID is required as the stable backend_id for OpenStack project naming."

  const CreateFailed := "Failed to create OpenStack project: "

  /** The description a created project gets: from the resource's name, else its description. */
  function ResourceDescription(r: WaldurResource): (d: string)
    ensures d != ""
    ensures Truthy(r.name) ==> d == "Waldur: " + r.name.value
    ensures !Truthy(r.name) && Truthy(r.description) ==> d == r.description.value
    ensures !Truthy(r.name) && !Truthy(r.description) ==> d == "Waldur managed project"
  {
    if Truthy(r.name) then "Waldur: " + r.name.value
    else if Truthy(r.description) then r.description.value
    else "Waldur managed project"
  }

  /** `_create_resource_in_backend`: the project is named after the sanitised uuid and created
      unless it exists; the uuid is returned as backend id. Every failure is a BackendError. */
  function CreateResourceInBackendF(s: State, c: Config.OpenStackConfig, r: WaldurResource): (res: (State, Result<string>))
    ensures res.1.Ok? ==> Truthy(r.uuid) && res.1.value == r.uuid.value
    ensures res.1.Err? ==> res.1.error.BackendError?
    ensures !Truthy(r.uuid) ==> res == (s, Err(BackendError(UuidMissingMessage)))
    ensures Truthy(r.uuid) && |r.uuid.value| > MaxBackendIdLength ==>
      res == (s, Err(BackendError(CreateFailed + (ManagedProject + " backend_id is too long (max 255 characters)"))))
  {
    if !Truthy(r.uuid) then (s, Err(BackendError(UuidMissingMessage)))
    else
      var id := r.uuid.value;
      var v := ValidateBackendId(id, ManagedProject);
      if v.Err? then (s, Err(BackendError(CreateFailed + v.error.Message())))
      else
        var name := Sanitize(id);
        var (s1, existing) := GetProjectF(s, c, name, None);
        if existing.Some? then (s1, Ok(id))
        else
          var (s2, p) := ClientCreateProjectF(s1, c, name, ResourceDescription(r));
          if p.Err? then (s2, Err(BackendError(CreateFailed + p.error.Message())))
          else (s2, Ok(id))
  }

  const DeleteFailed := "Error deleting project: "

  /** `delete_resource`: a blank backend id is skipped; otherwise the sanitised project is
      deleted. Only an over-long id fails. */
  function DeleteResourceInBackendF(s: State, c: Config.OpenStackConfig, r: WaldurResource): (res: (State, Result<()>))
    ensures Blank(ExtractBackendId(r)) ==> res == (s, Ok(()))
    ensures res.1.Err? <==> !Blank(ExtractBackendId(r)) && |ExtractBackendId(r)| > MaxBackendIdLength
    ensures res.1.Err? ==> res == (s, Err(BackendError(DeleteFailed + (ManagedProject + " backend_id is too long (max 255 characters)"))))
  {
    var id := ExtractBackendId(r);
    if Blank(id) then (s, Ok(()))
    else
      var v := ValidateBackendId(id, ManagedProject);
      if v.Err? then (s, Err(BackendError(DeleteFailed + v.error.Message())))
      else (DeleteResourceF(s, c, Sanitize(id)).0, Ok(()))
  }

  // ---------------------------------------------------------------------------
  // Membership sync
  // ---------------------------------------------------------------------------

  /** What the error handlers of the membership methods raise when validation failed before
      `project_name` was bound. */
  const UnboundProjectName := "cannot access local variable 'project_name' where it is not associated with a value"

  function AddFailed(name: string): string { "Error adding users to project [" + name + "]: " }

  function NotCreatedHere(name: string): string {
    "Project " + name + " not found in OpenStack! Projects should be created via _pre_create_resource(), not here. Skipping user sync."
  }

  /** The error `add_users_to_resource` raises for a project that is not there: the handler
      wraps the BackendError raised in the try block. */
  function MissingProjectError(name: string): Error {
    BackendError(AddFailed(name) + NotCreatedHere(name))
  }

  /** One user's step of `add_users_to_resource`: the adapter's `create_association`. */
  function Associate(c: Config.OpenStackConfig, name: string): (State, string) -> (State, Result<string>) {
    (st: State, u: string) => CreateAssociationF(st, c, u, name)
  }

  /** The loop of `add_users_to_resource`: each user whose step succeeds is added; a failure for
      one user does not stop the others. */
  function AddEach(s: State, step: (State, string) -> (State, Result<string>), users: seq<string>, added: set<string>): (res: (State, set<string>))
    ensures added <= res.1 && res.1 <= added + set u | u in users
    decreases |users|
  {
    if users == [] then (s, added)
    else
      var (s1, r) := step(s, users[0]);
      AddEach(s1, step, users[1..], if r.Ok? then added + {users[0]} else added)
  }

  /** `add_users_to_resource`, with the set of users given in its iteration order. */
  function AddUsersF(s: State, c: Config.OpenStackConfig, backendId: string, users: seq<string>): (res: (State, Result<set<string>>))
    ensures res.1.Ok? ==> res.1.value <= set u | u in users
    ensures Blank(backendId) ==> res == (s, Ok({}))
    ensures !Blank(backendId) && |backendId| > MaxBackendIdLength ==> res == (s, Err(UnboundLocalError(UnboundProjectName)))
  {
    if Blank(backendId) then (s, Ok({}))
    else if ValidateBackendId(backendId, ManagedProject).Err? then (s, Err(UnboundLocalError(UnboundProjectName)))
    else AddToProject(s, c, Sanitize(backendId), users)
  }

  /** The part of `add_users_to_resource` after validation: the project must exist, then each
      user is associated with it. */
  function AddToProject(s: State, c: Config.OpenStackConfig, name: string, users: seq<string>): (res: (State, Result<set<string>>))
    ensures res.1.Ok? ==> res.1.value <= set u | u in users
  {
    var (s1, existing) := ClientGetResourceF(s, c, name);
    if existing.None? then (s1, Err(MissingProjectError(name)))
    else
      var (s2, added) := AddEach(s1, Associate(c, name), users, {});
      (s2, Ok(added))
  }

  /** One user's step of `remove_users_from_resource`: the adapter's `delete_association`. */
  function Dissociate(c: Config.OpenStackConfig, name: string): (State, string) -> (State, Result<string>) {
    (st: State, u: string) => DeleteAssociationF(st, c, u, name)
  }

  /** The loop of `remove_users_from_resource`: each user whose step succeeds is appended, in
      iteration order. */
  function RemoveEach(s: State, step: (State, string) -> (State, Result<string>), users: seq<string>, removed: seq<string>): (res: (State, seq<string>))
    ensures removed <= res.1 && |res.1| <= |removed| + |users|
    ensures forall u :: u in res.1 ==> u in removed || u in users
    decreases |users|
  {
    if users == [] then (s, removed)
    else
      var (s1, r) := step(s, users[0]);
      RemoveEach(s1, step, users[1..], if r.Ok? then removed + [users[0]] else removed)
  }

  /** `remove_users_from_resource`; a missing project removes nobody. */
  function RemoveUsersF(s: State, c: Config.OpenStackConfig, backendId: string, users: seq<string>): (res: (State, Result<seq<string>>))
    ensures res.1.Ok? ==> |res.1.value| <= |users| && forall u :: u in res.1.value ==> u in users
    ensures Blank(backendId) ==> res == (s, Ok([]))
    ensures !Blank(backendId) && |backendId| > MaxBackendIdLength ==> res == (s, Err(UnboundLocalError(UnboundProjectName)))
  {
    if Blank(backendId) then (s, Ok([]))
    else if ValidateBackendId(backendId, ManagedProject).Err? then (s, Err(UnboundLocalError(UnboundProjectName)))
    else
      var name := Sanitize(backendId);
      var (s1, existing) := ClientGetResourceF(s, c, name);
      if existing.None? then (s1, Ok([]))
      else
        var (s2, removed) := RemoveEach(s1, Dissociate(c, name), users, []);
        (s2, Ok(removed))
  }

  // ---------------------------------------------------------------------------
  // Health, state and reporting
  // ---------------------------------------------------------------------------

  /** `diagnostics`: ping, the domain and role lookups (whose outcome is only logged) and the
      configuration check. */
  function DiagnosticsF(s: State, c: Config.OpenStackConfig): (State, bool) {
    var (s1, ping) := PingF(s);
    var (s2, _) := GetDomainF(s1, c.domainName);
    var (s3, _) := GetRoleF(s2, c.defaultRole);
    (s3, ping && Config.Validate(c).Ok?)
  }

  /** The per-resource entry of the usage report: users, total and components, all empty. */
  const EmptyUsage: Value := Dict(map["users" := Dict(map[]), "total" := Dict(map[]), "components" := Dict(map[])])

  /** `list_components`: the component names, in their configured order. */
  function ListComponents(components: seq<(string, Value)>): (names: seq<string>)
    ensures |names| == |components|
    ensures forall i :: 0 <= i < |names| ==> names[i] == components[i].0
    ensures forall k :: k in names <==> exists i :: 0 <= i < |components| && components[i].0 == k
  {
    if components == [] then [] else [components[0].0] + ListComponents(components[1..])
  }

  // ---------------------------------------------------------------------------
  // Username management
  // ---------------------------------------------------------------------------

  /** `email.split("@")[0]`: the text before the first `@`. */
  function LocalPart(email: string): (r: string)
    ensures r <= email && '@' !in r
    ensures |r| < |email| ==> email[|r|] == '@'
  {
    if email == [] || email[0] == '@' then [] else [email[0]] + LocalPart(email[1..])
  }

  function NoEmailMessage(uuid: string): string { "No email address provided for user " + uuid }

  /** `generate_username`: the sanitised local part of the email. */
  function GenerateUsername(email: Option<string>, uuid: string): (r: Result<string>)
    ensures r.Ok? <==> Truthy(email)
    ensures r.Err? ==> r == Err(ValueError(NoEmailMessage(uuid)))
  {
    if !Truthy(email) then Err(ValueError(NoEmailMessage(uuid)))
    else
      var address := email.value;
      var username := Sanitize(LocalPart(address));
      assert username != "" by { SanitizeShape(LocalPart(address)); }
      if username == "" then Err(ValueError("Email " + address + " cannot be converted to valid username"))
      else Ok(username)
  }

  /** The name of the first listed user whose email is `email`. */
  function NameByEmail(users: seq<User>, email: string): (r: Option<string>)
    ensures r.None? <==> forall u :: u in users ==> u.email != Some(email)
    ensures r.Some? ==> exists i :: 0 <= i < |users| && users[i].email == Some(email) && users[i].name == r.value
                                    && forall j :: 0 <= j < i ==> users[j].email != Some(email)
  {
    var u := First(users, UserWithEmail(email));
    if u.Some? then Some(u.value.name) else None
  }

  function UserWithEmail(email: string): User -> bool {
    (u: User) => u.email == Some(email)
  }

  /** `get_username`: looked up among the users of the configured domain. */
  function GetUsernameF(s: State, c: Config.OpenStackConfig, email: Option<string>): (State, Option<string>) {
    if !Truthy(email) then (s, None)
    else
      var (s1, users) := ListUsersF(s, c, Some(c.domainName));
      (s1, NameByEmail(users, email.value))
  }

  // ---------------------------------------------------------------------------
  // The backends
  // ---------------------------------------------------------------------------

  /** `OpenStackBackend`: the client adapter it drives and its configured components. */
  class OpenStackBackend {
    const client: OpenStackClient
    const components: seq<(string, Value)>

    constructor(client: OpenStackClient, components: seq<(string, Value)>)
      ensures this.client == client && this.components == components
    {
      this.client := client;
      this.components := components;
    }

    method Diagnostics() returns (allChecksPassed: bool)
      modifies client.keystone
      ensures (client.keystone.st, allChecksPassed) == DiagnosticsF(old(client.keystone.st), client.keystone.config)
    {
      allChecksPassed := true;
      var reachable := client.Ping();
      if !reachable {
        allChecksPassed := false;
      }
      var _ := client.keystone.GetDomain(client.keystone.config.domainName);
      var _ := client.keystone.GetRole(client.keystone.config.defaultRole);
      if Config.Validate(client.keystone.config).Err? {
        allChecksPassed := false;
      }
    }

    method CreateResourceInBackend(r: WaldurResource) returns (res: Result<string>)
      modifies client.keystone
      ensures (client.keystone.st, res) == CreateResourceInBackendF(old(client.keystone.st), client.keystone.config, r)
    {
      if !Truthy(r.uuid) {
        return Err(BackendError(UuidMissingMessage));
      }
      var id := r.uuid.value;
      var v := ValidateBackendId(id, ManagedProject);
      if v.Err? {
        return Err(BackendError(CreateFailed + v.error.Message()));
      }
      var name := Sanitize(id);
      var existing := client.keystone.GetProject(name, None);
      if existing.Some? {
        return Ok(id);
      }
      var p := client.CreateProject(name, ResourceDescription(r));
      if p.Err? {
        return Err(BackendError(CreateFailed + p.error.Message()));
      }
      res := Ok(id);
    }

    method DeleteResource(r: WaldurResource) returns (res: Result<()>)
      modifies client.keystone
      ensures (client.keystone.st, res) == DeleteResourceInBackendF(old(client.keystone.st), client.keystone.config, r)
    {
      var id := ExtractBackendId(r);
      if Blank(id) {
        return Ok(());
      }
      var v := ValidateBackendId(id, ManagedProject);
      if v.Err? {
        return Err(BackendError(DeleteFailed + v.error.Message()));
      }
      var _ := client.DeleteResource(Sanitize(id));
      res := Ok(());
    }

    method AddUsersToResource(backendId: string, users: seq<string>) returns (res: Result<set<string>>)
      modifies client.keystone
      ensures (client.keystone.st, res) == AddUsersF(old(client.keystone.st), client.keystone.config, backendId, users)
    {
      if Blank(backendId) {
        return Ok({});
      }
      if ValidateBackendId(backendId, ManagedProject).Err? {
        return Err(UnboundLocalError(UnboundProjectName));
      }
      var name := Sanitize(backendId);
      var existing := client.GetResource(name);
      if existing.None? {
        return Err(MissingProjectError(name));
      }
      ghost var s1 := client.keystone.st;
      var added: set<string> := {};
      for i := 0 to |users|
        invariant AddEach(s1, Associate(client.keystone.config, name), users, {}) ==
                  AddEach(client.keystone.st, Associate(client.keystone.config, name), users[i..], added)
      {
        assert users[i..][1..] == users[i + 1..];
        var r := client.CreateAssociation(users[i], name);
        if r.Ok? {
          added := added + {users[i]};
        }
      }
      res := Ok(added);
    }

    method RemoveUsersFromResource(backendId: string, users: seq<string>) returns (res: Result<seq<string>>)
      modifies client.keystone
      ensures (client.keystone.st, res) == RemoveUsersF(old(client.keystone.st), client.keystone.config, backendId, users)
    {
      if Blank(backendId) {
        return Ok([]);
      }
      if ValidateBackendId(backendId, ManagedProject).Err? {
        return Err(UnboundLocalError(UnboundProjectName));
      }
      var name := Sanitize(backendId);
      var existing := client.GetResource(name);
      if existing.None? {
        return Ok([]);
      }
      ghost var s1 := client.keystone.st;
      var removed: seq<string> := [];
      for i := 0 to |users|
        invariant RemoveEach(s1, Dissociate(client.keystone.config, name), users, []) ==
                  RemoveEach(client.keystone.st, Dissociate(client.keystone.config, name), users[i..], removed)
      {
        assert users[i..][1..] == users[i + 1..];
        var r := client.DeleteAssociation(users[i], name);
        if r.Ok? {
          removed := removed + [users[i]];
        }
      }
      res := Ok(removed);
    }

    /** `downscale_resource`: disables the sanitised project. */
    method DownscaleResource(backendId: string) returns (ok: bool)
      modifies client.keystone
      ensures (client.keystone.st, ok) == ClientDisableProjectF(old(client.keystone.st), client.keystone.config, Sanitize(backendId))
    {
      ok := client.DisableProject(Sanitize(backendId));
    }

    /** `pause_resource` is `downscale_resource`. */
    method PauseResource(backendId: string) returns (ok: bool)
      modifies client.keystone
      ensures (client.keystone.st, ok) == ClientDisableProjectF(old(client.keystone.st), client.keystone.config, Sanitize(backendId))
    {
      ok := DownscaleResource(backendId);
    }

    /** `restore_resource`: enables the sanitised project. */
    method RestoreResource(backendId: string) returns (ok: bool)
      modifies client.keystone
      ensures (client.keystone.st, ok) == ClientEnableProjectF(old(client.keystone.st), client.keystone.config, Sanitize(backendId))
    {
      ok := client.EnableProject(Sanitize(backendId));
    }

    /** `get_resource_metadata`: the metadata of the sanitised project. */
    method GetResourceMetadata(backendId: string) returns (metadata: map<string, Value>)
      modifies client.keystone
      ensures (client.keystone.st, metadata) == GetProjectMetadataF(old(client.keystone.st), client.keystone.config, Sanitize(backendId))
    {
      metadata := client.GetProjectMetadata(Sanitize(backendId));
    }

    method ListComponentNames() returns (names: seq<string>)
      ensures names == ListComponents(components)
    {
      names := ListComponents(components);
    }

    /** `_get_usage_report`: an empty entry for every backend id. */
    method GetUsageReport(backendIds: seq<string>) returns (report: map<string, Value>)
      ensures report.Keys == set id | id in backendIds
      ensures forall id :: id in report ==> report[id] == EmptyUsage
    {
      report := map[];
      for i := 0 to |backendIds|
        invariant report.Keys == set id | id in backendIds[..i]
        invariant forall id :: id in report ==> report[id] == EmptyUsage
      {
        assert backendIds[..i + 1] == backendIds[..i] + [backendIds[i]];
        report := report[backendIds[i] := EmptyUsage];
      }
      assert backendIds[..|backendIds|] == backendIds;
    }
  }

  /** `OpenStackUsernameManagementBackend`: the client, when one could be built. */
  class UsernameBackend {
    const client: OpenStackClient?

    constructor(client: OpenStackClient?)
      ensures this.client == client
    {
      this.client := client;
    }

    method GenerateUsernameFor(email: Option<string>, uuid: string) returns (r: Result<string>)
      ensures r == GenerateUsername(email, uuid)
    {
      r := GenerateUsername(email, uuid);
    }

    method GetUsername(email: Option<string>) returns (name: Option<string>)
      modifies if client == null then {} else {client.keystone}
      ensures client == null ==> name.None?
      ensures client != null ==>
        (client.keystone.st, name) == GetUsernameF(old(client.keystone.st), client.keystone.config, email)
    {
      if client == null || !Truthy(email) {
        return None;
      }
      var users := client.ListUsers(Some(client.keystone.config.domainName));
      name := None;
      var i := 0;
      while i < |users|
        invariant 0 <= i <= |users|
        invariant NameByEmail(users, email.value) == NameByEmail(users[i..], email.value)
      {
        if users[i].email == Some(email.value) {
          return Some(users[i].name);
        }
        assert users[i..][1..] == users[i + 1..];
        i := i + 1;
      }
    }
  }
}
