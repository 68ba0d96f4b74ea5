/** What the backend's lifecycle, membership, diagnostics and username operations do. */
module BackendsProps {
  import opened Common
  import opened Utils
  import opened Keystone
  import opened KeystoneProps
  import opened OpenStack
  import opened OpenStackProps
  import opened Backends
  import Config

  // ---------------------------------------------------------------------------
  // Resource lifecycle
  // ---------------------------------------------------------------------------

  lemma CreateInBackendSameState(s: State, c: Config.OpenStackConfig, r: WaldurResource)
    requires Truthy(r.uuid) && |r.uuid.value| <= MaxBackendIdLength
    ensures CreateResourceInBackendF(s, c, r).0 == CreateResourceF(s, c, Sanitize(r.uuid.value), ResourceDescription(r)).0
  {
    var name := Sanitize(r.uuid.value);
    var (s1, existing) := GetProjectF(s, c, name, None);
    if existing.Some? {
      CreateInBackendExisting(s, c, r);
    } else {
      var (s2, pr) := CreateProjectF(s1, c, name, None, ResourceDescription(r));
      CreateInBackendFresh(s, c, r, s1, s2, pr);
    }
  }

  lemma CreateInBackendExisting(s: State, c: Config.OpenStackConfig, r: WaldurResource)
    requires Truthy(r.uuid) && |r.uuid.value| <= MaxBackendIdLength
    requires GetProjectF(s, c, Sanitize(r.uuid.value), None).1.Some?
    ensures var s1 := GetProjectF(s, c, Sanitize(r.uuid.value), None).0;
      && CreateResourceInBackendF(s, c, r).0 == s1
      && CreateResourceF(s, c, Sanitize(r.uuid.value), ResourceDescription(r)).0 == s1
  {
    assert ValidateBackendId(r.uuid.value, ManagedProject).Ok?;
  }

  lemma CreateInBackendFresh(s: State, c: Config.OpenStackConfig, r: WaldurResource,
                             s1: State, s2: State, pr: Result<Option<Project>>)
    requires Truthy(r.uuid) && |r.uuid.value| <= MaxBackendIdLength
    requires GetProjectF(s, c, Sanitize(r.uuid.value), None) == (s1, None)
    requires CreateProjectF(s1, c, Sanitize(r.uuid.value), None, ResourceDescription(r)) == (s2, pr)
    ensures CreateResourceInBackendF(s, c, r).0 == s2
    ensures CreateResourceF(s, c, Sanitize(r.uuid.value), ResourceDescription(r)).0 == s2
  {
    var name := Sanitize(r.uuid.value);
    UuidValidates(r);
    ClientCreateProjectState(s1, c, name, ResourceDescription(r), s2, pr);
    CreateResourceFresh(s, c, name, ResourceDescription(r), s1, s2, pr);
  }

  /** A uuid within the length bound passes validation. */
  lemma UuidValidates(r: WaldurResource)
    requires Truthy(r.uuid) && |r.uuid.value| <= MaxBackendIdLength
    ensures ValidateBackendId(r.uuid.value, ManagedProject).Ok?
  {
  }

  /** The adapter's `create_project` leaves the service as the gateway's create does. */
  lemma ClientCreateProjectState(s: State, c: Config.OpenStackConfig, name: string, description: string,
                                 s2: State, pr: Result<Option<Project>>)
    requires CreateProjectF(s, c, name, None, description) == (s2, pr)
    ensures ClientCreateProjectF(s, c, name, description).0 == s2
  {
  }

  /** The adapter's create of a project that is not found ends in the gateway's create. */
  lemma CreateResourceFresh(s: State, c: Config.OpenStackConfig, name: string, description: string,
                            s1: State, s2: State, pr: Result<Option<Project>>)
    requires GetProjectF(s, c, name, None) == (s1, None)
    requires CreateProjectF(s1, c, name, None, description) == (s2, pr)
    ensures CreateResourceF(s, c, name, description).0 == s2
  {
  }

  lemma CreateInBackendSameOutcome(s: State, c: Config.OpenStackConfig, r: WaldurResource)
    requires Truthy(r.uuid) && |r.uuid.value| <= MaxBackendIdLength
    ensures CreateResourceInBackendF(s, c, r).1.Ok? <==> CreateResourceF(s, c, Sanitize(r.uuid.value), ResourceDescription(r)).1.Ok?
  {
    var name := Sanitize(r.uuid.value);
    var (s1, existing) := GetProjectF(s, c, name, None);
    if existing.None? {
      var p := CreateProjectF(s1, c, name, None, ResourceDescription(r)).1;
      assert CreateResourceInBackendF(s, c, r).1.Ok? <==> ClientCreateProjectF(s1, c, name, ResourceDescription(r)).1.Ok?;
      assert ClientCreateProjectF(s1, c, name, ResourceDescription(r)).1.Ok? <==> p.Ok? && p.value.Some?;
    }
  }

  /** With a usable uuid, creating in the backend does to the service what the adapter's
      `create_resource` does for the sanitised name, and succeeds exactly when that does. */
  lemma CreateInBackendAsCreateResource(s: State, c: Config.OpenStackConfig, r: WaldurResource)
    requires Truthy(r.uuid) && |r.uuid.value| <= MaxBackendIdLength
    ensures var (s1, res) := CreateResourceInBackendF(s, c, r);
      var (s2, res2) := CreateResourceF(s, c, Sanitize(r.uuid.value), ResourceDescription(r));
      s1 == s2 && (res.Ok? <==> res2.Ok?)
  {
    CreateInBackendSameState(s, c, r);
    CreateInBackendSameOutcome(s, c, r);
  }

  /** A resource whose project does not exist yet gets one project, named after the sanitised
      uuid and described from the resource's name or description. */
  lemma CreateInBackendDescribes(s: State, c: Config.OpenStackConfig, r: WaldurResource)
    requires NoFaults(s) && Truthy(r.uuid) && |r.uuid.value| <= MaxBackendIdLength
    requires GetProjectF(s, c, Sanitize(r.uuid.value), None).1.None?
    ensures var (s1, res) := CreateResourceInBackendF(s, c, r);
      && res == Ok(r.uuid.value)
      && |s1.projects| == |s.projects| + 1
      && s1.projects[..|s.projects|] == s.projects
      && s1.projects[|s.projects|].name == Sanitize(r.uuid.value)
      && s1.projects[|s.projects|].description == ResourceDescription(r)
  {
    CreateInBackendAsCreateResource(s, c, r);
    CreateResourceCreates(s, c, Sanitize(r.uuid.value), ResourceDescription(r));
  }

  /** Creating the same resource twice returns its uuid both times; the project is found under
      the sanitised uuid after the first call, and the second call creates nothing. For a
      canonical uuid the project's name is the uuid itself. */
  lemma CreateInBackendIdempotent(s: State, c: Config.OpenStackConfig, r: WaldurResource)
    requires NoFaults(s) && Truthy(r.uuid) && |r.uuid.value| <= MaxBackendIdLength
    ensures var (s1, r1) := CreateResourceInBackendF(s, c, r);
      var (s2, r2) := CreateResourceInBackendF(s1, c, r);
      && r1 == Ok(r.uuid.value) && r2 == Ok(r.uuid.value)
      && s2.projects == s1.projects
      && |s.projects| <= |s1.projects| <= |s.projects| + 1
      && GetProjectF(s1, c, Sanitize(r.uuid.value), None).1.Some?
      && (IsCanonicalUuid(r.uuid.value) ==> GetProjectF(s1, c, r.uuid.value, None).1.Some?)
  {
    var name := Sanitize(r.uuid.value);
    CreateInBackendAsCreateResource(s, c, r);
    CreateResourceIdempotent(s, c, name, ResourceDescription(r));
    var s1 := CreateResourceF(s, c, name, ResourceDescription(r)).0;
    CreateInBackendAsCreateResource(s1, c, r);
    if IsCanonicalUuid(r.uuid.value) {
      SanitizeKeepsUuid(r.uuid.value);
    }
  }

  /** Deleting a resource with a usable backend id removes the project found under the sanitised
      id in the configured domain together with the role assignments held in it; when none is
      found it changes neither. */
  lemma DeleteInBackendRemoves(s: State, c: Config.OpenStackConfig, r: WaldurResource, d: Domain)
    requires NoFaults(s) && Configured(s, c, d)
    requires !Blank(ExtractBackendId(r)) && |ExtractBackendId(r)| <= MaxBackendIdLength
    ensures var found := First(s.projects, ProjectNamed(Sanitize(ExtractBackendId(r)), Some(d)));
      var (s1, res) := DeleteResourceInBackendF(s, c, r);
      && res == Ok(())
      && (found.None? ==> s1.projects == s.projects && s1.assignments == s.assignments)
      && (found.Some? ==> (forall q :: q in s1.projects <==> q in s.projects && q.id != found.value.id)
                          && (forall a :: a in s1.assignments <==> a in s.assignments && a.projectId != found.value.id))
  {
    DeleteResourceMessages(s, c, Sanitize(ExtractBackendId(r)), d);
  }

  // ---------------------------------------------------------------------------
  // Membership sync
  // ---------------------------------------------------------------------------

  /** A user is in the added set exactly when its step succeeded at its turn, in the state the
      earlier users left behind. */
  lemma {:induction false} AddEachMember(s: State, step: (State, string) -> (State, Result<string>), users: seq<string>,
                                         added: set<string>, u: string)
    ensures u in AddEach(s, step, users, added).1 <==>
      (u in added || exists i :: 0 <= i < |users| && users[i] == u && step(AddEach(s, step, users[..i], added).0, u).1.Ok?)
    decreases |users|
  {
    if users != [] {
      var (s1, r) := step(s, users[0]);
      var added1 := if r.Ok? then added + {users[0]} else added;
      var rest := users[1..];
      assert AddEach(s, step, users, added) == AddEach(s1, step, rest, added1);
      AddEachMember(s1, step, rest, added1, u);
      forall i | 0 <= i < |rest|
        ensures AddEach(s1, step, rest[..i], added1) == AddEach(s, step, users[..i + 1], added)
      {
        assert users[..i + 1][1..] == rest[..i];
      }
      assert AddEach(s, step, users[..0], added).0 == s;
      if u in AddEach(s, step, users, added).1 && u !in added {
        if u in added1 {
          assert users[0] == u && r.Ok?;
        } else {
          var j :| 0 <= j < |rest| && rest[j] == u && step(AddEach(s1, step, rest[..j], added1).0, u).1.Ok?;
          assert users[j + 1] == u;
        }
      }
      if exists i :: 0 <= i < |users| && users[i] == u && step(AddEach(s, step, users[..i], added).0, u).1.Ok? {
        var i :| 0 <= i < |users| && users[i] == u && step(AddEach(s, step, users[..i], added).0, u).1.Ok?;
        if i > 0 {
          assert rest[i - 1] == u;
          assert AddEach(s1, step, rest[..i - 1], added1) == AddEach(s, step, users[..i], added);
        }
      }
    }
  }

  /** `get_resource` of a project missing from the configured domain finds nothing and only
      lists. */
  lemma GetResourceMissing(s: State, c: Config.OpenStackConfig, name: string, d: Domain)
    requires NoFaults(s) && Configured(s, c, d) && First(s.projects, ProjectNamed(name, Some(d))).None?
    ensures ClientGetResourceF(s, c, name) == (s.(calls := s.calls + [DomainsList, ProjectsList]), None)
  {
    GetProjectConfigured(s, c, name, d);
  }

  lemma AddUsersNoResource(s: State, c: Config.OpenStackConfig, backendId: string, users: seq<string>, s1: State)
    requires !Blank(backendId) && |backendId| <= MaxBackendIdLength
    requires ClientGetResourceF(s, c, Sanitize(backendId)) == (s1, None)
    ensures AddUsersF(s, c, backendId, users) == (s1, Err(MissingProjectError(Sanitize(backendId))))
  {
    AddUsersValidated(s, c, backendId, users);
    AddToProjectMissing(s, c, Sanitize(backendId), users, s1);
  }

  /** A backend id that passes validation leads to the project part under the sanitised name. */
  lemma AddUsersValidated(s: State, c: Config.OpenStackConfig, backendId: string, users: seq<string>)
    requires !Blank(backendId) && |backendId| <= MaxBackendIdLength
    ensures AddUsersF(s, c, backendId, users) == AddToProject(s, c, Sanitize(backendId), users)
  {
  }

  lemma AddToProjectMissing(s: State, c: Config.OpenStackConfig, name: string, users: seq<string>, s1: State)
    requires ClientGetResourceF(s, c, name) == (s1, None)
    ensures AddToProject(s, c, name, users) == (s1, Err(MissingProjectError(name)))
  {
    var (t, existing) := ClientGetResourceF(s, c, name);
    assert t == s1 && existing.None?;
  }

  /** The add path refuses a project that is not there: it raises BackendError after the two
      listing calls of the lookup and changes nothing else, although the adapter's
      `create_association` would have created the project. */
  lemma AddUsersRefusesMissingProject(s: State, c: Config.OpenStackConfig, backendId: string, users: seq<string>, d: Domain)
    requires NoFaults(s) && Configured(s, c, d)
    requires !Blank(backendId) && |backendId| <= MaxBackendIdLength
    requires First(s.projects, ProjectNamed(Sanitize(backendId), Some(d))).None?
    ensures AddUsersF(s, c, backendId, users) ==
      (s.(calls := s.calls + [DomainsList, ProjectsList]), Err(MissingProjectError(Sanitize(backendId))))
  {
    GetResourceMissing(s, c, Sanitize(backendId), d);
    AddUsersNoResource(s, c, backendId, users, s.(calls := s.calls + [DomainsList, ProjectsList]));
  }

  /** The added users are exactly those whose association was created at their turn. */
  lemma AddUsersMeaning(s: State, c: Config.OpenStackConfig, backendId: string, users: seq<string>, u: string)
    requires !Blank(backendId) && |backendId| <= MaxBackendIdLength
    requires ClientGetResourceF(s, c, Sanitize(backendId)).1.Some?
    ensures var name := Sanitize(backendId);
      var s1 := ClientGetResourceF(s, c, name).0;
      var res := AddUsersF(s, c, backendId, users).1;
      && res.Ok?
      && (u in res.value <==>
            exists i :: 0 <= i < |users| && users[i] == u &&
                        Associate(c, name)(AddEach(s1, Associate(c, name), users[..i], {}).0, u).1.Ok?)
  {
    var s1 := ClientGetResourceF(s, c, Sanitize(backendId)).0;
    AddEachMember(s1, Associate(c, Sanitize(backendId)), users, {}, u);
  }

  /** A user is in the removed list exactly when its step succeeded at its turn. */
  lemma {:induction false} RemoveEachMember(s: State, step: (State, string) -> (State, Result<string>), users: seq<string>,
                                            removed: seq<string>, u: string)
    ensures u in RemoveEach(s, step, users, removed).1 <==>
      (u in removed || exists i :: 0 <= i < |users| && users[i] == u && step(RemoveEach(s, step, users[..i], removed).0, u).1.Ok?)
    decreases |users|
  {
    if users != [] {
      var (s1, r) := step(s, users[0]);
      var removed1 := if r.Ok? then removed + [users[0]] else removed;
      var rest := users[1..];
      assert RemoveEach(s, step, users, removed) == RemoveEach(s1, step, rest, removed1);
      RemoveEachMember(s1, step, rest, removed1, u);
      forall i | 0 <= i < |rest|
        ensures RemoveEach(s1, step, rest[..i], removed1) == RemoveEach(s, step, users[..i + 1], removed)
      {
        assert users[..i + 1][1..] == rest[..i];
      }
      assert RemoveEach(s, step, users[..0], removed).0 == s;
      if u in RemoveEach(s, step, users, removed).1 && u !in removed {
        if u in removed1 {
          assert users[0] == u && r.Ok?;
        } else {
          var j :| 0 <= j < |rest| && rest[j] == u && step(RemoveEach(s1, step, rest[..j], removed1).0, u).1.Ok?;
          assert users[j + 1] == u;
        }
      }
      if exists i :: 0 <= i < |users| && users[i] == u && step(RemoveEach(s, step, users[..i], removed).0, u).1.Ok? {
        var i :| 0 <= i < |users| && users[i] == u && step(RemoveEach(s, step, users[..i], removed).0, u).1.Ok?;
        if i > 0 {
          assert rest[i - 1] == u;
          assert RemoveEach(s1, step, rest[..i - 1], removed1) == RemoveEach(s, step, users[..i], removed);
        }
      }
    }
  }

  /** Removing `a` then `b` is removing `a + b`: the users removed from `a` come first, so the
      result keeps the iteration order. */
  lemma {:induction false} RemoveEachAppend(s: State, step: (State, string) -> (State, Result<string>), a: seq<string>, b: seq<string>,
                                            removed: seq<string>)
    ensures var (s1, r1) := RemoveEach(s, step, a, removed);
      RemoveEach(s, step, a + b, removed) == RemoveEach(s1, step, b, r1)
    decreases |a|
  {
    if a == [] {
      assert a + b == b;
    } else {
      var (s1, r) := step(s, a[0]);
      var removed1 := if r.Ok? then removed + [a[0]] else removed;
      assert (a + b)[0] == a[0] && (a + b)[1..] == a[1..] + b;
      RemoveEachAppend(s1, step, a[1..], b, removed1);
    }
  }

  /** Removing from a project that is not there removes nobody and changes nothing. */
  lemma RemoveUsersMissingProject(s: State, c: Config.OpenStackConfig, backendId: string, users: seq<string>, d: Domain)
    requires NoFaults(s) && Configured(s, c, d)
    requires !Blank(backendId) && |backendId| <= MaxBackendIdLength
    requires First(s.projects, ProjectNamed(Sanitize(backendId), Some(d))).None?
    ensures var (s1, res) := RemoveUsersF(s, c, backendId, users);
      res == Ok([]) && s1.projects == s.projects && s1.users == s.users && s1.assignments == s.assignments
  {
    GetProjectConfigured(s, c, Sanitize(backendId), d);
  }

  // ---------------------------------------------------------------------------
  // Diagnostics
  // ---------------------------------------------------------------------------

  /** Diagnostics pass exactly when ping succeeds and the configuration is valid. */
  lemma DiagnosticsOutcome(s: State, c: Config.OpenStackConfig)
    ensures DiagnosticsF(s, c).1 ==
      (s.faults[SessionToken] < 3 && Truthy(s.token) && forall rule :: Config.Holds(c, rule))
  {
    PingOutcome(s);
    Config.ValidateAcceptsIff(c);
  }

  /** Neither a missing domain or role nor a failing domain or role lookup changes the outcome
      of diagnostics. */
  lemma DiagnosticsIgnoresLookups(s: State, c: Config.OpenStackConfig, domains: seq<Domain>, roles: seq<Role>,
                                  domainFaults: nat, roleFaults: nat)
    ensures DiagnosticsF(s, c).1 ==
      DiagnosticsF(s.(domains := domains, roles := roles,
                      faults := s.faults[DomainsList := domainFaults][RolesList := roleFaults]), c).1
  {
    DiagnosticsOutcome(s, c);
    DiagnosticsOutcome(s.(domains := domains, roles := roles,
                          faults := s.faults[DomainsList := domainFaults][RolesList := roleFaults]), c);
  }

  // ---------------------------------------------------------------------------
  // Project state
  // ---------------------------------------------------------------------------

  /** Without a domain, enabling or disabling looks the project up in the configured domain. */
  lemma SwitchConfigured(s: State, c: Config.OpenStackConfig, name: string, d: Domain)
    requires NoFaults(s) && Configured(s, c, d)
    ensures EnableProjectF(s, c, name, None) == EnableProjectF(Issue(s, DomainsList), c, name, Some(d))
    ensures DisableProjectF(s, c, name, None) == DisableProjectF(Issue(s, DomainsList), c, name, Some(d))
  {
    GetProjectDefaultDomain(s, c, name);
    GetProjectFindsFirst(Issue(s, DomainsList), c, name, d);
  }

  /** Downscaling (and so pausing) disables the project found under the sanitised id and
      touches nothing else. */
  lemma DownscaleDisables(s: State, c: Config.OpenStackConfig, backendId: string, d: Domain)
    requires NoFaults(s) && Configured(s, c, d)
    requires First(s.projects, ProjectNamed(Sanitize(backendId), Some(d))).Some?
    ensures var p := First(s.projects, ProjectNamed(Sanitize(backendId), Some(d))).value;
      var (s1, ok) := ClientDisableProjectF(s, c, Sanitize(backendId));
      && ok
      && s1.projects == SetEnabled(s.projects, p.id, false)
      && s1.domains == s.domains && s1.users == s.users && s1.assignments == s.assignments
  {
    SwitchConfigured(s, c, Sanitize(backendId), d);
    DisableProjectUpdatesTwice(Issue(s, DomainsList), c, Sanitize(backendId), d);
  }

  /** Restoring enables the project found under the sanitised id and touches nothing else. */
  lemma RestoreEnables(s: State, c: Config.OpenStackConfig, backendId: string, d: Domain)
    requires NoFaults(s) && Configured(s, c, d)
    requires First(s.projects, ProjectNamed(Sanitize(backendId), Some(d))).Some?
    ensures var p := First(s.projects, ProjectNamed(Sanitize(backendId), Some(d))).value;
      var (s1, ok) := ClientEnableProjectF(s, c, Sanitize(backendId));
      && ok
      && s1.projects == SetEnabled(s.projects, p.id, true)
      && s1.domains == s.domains && s1.users == s.users && s1.assignments == s.assignments
  {
    SwitchConfigured(s, c, Sanitize(backendId), d);
    EnableProjectSets(Issue(s, DomainsList), c, Sanitize(backendId), d);
  }

  // ---------------------------------------------------------------------------
  // Usernames
  // ---------------------------------------------------------------------------

  /** The local part of `local@domain` is `local`. */
  lemma {:induction false} LocalPartOfAddress(local: string, domain: string)
    requires '@' !in local
    ensures LocalPart(local + "@" + domain) == local
  {
    if local != [] {
      assert (local + "@" + domain)[1..] == local[1..] + "@" + domain;
      LocalPartOfAddress(local[1..], domain);
    }
  }

  /** A generated username is a valid OpenStack name, which the sanitiser leaves alone. */
  lemma GenerateUsernameShape(email: Option<string>, uuid: string)
    ensures var r := GenerateUsername(email, uuid);
      r.Ok? ==> IsOpenStackName(r.value) && Sanitize(r.value) == r.value && r.value == Sanitize(LocalPart(email.value))
  {
    if Truthy(email) {
      SanitizeIdempotent(LocalPart(email.value));
      SanitizeShape(LocalPart(email.value));
    }
  }

  /** The username for `local@domain` is the sanitised `local`, whatever the domain, and is
      `local` itself when that is already a valid name. */
  lemma GenerateUsernameFromAddress(local: string, domain: string, uuid: string)
    requires '@' !in local
    ensures GenerateUsername(Some(local + "@" + domain), uuid) == Ok(Sanitize(local))
    ensures IsOpenStackName(local) ==> GenerateUsername(Some(local + "@" + domain), uuid) == Ok(local)
  {
    LocalPartOfAddress(local, domain);
    if IsOpenStackName(local) {
      SanitizeFixesValid(local);
    }
  }

  /** A name found is that of a user of the configured domain whose email is the one asked for. */
  lemma GetUsernameSound(s: State, c: Config.OpenStackConfig, email: Option<string>)
    ensures var n := GetUsernameF(s, c, email).1;
      n.Some? ==>
        && Truthy(email)
        && exists u, d :: u in s.users && d in s.domains && d.name == c.domainName && u.domainId == d.id
                          && u.email == email && u.name == n.value
  {
    if Truthy(email) {
      var users := ListUsersF(s, c, Some(c.domainName)).1;
      var n := NameByEmail(users, email.value);
      if n.Some? {
        var i :| 0 <= i < |users| && users[i].email == Some(email.value) && users[i].name == n.value;
        ListUsersMeaning(s, c, Some(c.domainName));
        assert users[i] in users;
        var d :| d in s.domains && d.name == c.domainName && users[i].domainId == d.id;
        assert users[i] in s.users;
      }
    }
  }

  /** Without failures, a name is found whenever the configured domain has a user with the email. */
  lemma GetUsernameComplete(s: State, c: Config.OpenStackConfig, email: Option<string>, u: User)
    requires NoFaults(s) && Truthy(email) && First(s.domains, DomainNamed(c.domainName)).Some?
    requires u in s.users && u.domainId == First(s.domains, DomainNamed(c.domainName)).value.id && u.email == email
    ensures GetUsernameF(s, c, email).1.Some?
  {
    var users := ListUsersF(s, c, Some(c.domainName)).1;
    ListUsersMeaning(s, c, Some(c.domainName));
    assert u in users;
    assert GetUsernameF(s, c, email).1 == NameByEmail(users, email.value);
  }
}
