/** What the client adapter's operations return and do to the identity service. */
module OpenStackProps {
  import opened Common
  import opened Utils
  import opened Keystone
  import opened KeystoneProps
  import opened KeystoneAccess
  import opened OpenStack
  import Config

  /** The configured domain is `d`: the first domain listed under the configured name. */
  predicate Configured(s: State, c: Config.OpenStackConfig, d: Domain) {
    First(s.domains, DomainNamed(c.domainName)) == Some(d)
  }

  /** Without a domain, a user is looked up in the configured domain. */
  lemma GetUserDefaultDomain(s: State, c: Config.OpenStackConfig, name: string, d: Domain)
    requires NoFaults(s) && Configured(s, c, d)
    ensures GetUserF(s, c, name, None) ==
      (s.(calls := s.calls + [DomainsList, UsersList]), First(s.users, UserNamed(name, Some(d))))
  {
    GetDomainFindsFirst(s, c.domainName);
    GetUserFindsFirst(Issue(s, DomainsList), c, name, d);
    LogTwo(s.calls, DomainsList, UsersList);
  }

  lemma GetProjectConfigured(s: State, c: Config.OpenStackConfig, name: string, d: Domain)
    requires NoFaults(s) && Configured(s, c, d)
    ensures GetProjectF(s, c, name, None) ==
      (s.(calls := s.calls + [DomainsList, ProjectsList]), First(s.projects, ProjectNamed(name, Some(d))))
  {
    GetProjectDefaultDomain(s, c, name);
    LogTwo(s.calls, DomainsList, ProjectsList);
  }

  /** The adapter's `get_resource` gives the project found in the configured domain, with that
      domain's name as organisation. */
  lemma ClientGetResourceFound(s: State, c: Config.OpenStackConfig, name: string, d: Domain, q: Project)
    requires NoFaults(s) && Configured(s, c, d) && First(s.projects, ProjectNamed(name, Some(d))) == Some(q)
    ensures ClientGetResourceF(s, c, name).1 == Some(ClientResource(q.name, q.description, d.name))
  {
    GetProjectConfigured(s, c, name, d);
    GetDomainFindsFirst(s.(calls := s.calls + [DomainsList, ProjectsList]), c.domainName);
  }

  // ---------------------------------------------------------------------------
  // ping
  // ---------------------------------------------------------------------------

  /** With the session answering, ping is True exactly when the token is truthy. */
  lemma PingMeaning(s: State)
    requires SessionToken !in s.faults
    ensures PingF(s) == (Issue(s, SessionToken), Truthy(s.token))
  {
    GetTokenReturns(s);
  }

  /** A session failing on every attempt makes ping False rather than raise. */
  lemma PingFailsClosed(s: State)
    requires s.faults[SessionToken] >= 3
    ensures !PingF(s).1
  {
    GetTokenGivesUp(s);
  }

  /** Ping is True exactly when the session answers within the three attempts with a truthy
      token. */
  lemma PingOutcome(s: State)
    ensures PingF(s).1 == (s.faults[SessionToken] < 3 && Truthy(s.token))
  {
    GetTokenOutcome(s);
  }

  // ---------------------------------------------------------------------------
  // Resources
  // ---------------------------------------------------------------------------

  /** The metadata is `{}` exactly when no project is found; otherwise it has exactly the five
      keys, holding the found project's fields. */
  lemma ProjectMetadataShape(s: State, c: Config.OpenStackConfig, name: string)
    ensures var (_, m) := GetProjectMetadataF(s, c, name);
      var p := GetProjectF(s, c, name, None).1;
      && (m == map[] <==> p.None?)
      && (p.Some? ==>
          && m.Keys == MetadataKeys
          && m["project_id"] == Int(p.value.id) && m["project_name"] == Str(p.value.name)
          && m["domain"] == Int(p.value.domainId) && m["enabled"] == Bool(p.value.enabled)
          && m["description"] == Str(p.value.description))
  {
    var p := GetProjectF(s, c, name, None).1;
    if p.Some? {
      assert "project_id" in ProjectMetadata(p.value);
    }
  }

  /** In a service without failures, metadata is found exactly for the projects of the
      configured domain. */
  lemma ProjectMetadataFound(s: State, c: Config.OpenStackConfig, name: string, d: Domain)
    requires NoFaults(s) && Configured(s, c, d)
    ensures GetProjectMetadataF(s, c, name).1 != map[] <==> exists p :: p in s.projects && p.name == name && p.domainId == d.id
  {
    GetProjectConfigured(s, c, name, d);
    ProjectMetadataShape(s, c, name);
  }

  /** A project that does not exist yet is created, once, in the configured domain (which is
      created too when missing), and the name is returned. */
  lemma CreateResourceCreates(s: State, c: Config.OpenStackConfig, name: string, description: string)
    requires NoFaults(s) && GetProjectF(s, c, name, None).1.None?
    ensures var (s2, r) := CreateResourceF(s, c, name, description);
      && r == Ok(name)
      && NoFaults(s2)
      && First(s2.domains, DomainNamed(c.domainName)).Some?
      && |s2.projects| == |s.projects| + 1
      && s2.projects[..|s.projects|] == s.projects
      && var p := s2.projects[|s.projects|];
         && p.name == name && p.enabled && p.domainId == First(s2.domains, DomainNamed(c.domainName)).value.id
         && p.description == ProjectDescription(name, description)
  {
    var dd := First(s.domains, DomainNamed(c.domainName));
    GetProjectDefaultDomain(s, c, name);
    var s1 := Issue(Issue(s, DomainsList), ProjectsList);
    assert GetProjectF(s, c, name, None) == (s1, None);
    assert NoFaults(s1);
    CreateProjectConfiguredDomain(s1, c, name, description);
    var (s1d, dr) := EnsureDomainF(s1, c.domainName);
    var d := dr.value.value;
    if dd.Some? {
      EnsureDomainExisting(s1, c.domainName);
      assert d == dd.value;
      assert s1d.domains == s.domains;
    } else {
      EnsureDomainCreates(s1, c.domainName);
      FirstAppend(s1.domains, d, DomainNamed(c.domainName));
    }
    assert First(s1d.domains, DomainNamed(c.domainName)) == Some(d);
    assert s1d.projects == s.projects;
    assert First(s1d.projects, ProjectNamed(name, Some(d))).None?;
    CreateProjectCreates(s1d, c, name, d, description);
  }

  /** Creating a resource twice returns the name both times, the project is found after the
      first call and the second call creates nothing. */
  lemma CreateResourceIdempotent(s: State, c: Config.OpenStackConfig, name: string, description: string)
    requires NoFaults(s)
    ensures var (s1, r1) := CreateResourceF(s, c, name, description);
      var (s2, r2) := CreateResourceF(s1, c, name, description);
      && r1 == Ok(name) && r2 == Ok(name)
      && s2.projects == s1.projects
      && |s.projects| <= |s1.projects| <= |s.projects| + 1
      && GetProjectF(s1, c, name, None).1.Some?
  {
    var s1 := CreateResourceF(s, c, name, description).0;
    if GetProjectF(s, c, name, None).1.Some? {
      CreateResourceFound(s, c, name, description);
    } else {
      CreateResourceThenFound(s, c, name, description);
    }
    CreateResourceFound(s1, c, name, description);
  }

  /** After a project was created, looking it up again finds it. */
  lemma CreateResourceThenFound(s: State, c: Config.OpenStackConfig, name: string, description: string)
    requires NoFaults(s) && GetProjectF(s, c, name, None).1.None?
    ensures var (s1, r) := CreateResourceF(s, c, name, description);
      r == Ok(name) && |s1.projects| == |s.projects| + 1 && NoFaults(s1) && GetProjectF(s1, c, name, None).1.Some?
  {
    CreateResourceCreates(s, c, name, description);
    var s1 := CreateResourceF(s, c, name, description).0;
    var d := First(s1.domains, DomainNamed(c.domainName)).value;
    var p := s1.projects[|s.projects|];
    assert s1.projects == s.projects + [p];
    FoundAfterAppend(s.projects, s1, c, name, d, p);
  }

  /** A project appended under the name in the configured domain is found there. */
  lemma FoundAfterAppend(before: seq<Project>, s1: State, c: Config.OpenStackConfig, name: string, d: Domain, p: Project)
    requires NoFaults(s1) && Configured(s1, c, d)
    requires s1.projects == before + [p] && p.name == name && p.domainId == d.id
    ensures GetProjectF(s1, c, name, None).1.Some?
  {
    assert ProjectNamed(name, Some(d))(p);
    FirstAppend(before, p, ProjectNamed(name, Some(d)));
    GetProjectConfigured(s1, c, name, d);
  }

  /** A project that is already there is kept: the name is returned and no project is added. */
  lemma CreateResourceFound(s: State, c: Config.OpenStackConfig, name: string, description: string)
    requires NoFaults(s) && GetProjectF(s, c, name, None).1.Some?
    ensures var (s1, r) := CreateResourceF(s, c, name, description);
      r == Ok(name) && s1.projects == s.projects && NoFaults(s1) && GetProjectF(s1, c, name, None).1.Some?
  {
    GetProjectDefaultDomain(s, c, name);
    var s1 := CreateResourceF(s, c, name, description).0;
    assert s1.projects == s.projects && s1.domains == s.domains && NoFaults(s1);
    GetProjectDefaultDomain(s1, c, name);
  }

  /** A project that is not found gives the not-found message; a found one is deleted. */
  lemma DeleteResourceMessages(s: State, c: Config.OpenStackConfig, name: string, d: Domain)
    requires NoFaults(s) && Configured(s, c, d)
    ensures var (s1, message) := DeleteResourceF(s, c, name);
      var found := First(s.projects, ProjectNamed(name, Some(d)));
      && (found.None? ==> message == ProjectNotFoundMessage(name) && s1.projects == s.projects
                          && s1.assignments == s.assignments)
      && (found.Some? ==> message == DeletedMessage(name)
                          && (forall q :: q in s1.projects <==> q in s.projects && q.id != found.value.id)
                          && (forall a :: a in s1.assignments <==> a in s.assignments && a.projectId != found.value.id))
  {
    var s1 := Issue(s, DomainsList);
    DeleteProjectConfigured(s, c, name, d);
    assert s1.projects == s.projects && s1.assignments == s.assignments;
    assert ProjectsList !in s1.faults && ProjectsDelete !in s1.faults;
    if First(s.projects, ProjectNamed(name, Some(d))).Some? {
      DeleteProjectRemoves(s1, c, name, d);
    } else {
      DeleteProjectAbsent(s1, c, name, d);
    }
  }

  /** Without a domain, a project is deleted from the configured domain. */
  lemma DeleteProjectConfigured(s: State, c: Config.OpenStackConfig, name: string, d: Domain)
    requires NoFaults(s) && Configured(s, c, d)
    ensures DeleteProjectF(s, c, name, None) == DeleteProjectF(Issue(s, DomainsList), c, name, Some(d))
  {
    GetProjectDefaultDomain(s, c, name);
    GetProjectFindsFirst(Issue(s, DomainsList), c, name, d);
  }

  /** Every failure of the gateway's create surfaces as KeystoneClientError naming the project. */
  lemma ClientCreateProjectWraps(s: State, c: Config.OpenStackConfig, name: string, description: string)
    ensures var r := ClientCreateProjectF(s, c, name, description).1;
      var g := CreateProjectF(s, c, name, None, description).1;
      && (r.Ok? <==> g.Ok? && g.value.Some?)
      && (r.Ok? ==> r.value == g.value.value)
      && (r.Err? ==> r.error.KeystoneClientError? && CreateProjectFailedMessage(name) <= r.error.msg)
  {
    var r := ClientCreateProjectF(s, c, name, description).1;
    if r.Err? {
      var g := CreateProjectF(s, c, name, None, description).1;
      var tail := if g.Err? then g.error.Message() else NoneHasNoId;
      assert r.error.msg == CreateProjectFailedMessage(name) + tail;
    }
  }

  /** Enabling or disabling a project that does not exist is a success that changes nothing. */
  lemma ClientSwitchAbsent(s: State, c: Config.OpenStackConfig, name: string, d: Domain)
    requires NoFaults(s) && Configured(s, c, d) && First(s.projects, ProjectNamed(name, Some(d))).None?
    ensures ClientEnableProjectF(s, c, name) == (s.(calls := s.calls + [DomainsList, ProjectsList]), true)
    ensures ClientDisableProjectF(s, c, name) == (s.(calls := s.calls + [DomainsList, ProjectsList]), true)
  {
    GetProjectConfigured(s, c, name, d);
  }

  /** A failing update makes enable return False instead of raising. */
  lemma ClientEnableUpdateFails(s: State, c: Config.OpenStackConfig, name: string, d: Domain)
    requires DomainsList !in s.faults && ProjectsList !in s.faults && ProjectsUpdate in s.faults
    requires Configured(s, c, d) && First(s.projects, ProjectNamed(name, Some(d))).Some?
    ensures !ClientEnableProjectF(s, c, name).1
    ensures !ClientDisableProjectF(s, c, name).1
  {
    GetDomainFindsFirst(s, c.domainName);
    GetProjectFindsFirst(Issue(s, DomainsList), c, name, d);
    assert First(s.projects, ProjectNamed(name, Some(d))).value in s.projects;
  }

  // ---------------------------------------------------------------------------
  // Associations
  // ---------------------------------------------------------------------------

  /** The user has an association with the project exactly when it holds a role there, and its
      value counts the roles. */
  lemma GetAssociationMeaning(s: State, c: Config.OpenStackConfig, username: string, resourceId: string,
                              d: Domain, p: Project, u: User)
    requires NoFaults(s) && Configured(s, c, d)
    requires First(s.projects, ProjectNamed(resourceId, Some(d))) == Some(p)
    requires First(s.users, UserNamed(username, Some(d))) == Some(u)
    ensures var a := GetAssociationF(s, c, username, resourceId).1;
      var held := Filter(s.assignments, AssignmentOf(u.id, p.id));
      && (a.Some? <==> exists x :: x in s.assignments && x.userId == u.id && x.projectId == p.id)
      && (a.Some? ==> a.value == Association(resourceId, username, |held|))
  {
    GetProjectConfigured(s, c, resourceId, d);
    var s1 := s.(calls := s.calls + [DomainsList, ProjectsList]);
    assert Configured(s1, c, d) && NoFaults(s1);
    GetUserDefaultDomain(s1, c, username, d);
    var s2 := GetUserF(s1, c, username, None).0;
    assert s2.assignments == s.assignments && AssignmentsList !in s2.faults;
    GetAssociationLists(s, c, username, resourceId, s1, p, s2, u);
    var held := Filter(s.assignments, AssignmentOf(u.id, p.id));
    if held != [] {
      assert held[0] in held;
    }
  }

  /** Once project and user are found, the association is read off the user's assignments there. */
  lemma GetAssociationLists(s: State, c: Config.OpenStackConfig, username: string, resourceId: string,
                            s1: State, p: Project, s2: State, u: User)
    requires GetProjectF(s, c, resourceId, None) == (s1, Some(p))
    requires GetUserF(s1, c, username, None) == (s2, Some(u))
    requires AssignmentsList !in s2.faults
    ensures var held := Filter(s2.assignments, AssignmentOf(u.id, p.id));
      GetAssociationF(s, c, username, resourceId).1 ==
        if held == [] then None else Some(Association(resourceId, username, |held|))
  {
  }

  /** Deleting an association when the project is missing is reported, not raised, and
      changes nothing. */
  lemma DeleteAssociationNoProject(s: State, c: Config.OpenStackConfig, username: string, resourceId: string, d: Domain)
    requires NoFaults(s) && Configured(s, c, d) && First(s.projects, ProjectNamed(resourceId, Some(d))).None?
    ensures DeleteAssociationF(s, c, username, resourceId) ==
      (s.(calls := s.calls + [DomainsList, ProjectsList]), Ok(ProjectNotFoundMessage(resourceId)))
  {
    GetProjectConfigured(s, c, resourceId, d);
  }

  /** Deleting an association when the user is missing is reported, not raised, and revokes
      nothing. */
  lemma DeleteAssociationNoUser(s: State, c: Config.OpenStackConfig, username: string, resourceId: string, d: Domain)
    requires NoFaults(s) && Configured(s, c, d) && First(s.projects, ProjectNamed(resourceId, Some(d))).Some?
    requires First(s.users, UserNamed(username, Some(d))).None?
    ensures var (s1, r) := DeleteAssociationF(s, c, username, resourceId);
      r == Ok(UserNotFound(username)) && s1.assignments == s.assignments
  {
    GetProjectConfigured(s, c, resourceId, d);
    var s1 := s.(calls := s.calls + [DomainsList, ProjectsList]);
    assert Configured(s1, c, d) && NoFaults(s1);
    GetUserDefaultDomain(s1, c, username, d);
  }

  /** Deleting an existing association succeeds and leaves the user without any role in the
      project. */
  lemma DeleteAssociationRevokesAll(s: State, c: Config.OpenStackConfig, username: string, resourceId: string,
                                    d: Domain, p: Project, u: User)
    requires NoFaults(s) && Configured(s, c, d) && NoDup(s.assignments)
    requires First(s.projects, ProjectNamed(resourceId, Some(d))) == Some(p)
    requires First(s.users, UserNamed(username, Some(d))) == Some(u)
    ensures var (s1, r) := DeleteAssociationF(s, c, username, resourceId);
      && r == Ok(RevokedMessage(username, resourceId))
      && (forall x :: x in s1.assignments <==> x in s.assignments && !(x.userId == u.id && x.projectId == p.id))
  {
    GetProjectConfigured(s, c, resourceId, d);
    var s1 := s.(calls := s.calls + [DomainsList, ProjectsList]);
    assert Configured(s1, c, d) && NoFaults(s1);
    GetUserDefaultDomain(s1, c, username, d);
    var s2 := s1.(calls := s1.calls + [DomainsList, UsersList]);
    RevokeAllRemovesEverything(s2, u, p);
  }

  /** When a revocation fails, delete_association raises. */
  lemma DeleteAssociationRaises(s: State, c: Config.OpenStackConfig, username: string, resourceId: string,
                                d: Domain, p: Project, u: User)
    requires DomainsList !in s.faults && ProjectsList !in s.faults && UsersList !in s.faults && AssignmentsList !in s.faults
    requires RolesRevoke in s.faults && Configured(s, c, d)
    requires First(s.projects, ProjectNamed(resourceId, Some(d))) == Some(p)
    requires First(s.users, UserNamed(username, Some(d))) == Some(u)
    requires exists x :: x in s.assignments && x.userId == u.id && x.projectId == p.id
    ensures DeleteAssociationF(s, c, username, resourceId).1 == Err(KeystoneClientError(DeleteAssociationFailed(username, resourceId)))
  {
    GetDomainFindsFirst(s, c.domainName);
    var s1 := Issue(s, DomainsList);
    GetProjectFindsFirst(s1, c, resourceId, d);
    var s2 := Issue(s1, ProjectsList);
    GetDomainFindsFirst(s2, c.domainName);
    var s3 := Issue(s2, DomainsList);
    GetUserFindsFirst(s3, c, username, d);
    var s4 := Issue(s3, UsersList);
    var x :| x in s.assignments && x.userId == u.id && x.projectId == p.id;
    assert x in Filter(s4.assignments, AssignmentOf(u.id, p.id));
    RevokeAllReportsFailure(s4, u, p);
  }

  /** With the project, the user and the default role in place, create_association grants the
      role and returns the success message. */
  lemma CreateAssociationGrants(s: State, c: Config.OpenStackConfig, username: string, resourceId: string,
                                d: Domain, p: Project, u: User, role: Role)
    requires NoFaults(s) && Configured(s, c, d)
    requires First(s.projects, ProjectNamed(resourceId, Some(d))) == Some(p)
    requires First(s.users, UserNamed(username, Some(d))) == Some(u)
    requires First(s.roles, RoleNamed(c.defaultRole)) == Some(role)
    ensures var (s1, r) := CreateAssociationF(s, c, username, resourceId);
      && r == Ok(AssignedMessage(c.defaultRole, username, resourceId))
      && Assignment(u.id, p.id, role.id) in s1.assignments
      && (forall x :: x in s.assignments ==> x in s1.assignments)
  {
    GetProjectConfigured(s, c, resourceId, d);
    var s1 := s.(calls := s.calls + [DomainsList, ProjectsList]);
    assert NoFaults(s1) && Configured(s1, c, d);
    assert p in s.projects && u in s.users;
    var ensured := EnsureUserF(s1, c, username, None, None, None);
    assert ensured.1 == Ok(Some(u)) && ensured.0.assignments == s.assignments && NoFaults(ensured.0) by {
      EnsureUserDefaultDomain(s1, c, username, d, u);
    }
    var s3 := ensured.0;
    assert s3.users == s.users && s3.projects == s.projects && s3.roles == s.roles by {
      EnsureUserDefaultDomain(s1, c, username, d, u);
    }
    var a := Assignment(u.id, p.id, role.id);
    var granted := AssignRoleF(s3, Some(u), Some(p), c.defaultRole);
    if a in s3.assignments {
      AssignRoleAlreadyHeld(s3, u, p, c.defaultRole);
      assert granted.1 == Ok(true) && granted.0.assignments == s.assignments;
    } else {
      AssignRoleGrants(s3, u, p, c.defaultRole);
      assert granted.1 == Ok(true) && granted.0.assignments == s.assignments + [a];
    }
    CreateAssociationSteps(s, c, username, resourceId, s1, p, s3, u, granted.0);
  }

  /** A found project, an ensured user and a True grant make create_association succeed. */
  lemma CreateAssociationSteps(s: State, c: Config.OpenStackConfig, username: string, resourceId: string,
                               s1: State, p: Project, s3: State, u: User, s4: State)
    requires GetProjectF(s, c, resourceId, None) == (s1, Some(p))
    requires EnsureUserF(s1, c, username, None, None, None) == (s3, Ok(Some(u)))
    requires AssignRoleF(s3, Some(u), Some(p), c.defaultRole) == (s4, Ok(true))
    ensures CreateAssociationF(s, c, username, resourceId) == (s4, Ok(AssignedMessage(c.defaultRole, username, resourceId)))
  {
  }

  /** With the project and the user in place, a grant that fails makes create_association
      raise KeystoneClientError, and no role is assigned. */
  lemma CreateAssociationGrantFails(s: State, c: Config.OpenStackConfig, username: string, resourceId: string,
                                    d: Domain, p: Project, u: User)
    requires DomainsList !in s.faults && ProjectsList !in s.faults && UsersList !in s.faults && RolesList !in s.faults
    requires RolesGrant in s.faults && Configured(s, c, d)
    requires First(s.projects, ProjectNamed(resourceId, Some(d))) == Some(p)
    requires First(s.users, UserNamed(username, Some(d))) == Some(u)
    requires First(s.roles, RoleNamed(c.defaultRole)).Some?
    ensures var (s1, r) := CreateAssociationF(s, c, username, resourceId);
      && r == Err(KeystoneClientError(CreateAssociationFailed(username, resourceId) + AssignFailedMessage(username, resourceId)))
      && s1.assignments == s.assignments
  {
    GetDomainFindsFirst(s, c.domainName);
    var s1 := Issue(s, DomainsList);
    GetProjectFindsFirst(s1, c, resourceId, d);
    var s2 := Issue(s1, ProjectsList);
    assert GetProjectF(s, c, resourceId, None) == (s2, Some(p));
    EnsureUserFound(s2, c, username, d, u);
    var s4 := Issue(Issue(s2, DomainsList), UsersList);
    AssignRoleGrantFails(s4, u, p, c.defaultRole);
    var s5 := AssignRoleF(s4, Some(u), Some(p), c.defaultRole).0;
    CreateAssociationRefused(s, c, username, resourceId, s2, p, s4, u, s5);
  }

  /** `ensure_user` without a domain returns an existing user of the configured domain after
      two listing calls, whatever other calls are set to fail. */
  lemma EnsureUserFound(s: State, c: Config.OpenStackConfig, username: string, d: Domain, u: User)
    requires DomainsList !in s.faults && UsersList !in s.faults && Configured(s, c, d)
    requires First(s.users, UserNamed(username, Some(d))) == Some(u)
    ensures EnsureUserF(s, c, username, None, None, None) == (Issue(Issue(s, DomainsList), UsersList), Ok(Some(u)))
  {
    GetDomainFindsFirst(s, c.domainName);
    var s1 := Issue(s, DomainsList);
    GetUserFindsFirst(s1, c, username, d);
    assert GetUserF(s, c, username, None) == (Issue(s1, UsersList), Some(u));
    RetryFirstSuccess(DefaultPolicy, CatchAll, EnsureUserStep(c, username, None, None, None), s);
  }

  /** A found project, an ensured user and a False grant make create_association raise. */
  lemma CreateAssociationRefused(s: State, c: Config.OpenStackConfig, username: string, resourceId: string,
                                 s1: State, p: Project, s3: State, u: User, s4: State)
    requires GetProjectF(s, c, resourceId, None) == (s1, Some(p))
    requires EnsureUserF(s1, c, username, None, None, None) == (s3, Ok(Some(u)))
    requires AssignRoleF(s3, Some(u), Some(p), c.defaultRole) == (s4, Ok(false))
    ensures CreateAssociationF(s, c, username, resourceId) ==
      (s4, Err(KeystoneClientError(CreateAssociationFailed(username, resourceId) + AssignFailedMessage(username, resourceId))))
  {
  }

  /** `ensure_user` without a domain finds an existing user of the configured domain and,
      asked for no email, changes nothing but the call log. */
  lemma EnsureUserDefaultDomain(s: State, c: Config.OpenStackConfig, username: string, d: Domain, u: User)
    requires NoFaults(s) && Configured(s, c, d) && First(s.users, UserNamed(username, Some(d))) == Some(u)
    ensures var (s1, r) := EnsureUserF(s, c, username, None, None, None);
      && r == Ok(Some(u))
      && s1 == s.(calls := s.calls + [DomainsList, UsersList])
  {
    GetUserDefaultDomain(s, c, username, d);
    RetryFirstSuccess(DefaultPolicy, CatchAll, EnsureUserStep(c, username, None, None, None), s);
  }

  /** A project that does not exist yet is created by create_association before the grant. */
  lemma CreateAssociationCreatesProject(s: State, c: Config.OpenStackConfig, username: string, resourceId: string, d: Domain)
    requires NoFaults(s) && Configured(s, c, d) && First(s.projects, ProjectNamed(resourceId, Some(d))).None?
    ensures var (s2, pr) := CreateProjectF(s.(calls := s.calls + [DomainsList, ProjectsList]), c, resourceId, None, "");
      && pr.Ok? && pr.value.Some?
      && pr.value.value.name == resourceId && pr.value.value.domainId == d.id && pr.value.value.enabled
      && pr.value.value in s2.projects
    ensures CreateAssociationF(s, c, username, resourceId) ==
      (var (s2, pr) := CreateProjectF(s.(calls := s.calls + [DomainsList, ProjectsList]), c, resourceId, None, "");
       var (s3, ur) := EnsureUserF(s2, c, username, None, None, None);
       if ur.Err? then (s3, Err(KeystoneClientError(CreateAssociationFailed(username, resourceId) + ur.error.Message())))
       else
         var (s4, granted) := AssignRoleF(s3, ur.value, pr.value, c.defaultRole);
         if granted.Err? then (s4, Err(KeystoneClientError(CreateAssociationFailed(username, resourceId) + granted.error.Message())))
         else if !granted.value then
           (s4, Err(KeystoneClientError(CreateAssociationFailed(username, resourceId) + AssignFailedMessage(username, resourceId))))
         else (s4, Ok(AssignedMessage(c.defaultRole, username, resourceId))))
  {
    GetProjectConfigured(s, c, resourceId, d);
    var s1 := s.(calls := s.calls + [DomainsList, ProjectsList]);
    assert NoFaults(s1) && Configured(s1, c, d);
    CreateProjectConfiguredDomain(s1, c, resourceId, "");
    EnsureDomainExisting(s1, c.domainName);
    var s1d := Issue(s1, DomainsList);
    CreateProjectCreates(s1d, c, resourceId, d, "");
  }

  // ---------------------------------------------------------------------------
  // Users of a project
  // ---------------------------------------------------------------------------

  /** The names are distinct, and each one belongs to a user holding one of the listed
      assignments. */
  lemma {:induction false} ResolveNamesSound(s: State, listed: seq<Assignment>, names: seq<string>)
    requires NoDup(names)
    ensures var (s1, r) := ResolveNames(s, listed, names);
      && NoDup(r)
      && s1.users == s.users && s1.assignments == s.assignments && s1.projects == s.projects
      && forall n :: n in r ==> n in names || exists a, u :: a in listed && u in s.users && u.id == a.userId && u.name == n
    decreases |listed|
  {
    if listed != [] {
      var (s1, u) := ApiGetUser(s, listed[0].userId);
      var names1 := if u.Ok? && u.value.name !in names then names + [u.value.name] else names;
      assert NoDup(names1);
      ResolveNamesSound(s1, listed[1..], names1);
      var r := ResolveNames(s1, listed[1..], names1).1;
      forall n | n in r
        ensures n in names || exists a, v :: a in listed && v in s.users && v.id == a.userId && v.name == n
      {
        if n !in names1 {
          var a, v :| a in listed[1..] && v in s1.users && v.id == a.userId && v.name == n;
          assert a in listed;
        } else if n !in names {
          assert u.Ok? && n == u.value.name;
          assert u.value in s.users && u.value.id == listed[0].userId;
        }
      }
    }
  }

  /** Without lookup failures, every listed holder's name is in the result. */
  lemma {:induction false} ResolveNamesComplete(s: State, listed: seq<Assignment>, names: seq<string>)
    requires UsersGet !in s.faults
    ensures var r := ResolveNames(s, listed, names).1;
      && (forall n :: n in names ==> n in r)
      && forall a :: a in listed && First(s.users, UserWithId(a.userId)).Some? ==> First(s.users, UserWithId(a.userId)).value.name in r
    decreases |listed|
  {
    if listed != [] {
      var (s1, u) := ApiGetUser(s, listed[0].userId);
      var names1 := if u.Ok? && u.value.name !in names then names + [u.value.name] else names;
      assert UsersGet !in s1.faults && s1.users == s.users;
      ResolveNamesComplete(s1, listed[1..], names1);
      forall a | a in listed && First(s.users, UserWithId(a.userId)).Some?
        ensures First(s.users, UserWithId(a.userId)).value.name in ResolveNames(s, listed, names).1
      {
        if a != listed[0] {
          assert a in listed[1..];
        }
      }
    }
  }

  /** `list_resource_users` returns distinct names, each of a user holding a role in the project;
      in a service without failures it returns the name of every such user. */
  lemma ListResourceUsersMeaning(s: State, c: Config.OpenStackConfig, resourceId: string, d: Domain, p: Project)
    requires NoFaults(s) && Configured(s, c, d) && First(s.projects, ProjectNamed(resourceId, Some(d))) == Some(p)
    ensures var names := ListResourceUsersF(s, c, resourceId).1;
      && NoDup(names)
      && (forall n :: n in names ==> exists a, u :: a in s.assignments && a.projectId == p.id && u in s.users && u.id == a.userId && u.name == n)
      && (forall a :: a in s.assignments && a.projectId == p.id && First(s.users, UserWithId(a.userId)).Some? ==>
            First(s.users, UserWithId(a.userId)).value.name in names)
  {
    GetProjectConfigured(s, c, resourceId, d);
    var s1 := s.(calls := s.calls + [DomainsList, ProjectsList]);
    var s2 := Issue(s1, AssignmentsList);
    var listed := Filter(s.assignments, AssignmentIn(p.id));
    assert ApiListProjectAssignments(s1, p) == (s2, Ok(listed));
    ResolveNamesSound(s2, listed, []);
    ResolveNamesComplete(s2, listed, []);
  }

  /** `list_resource_users` of a missing project is empty. */
  lemma ListResourceUsersNoProject(s: State, c: Config.OpenStackConfig, resourceId: string, d: Domain)
    requires NoFaults(s) && Configured(s, c, d) && First(s.projects, ProjectNamed(resourceId, Some(d))).None?
    ensures ListResourceUsersF(s, c, resourceId).1 == []
  {
    GetProjectConfigured(s, c, resourceId, d);
  }

  /** `list_users` returns users of the named domain only, and all of them when nothing fails. */
  lemma ListUsersMeaning(s: State, c: Config.OpenStackConfig, domainName: Option<string>)
    ensures var name := if Truthy(domainName) then domainName.value else c.domainName;
      var users := ListUsersF(s, c, domainName).1;
      && (forall u :: u in users ==> u in s.users && exists d :: d in s.domains && d.name == name && u.domainId == d.id)
      && (NoFaults(s) && First(s.domains, DomainNamed(name)).Some? ==>
            forall u :: u in s.users && u.domainId == First(s.domains, DomainNamed(name)).value.id ==> u in users)
  {
    var name := if Truthy(domainName) then domainName.value else c.domainName;
    GetDomainFindsFirst(s, name);
    var d := GetDomainF(s, name).1;
    if d.Some? {
      assert d.value in s.domains && d.value.name == name by {
        if DomainsList !in s.faults {
          assert d == First(s.domains, DomainNamed(name));
        }
      }
    }
  }
}
