/** What the gateway's operations do to the identity service and return. */
module KeystoneProps {
  import opened Common
  import opened Utils
  import opened Keystone
  import Config

  /** No injected failures are pending. */
  predicate NoFaults(s: State) { s.faults == multiset{} }

  lemma LogTwo(log: seq<Call>, a: Call, b: Call)
    ensures log + [a] + [b] == log + [a, b]
  {
  }

  lemma LogThree(log: seq<Call>, a: Call, b: Call, c: Call)
    ensures log + [a] + [b] + [c] == log + [a, b, c]
  {
  }

  // ---------------------------------------------------------------------------
  // Lookups: the first match, and a listing error collapses to None
  // ---------------------------------------------------------------------------

  lemma GetDomainFindsFirst(s: State, name: string)
    ensures DomainsList in s.faults ==> GetDomainF(s, name).1 == None
    ensures DomainsList !in s.faults ==>
      GetDomainF(s, name) == (Issue(s, DomainsList), First(s.domains, DomainNamed(name)))
  {
    FilterHead(s.domains, DomainNamed(name));
  }

  lemma GetRoleFindsFirst(s: State, name: string)
    ensures RolesList in s.faults ==> GetRoleF(s, name).1 == None
    ensures RolesList !in s.faults ==>
      GetRoleF(s, name) == (Issue(s, RolesList), First(s.roles, RoleNamed(name)))
  {
    FilterHead(s.roles, RoleNamed(name));
  }

  lemma GetProjectFindsFirst(s: State, c: Config.OpenStackConfig, name: string, d: Domain)
    ensures ProjectsList in s.faults ==> GetProjectF(s, c, name, Some(d)).1 == None
    ensures ProjectsList !in s.faults ==>
      GetProjectF(s, c, name, Some(d)) == (Issue(s, ProjectsList), First(s.projects, ProjectNamed(name, Some(d))))
  {
    FilterHead(s.projects, ProjectNamed(name, Some(d)));
  }

  /** Without a domain, a project is looked up in the configured domain, or in every domain
      when the configured one is not found. */
  lemma GetProjectDefaultDomain(s: State, c: Config.OpenStackConfig, name: string)
    requires NoFaults(s)
    ensures GetProjectF(s, c, name, None) ==
      (Issue(Issue(s, DomainsList), ProjectsList),
       First(s.projects, ProjectNamed(name, First(s.domains, DomainNamed(c.domainName)))))
  {
    GetDomainFindsFirst(s, c.domainName);
    FilterHead(s.projects, ProjectNamed(name, First(s.domains, DomainNamed(c.domainName))));
  }

  /** `get_resource` gives the six-key dictionary of the project found in the configured
      domain, and None when there is none. */
  lemma GetResourceFound(s: State, c: Config.OpenStackConfig, name: string)
    requires NoFaults(s)
    ensures var p := First(s.projects, ProjectNamed(name, First(s.domains, DomainNamed(c.domainName))));
      GetResourceF(s, c, name).1 == if p.None? then None else Some(ResourceInfo(name, p.value))
  {
    GetProjectDefaultDomain(s, c, name);
  }

  lemma GetUserFindsFirst(s: State, c: Config.OpenStackConfig, name: string, d: Domain)
    ensures UsersList in s.faults ==> GetUserF(s, c, name, Some(d)).1 == None
    ensures UsersList !in s.faults ==>
      GetUserF(s, c, name, Some(d)) == (Issue(s, UsersList), First(s.users, UserNamed(name, Some(d))))
  {
    FilterHead(s.users, UserNamed(name, Some(d)));
  }

  // ---------------------------------------------------------------------------
  // Get-or-create for domains and roles
  // ---------------------------------------------------------------------------

  /** An existing domain is returned and nothing is created. */
  lemma EnsureDomainExisting(s: State, name: string)
    requires DomainsList !in s.faults && First(s.domains, DomainNamed(name)).Some?
    ensures EnsureDomainF(s, name) == (Issue(s, DomainsList), Ok(First(s.domains, DomainNamed(name))))
  {
    GetDomainFindsFirst(s, name);
  }

  /** A missing domain is created, exactly once, enabled and with the fixed description. */
  lemma EnsureDomainCreates(s: State, name: string)
    requires DomainsList !in s.faults && DomainsCreate !in s.faults && First(s.domains, DomainNamed(name)).None?
    ensures var d := Domain(s.nextId, name, DomainDescription(name), true);
      EnsureDomainF(s, name) ==
        (s.(domains := s.domains + [d], nextId := s.nextId + 1, calls := s.calls + [DomainsList, DomainsCreate]),
         Ok(Some(d)))
  {
    GetDomainFindsFirst(s, name);
    assert s.calls + [DomainsList] + [DomainsCreate] == s.calls + [DomainsList, DomainsCreate];
  }

  /** When the lookup fails although the domain exists, the create call answers Conflict and
      the domain is looked up again. */
  lemma EnsureDomainConflictRelooks(s: State, name: string)
    requires s.faults[DomainsList] == 1 && DomainsCreate !in s.faults && First(s.domains, DomainNamed(name)).Some?
    ensures EnsureDomainF(s, name) ==
      (s.(faults := s.faults - multiset{DomainsList}, calls := s.calls + [DomainsList, DomainsCreate, DomainsList]),
       Ok(First(s.domains, DomainNamed(name))))
  {
    var s1 := Consume(Issue(s, DomainsList), DomainsList);
    assert GetDomainF(s, name) == (s1, None);
    var s2 := Issue(s1, DomainsCreate);
    assert ApiCreateDomain(s1, name, DomainDescription(name)) == (s2, Err(Clash(DomainsCreate, name)));
    GetDomainFindsFirst(s2, name);
    assert s.calls + [DomainsList] + [DomainsCreate] + [DomainsList] == s.calls + [DomainsList, DomainsCreate, DomainsList];
  }

  lemma EnsureRoleExisting(s: State, name: string)
    requires RolesList !in s.faults && First(s.roles, RoleNamed(name)).Some?
    ensures EnsureRoleF(s, name) == (Issue(s, RolesList), Ok(First(s.roles, RoleNamed(name))))
  {
    GetRoleFindsFirst(s, name);
  }

  lemma EnsureRoleCreates(s: State, name: string)
    requires RolesList !in s.faults && RolesCreate !in s.faults && First(s.roles, RoleNamed(name)).None?
    ensures var r := Role(s.nextId, name);
      EnsureRoleF(s, name) ==
        (s.(roles := s.roles + [r], nextId := s.nextId + 1, calls := s.calls + [RolesList, RolesCreate]), Ok(Some(r)))
  {
    GetRoleFindsFirst(s, name);
    assert s.calls + [RolesList] + [RolesCreate] == s.calls + [RolesList, RolesCreate];
  }

  lemma EnsureRoleConflictRelooks(s: State, name: string)
    requires s.faults[RolesList] == 1 && RolesCreate !in s.faults && First(s.roles, RoleNamed(name)).Some?
    ensures EnsureRoleF(s, name) ==
      (s.(faults := s.faults - multiset{RolesList}, calls := s.calls + [RolesList, RolesCreate, RolesList]),
       Ok(First(s.roles, RoleNamed(name))))
  {
    var s1 := Consume(Issue(s, RolesList), RolesList);
    assert GetRoleF(s, name) == (s1, None);
    var s2 := Issue(s1, RolesCreate);
    assert ApiCreateRole(s1, name) == (s2, Err(Clash(RolesCreate, name)));
    GetRoleFindsFirst(s2, name);
    assert s.calls + [RolesList] + [RolesCreate] + [RolesList] == s.calls + [RolesList, RolesCreate, RolesList];
  }

  // ---------------------------------------------------------------------------
  // Projects
  // ---------------------------------------------------------------------------

  /** Appending an element changes the first match only when there was none. */
  lemma {:induction false} FirstAppend<T(!new)>(xs: seq<T>, x: T, p: T -> bool)
    ensures First(xs + [x], p) == if First(xs, p).Some? then First(xs, p) else if p(x) then Some(x) else None
  {
    if xs != [] {
      assert (xs + [x])[1..] == xs[1..] + [x];
      FirstAppend(xs[1..], x, p);
    } else {
      assert (xs + [x])[1..] == [];
    }
  }

  /** A new project is created exactly once, enabled, in the given domain, with the
      description defaulting to "Project <name>". */
  lemma CreateProjectCreates(s: State, c: Config.OpenStackConfig, name: string, d: Domain, description: string)
    requires ProjectsCreate !in s.faults && First(s.projects, ProjectNamed(name, Some(d))).None?
    ensures var p := Project(s.nextId, name, d.id, ProjectDescription(name, description), true);
      CreateProjectF(s, c, name, Some(d), description) ==
        (s.(projects := s.projects + [p], nextId := s.nextId + 1, calls := s.calls + [ProjectsCreate]), Ok(Some(p)))
  {
    RetryFirstSuccess(DefaultPolicy, CatchAll, CreateProjectStep(c, name, Some(d), description), s);
  }

  /** A project that already exists answers the create with Conflict; it is then looked up and
      returned, and nothing is created. */
  lemma CreateProjectExisting(s: State, c: Config.OpenStackConfig, name: string, d: Domain, description: string)
    requires ProjectsCreate !in s.faults && ProjectsList !in s.faults
    requires First(s.projects, ProjectNamed(name, Some(d))).Some?
    ensures CreateProjectF(s, c, name, Some(d), description) ==
      (s.(calls := s.calls + [ProjectsCreate, ProjectsList]), Ok(First(s.projects, ProjectNamed(name, Some(d)))))
  {
    GetProjectFindsFirst(Issue(s, ProjectsCreate), c, name, d);
    RetryFirstSuccess(DefaultPolicy, CatchAll, CreateProjectStep(c, name, Some(d), description), s);
    assert s.calls + [ProjectsCreate] + [ProjectsList] == s.calls + [ProjectsCreate, ProjectsList];
  }

  /** Creating the same project twice yields the same project and leaves one copy of it. */
  lemma CreateProjectIdempotent(s: State, c: Config.OpenStackConfig, name: string, d: Domain, description: string)
    requires NoFaults(s)
    ensures var (s1, r1) := CreateProjectF(s, c, name, Some(d), description);
      var (s2, r2) := CreateProjectF(s1, c, name, Some(d), description);
      && r1.Ok? && r1.value.Some? && r2 == r1
      && s2.projects == s1.projects && s2.nextId == s1.nextId
      && |Filter(s1.projects, ProjectNamed(name, Some(d)))| == |Filter(s.projects, ProjectNamed(name, Some(d)))| + (if First(s.projects, ProjectNamed(name, Some(d))).None? then 1 else 0)
  {
    var f := ProjectNamed(name, Some(d));
    if First(s.projects, f).None? {
      CreateProjectCreates(s, c, name, d, description);
      var s1 := CreateProjectF(s, c, name, Some(d), description).0;
      var p := Project(s.nextId, name, d.id, ProjectDescription(name, description), true);
      FirstAppend(s.projects, p, f);
      CreateProjectExisting(s1, c, name, d, description);
      FilterAppend(s.projects, p, f);
    } else {
      CreateProjectExisting(s, c, name, d, description);
      var s1 := CreateProjectF(s, c, name, Some(d), description).0;
      CreateProjectExisting(s1, c, name, d, description);
    }
  }

  lemma {:induction false} FilterAppend<T(!new)>(xs: seq<T>, x: T, p: T -> bool)
    ensures Filter(xs + [x], p) == Filter(xs, p) + (if p(x) then [x] else [])
  {
    if xs == [] {
      assert xs + [x] == [x];
    } else {
      assert (xs + [x])[1..] == xs[1..] + [x];
      FilterAppend(xs[1..], x, p);
    }
  }

  /** Without a domain, the configured domain is ensured first (found or created) and the
      project is created in it. */
  lemma CreateProjectConfiguredDomain(s: State, c: Config.OpenStackConfig, name: string, description: string)
    requires NoFaults(s)
    ensures var (s1, dr) := EnsureDomainF(s, c.domainName);
      && dr.Ok? && dr.value.Some? && dr.value.value.name == c.domainName
      && CreateProjectF(s, c, name, None, description) == CreateProjectF(s1, c, name, dr.value, description)
  {
    if First(s.domains, DomainNamed(c.domainName)).Some? {
      EnsureDomainExisting(s, c.domainName);
    } else {
      EnsureDomainCreates(s, c.domainName);
    }
    var (s1, dr) := EnsureDomainF(s, c.domainName);
    assert NoFaults(s1);
    RetryFirstSuccess(DefaultPolicy, CatchAll, CreateProjectStep(c, name, dr.value, description), s1);
    RetryFirstSuccess(DefaultPolicy, CatchAll, CreateProjectStep(c, name, None, description), s);
  }

  /** A project that is not found is reported as not deleted, and nothing changes. */
  lemma DeleteProjectAbsent(s: State, c: Config.OpenStackConfig, name: string, d: Domain)
    requires ProjectsList !in s.faults && First(s.projects, ProjectNamed(name, Some(d))).None?
    ensures DeleteProjectF(s, c, name, Some(d)) == (Issue(s, ProjectsList), false)
  {
    GetProjectFindsFirst(s, c, name, d);
  }

  /** A found project is deleted together with the role assignments held in it. */
  lemma DeleteProjectRemoves(s: State, c: Config.OpenStackConfig, name: string, d: Domain)
    requires ProjectsList !in s.faults && ProjectsDelete !in s.faults
    requires First(s.projects, ProjectNamed(name, Some(d))).Some?
    ensures var p := First(s.projects, ProjectNamed(name, Some(d))).value;
      var (s1, deleted) := DeleteProjectF(s, c, name, Some(d));
      && deleted
      && s1.calls == s.calls + [ProjectsList, ProjectsDelete]
      && (forall q :: q in s1.projects <==> q in s.projects && q.id != p.id)
      && (forall a :: a in s1.assignments <==> a in s.assignments && a.projectId != p.id)
      && s1.domains == s.domains && s1.users == s.users && s1.roles == s.roles
  {
    GetProjectFindsFirst(s, c, name, d);
    var p := First(s.projects, ProjectNamed(name, Some(d))).value;
    assert p in s.projects;
    assert s.calls + [ProjectsList] + [ProjectsDelete] == s.calls + [ProjectsList, ProjectsDelete];
  }

  /** A failing delete call is reported as False and leaves the projects as they were. */
  lemma DeleteProjectFailure(s: State, c: Config.OpenStackConfig, name: string, d: Domain)
    requires ProjectsList !in s.faults && ProjectsDelete in s.faults
    requires First(s.projects, ProjectNamed(name, Some(d))).Some?
    ensures var (s1, deleted) := DeleteProjectF(s, c, name, Some(d));
      !deleted && s1.projects == s.projects && s1.assignments == s.assignments
      && s1.faults == s.faults - multiset{ProjectsDelete}
  {
    GetProjectFindsFirst(s, c, name, d);
  }

  lemma {:induction false} FirstSetEnabled(ps: seq<Project>, id: Id, enabled: bool, name: string, domain: Option<Domain>)
    ensures First(SetEnabled(ps, id, enabled), ProjectNamed(name, domain)) ==
      match First(ps, ProjectNamed(name, domain))
      case None => None
      case Some(q) => Some(if q.id == id then q.(enabled := enabled) else q)
  {
    if ps != [] {
      assert SetEnabled(ps, id, enabled)[1..] == SetEnabled(ps[1..], id, enabled);
      FirstSetEnabled(ps[1..], id, enabled, name, domain);
    }
  }

  lemma SetEnabledTwice(ps: seq<Project>, id: Id, enabled: bool)
    ensures SetEnabled(SetEnabled(ps, id, enabled), id, enabled) == SetEnabled(ps, id, enabled)
  {
  }

  /** A project that is not found is neither enabled nor disabled, and no error is raised. */
  lemma SwitchProjectAbsent(s: State, c: Config.OpenStackConfig, name: string, d: Domain)
    requires ProjectsList !in s.faults && First(s.projects, ProjectNamed(name, Some(d))).None?
    ensures EnableProjectF(s, c, name, Some(d)) == (Issue(s, ProjectsList), Ok(()))
    ensures DisableProjectF(s, c, name, Some(d)) == (Issue(s, ProjectsList), Ok(()))
  {
    GetProjectFindsFirst(s, c, name, d);
  }

  /** Enabling sets the found project's flag and touches no other project. */
  lemma EnableProjectSets(s: State, c: Config.OpenStackConfig, name: string, d: Domain)
    requires ProjectsList !in s.faults && ProjectsUpdate !in s.faults
    requires First(s.projects, ProjectNamed(name, Some(d))).Some?
    ensures var p := First(s.projects, ProjectNamed(name, Some(d))).value;
      EnableProjectF(s, c, name, Some(d)) ==
        (s.(projects := SetEnabled(s.projects, p.id, true), calls := s.calls + [ProjectsList, ProjectsUpdate]), Ok(()))
  {
    GetProjectFindsFirst(s, c, name, d);
    assert First(s.projects, ProjectNamed(name, Some(d))).value in s.projects;
    assert s.calls + [ProjectsList] + [ProjectsUpdate] == s.calls + [ProjectsList, ProjectsUpdate];
  }

  /** An update of a project that the service holds succeeds. */
  lemma UpdateEnabledFound(s: State, p: Project, enabled: bool, q: Project)
    requires ProjectsUpdate !in s.faults && q in s.projects && q.id == p.id
    ensures ApiUpdateProjectEnabled(s, p, enabled) ==
      (Issue(s, ProjectsUpdate).(projects := SetEnabled(s.projects, p.id, enabled)), Ok(()))
  {
  }

  /** Disabling issues the same update twice; the outcome is that of one update. */
  lemma DisableProjectUpdatesTwice(s: State, c: Config.OpenStackConfig, name: string, d: Domain)
    requires ProjectsList !in s.faults && ProjectsUpdate !in s.faults
    requires First(s.projects, ProjectNamed(name, Some(d))).Some?
    ensures var p := First(s.projects, ProjectNamed(name, Some(d))).value;
      DisableProjectF(s, c, name, Some(d)) ==
        (s.(projects := SetEnabled(s.projects, p.id, false), calls := s.calls + [ProjectsList, ProjectsUpdate, ProjectsUpdate]), Ok(()))
  {
    GetProjectFindsFirst(s, c, name, d);
    var p := First(s.projects, ProjectNamed(name, Some(d))).value;
    var s1 := Issue(s, ProjectsList);
    assert GetProjectF(s, c, name, Some(d)) == (s1, Some(p));
    var i :| 0 <= i < |s.projects| && s.projects[i] == p;
    UpdateEnabledFound(s1, p, false, p);
    var s2 := Issue(s1, ProjectsUpdate).(projects := SetEnabled(s.projects, p.id, false));
    UpdateEnabledFound(s2, p, false, s2.projects[i]);
    SetEnabledTwice(s.projects, p.id, false);
    LogThree(s.calls, ProjectsList, ProjectsUpdate, ProjectsUpdate);
  }

  /** Enabling twice leaves the projects as enabling once. */
  lemma EnableProjectIdempotent(s: State, c: Config.OpenStackConfig, name: string, d: Domain)
    requires NoFaults(s)
    ensures var s1 := EnableProjectF(s, c, name, Some(d)).0;
      EnableProjectF(s1, c, name, Some(d)).0.projects == s1.projects
  {
    var f := ProjectNamed(name, Some(d));
    if First(s.projects, f).None? {
      SwitchProjectAbsent(s, c, name, d);
      SwitchProjectAbsent(Issue(s, ProjectsList), c, name, d);
    } else {
      var p := First(s.projects, f).value;
      EnableProjectSets(s, c, name, d);
      var s1 := EnableProjectF(s, c, name, Some(d)).0;
      FirstSetEnabled(s.projects, p.id, true, name, Some(d));
      EnableProjectSets(s1, c, name, d);
      SetEnabledTwice(s.projects, p.id, true);
    }
  }

  /** Disabling twice leaves the projects as disabling once. */
  lemma DisableProjectIdempotent(s: State, c: Config.OpenStackConfig, name: string, d: Domain)
    requires NoFaults(s)
    ensures var s1 := DisableProjectF(s, c, name, Some(d)).0;
      DisableProjectF(s1, c, name, Some(d)).0.projects == s1.projects
  {
    var f := ProjectNamed(name, Some(d));
    if First(s.projects, f).None? {
      SwitchProjectAbsent(s, c, name, d);
      SwitchProjectAbsent(Issue(s, ProjectsList), c, name, d);
    } else {
      var p := First(s.projects, f).value;
      DisableProjectUpdatesTwice(s, c, name, d);
      var s1 := DisableProjectF(s, c, name, Some(d)).0;
      FirstSetEnabled(s.projects, p.id, false, name, Some(d));
      DisableProjectUpdatesTwice(s1, c, name, d);
      SetEnabledTwice(s.projects, p.id, false);
    }
  }
}
