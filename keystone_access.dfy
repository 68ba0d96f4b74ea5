/** What the gateway's token, user and role operations do to the identity service. */
module KeystoneAccess {
  import opened Common
  import opened Utils
  import opened Keystone
  import Config
  import opened KeystoneProps

  // ---------------------------------------------------------------------------
  // Token
  // ---------------------------------------------------------------------------

  /** The session's token is returned after one call when the session answers. */
  lemma GetTokenReturns(s: State)
    requires SessionToken !in s.faults
    ensures GetTokenF(s) == (Issue(s, SessionToken), Ok(s.token))
  {
    RetryFirstSuccess(DefaultPolicy, CatchAll, GetTokenStep(), s);
  }

  /** One transient failure is retried after a one-second delay. */
  lemma GetTokenRecovers(s: State)
    requires s.faults[SessionToken] == 1
    ensures RetryF(DefaultPolicy, CatchAll, GetTokenStep(), s) ==
      Run(s.(faults := s.faults - multiset{SessionToken}, calls := s.calls + [SessionToken, SessionToken]),
          Done(s.token), 2, [1])
  {
    var s1 := Consume(Issue(s, SessionToken), SessionToken);
    assert GetTokenStep()(s) == (s1, Raised(KeystoneClientError(TokenFailedMessage + Failure(SessionToken).Message())));
    assert SessionToken !in s1.faults;
    assert GetTokenStep()(s1) == (Issue(s1, SessionToken), Returned(s1.token));
    assert RetryFrom(DefaultPolicy, CatchAll, GetTokenStep(), s1, 2) == Run(Issue(s1, SessionToken), Done(s.token), 1, []);
    assert Backoff(DefaultPolicy, 1) == 1;
    LogTwo(s.calls, SessionToken, SessionToken);
  }

  /** Three failures in a row exhaust the attempts; the last error is raised, wrapped. */
  lemma GetTokenGivesUp(s: State)
    requires s.faults[SessionToken] >= 3
    ensures var run := RetryF(DefaultPolicy, CatchAll, GetTokenStep(), s);
      && run.calls == 3 && run.delays == [1, 2]
      && run.outcome == Failed(KeystoneClientError(TokenFailedMessage + "session.get_token failed"))
      && run.state.faults[SessionToken] == s.faults[SessionToken] - 3
  {
    var e := KeystoneClientError(TokenFailedMessage + Failure(SessionToken).Message());
    assert Failure(SessionToken).Message() == "session.get_token failed";
    var s1 := Consume(Issue(s, SessionToken), SessionToken);
    var s2 := Consume(Issue(s1, SessionToken), SessionToken);
    var s3 := Consume(Issue(s2, SessionToken), SessionToken);
    assert GetTokenStep()(s) == (s1, Raised(e));
    assert GetTokenStep()(s1) == (s2, Raised(e));
    assert GetTokenStep()(s2) == (s3, Raised(e));
    assert RetryFrom(DefaultPolicy, CatchAll, GetTokenStep(), s2, 3) == Run(s3, Failed(e), 1, []);
    assert Backoff(DefaultPolicy, 2) == 2;
    assert RetryFrom(DefaultPolicy, CatchAll, GetTokenStep(), s1, 2) == Run(s3, Failed(e), 2, [2]);
    assert Backoff(DefaultPolicy, 1) == 1;
  }

  /** Two transient failures are retried; the third attempt returns the token. */
  lemma GetTokenRecoversTwice(s: State)
    requires s.faults[SessionToken] == 2
    ensures GetTokenF(s).1 == Ok(s.token)
  {
    var e := KeystoneClientError(TokenFailedMessage + Failure(SessionToken).Message());
    var s1 := Consume(Issue(s, SessionToken), SessionToken);
    var s2 := Consume(Issue(s1, SessionToken), SessionToken);
    assert GetTokenStep()(s) == (s1, Raised(e));
    assert GetTokenStep()(s1) == (s2, Raised(e));
    assert SessionToken !in s2.faults && s2.token == s.token;
    assert GetTokenStep()(s2) == (Issue(s2, SessionToken), Returned(s.token));
    assert RetryFrom(DefaultPolicy, CatchAll, GetTokenStep(), s2, 3) == Run(Issue(s2, SessionToken), Done(s.token), 1, []);
    assert Backoff(DefaultPolicy, 2) == 2;
    assert RetryFrom(DefaultPolicy, CatchAll, GetTokenStep(), s1, 2).outcome == Done(s.token);
    assert Backoff(DefaultPolicy, 1) == 1;
  }

  /** `get_token` returns the session's token unless the session fails on all three attempts. */
  lemma GetTokenOutcome(s: State)
    ensures GetTokenF(s).1 ==
      if s.faults[SessionToken] >= 3 then Err(KeystoneClientError(TokenFailedMessage + "session.get_token failed"))
      else Ok(s.token)
  {
    if s.faults[SessionToken] == 0 {
      GetTokenReturns(s);
    } else if s.faults[SessionToken] == 1 {
      GetTokenRecovers(s);
    } else if s.faults[SessionToken] == 2 {
      GetTokenRecoversTwice(s);
    } else {
      GetTokenGivesUp(s);
    }
  }

  // ---------------------------------------------------------------------------
  // Users
  // ---------------------------------------------------------------------------

  /** An existing user is returned as it was listed; its email is updated when it differs from
      a given email and email syncing is on. */
  lemma EnsureUserExisting(s: State, c: Config.OpenStackConfig, username: string, email: Option<string>,
                           d: Domain, enabled: Option<bool>)
    requires UsersList !in s.faults && UsersUpdate !in s.faults
    requires First(s.users, UserNamed(username, Some(d))).Some?
    ensures var u := First(s.users, UserNamed(username, Some(d))).value;
      EnsureUserF(s, c, username, email, Some(d), enabled) ==
        if EmailNeedsSync(c, u, email) then
          (s.(users := SetEmail(s.users, u.id, email.value), calls := s.calls + [UsersList, UsersUpdate]), Ok(Some(u)))
        else (Issue(s, UsersList), Ok(Some(u)))
  {
    GetUserFindsFirst(s, c, username, d);
    var u := First(s.users, UserNamed(username, Some(d))).value;
    assert u in s.users;
    RetryFirstSuccess(DefaultPolicy, CatchAll, EnsureUserStep(c, username, email, Some(d), enabled), s);
    LogTwo(s.calls, UsersList, UsersUpdate);
  }

  /** A failing email update is ignored: the user is still returned and nothing is retried. */
  lemma EnsureUserIgnoresEmailFailure(s: State, c: Config.OpenStackConfig, username: string, email: Option<string>,
                                      d: Domain, enabled: Option<bool>)
    requires UsersList !in s.faults && UsersUpdate in s.faults
    requires First(s.users, UserNamed(username, Some(d))).Some?
    requires EmailNeedsSync(c, First(s.users, UserNamed(username, Some(d))).value, email)
    ensures var (s1, r) := EnsureUserF(s, c, username, email, Some(d), enabled);
      && r == Ok(First(s.users, UserNamed(username, Some(d))))
      && s1.users == s.users
      && s1.calls == s.calls + [UsersList, UsersUpdate]
  {
    GetUserFindsFirst(s, c, username, d);
    RetryFirstSuccess(DefaultPolicy, CatchAll, EnsureUserStep(c, username, email, Some(d), enabled), s);
    LogTwo(s.calls, UsersList, UsersUpdate);
  }

  /** A missing user is created in the domain, enabled as asked or by the configured default. */
  lemma EnsureUserCreates(s: State, c: Config.OpenStackConfig, username: string, email: Option<string>,
                          d: Domain, enabled: Option<bool>)
    requires UsersList !in s.faults && UsersCreate !in s.faults && c.createUsersIfNotExist
    requires First(s.users, UserNamed(username, Some(d))).None?
    ensures var u := User(s.nextId, username, d.id, email, if enabled.None? then c.userEnabledByDefault else enabled.value);
      EnsureUserF(s, c, username, email, Some(d), enabled) ==
        (s.(users := s.users + [u], nextId := s.nextId + 1, calls := s.calls + [UsersList, UsersCreate]), Ok(Some(u)))
  {
    GetUserFindsFirst(s, c, username, d);
    RetryFirstSuccess(DefaultPolicy, CatchAll, EnsureUserStep(c, username, email, Some(d), enabled), s);
    LogTwo(s.calls, UsersList, UsersCreate);
  }

  /** With auto-creation off, a missing user raises; the raise is retried, so the lookup is made
      three times, with delays of 1 and 2 seconds. */
  lemma EnsureUserNoAutoCreate(s: State, c: Config.OpenStackConfig, username: string, email: Option<string>,
                               d: Domain, enabled: Option<bool>)
    requires UsersList !in s.faults && !c.createUsersIfNotExist
    requires First(s.users, UserNamed(username, Some(d))).None?
    ensures var run := RetryF(DefaultPolicy, CatchAll, EnsureUserStep(c, username, email, Some(d), enabled), s);
      && run.calls == 3 && run.delays == [1, 2]
      && run.outcome == Failed(KeystoneClientError(UserNotFoundMessage(username)))
      && run.state == s.(calls := s.calls + [UsersList, UsersList, UsersList])
    ensures EnsureUserF(s, c, username, email, Some(d), enabled).1 == Err(KeystoneClientError(UserNotFoundMessage(username)))
  {
    var step := EnsureUserStep(c, username, email, Some(d), enabled);
    var e := KeystoneClientError(UserNotFoundMessage(username));
    var s1 := Issue(s, UsersList);
    var s2 := Issue(s1, UsersList);
    var s3 := Issue(s2, UsersList);
    GetUserFindsFirst(s, c, username, d);
    GetUserFindsFirst(s1, c, username, d);
    GetUserFindsFirst(s2, c, username, d);
    assert step(s) == (s1, Raised(e));
    assert step(s1) == (s2, Raised(e));
    assert step(s2) == (s3, Raised(e));
    assert RetryFrom(DefaultPolicy, CatchAll, step, s2, 3) == Run(s3, Failed(e), 1, []);
    assert Backoff(DefaultPolicy, 2) == 2;
    assert RetryFrom(DefaultPolicy, CatchAll, step, s1, 2) == Run(s3, Failed(e), 2, [2]);
    assert Backoff(DefaultPolicy, 1) == 1;
    LogThree(s.calls, UsersList, UsersList, UsersList);
  }

  // ---------------------------------------------------------------------------
  // Roles
  // ---------------------------------------------------------------------------

  /** `assign_role` never raises, so its retry decorator makes exactly one call. */
  lemma AssignRoleSingleCall(s: State, user: User, project: Project, roleName: string)
    ensures var run := RetryF(DefaultPolicy, CatchAll, AssignRoleStep(Some(user), Some(project), roleName), s);
      run.calls == 1 && run.delays == [] && run.outcome.Done?
    ensures AssignRoleF(s, Some(user), Some(project), roleName).1.Ok?
  {
    RetryFirstSuccess(DefaultPolicy, CatchAll, AssignRoleStep(Some(user), Some(project), roleName), s);
  }

  /** A role held by neither side is granted: the assignment is added and True returned. */
  lemma AssignRoleGrants(s: State, user: User, project: Project, roleName: string)
    requires RolesList !in s.faults && RolesGrant !in s.faults
    requires First(s.roles, RoleNamed(roleName)).Some? && HasUser(s, user.id) && HasProject(s, project.id)
    requires Assignment(user.id, project.id, First(s.roles, RoleNamed(roleName)).value.id) !in s.assignments
    ensures var a := Assignment(user.id, project.id, First(s.roles, RoleNamed(roleName)).value.id);
      AssignRoleF(s, Some(user), Some(project), roleName) ==
        (s.(assignments := s.assignments + [a], calls := s.calls + [RolesList, RolesGrant]), Ok(true))
  {
    GetRoleFindsFirst(s, roleName);
    assert First(s.roles, RoleNamed(roleName)).value in s.roles;
    RetryFirstSuccess(DefaultPolicy, CatchAll, AssignRoleStep(Some(user), Some(project), roleName), s);
    LogTwo(s.calls, RolesList, RolesGrant);
  }

  /** A role already assigned answers the grant with Conflict, which counts as success. */
  lemma AssignRoleAlreadyHeld(s: State, user: User, project: Project, roleName: string)
    requires RolesList !in s.faults && RolesGrant !in s.faults
    requires First(s.roles, RoleNamed(roleName)).Some? && HasUser(s, user.id) && HasProject(s, project.id)
    requires Assignment(user.id, project.id, First(s.roles, RoleNamed(roleName)).value.id) in s.assignments
    ensures AssignRoleF(s, Some(user), Some(project), roleName) == (s.(calls := s.calls + [RolesList, RolesGrant]), Ok(true))
  {
    GetRoleFindsFirst(s, roleName);
    assert First(s.roles, RoleNamed(roleName)).value in s.roles;
    RetryFirstSuccess(DefaultPolicy, CatchAll, AssignRoleStep(Some(user), Some(project), roleName), s);
    LogTwo(s.calls, RolesList, RolesGrant);
  }

  /** Any other failure of the grant gives False, once, with the assignments unchanged. */
  lemma AssignRoleGrantFails(s: State, user: User, project: Project, roleName: string)
    requires RolesList !in s.faults && RolesGrant in s.faults
    requires First(s.roles, RoleNamed(roleName)).Some?
    ensures var (s1, r) := AssignRoleF(s, Some(user), Some(project), roleName);
      r == Ok(false) && s1.assignments == s.assignments && s1.calls == s.calls + [RolesList, RolesGrant]
  {
    GetRoleFindsFirst(s, roleName);
    RetryFirstSuccess(DefaultPolicy, CatchAll, AssignRoleStep(Some(user), Some(project), roleName), s);
    LogTwo(s.calls, RolesList, RolesGrant);
  }

  /** A user the service does not hold cannot be granted a role: False. */
  lemma AssignRoleUnknownUser(s: State, user: User, project: Project, roleName: string)
    requires RolesList !in s.faults && RolesGrant !in s.faults
    requires First(s.roles, RoleNamed(roleName)).Some? && !HasUser(s, user.id)
    ensures var (s1, r) := AssignRoleF(s, Some(user), Some(project), roleName);
      r == Ok(false) && s1.assignments == s.assignments
  {
    GetRoleFindsFirst(s, roleName);
    RetryFirstSuccess(DefaultPolicy, CatchAll, AssignRoleStep(Some(user), Some(project), roleName), s);
  }

  /** Revoking a role that does not exist gives False without a revoke call. */
  lemma RevokeRoleMissingRole(s: State, user: User, project: Project, roleName: string)
    requires RolesList !in s.faults && First(s.roles, RoleNamed(roleName)).None?
    ensures RevokeRoleF(s, user, project, roleName) == (Issue(s, RolesList), false)
  {
    GetRoleFindsFirst(s, roleName);
  }

  /** Revoking a held role removes exactly that assignment. */
  lemma RevokeRoleRemoves(s: State, user: User, project: Project, roleName: string)
    requires RolesList !in s.faults && RolesRevoke !in s.faults && First(s.roles, RoleNamed(roleName)).Some?
    requires Assignment(user.id, project.id, First(s.roles, RoleNamed(roleName)).value.id) in s.assignments
    ensures var a := Assignment(user.id, project.id, First(s.roles, RoleNamed(roleName)).value.id);
      var (s1, revoked) := RevokeRoleF(s, user, project, roleName);
      && revoked
      && (forall b :: b in s1.assignments <==> b in s.assignments && b != a)
      && s1.calls == s.calls + [RolesList, RolesRevoke]
  {
    GetRoleFindsFirst(s, roleName);
    LogTwo(s.calls, RolesList, RolesRevoke);
  }

  /** Revoking a role that is not held gives False and changes no assignment. */
  lemma RevokeRoleNotHeld(s: State, user: User, project: Project, roleName: string)
    requires RolesList !in s.faults && RolesRevoke !in s.faults && First(s.roles, RoleNamed(roleName)).Some?
    requires Assignment(user.id, project.id, First(s.roles, RoleNamed(roleName)).value.id) !in s.assignments
    ensures var (s1, revoked) := RevokeRoleF(s, user, project, roleName);
      !revoked && s1.assignments == s.assignments
  {
    GetRoleFindsFirst(s, roleName);
  }

  // ---------------------------------------------------------------------------
  // Revoking every role of a user in a project
  // ---------------------------------------------------------------------------

  /** Every listed assignment gets its own revoke call, whatever the earlier ones did. */
  lemma {:induction false} RevokeEachTriesAll(s: State, user: User, project: Project, listed: seq<Assignment>)
    ensures var s1 := RevokeEach(s, user, project, listed).0;
      && |s1.calls| == |s.calls| + |listed|
      && s1.calls[..|s.calls|] == s.calls
      && (forall i :: |s.calls| <= i < |s1.calls| ==> s1.calls[i] == RolesRevoke)
    decreases |listed|
  {
    if listed != [] {
      var s1 := ApiRevoke(s, listed[0].roleId, user.id, project.id).0;
      RevokeIssues(s, listed[0].roleId, user.id, project.id);
      RevokeEachTriesAll(s1, user, project, listed[1..]);
      RevokeEachStep(s, user, project, listed);
      LogExtends(s.calls, RolesRevoke, RevokeEach(s1, user, project, listed[1..]).0.calls, |listed| - 1);
    }
  }

  /** A revoke call is always logged, whatever it does to the assignments. */
  lemma RevokeIssues(s: State, roleId: Id, userId: Id, projectId: Id)
    ensures ApiRevoke(s, roleId, userId, projectId).0.calls == s.calls + [RolesRevoke]
  {
  }

  lemma RevokeEachStep(s: State, user: User, project: Project, listed: seq<Assignment>)
    requires listed != []
    ensures RevokeEach(s, user, project, listed).0 ==
      RevokeEach(ApiRevoke(s, listed[0].roleId, user.id, project.id).0, user, project, listed[1..]).0
  {
  }

  /** A log that extends `log + [x]` by `n` more entries `x` extends `log` by `n + 1` of them. */
  lemma LogExtends(log: seq<Call>, x: Call, log2: seq<Call>, n: nat)
    requires |log2| == |log| + 1 + n && log2[..|log| + 1] == log + [x]
    requires forall i :: |log| + 1 <= i < |log2| ==> log2[i] == x
    ensures log2[..|log|] == log
    ensures forall i :: |log| <= i < |log2| ==> log2[i] == x
  {
    assert log2[..|log|] == log2[..|log| + 1][..|log|];
    assert log2[|log|] == (log + [x])[|log|];
  }

  /** A revoke that fails makes the result False, though the others are still attempted. */
  lemma {:induction false} RevokeEachReportsFailure(s: State, user: User, project: Project, listed: seq<Assignment>, k: nat)
    requires k < |listed|
    requires RolesRevoke !in s.faults && forall i :: 0 <= i < k ==> listed[i] != listed[k]
    requires Assignment(user.id, project.id, listed[k].roleId) !in s.assignments
    ensures !RevokeEach(s, user, project, listed).1
    decreases |listed|
  {
    if k > 0 {
      var (s1, _) := ApiRevoke(s, listed[0].roleId, user.id, project.id);
      assert forall i :: 0 <= i < k - 1 ==> listed[1..][i] != listed[1..][k - 1];
      RevokeEachReportsFailure(s1, user, project, listed[1..], k - 1);
    }
  }

  /** Without failures, every listed assignment of the user in the project is removed and
      nothing else. */
  lemma {:induction false} RevokeEachRemoves(s: State, user: User, project: Project, listed: seq<Assignment>)
    requires RolesRevoke !in s.faults && NoDup(listed)
    requires forall a :: a in listed ==> a in s.assignments && a.userId == user.id && a.projectId == project.id
    ensures var (s1, ok) := RevokeEach(s, user, project, listed);
      && ok
      && (forall a :: a in s1.assignments <==> a in s.assignments && a !in listed)
      && s1.projects == s.projects && s1.users == s.users && s1.roles == s.roles && s1.faults == s.faults
    decreases |listed|
  {
    if listed != [] {
      var a := listed[0];
      assert Assignment(user.id, project.id, a.roleId) == a;
      var (s1, x) := ApiRevoke(s, a.roleId, user.id, project.id);
      assert x.Ok?;
      forall b | b in listed[1..]
        ensures b in s1.assignments && b.userId == user.id && b.projectId == project.id
      {
        var i :| 0 <= i < |listed[1..]| && listed[1..][i] == b;
        assert listed[i + 1] == b && b != a;
      }
      assert NoDup(listed[1..]) by {
        forall i, j | 0 <= i < j < |listed[1..]| ensures listed[1..][i] != listed[1..][j] {
          assert listed[1..][i] == listed[i + 1] && listed[1..][j] == listed[j + 1];
        }
      }
      RevokeEachRemoves(s1, user, project, listed[1..]);
      assert listed == [a] + listed[1..];
    }
  }

  lemma {:induction false} FilterNoDup<T(!new)>(xs: seq<T>, p: T -> bool)
    requires NoDup(xs)
    ensures NoDup(Filter(xs, p))
  {
    if xs != [] {
      assert NoDup(xs[1..]) by {
        forall i, j | 0 <= i < j < |xs[1..]| ensures xs[1..][i] != xs[1..][j] {
          assert xs[1..][i] == xs[i + 1] && xs[1..][j] == xs[j + 1];
        }
      }
      FilterNoDup(xs[1..], p);
      var rest := Filter(xs[1..], p);
      if p(xs[0]) {
        assert Filter(xs, p) == [xs[0]] + rest;
      }
    }
  }

  /** The service never holds the same assignment twice: a grant refuses one that is held, and
      deleting a project or revoking a role only filters. No other call writes the assignments. */
  lemma StoreKeepsNoDup(s: State, role: Option<Role>, user: Option<User>, project: Option<Project>,
                        roleId: Id, userId: Id, projectId: Id, p: Project)
    requires NoDup(s.assignments)
    ensures NoDup(ApiGrant(s, role, user, project).0.assignments)
    ensures NoDup(ApiRevoke(s, roleId, userId, projectId).0.assignments)
    ensures NoDup(ApiDeleteProject(s, p).0.assignments)
  {
    FilterNoDup(s.assignments, AssignmentOther(Assignment(userId, projectId, roleId)));
    FilterNoDup(s.assignments, AssignmentOutside(p.id));
  }

  /** With no failures, revoking all roles succeeds and removes exactly the user's assignments in
      the project. Assignments are held without duplicates, as the service keeps them. */
  lemma RevokeAllRemovesEverything(s: State, user: User, project: Project)
    requires AssignmentsList !in s.faults && RolesRevoke !in s.faults && NoDup(s.assignments)
    ensures var (s1, ok) := RevokeAllF(s, user, project);
      && ok
      && (forall a :: a in s1.assignments <==> a in s.assignments && !(a.userId == user.id && a.projectId == project.id))
      && s1.projects == s.projects && s1.users == s.users && s1.roles == s.roles
  {
    var listed := Filter(s.assignments, AssignmentOf(user.id, project.id));
    FilterNoDup(s.assignments, AssignmentOf(user.id, project.id));
    RevokeEachRemoves(Issue(s, AssignmentsList), user, project, listed);
  }

  /** When a listed revoke fails, the whole operation reports False. */
  lemma RevokeAllReportsFailure(s: State, user: User, project: Project)
    requires AssignmentsList !in s.faults && RolesRevoke in s.faults
    requires Filter(s.assignments, AssignmentOf(user.id, project.id)) != []
    ensures !RevokeAllF(s, user, project).1
  {
  }

  /** A user with no roles in the project: True after one listing call. */
  lemma RevokeAllNothingHeld(s: State, user: User, project: Project)
    requires AssignmentsList !in s.faults
    requires forall a :: a in s.assignments ==> !(a.userId == user.id && a.projectId == project.id)
    ensures RevokeAllF(s, user, project) == (Issue(s, AssignmentsList), true)
  {
    FilterHead(s.assignments, AssignmentOf(user.id, project.id));
  }
}
