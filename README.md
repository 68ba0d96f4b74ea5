# waldur-site-agent OpenStack plugin, modelled in Dafny

This project models the OpenStack plugin of waldur-site-agent. The plugin keeps one Keystone
project per Waldur resource and a set of role assignments per project member. It has four
layers, and each layer is a module here:

- `Utils` (`utils.py`): the name sanitiser, backend-id validation, the `retry_on_exception`
  wrapper loop and the nested dictionary lookup `get_safe_dict_value`.
- `Config` (`config.py`): `OpenStackConfig`. This covers its fields and declared defaults,
  `__post_init__`'s domain-name defaulting, `from_backend_settings`, the ordered rules of
  `validate`, the authentication parameters and the password-masked logging view.
- `Keystone` (`keystone_client.py`): the `KeystoneClient` gateway.
  - The identity service is a `State` value. It holds domains, projects, users, roles and role
    assignments in listing order, the next id, the session token and a log of the API calls
    issued.
  - A fault oracle (`faults`, a multiset of call kinds) makes the next call of a kind fail once
    for each occurrence. With it, "a lookup error collapses to None" and "a Conflict means look
    it up again" can both be stated.
  - A Conflict is never injected. It comes from the store itself, when a name is created twice.
  - Each gateway operation is a function `XF(state, config, …)` giving the new state and the
    result.
  - The class `KeystoneClient` holds the state in a field. Each of its methods is proved to do
    what that function says.
  - The operations decorated with `@retry_on_exception` run through the retry model of `Utils`.
- `OpenStack` (`openstack_client.py`): the `OpenStackClient` adapter. It maps resources to
  projects and associations to role assignments. It has the same split: functions over the
  state, and a class whose methods are proved against them.
- `Backends` (`backends.py`): `OpenStackBackend` and `OpenStackUsernameManagementBackend`
  (here `UsernameBackend`). They cover:
  - backend-id extraction;
  - create keyed by the resource uuid;
  - delete guarded by a blank id;
  - adding and removing users with per-user failure isolation;
  - diagnostics;
  - pause, downscale and restore;
  - the usage report;
  - username generation and lookup.

The modules `KeystoneProps`, `KeystoneAccess`, `OpenStackProps` and `BackendsProps` hold the
lemmas that state what the operations promise.

Some behaviours of the code are kept as written, not corrected:

- `assign_role` catches every exception, so its retry decorator calls it exactly once.
- `disable_project` issues the same update twice.
- A failing role lookup does not fail `diagnostics`.
- The add path refuses a missing project, although `create_association` would create one.
- When validation rejects a backend id, the error handlers of `add_users_to_resource` and
  `remove_users_from_resource` read `project_name` before it is bound. The model returns the
  resulting `UnboundLocalError`.

Where the written code and its description differ, the model follows the code. The adapter's
`delete_resource` is described as wrapping errors in `KeystoneClientError`. The gateway's
`delete_project` reports every failure as `False`, though, so that wrapping never happens: a
failed delete gives the "not found" message.

## Model

| member | source | states |
|---|---|---|
| Utils.ReplaceSpaces | waldur_site_agent_openstack/utils.py:147-148 | every space becomes `_`; every other character and the length are kept |
| Utils.KeepAllowed | waldur_site_agent_openstack/utils.py:150-151 | the result uses only `[A-Za-z0-9_.-]` and is no longer than the input |
| Utils.StripLeading | waldur_site_agent_openstack/utils.py:153-154 | the result is a suffix of the input that starts with an alphanumeric, and everything dropped is non-alphanumeric |
| Utils.KeepAllowedFixes | waldur_site_agent_openstack/utils.py:150-151 | a string of allowed characters passes the character filter unchanged |
| Utils.KeepAllowedKeepsAlnum | waldur_site_agent_openstack/utils.py:150-151 | an alphanumeric character of the input survives the filter |
| Utils.KeepAllowedNoAlnum | waldur_site_agent_openstack/utils.py:150-151 | an input without alphanumerics gives a filtered string without alphanumerics |
| Utils.SanitizeShape | waldur_site_agent_openstack/utils.py:130-164 | the sanitised name is never empty, uses only `[A-Za-z0-9_.-]`, starts with an alphanumeric and is not all digits |
| Utils.SanitizeFixesValid | waldur_site_agent_openstack/utils.py:130-164 | a name that already has that shape is returned unchanged |
| Utils.SanitizeIdempotent | waldur_site_agent_openstack/utils.py:130-164 | sanitising twice gives the same name as sanitising once, for every string |
| Utils.SanitizeNoAlnumFallback | waldur_site_agent_openstack/utils.py:160-162 | a name with no alphanumeric character becomes `sanitizer_default_name` |
| Utils.SanitizeDigitsFallback | waldur_site_agent_openstack/utils.py:156-158 | an all-digit name becomes `project_` followed by the digits |
| Utils.SanitizeKeepsUuid | waldur_site_agent_openstack/utils.py:130-164 | a canonical UUID string (section 3 of RFC 4122) is returned unchanged |
| Utils.ValidateBackendId | waldur_site_agent_openstack/utils.py:167-190 | accepted (True) iff the id is non-empty and at most 255 characters; otherwise ValueError with the empty or too-long message |
| Utils.Backoff | waldur_site_agent_openstack/utils.py:112-113 | the delay is the smaller of `max_delay` and `base_delay * exponential_base^(attempt-1)`: at most both, and equal to one of them |
| Utils.RetryFromMeaning | waldur_site_agent_openstack/utils.py:100-124 | from a given attempt on, the wrapper stops at the first call that returns, at an uncaught exception, or when the attempts run out; the earlier calls all raised caught exceptions |
| Utils.RetryMeaning | waldur_site_agent_openstack/utils.py:68-127 | at most `max_attempts` calls; the first non-raising call's value is returned; an uncaught exception propagates at once; after `max_attempts` caught failures the last one is re-raised; with 0 attempts nothing is called and RuntimeError is raised; each sleep is the backoff delay |
| Utils.RetryFirstSuccess | waldur_site_agent_openstack/utils.py:100-102 | a function whose first call returns is called exactly once, with no sleep |
| Utils.Retry | waldur_site_agent_openstack/utils.py:96-124 | the wrapper loop computes the retry specification: final state, outcome, call count and delays |
| Utils.PathConcat | waldur_site_agent_openstack/utils.py:238-245 | following `a + b` is following `a`, then `b` from where it led |
| Utils.PathStopsAtMissingKey | waldur_site_agent_openstack/utils.py:240-244 | once a key is missing, or an intermediate value is not a dictionary, the lookup gives nothing |
| Utils.GetSafeDictValue | waldur_site_agent_openstack/utils.py:219-245 | returns the value reached by following the keys, else `default`; with no keys, `data` itself |
| Config.Default | waldur_site_agent_openstack/config.py:24-66 | exactly the three required fields have no default, and every default has its field's declared type |
| Config.AsDict | waldur_site_agent_openstack/config.py:24-66 | the dictionary holds every field with the record's value |
| Config.PostInit | waldur_site_agent_openstack/config.py:68-73 | a None user or project domain name becomes `domain_name`; a set one and every other field are kept |
| Config.PostInitSettles | waldur_site_agent_openstack/config.py:68-73 | afterwards both domain names are set, and running it again changes nothing |
| Config.Supplied | waldur_site_agent_openstack/config.py:100-108 | a field's value is the supplied one, else its default, always of the declared type |
| Config.ConstructGet | waldur_site_agent_openstack/config.py:100-108 | each constructed field is the supplied-or-default value, with the two domain names defaulted by `__post_init__` |
| Config.ConstructAsDict | waldur_site_agent_openstack/config.py:100-108 | building from a constructed record's own fields gives back that record |
| Config.Missing | waldur_site_agent_openstack/config.py:91-94 | the list holds the name of every absent field given and nothing present |
| Config.Fields | waldur_site_agent_openstack/config.py:100-103 | the filtered settings hold exactly the keys that are dataclass fields, with their values |
| Config.MissingRequired | waldur_site_agent_openstack/config.py:91-94 | the missing-key list is the absent required keys in the order `auth_url`, `username`, `password` |
| Config.FromBackendSettingsRequired | waldur_site_agent_openstack/config.py:75-108 | construction fails iff a required key is absent, with a ValueError that names the missing keys in order |
| Config.UnknownKeysIgnored | waldur_site_agent_openstack/config.py:100-103 | settings that agree on every field key give the same result, whatever else they hold |
| Config.SuppliedOverridesDefault | waldur_site_agent_openstack/config.py:100-108 | a supplied field overrides its default, and an absent optional field keeps its declared default |
| Config.FromSettingsRoundTrip | waldur_site_agent_openstack/config.py:75-108 | settings carrying a constructed record's fields give back that record |
| Config.Validate | waldur_site_agent_openstack/config.py:110-146 | a success always carries True, and every failure is a ValueError |
| Config.ValidateAcceptsIff | waldur_site_agent_openstack/config.py:120-146 | validation succeeds iff every rule holds: URL scheme, non-empty credentials, known interface, non-negative attempts and delay |
| Config.ValidateReportsFirstFailure | waldur_site_agent_openstack/config.py:120-143 | a failure carries the message of the first failing rule in the order URL, credentials, interface, attempts, delay, and every earlier rule holds |
| Config.ValidateAcceptsDefaults | waldur_site_agent_openstack/config.py:120-146 | with the defaults for interface and retries, validation succeeds iff the URL scheme and the credentials are acceptable |
| Config.GetKeystoneAuthParams | waldur_site_agent_openstack/config.py:148-162 | exactly the six authentication fields, with the record's values |
| Config.SanitizeForLogging | waldur_site_agent_openstack/config.py:164-188 | every field with the record's value, except that the password is `***REDACTED***` |
| Config.LoggingHidesPassword | waldur_site_agent_openstack/config.py:164-188 | the logged dictionary does not depend on the password |
| Keystone.KeystoneClient.GetToken | waldur_site_agent_openstack/keystone_client.py:92-104 | the new service state and the outcome are those of `get_token` under the retry wrapper |
| Keystone.KeystoneClient.GetDomain | waldur_site_agent_openstack/keystone_client.py:106-113 | state and result are those of `get_domain` |
| Keystone.KeystoneClient.EnsureDomain | waldur_site_agent_openstack/keystone_client.py:115-131 | state and result are those of `ensure_domain` |
| Keystone.KeystoneClient.GetProject | waldur_site_agent_openstack/keystone_client.py:137-147 | state and result are those of `get_project` |
| Keystone.KeystoneClient.GetResource | waldur_site_agent_openstack/keystone_client.py:149-183 | state and result are those of `get_resource` |
| Keystone.KeystoneClient.CreateProject | waldur_site_agent_openstack/keystone_client.py:185-206 | state and result are those of the retried `create_project` |
| Keystone.KeystoneClient.DeleteProject | waldur_site_agent_openstack/keystone_client.py:208-221 | state and result are those of `delete_project` |
| Keystone.KeystoneClient.EnableProject | waldur_site_agent_openstack/keystone_client.py:223-228 | state and result are those of `enable_project` |
| Keystone.KeystoneClient.DisableProject | waldur_site_agent_openstack/keystone_client.py:230-242 | state and result are those of `disable_project`, with its two updates |
| Keystone.KeystoneClient.GetUser | waldur_site_agent_openstack/keystone_client.py:244-254 | state and result are those of `get_user` |
| Keystone.KeystoneClient.EnsureUser | waldur_site_agent_openstack/keystone_client.py:256-298 | state and result are those of the retried `ensure_user` |
| Keystone.KeystoneClient.GetRole | waldur_site_agent_openstack/keystone_client.py:300-307 | state and result are those of `get_role` |
| Keystone.KeystoneClient.EnsureRole | waldur_site_agent_openstack/keystone_client.py:309-323 | state and result are those of `ensure_role` |
| Keystone.KeystoneClient.AssignRole | waldur_site_agent_openstack/keystone_client.py:325-338 | state and result are those of the decorated `assign_role` |
| Keystone.KeystoneClient.RevokeRole | waldur_site_agent_openstack/keystone_client.py:340-352 | state and result are those of `revoke_role` |
| Keystone.KeystoneClient.RevokeAllProjectRoles | waldur_site_agent_openstack/keystone_client.py:354-376 | the revoke loop, with its `success` flag, gives the state and result of `revoke_all_project_roles` |
| KeystoneProps.GetDomainFindsFirst | waldur_site_agent_openstack/keystone_client.py:106-113 | without a listing failure, the first domain with the name, else None; a listing failure gives None |
| KeystoneProps.GetRoleFindsFirst | waldur_site_agent_openstack/keystone_client.py:300-307 | without a listing failure, the first role with the name, else None; a listing failure gives None |
| KeystoneProps.GetProjectFindsFirst | waldur_site_agent_openstack/keystone_client.py:137-147 | in a given domain, the first project with the name in that domain, else None; a listing failure gives None |
| KeystoneProps.GetResourceFound | waldur_site_agent_openstack/keystone_client.py:149-183 | without failures, the six-key dictionary of the project found in the configured domain, and None when there is none |
| KeystoneProps.GetProjectDefaultDomain | waldur_site_agent_openstack/keystone_client.py:137-147 | without a domain, the lookup is in the configured domain, or in every domain when that one is not found |
| KeystoneProps.GetUserFindsFirst | waldur_site_agent_openstack/keystone_client.py:244-254 | the first user with the name in the domain, else None; a listing failure gives None |
| KeystoneProps.EnsureDomainExisting | waldur_site_agent_openstack/keystone_client.py:115-123 | an existing domain is returned and nothing is created |
| KeystoneProps.EnsureDomainCreates | waldur_site_agent_openstack/keystone_client.py:115-131 | a missing domain is created exactly once, enabled, with the fixed description, and returned |
| KeystoneProps.EnsureDomainConflictRelooks | waldur_site_agent_openstack/keystone_client.py:124-131 | when the lookup fails although the domain exists, the create answers Conflict and the domain is looked up again and returned, with nothing created |
| KeystoneProps.EnsureRoleExisting | waldur_site_agent_openstack/keystone_client.py:309-315 | an existing role is returned and nothing is created |
| KeystoneProps.EnsureRoleCreates | waldur_site_agent_openstack/keystone_client.py:309-323 | a missing role is created exactly once and returned |
| KeystoneProps.EnsureRoleConflictRelooks | waldur_site_agent_openstack/keystone_client.py:316-321 | a Conflict on create is resolved by looking the role up again |
| KeystoneProps.FirstAppend | waldur_site_agent_openstack/keystone_client.py:137-147 | appending an entity changes the first match of a lookup only when there was none |
| KeystoneProps.CreateProjectCreates | waldur_site_agent_openstack/keystone_client.py:185-206 | a new project is created exactly once, enabled, in the given domain; an empty description becomes `Project {name}` |
| KeystoneProps.CreateProjectExisting | waldur_site_agent_openstack/keystone_client.py:197-202 | an existing project answers the create with Conflict, is looked up and returned, and nothing is created |
| KeystoneProps.CreateProjectIdempotent | waldur_site_agent_openstack/keystone_client.py:185-206 | creating the same project twice returns the same project and leaves one copy of it |
| KeystoneProps.FilterAppend | waldur_site_agent_openstack/keystone_client.py:137-147 | a filtered listing of an extended store is the old listing plus the new entity when it matches |
| KeystoneProps.CreateProjectConfiguredDomain | waldur_site_agent_openstack/keystone_client.py:190-193 | without a domain, the configured domain is ensured first (found or created) and the project is created in it |
| KeystoneProps.DeleteProjectAbsent | waldur_site_agent_openstack/keystone_client.py:208-215 | a project that is not found gives False and nothing changes |
| KeystoneProps.DeleteProjectRemoves | waldur_site_agent_openstack/keystone_client.py:208-221 | a found project is removed together with the role assignments held in it, and True is returned |
| KeystoneProps.DeleteProjectFailure | waldur_site_agent_openstack/keystone_client.py:217-221 | a failing delete call gives False and leaves the projects as they were |
| KeystoneProps.FirstSetEnabled | waldur_site_agent_openstack/keystone_client.py:223-238 | changing a project's enabled flag does not change which project a lookup finds |
| KeystoneProps.SetEnabledTwice | waldur_site_agent_openstack/keystone_client.py:234-238 | setting the flag twice is setting it once |
| KeystoneProps.SwitchProjectAbsent | waldur_site_agent_openstack/keystone_client.py:223-238 | enabling or disabling a project that is not found changes no project and raises nothing |
| KeystoneProps.EnableProjectSets | waldur_site_agent_openstack/keystone_client.py:223-228 | enabling sets the found project's flag to True and touches no other project or field |
| KeystoneProps.UpdateEnabledFound | waldur_site_agent_openstack/keystone_client.py:223-238 | updating a held project succeeds and sets exactly its flag |
| KeystoneProps.DisableProjectUpdatesTwice | waldur_site_agent_openstack/keystone_client.py:230-242 | disabling issues the same update twice, and the outcome is that of one update |
| KeystoneProps.EnableProjectIdempotent | waldur_site_agent_openstack/keystone_client.py:223-228 | enabling twice leaves the projects as enabling once |
| KeystoneProps.DisableProjectIdempotent | waldur_site_agent_openstack/keystone_client.py:230-236 | disabling twice leaves the projects as disabling once |
| KeystoneAccess.GetTokenReturns | waldur_site_agent_openstack/keystone_client.py:92-104 | with the session answering, the token is returned after one call |
| KeystoneAccess.GetTokenRecovers | waldur_site_agent_openstack/keystone_client.py:92-104 | one session failure is retried after a one-second delay and the token is returned |
| KeystoneAccess.GetTokenRecoversTwice | waldur_site_agent_openstack/keystone_client.py:92-104 | two session failures are retried and the third attempt returns the token |
| KeystoneAccess.GetTokenGivesUp | waldur_site_agent_openstack/keystone_client.py:92-104 | three failures in a row exhaust the attempts, and the last error is raised as KeystoneClientError |
| KeystoneAccess.GetTokenOutcome | waldur_site_agent_openstack/keystone_client.py:92-104 | the token is returned unless the session fails on all three attempts, which raises the wrapped error |
| KeystoneAccess.EnsureUserExisting | waldur_site_agent_openstack/keystone_client.py:256-285 | an existing user is returned; its email is updated only when one is given, syncing is on and it differs |
| KeystoneAccess.EnsureUserIgnoresEmailFailure | waldur_site_agent_openstack/keystone_client.py:276-283 | a failing email update is swallowed: the user is still returned and nothing is retried |
| KeystoneAccess.EnsureUserCreates | waldur_site_agent_openstack/keystone_client.py:287-298 | a missing user is created in the domain, enabled as asked or by `user_enabled_by_default` |
| KeystoneAccess.EnsureUserNoAutoCreate | waldur_site_agent_openstack/keystone_client.py:256-298 | with auto-creation off, a missing user raises KeystoneClientError; the raise is retried, so the lookup is made three times |
| KeystoneAccess.AssignRoleSingleCall | waldur_site_agent_openstack/keystone_client.py:325-338 | `assign_role` never raises, so its retry decorator calls it exactly once |
| KeystoneAccess.AssignRoleGrants | waldur_site_agent_openstack/keystone_client.py:325-333 | a role not yet held is granted: the assignment is added and True returned |
| KeystoneAccess.AssignRoleAlreadyHeld | waldur_site_agent_openstack/keystone_client.py:333-335 | an assignment already held answers with Conflict, which gives True |
| KeystoneAccess.AssignRoleGrantFails | waldur_site_agent_openstack/keystone_client.py:336-338 | any other failure of the grant gives False, after one call, with the assignments unchanged |
| KeystoneAccess.AssignRoleUnknownUser | waldur_site_agent_openstack/keystone_client.py:325-338 | a user the service does not hold cannot be granted a role, and the result is False |
| KeystoneAccess.RevokeRoleMissingRole | waldur_site_agent_openstack/keystone_client.py:340-346 | revoking a role that does not exist gives False without a revoke call |
| KeystoneAccess.RevokeRoleRemoves | waldur_site_agent_openstack/keystone_client.py:340-352 | revoking a held role removes exactly that assignment and gives True |
| KeystoneAccess.RevokeRoleNotHeld | waldur_site_agent_openstack/keystone_client.py:347-352 | revoking a role that is not held gives False and changes no assignment |
| KeystoneAccess.RevokeEachTriesAll | waldur_site_agent_openstack/keystone_client.py:362-372 | every listed assignment gets its own revoke call, whatever the earlier ones did |
| KeystoneAccess.RevokeEachReportsFailure | waldur_site_agent_openstack/keystone_client.py:362-372 | a failing revoke makes the result False, and the others are still attempted |
| KeystoneAccess.RevokeEachRemoves | waldur_site_agent_openstack/keystone_client.py:362-372 | without failures, every listed assignment of the user in the project is removed and the result is True |
| KeystoneAccess.StoreKeepsNoDup | waldur_site_agent_openstack/keystone_client.py:326-352 | grants, revokes and project deletions keep the service's assignments free of duplicates |
| KeystoneAccess.FilterNoDup | waldur_site_agent_openstack/keystone_client.py:354-376 | a filtered listing of distinct assignments has no duplicates |
| KeystoneAccess.RevokeAllRemovesEverything | waldur_site_agent_openstack/keystone_client.py:354-376 | without failures, the result is True and the user holds no role in the project |
| KeystoneAccess.RevokeAllReportsFailure | waldur_site_agent_openstack/keystone_client.py:354-376 | when a listed revoke fails, the result is False |
| KeystoneAccess.RevokeAllNothingHeld | waldur_site_agent_openstack/keystone_client.py:354-376 | a user with no roles in the project gives True after one listing call |
| OpenStack.OpenStackClient.Ping | waldur_site_agent_openstack/openstack_client.py:53-70 | state and result are those of `ping` |
| OpenStack.OpenStackClient.GetResource | waldur_site_agent_openstack/openstack_client.py:151-179 | state and result are those of `get_resource` |
| OpenStack.OpenStackClient.CreateResource | waldur_site_agent_openstack/openstack_client.py:181-220 | state and result are those of `create_resource` |
| OpenStack.OpenStackClient.DeleteResource | waldur_site_agent_openstack/openstack_client.py:222-249 | state and message are those of `delete_resource` |
| OpenStack.OpenStackClient.CreateProject | waldur_site_agent_openstack/openstack_client.py:273-297 | state and result are those of `create_project` |
| OpenStack.OpenStackClient.EnableProject | waldur_site_agent_openstack/openstack_client.py:318-335 | state and result are those of `enable_project` |
| OpenStack.OpenStackClient.DisableProject | waldur_site_agent_openstack/openstack_client.py:299-316 | state and result are those of `disable_project` |
| OpenStack.OpenStackClient.GetProjectMetadata | waldur_site_agent_openstack/openstack_client.py:337-371 | state and result are those of `get_project_metadata` |
| OpenStack.OpenStackClient.GetAssociation | waldur_site_agent_openstack/openstack_client.py:459-501 | state and result are those of `get_association` |
| OpenStack.OpenStackClient.CreateAssociation | waldur_site_agent_openstack/openstack_client.py:503-547 | state and result are those of `create_association` |
| OpenStack.OpenStackClient.DeleteAssociation | waldur_site_agent_openstack/openstack_client.py:549-590 | state and result are those of `delete_association` |
| OpenStack.OpenStackClient.ListResourceUsers | waldur_site_agent_openstack/openstack_client.py:618-657 | the name-collecting loop gives the state and result of `list_resource_users`, with the names in first-seen order |
| OpenStack.OpenStackClient.ListUsers | waldur_site_agent_openstack/openstack_client.py:659-687 | state and result are those of `list_users` |
| OpenStackProps.GetUserDefaultDomain | waldur_site_agent_openstack/keystone_client.py:244-254 | without a domain, a user is looked up in the configured domain |
| OpenStackProps.ClientGetResourceFound | waldur_site_agent_openstack/openstack_client.py:151-173 | a project of the configured domain is returned with its name, its description and that domain's name as organisation |
| OpenStackProps.GetProjectConfigured | waldur_site_agent_openstack/keystone_client.py:137-147 | without failures, a project is looked up in the configured domain, after two listing calls |
| OpenStackProps.PingMeaning | waldur_site_agent_openstack/openstack_client.py:53-70 | with the session answering, ping is True iff the token is truthy |
| OpenStackProps.PingFailsClosed | waldur_site_agent_openstack/openstack_client.py:67-70 | a session failing on every attempt makes ping False rather than raise |
| OpenStackProps.PingOutcome | waldur_site_agent_openstack/openstack_client.py:53-70 | ping is True iff the session answers within three attempts with a truthy token |
| OpenStackProps.ProjectMetadataShape | waldur_site_agent_openstack/openstack_client.py:337-371 | `{}` iff no project is found; otherwise exactly `project_id`, `project_name`, `domain`, `enabled` and `description`, from that project |
| OpenStackProps.ProjectMetadataFound | waldur_site_agent_openstack/openstack_client.py:337-371 | without failures, metadata is non-empty exactly for the projects of the configured domain |
| OpenStackProps.CreateResourceCreates | waldur_site_agent_openstack/openstack_client.py:181-220 | a project that does not exist yet is created once, enabled, in the configured domain, with the given description (or `Project {name}` for an empty one), and the name is returned |
| OpenStackProps.CreateResourceFound | waldur_site_agent_openstack/openstack_client.py:202-206 | an existing project is kept: the name is returned, no project is added and the project is still found |
| OpenStackProps.CreateResourceIdempotent | waldur_site_agent_openstack/openstack_client.py:181-220 | creating twice returns the name both times; the second call creates nothing, at most one project is created, and it is then found |
| OpenStackProps.DeleteResourceMessages | waldur_site_agent_openstack/openstack_client.py:222-249 | a missing project gives the not-found message and changes no project or assignment; a found one is deleted with its assignments and the success message is returned |
| OpenStackProps.ClientCreateProjectWraps | waldur_site_agent_openstack/openstack_client.py:273-297 | every failure of the gateway's create becomes a KeystoneClientError whose message starts with `Failed to create project` |
| OpenStackProps.ClientSwitchAbsent | waldur_site_agent_openstack/openstack_client.py:299-335 | enabling or disabling a missing project returns True and changes no project |
| OpenStackProps.ClientEnableUpdateFails | waldur_site_agent_openstack/openstack_client.py:318-335 | a failing update makes enable return False instead of raising |
| OpenStackProps.GetAssociationMeaning | waldur_site_agent_openstack/openstack_client.py:459-501 | an association exists iff the user holds a role in the project, and its count is the number of roles held |
| OpenStackProps.DeleteAssociationNoProject | waldur_site_agent_openstack/openstack_client.py:549-590 | a missing project is reported by message, not raised, and no assignment changes |
| OpenStackProps.DeleteAssociationNoUser | waldur_site_agent_openstack/openstack_client.py:549-590 | a missing user is reported by message, not raised, and no assignment changes |
| OpenStackProps.DeleteAssociationRevokesAll | waldur_site_agent_openstack/openstack_client.py:549-590 | deleting an existing association succeeds and leaves the user without any role in the project |
| OpenStackProps.DeleteAssociationRaises | waldur_site_agent_openstack/openstack_client.py:549-590 | when a revocation fails, `delete_association` raises |
| OpenStackProps.CreateAssociationGrantFails | waldur_site_agent_openstack/openstack_client.py:520-547 | with project and user in place, a failing grant raises KeystoneClientError with the failure message, and no role is assigned |
| OpenStackProps.CreateAssociationGrants | waldur_site_agent_openstack/openstack_client.py:503-547 | with project, user and default role in place, the default role is granted and the success message returned |
| OpenStackProps.EnsureUserDefaultDomain | waldur_site_agent_openstack/keystone_client.py:256-285 | without a domain, `ensure_user` finds an existing user of the configured domain |
| OpenStackProps.CreateAssociationCreatesProject | waldur_site_agent_openstack/openstack_client.py:524-527 | a project that does not exist yet is created by `create_association` before the grant |
| OpenStackProps.ResolveNamesSound | waldur_site_agent_openstack/openstack_client.py:636-652 | the collected names are distinct, and each belongs to a user holding one of the listed assignments |
| OpenStackProps.ResolveNamesComplete | waldur_site_agent_openstack/openstack_client.py:636-652 | without lookup failures, every listed holder's name is collected |
| OpenStackProps.ListResourceUsersMeaning | waldur_site_agent_openstack/openstack_client.py:618-657 | distinct names, each of a user holding a role in the project; all such users when nothing fails |
| OpenStackProps.ListResourceUsersNoProject | waldur_site_agent_openstack/openstack_client.py:618-657 | a missing project gives the empty list |
| OpenStackProps.ListUsersMeaning | waldur_site_agent_openstack/openstack_client.py:659-687 | only users of the named domain, and all of them when nothing fails |
| Backends.ExtractBackendId | waldur_site_agent_openstack/backends.py:215-242 | the backend id when truthy, else the uuid when truthy, else `""` |
| Backends.ResourceDescription | waldur_site_agent_openstack/backends.py:350-355 | `Waldur: {name}` for a truthy name, else the resource's truthy description, else `Waldur managed project`; never empty |
| Backends.CreateResourceInBackendF | waldur_site_agent_openstack/backends.py:288-379 | success returns the uuid; a missing uuid raises BackendError before any call; a too-long id raises the wrapped validation error; every failure is a BackendError |
| Backends.DeleteResourceInBackendF | waldur_site_agent_openstack/backends.py:403-449 | a blank id does nothing; an error occurs iff the id is not blank and too long, with the wrapped validation message |
| Backends.AddEach | waldur_site_agent_openstack/backends.py:502-520 | the added set only grows, and only by users of the list |
| Backends.AddUsersF | waldur_site_agent_openstack/backends.py:455-527 | on success the added users are a subset of the input; a blank id gives the empty set with no call; a rejected id gives the unbound-variable error |
| Backends.RemoveEach | waldur_site_agent_openstack/backends.py:572-585 | the removed list extends the earlier one by users of the list, at most one entry per user |
| Backends.RemoveUsersF | waldur_site_agent_openstack/backends.py:529-592 | on success the removed users come from the input; a blank id or a missing project gives the empty list; a rejected id gives the unbound-variable error |
| Backends.ListComponents | waldur_site_agent_openstack/backends.py:244-258 | one name per configured component, name `i` being component `i`'s, so exactly the configured names in order |
| Backends.LocalPart | waldur_site_agent_openstack/backends.py:771-772 | the text before the first `@`: a prefix of the address that contains no `@` |
| Backends.GenerateUsername | waldur_site_agent_openstack/backends.py:750-787 | succeeds iff the email is truthy; otherwise ValueError naming the user |
| Backends.NameByEmail | waldur_site_agent_openstack/backends.py:816-823 | None iff no listed user has the email; otherwise the name of the first one that has it |
| Backends.OpenStackBackend.Diagnostics | waldur_site_agent_openstack/backends.py:108-173 | the four checks run in sequence, updating the `all_checks_passed` flag, give the state and result of `diagnostics` |
| Backends.OpenStackBackend.CreateResourceInBackend | waldur_site_agent_openstack/backends.py:288-379 | state and result are those of `_create_resource_in_backend` |
| Backends.OpenStackBackend.DeleteResource | waldur_site_agent_openstack/backends.py:403-449 | state and result are those of `delete_resource` |
| Backends.OpenStackBackend.AddUsersToResource | waldur_site_agent_openstack/backends.py:455-527 | the per-user loop gives the state and result of `add_users_to_resource` |
| Backends.OpenStackBackend.RemoveUsersFromResource | waldur_site_agent_openstack/backends.py:529-592 | the per-user loop gives the state and result of `remove_users_from_resource` |
| Backends.OpenStackBackend.DownscaleResource | waldur_site_agent_openstack/backends.py:625-637 | disables the project named by the sanitised id |
| Backends.OpenStackBackend.PauseResource | waldur_site_agent_openstack/backends.py:639-649 | does exactly what downscaling does |
| Backends.OpenStackBackend.RestoreResource | waldur_site_agent_openstack/backends.py:651-663 | enables the project named by the sanitised id |
| Backends.OpenStackBackend.GetResourceMetadata | waldur_site_agent_openstack/backends.py:704-715 | the metadata of the project named by the sanitised id |
| Backends.OpenStackBackend.ListComponentNames | waldur_site_agent_openstack/backends.py:244-258 | the configured component names, in order |
| Backends.OpenStackBackend.GetUsageReport | waldur_site_agent_openstack/backends.py:669-702 | one entry per backend id and no other, each with empty users, total and components |
| Backends.UsernameBackend.GenerateUsernameFor | waldur_site_agent_openstack/backends.py:750-787 | the result of `generate_username` |
| Backends.UsernameBackend.GetUsername | waldur_site_agent_openstack/backends.py:789-834 | None without a client or an email; otherwise the search loop gives the first listed user with the email |
| BackendsProps.CreateInBackendSameOutcome | waldur_site_agent_openstack/backends.py:321-370 | with a usable uuid, the result is the uuid exactly when the adapter's `create_resource` succeeds |
| BackendsProps.CreateInBackendAsCreateResource | waldur_site_agent_openstack/backends.py:321-370 | with a usable uuid, creating in the backend does to the service what `create_resource` of the sanitised uuid does |
| BackendsProps.CreateInBackendDescribes | waldur_site_agent_openstack/backends.py:340-379 | a resource whose project is missing gets exactly one new project, named after the sanitised uuid and carrying the resource's description; the uuid is returned |
| BackendsProps.CreateInBackendIdempotent | waldur_site_agent_openstack/backends.py:288-379 | creating the same resource twice returns the uuid both times; the second call creates nothing; at most one project is added; a canonical uuid is the project name |
| BackendsProps.DeleteInBackendRemoves | waldur_site_agent_openstack/backends.py:403-449 | a usable backend id deletes the project found under the sanitised id together with exactly its assignments; with none found, projects and assignments are unchanged |
| BackendsProps.AddEachMember | waldur_site_agent_openstack/backends.py:502-520 | a user is added iff its own step succeeded at its turn, in the state the earlier steps left |
| BackendsProps.GetResourceMissing | waldur_site_agent_openstack/openstack_client.py:151-179 | a project missing from the configured domain is not found, and only listing calls are made |
| Backends.AddToProject | waldur_site_agent_openstack/backends.py:492-520 | the users reported as added are among the users given |
| BackendsProps.AddUsersRefusesMissingProject | waldur_site_agent_openstack/backends.py:485-500 | a missing project raises BackendError naming it, and the only change to the service is the two listing calls of the lookup |
| BackendsProps.AddUsersMeaning | waldur_site_agent_openstack/backends.py:455-527 | the added users are exactly those whose `create_association` succeeded at their turn |
| BackendsProps.RemoveEachMember | waldur_site_agent_openstack/backends.py:572-585 | a user is in the removed list iff its step succeeded at its turn |
| BackendsProps.RemoveEachAppend | waldur_site_agent_openstack/backends.py:572-585 | removing from `a` then from `b` is removing from `a + b`, with the users of `a` first |
| BackendsProps.RemoveUsersMissingProject | waldur_site_agent_openstack/backends.py:551-570 | a missing project removes nobody and changes nothing |
| BackendsProps.DiagnosticsOutcome | waldur_site_agent_openstack/backends.py:108-173 | True iff ping succeeds and every validation rule holds |
| BackendsProps.DiagnosticsIgnoresLookups | waldur_site_agent_openstack/backends.py:130-154 | missing or failing domain and role lookups do not change the result |
| BackendsProps.SwitchConfigured | waldur_site_agent_openstack/keystone_client.py:223-242 | without a domain, enabling or disabling looks the project up in the configured domain |
| BackendsProps.DownscaleDisables | waldur_site_agent_openstack/backends.py:625-649 | downscaling (and so pausing) disables the project found under the sanitised id and changes nothing else |
| BackendsProps.RestoreEnables | waldur_site_agent_openstack/backends.py:651-663 | restoring enables the project found under the sanitised id and changes nothing else |
| BackendsProps.LocalPartOfAddress | waldur_site_agent_openstack/backends.py:771-772 | the local part of `local@domain` is `local` |
| BackendsProps.GenerateUsernameShape | waldur_site_agent_openstack/backends.py:750-787 | a generated username is a valid OpenStack name, which the sanitiser leaves unchanged |
| BackendsProps.GenerateUsernameFromAddress | waldur_site_agent_openstack/backends.py:750-787 | the username for `local@domain` is the sanitised `local`, whatever the domain |
| BackendsProps.GetUsernameSound | waldur_site_agent_openstack/backends.py:789-834 | a name is returned only for a non-empty email, and it belongs to a user of the configured domain with that email |
| BackendsProps.GetUsernameComplete | waldur_site_agent_openstack/backends.py:789-834 | without failures, a non-empty email held by a user of the configured domain always yields a name |

## Left out

- Logging: `setup_plugin_logger`, every log call and `_log_waldur_resource`, which inspects objects by reflection. None of them affects a result.
- `OpenStackConnectionTester`: it makes HTTP requests and prints.
- Session and authentication internals (`_initialize_session`, the `keystone` property). The session token is a value of the service state, and the session's failures come from the fault oracle.
- `time.sleep`: the retry model records the delays it would sleep instead of sleeping. Delays are whole seconds, not floats.
- `format_openstack_error`: it probes foreign exception objects. Failure messages end with a fixed prefix, and the formatted error text is not modelled.
- The python-keystoneclient wire protocol: the identity service is the in-memory `State`. Concurrent create races are not modelled; the code relies only on the service's Conflict answer.
- The quota and usage stubs and the home-directory stubs (`set_resource_limits`, `get_resource_limits`, `get_resource_user_limits`, `set_resource_user_limits`, `get_usage_report` of the client, `create_linux_user_homedir`, `create_user_homedirs`). They return constants or do nothing.
- `_pre_create_resource` and `_collect_resource_limits`: they take part in the framework's resource creation but make no identity-service call.
- Constructors and `__init__` methods that wire framework base classes: the Dafny constructors only store the collaborators.
- `OpenStackBackend.ping`: it returns the client's `ping`, which catches every exception, so its raise path cannot be taken.
- The adapter's `list_resources` and its `get_domain`, `get_role` and `get_project` pass-throughs: these are the gateway's lookups, which are modelled.
- Config.WellTyped: the dataclass does not check its annotations at run time. The model assumes settings values have the annotated types instead of modelling a mistyped value.
- Config.PostInit: `__post_init__` assigns two fields of the instance during construction. The record is modelled as a value, and the assignment as a function that returns the updated record.
- Identifiers: the service's ids are natural numbers, not UUID strings.
- Set iteration order: `add_users_to_resource` and `remove_users_from_resource` iterate a Python set. The model takes that iteration order as a sequence given by the caller.
- OpenStack.OpenStackClient.ListResourceUsers: `list_resource_users` collects the names in a Python set and returns `list(usernames)`, whose order is unspecified. The model returns them in the order they are first seen in the assignment listing, which is a choice of the model and not a promise of the source; OpenStackProps.ListResourceUsersMeaning states only membership and distinctness.
- Backends.DeleteResourceInBackendF: the only error it can return is the wrapped validation error. The adapter's `delete_resource` cannot raise, because the gateway's `delete_project` returns False on every failure, so no other error reaches the `except`.
- Backends.GenerateUsername: the "cannot be converted to valid username" branch is unreachable, because the sanitiser never returns an empty name (`Utils.SanitizeShape`). The model has no such error.
- Backends.DiagnosticsF: the domain-lookup exception path is unreachable, because the gateway's `get_domain` catches every error.
