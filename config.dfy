/** The plugin's configuration: the `backend_settings` dictionary turned into a record with
    defaults, its validation rules and the two dictionaries it hands out. */
module Config {
  import opened Common

  /** `OpenStackConfig` once constructed. `__post_init__` runs only inside construction, so the
      record is a value; `PostInit` is that step. */
  datatype OpenStackConfig = OpenStackConfig(
    authUrl: string,
    username: string,
    password: string,
    projectName: string,
    domainName: string,
    userDomainName: Option<string>,
    projectDomainName: Option<string>,
    regionName: Option<string>,
    iface: string,
    verifySsl: bool,
    defaultRole: string,
    createUsersIfNotExist: bool,
    syncUserEmails: bool,
    userEnabledByDefault: bool,
    maxRetryAttempts: int,
    retryDelaySeconds: int)

  /** The dataclass fields, in declaration order. */
  datatype Field =
    | AuthUrl | Username | Password | ProjectName | DomainName
    | UserDomainName | ProjectDomainName | RegionName | Interface | VerifySsl
    | DefaultRole | CreateUsers | SyncEmails | UsersEnabled
    | MaxRetryAttempts | RetryDelaySeconds

  const AllFields: set<Field> := {
    AuthUrl, Username, Password, ProjectName, DomainName,
    UserDomainName, ProjectDomainName, RegionName, Interface, VerifySsl,
    DefaultRole, CreateUsers, SyncEmails, UsersEnabled,
    MaxRetryAttempts, RetryDelaySeconds}

  lemma AllFieldsComplete()
    ensures forall f :: f in AllFields
  {
    forall f
      ensures f in AllFields
    {
      match f
      case AuthUrl =>
      case Username =>
      case Password =>
      case ProjectName =>
      case DomainName =>
      case UserDomainName =>
      case ProjectDomainName =>
      case RegionName =>
      case Interface =>
      case VerifySsl =>
      case DefaultRole =>
      case CreateUsers =>
      case SyncEmails =>
      case UsersEnabled =>
      case MaxRetryAttempts =>
      case RetryDelaySeconds =>
    }
  }

  const RequiredFields: seq<Field> := [AuthUrl, Username, Password]

  /** The key under which a field appears in `backend_settings` and in the returned dictionaries. */
  function Name(f: Field): string {
    match f
    case AuthUrl => "auth_url"
    case Username => "username"
    case Password => "password"
    case ProjectName => "project_name"
    case DomainName => "domain_name"
    case UserDomainName => "user_domain_name"
    case ProjectDomainName => "project_domain_name"
    case RegionName => "region_name"
    case Interface => "interface"
    case VerifySsl => "verify_ssl"
    case DefaultRole => "default_role"
    case CreateUsers => "create_users_if_not_exist"
    case SyncEmails => "sync_user_emails"
    case UsersEnabled => "user_enabled_by_default"
    case MaxRetryAttempts => "max_retry_attempts"
    case RetryDelaySeconds => "retry_delay_seconds"
  }

  datatype Kind = StrKind | OptStrKind | BoolKind | IntKind

  /** The annotated type of each field. */
  function KindOf(f: Field): Kind {
    match f
    case UserDomainName | ProjectDomainName | RegionName => OptStrKind
    case VerifySsl | CreateUsers | SyncEmails | UsersEnabled => BoolKind
    case MaxRetryAttempts | RetryDelaySeconds => IntKind
    case _ => StrKind
  }

  predicate HasKind(v: Value, k: Kind) {
    match k
    case StrKind => v.Str?
    case OptStrKind => v.Str? || v.NoneValue?
    case BoolKind => v.Bool?
    case IntKind => v.Int?
  }

  /** The declared default of each optional field; the three required fields have none. */
  function Default(f: Field): (r: Option<Value>)
    ensures r.Some? ==> HasKind(r.value, KindOf(f))
    ensures r.None? <==> f in RequiredFields
  {
    match f
    case AuthUrl | Username | Password => None
    case ProjectName => Some(Str("admin"))
    case DomainName => Some(Str("Default"))
    case UserDomainName => Some(Str("Default"))
    case ProjectDomainName => Some(Str("Default"))
    case RegionName => Some(NoneValue)
    case Interface => Some(Str("public"))
    case VerifySsl => Some(Bool(true))
    case DefaultRole => Some(Str("_member_"))
    case CreateUsers => Some(Bool(true))
    case SyncEmails => Some(Bool(true))
    case UsersEnabled => Some(Bool(true))
    case MaxRetryAttempts => Some(Int(2))
    case RetryDelaySeconds => Some(Int(5))
  }

  function OptStr(o: Option<string>): Value {
    match o
    case None => NoneValue
    case Some(s) => Str(s)
  }

  /** The value of one field of the record. */
  function Get(c: OpenStackConfig, f: Field): (r: Value)
    ensures HasKind(r, KindOf(f))
  {
    match f
    case AuthUrl => Str(c.authUrl)
    case Username => Str(c.username)
    case Password => Str(c.password)
    case ProjectName => Str(c.projectName)
    case DomainName => Str(c.domainName)
    case UserDomainName => OptStr(c.userDomainName)
    case ProjectDomainName => OptStr(c.projectDomainName)
    case RegionName => OptStr(c.regionName)
    case Interface => Str(c.iface)
    case VerifySsl => Bool(c.verifySsl)
    case DefaultRole => Str(c.defaultRole)
    case CreateUsers => Bool(c.createUsersIfNotExist)
    case SyncEmails => Bool(c.syncUserEmails)
    case UsersEnabled => Bool(c.userEnabledByDefault)
    case MaxRetryAttempts => Int(c.maxRetryAttempts)
    case RetryDelaySeconds => Int(c.retryDelaySeconds)
  }

  /** The record is determined by its fields. */
  lemma GetDetermines(c: OpenStackConfig, c': OpenStackConfig)
    requires forall f :: Get(c, f) == Get(c', f)
    ensures c == c'
  {
    assert Get(c, AuthUrl) == Get(c', AuthUrl);
    assert Get(c, Username) == Get(c', Username);
    assert Get(c, Password) == Get(c', Password);
    assert Get(c, ProjectName) == Get(c', ProjectName);
    assert Get(c, DomainName) == Get(c', DomainName);
    assert Get(c, UserDomainName) == Get(c', UserDomainName);
    assert Get(c, ProjectDomainName) == Get(c', ProjectDomainName);
    assert Get(c, RegionName) == Get(c', RegionName);
    assert Get(c, Interface) == Get(c', Interface);
    assert Get(c, VerifySsl) == Get(c', VerifySsl);
    assert Get(c, DefaultRole) == Get(c', DefaultRole);
    assert Get(c, CreateUsers) == Get(c', CreateUsers);
    assert Get(c, SyncEmails) == Get(c', SyncEmails);
    assert Get(c, UsersEnabled) == Get(c', UsersEnabled);
    assert Get(c, MaxRetryAttempts) == Get(c', MaxRetryAttempts);
    assert Get(c, RetryDelaySeconds) == Get(c', RetryDelaySeconds);
  }

  /** Every field of the record, keyed by field (what `dataclasses.asdict` gives, with each
      key `Name(f)`). */
  function AsDict(c: OpenStackConfig): (r: map<Field, Value>)
    ensures forall f :: f in r && r[f] == Get(c, f)
  {
    AllFieldsComplete();
    map f | f in AllFields :: Get(c, f)
  }

  /** The dataclass annotations: a known key carries a value of its field's declared type. */
  predicate WellTyped(settings: map<string, Value>) {
    forall f: Field :: Name(f) in settings ==> HasKind(settings[Name(f)], KindOf(f))
  }

  /** `__post_init__`: a missing user or project domain name falls back to `domain_name`. */
  function PostInit(c: OpenStackConfig): (r: OpenStackConfig)
    ensures r.userDomainName == (if c.userDomainName.None? then Some(c.domainName) else c.userDomainName)
    ensures r.projectDomainName == (if c.projectDomainName.None? then Some(c.domainName) else c.projectDomainName)
    ensures r.(userDomainName := c.userDomainName, projectDomainName := c.projectDomainName) == c
  {
    var c1 := if c.userDomainName.None? then c.(userDomainName := Some(c.domainName)) else c;
    if c1.projectDomainName.None? then c1.(projectDomainName := Some(c1.domainName)) else c1
  }

  /** After `__post_init__` both domain names are set, and running it again changes nothing. */
  lemma PostInitSettles(c: OpenStackConfig)
    ensures PostInit(c).userDomainName.Some? && PostInit(c).projectDomainName.Some?
    ensures PostInit(PostInit(c)) == PostInit(c)
  {
  }

  predicate HasRequired(m: map<Field, Value>) {
    AuthUrl in m && Username in m && Password in m
  }

  predicate FieldsWellTyped(m: map<Field, Value>) {
    forall f :: f in m ==> HasKind(m[f], KindOf(f))
  }

  /** The value a field takes: the supplied one, else the declared default. */
  function Supplied(m: map<Field, Value>, f: Field): (v: Value)
    requires FieldsWellTyped(m) && HasRequired(m)
    ensures HasKind(v, KindOf(f))
  {
    if f in m then m[f] else Default(f).value
  }

  function OptOf(v: Value): Option<string> {
    if v.Str? then Some(v.s) else None
  }

  /** `cls(**filtered_settings)`: supplied fields, declared defaults for the rest, then `__post_init__`. */
  function Construct(m: map<Field, Value>): OpenStackConfig
    requires FieldsWellTyped(m) && HasRequired(m)
  {
    PostInit(OpenStackConfig(
      Supplied(m, AuthUrl).s, Supplied(m, Username).s, Supplied(m, Password).s,
      Supplied(m, ProjectName).s, Supplied(m, DomainName).s,
      OptOf(Supplied(m, UserDomainName)), OptOf(Supplied(m, ProjectDomainName)), OptOf(Supplied(m, RegionName)),
      Supplied(m, Interface).s, Supplied(m, VerifySsl).b,
      Supplied(m, DefaultRole).s, Supplied(m, CreateUsers).b, Supplied(m, SyncEmails).b, Supplied(m, UsersEnabled).b,
      Supplied(m, MaxRetryAttempts).i, Supplied(m, RetryDelaySeconds).i))
  }

  /** Each field of the constructed record is the supplied-or-default value, except that a
      domain name that comes out None takes `domain_name`. */
  lemma ConstructGet(m: map<Field, Value>, f: Field)
    requires FieldsWellTyped(m) && HasRequired(m)
    ensures Get(Construct(m), f) ==
      if f in {UserDomainName, ProjectDomainName} && Supplied(m, f).NoneValue? then Supplied(m, DomainName)
      else Supplied(m, f)
  {
    match f
    case AuthUrl =>
    case Username =>
    case Password =>
    case ProjectName =>
    case DomainName =>
    case UserDomainName =>
    case ProjectDomainName =>
    case RegionName =>
    case Interface =>
    case VerifySsl =>
    case DefaultRole =>
    case CreateUsers =>
    case SyncEmails =>
    case UsersEnabled =>
    case MaxRetryAttempts =>
    case RetryDelaySeconds =>
  }

  /** Building from a record's own fields gives back the record, once `__post_init__` has run. */
  lemma ConstructAsDict(c: OpenStackConfig)
    requires PostInit(c) == c
    ensures FieldsWellTyped(AsDict(c)) && HasRequired(AsDict(c)) && Construct(AsDict(c)) == c
  {
    var d := AsDict(c);
    var c' := Construct(d);
    forall f
      ensures Get(c', f) == Get(c, f)
    {
      ConstructGet(d, f);
    }
    GetDetermines(c', c);
  }

  /** The names of the given fields absent from `settings`, in the given order. */
  function Missing(fields: seq<Field>, settings: map<string, Value>): (r: seq<string>)
    ensures forall f :: f in fields && Name(f) !in settings ==> Name(f) in r
    ensures forall k :: k in r ==> k !in settings
    ensures |r| <= |fields|
  {
    if fields == [] then []
    else (if Name(fields[0]) in settings then [] else [Name(fields[0])]) + Missing(fields[1..], settings)
  }

  function Join(parts: seq<string>, sep: string): string {
    if parts == [] then ""
    else if |parts| == 1 then parts[0]
    else parts[0] + sep + Join(parts[1..], sep)
  }

  const MissingFieldsMessage := "Missing required OpenStack configuration fields in backend_settings: "

  /** `filtered_settings`: the entries of `settings` whose key is a dataclass field. */
  function Fields(settings: map<string, Value>): (m: map<Field, Value>)
    ensures forall f :: f in m <==> Name(f) in settings
    ensures forall f :: f in m ==> m[f] == settings[Name(f)]
  {
    AllFieldsComplete();
    map f | f in AllFields && Name(f) in settings :: settings[Name(f)]
  }

  /** `OpenStackConfig.from_backend_settings` */
  function FromBackendSettings(settings: map<string, Value>): Result<OpenStackConfig>
    requires WellTyped(settings)
  {
    var missing := Missing(RequiredFields, settings);
    if missing != [] then
      Err(ValueError(MissingFieldsMessage + Join(missing, ", ")))
    else
      var m := Fields(settings);
      assert HasRequired(m) by {
        assert forall f :: f in RequiredFields ==> Name(f) in settings;
      }
      Ok(Construct(m))
  }

  /** The message lists exactly the absent required keys, in declaration order. */
  lemma MissingRequired(settings: map<string, Value>)
    ensures Missing(RequiredFields, settings) ==
      (if "auth_url" in settings then [] else ["auth_url"]) +
      (if "username" in settings then [] else ["username"]) +
      (if "password" in settings then [] else ["password"])
  {
    MissingFirst(settings);
    MissingSecond(settings);
    MissingThird(settings);
  }

  lemma MissingThird(settings: map<string, Value>)
    ensures Missing([Password], settings) == (if "password" in settings then [] else ["password"])
  {
    MissingStep([Password], settings);
    assert [Password][1..] == [];
  }

  lemma MissingSecond(settings: map<string, Value>)
    ensures Missing([Username, Password], settings) ==
      (if "username" in settings then [] else ["username"]) + Missing([Password], settings)
  {
    MissingStep([Username, Password], settings);
    assert [Username, Password][1..] == [Password];
  }

  lemma MissingFirst(settings: map<string, Value>)
    ensures Missing(RequiredFields, settings) ==
      (if "auth_url" in settings then [] else ["auth_url"]) + Missing([Username, Password], settings)
  {
    MissingStep(RequiredFields, settings);
    assert RequiredFields[1..] == [Username, Password];
  }

  lemma MissingStep(fields: seq<Field>, settings: map<string, Value>)
    requires fields != []
    ensures Missing(fields, settings) ==
      (if Name(fields[0]) in settings then [] else [Name(fields[0])]) + Missing(fields[1..], settings)
  {
  }

  /** Construction fails exactly when a required key is absent, with the message naming the
      absent ones in the order auth_url, username, password. */
  lemma FromBackendSettingsRequired(settings: map<string, Value>)
    requires WellTyped(settings)
    ensures FromBackendSettings(settings).Err? <==>
      "auth_url" !in settings || "username" !in settings || "password" !in settings
    ensures FromBackendSettings(settings).Err? ==>
      FromBackendSettings(settings).error == ValueError(MissingFieldsMessage + Join(Missing(RequiredFields, settings), ", "))
    ensures settings == map[] ==>
      FromBackendSettings(settings) == Err(ValueError(MissingFieldsMessage + "auth_url, username, password"))
    ensures "auth_url" in settings && "username" in settings && "password" !in settings ==>
      FromBackendSettings(settings) == Err(ValueError(MissingFieldsMessage + "password"))
  {
    MissingRequired(settings);
    var missing := Missing(RequiredFields, settings);
    if missing != [] {
      assert FromBackendSettings(settings) == Err(ValueError(MissingFieldsMessage + Join(missing, ", ")));
      if settings == map[] {
        assert missing == ["auth_url", "username", "password"];
        JoinAllRequired();
      }
    } else {
      assert FromBackendSettings(settings).Ok?;
    }
  }

  lemma JoinAllRequired()
    ensures Join(["auth_url", "username", "password"], ", ") == "auth_url, username, password"
  {
    var parts := ["auth_url", "username", "password"];
    assert parts[1..] == ["username", "password"] && parts[1..][1..] == ["password"];
  }

  /** The missing-key list depends only on which of the given fields' names are present. */
  lemma {:induction false} MissingAgree(fields: seq<Field>, settings: map<string, Value>, settings': map<string, Value>)
    requires forall f :: Name(f) in settings <==> Name(f) in settings'
    ensures Missing(fields, settings) == Missing(fields, settings')
  {
    if fields != [] {
      MissingAgree(fields[1..], settings, settings');
    }
  }

  /** Keys that are not dataclass fields never matter: settings that agree on every field
      name give the same outcome. */
  lemma UnknownKeysIgnored(settings: map<string, Value>, settings': map<string, Value>)
    requires WellTyped(settings) && WellTyped(settings')
    requires forall f :: Name(f) in settings <==> Name(f) in settings'
    requires forall f :: Name(f) in settings ==> settings[Name(f)] == settings'[Name(f)]
    ensures FromBackendSettings(settings) == FromBackendSettings(settings')
  {
    MissingAgree(RequiredFields, settings, settings');
    if Missing(RequiredFields, settings) == [] {
      assert Fields(settings) == Fields(settings');
    }
  }

  /** A supplied field overrides its default and every other field keeps its declared
      default, except that a user or project domain name given as None falls back to
      `domain_name`. */
  lemma SuppliedOverridesDefault(settings: map<string, Value>, f: Field)
    requires WellTyped(settings) && FromBackendSettings(settings).Ok?
    ensures var c := FromBackendSettings(settings).value;
      && (Name(f) in settings && !(f in {UserDomainName, ProjectDomainName} && settings[Name(f)].NoneValue?)
          ==> Get(c, f) == settings[Name(f)])
      && (Name(f) !in settings ==> Get(c, f) == Default(f).value)
      && (f in {UserDomainName, ProjectDomainName} && Name(f) in settings && settings[Name(f)].NoneValue?
          ==> Get(c, f) == Get(c, DomainName))
  {
    var m := Fields(settings);
    MissingRequired(settings);
    assert FromBackendSettings(settings) == Ok(Construct(m));
    ConstructGet(m, f);
    ConstructGet(m, DomainName);
  }

  /** Settings that carry a constructed record's fields under their names give back that
      record, whatever other keys they hold. */
  lemma FromSettingsRoundTrip(c: OpenStackConfig, settings: map<string, Value>)
    requires PostInit(c) == c
    requires forall f :: Name(f) in settings && settings[Name(f)] == Get(c, f)
    ensures WellTyped(settings) && FromBackendSettings(settings) == Ok(c)
  {
    MissingRequired(settings);
    assert Fields(settings) == AsDict(c);
    ConstructAsDict(c);
  }

  // ---------------------------------------------------------------------------
  // Validation
  // ---------------------------------------------------------------------------

  /** The rules `validate` checks, in the order it checks them. */
  datatype Rule = UrlScheme | Credentials | InterfaceKind | RetryAttempts | RetryDelay

  const RuleOrder: seq<Rule> := [UrlScheme, Credentials, InterfaceKind, RetryAttempts, RetryDelay]

  const ValidInterfaces: seq<string> := ["public", "internal", "admin"]

  predicate Holds(c: OpenStackConfig, rule: Rule) {
    match rule
    case UrlScheme => "http://" <= c.authUrl || "https://" <= c.authUrl
    case Credentials => c.username != "" && c.password != ""
    case InterfaceKind => c.iface in ValidInterfaces
    case RetryAttempts => c.maxRetryAttempts >= 0
    case RetryDelay => c.retryDelaySeconds >= 0
  }

  function RuleMessage(c: OpenStackConfig, rule: Rule): string {
    match rule
    case UrlScheme =>
      "Invalid auth_url format: " + c.authUrl + ".Please check your auth_url in config or env file and try again"
    case Credentials => "Username and password cannot be empty"
    case InterfaceKind => "Invalid interface '" + c.iface + "'. Must be one of: public, internal, admin"
    case RetryAttempts => "max_retry_attempts must be non-negative"
    case RetryDelay => "retry_delay_seconds must be non-negative"
  }

  /** `OpenStackConfig.validate`: True when every rule holds; otherwise the ValueError of the
      first rule, in checking order, that fails. */
  function Validate(c: OpenStackConfig): (r: Result<bool>)
    ensures r.Ok? ==> r.value
    ensures r.Err? ==> r.error.ValueError?
  {
    if !Holds(c, UrlScheme) then Err(ValueError(RuleMessage(c, UrlScheme)))
    else if !Holds(c, Credentials) then Err(ValueError(RuleMessage(c, Credentials)))
    else if !Holds(c, InterfaceKind) then Err(ValueError(RuleMessage(c, InterfaceKind)))
    else if !Holds(c, RetryAttempts) then Err(ValueError(RuleMessage(c, RetryAttempts)))
    else if !Holds(c, RetryDelay) then Err(ValueError(RuleMessage(c, RetryDelay)))
    else Ok(true)
  }

  /** A configuration is accepted exactly when every rule holds. */
  lemma ValidateAcceptsIff(c: OpenStackConfig)
    ensures Validate(c).Ok? <==> forall rule :: Holds(c, rule)
  {
    if Validate(c).Ok? {
      forall rule ensures Holds(c, rule) {
        match rule
        case UrlScheme =>
        case Credentials =>
        case InterfaceKind =>
        case RetryAttempts =>
        case RetryDelay =>
      }
    }
  }

  /** A rejected configuration fails with the message of the first rule, in checking order,
      that does not hold. */
  lemma ValidateReportsFirstFailure(c: OpenStackConfig)
    requires Validate(c).Err?
    ensures exists k ::
      && 0 <= k < |RuleOrder|
      && !Holds(c, RuleOrder[k])
      && (forall j :: 0 <= j < k ==> Holds(c, RuleOrder[j]))
      && Validate(c).error == ValueError(RuleMessage(c, RuleOrder[k]))
  {
    var k: nat;
    if !Holds(c, UrlScheme) {
      k := 0;
    } else if !Holds(c, Credentials) {
      k := 1;
    } else if !Holds(c, InterfaceKind) {
      k := 2;
    } else if !Holds(c, RetryAttempts) {
      k := 3;
    } else {
      k := 4;
    }
    assert k < |RuleOrder| && Validate(c).error == ValueError(RuleMessage(c, RuleOrder[k]));
    assert forall j :: 0 <= j < k ==> Holds(c, RuleOrder[j]);
  }

  /** With the default interface and non-negative retry settings (the defaults are "public",
      2 and 5), a configuration validates exactly when its URL is http(s) and its credentials
      are non-empty. */
  lemma ValidateAcceptsDefaults(c: OpenStackConfig)
    requires c.iface == "public" && c.maxRetryAttempts >= 0 && c.retryDelaySeconds >= 0
    ensures Validate(c).Ok? <==>
      ("http://" <= c.authUrl || "https://" <= c.authUrl) && c.username != "" && c.password != ""
  {
    assert Holds(c, InterfaceKind) && Holds(c, RetryAttempts) && Holds(c, RetryDelay);
  }

  // ---------------------------------------------------------------------------
  // Dictionaries handed out
  // ---------------------------------------------------------------------------

  const AuthFields: set<Field> := {AuthUrl, Username, Password, ProjectName, UserDomainName, ProjectDomainName}

  /** `get_keystone_auth_params`: exactly the six authentication fields, with the record's values. */
  function GetKeystoneAuthParams(c: OpenStackConfig): (r: map<Field, Value>)
    ensures r.Keys == AuthFields
    ensures forall f :: f in r ==> r[f] == AsDict(c)[f]
  {
    map f | f in AuthFields :: Get(c, f)
  }

  const Redacted := "***REDACTED***"

  /** `sanitize_for_logging`: every field with the record's value, the password masked. */
  function SanitizeForLogging(c: OpenStackConfig): (r: map<Field, Value>)
    ensures r == AsDict(c)[Password := Str(Redacted)]
  {
    AllFieldsComplete();
    map f | f in AllFields :: if f == Password then Str(Redacted) else Get(c, f)
  }

  /** The logged dictionary does not depend on the password at all. */
  lemma LoggingHidesPassword(c: OpenStackConfig, secret: string)
    ensures SanitizeForLogging(c) == SanitizeForLogging(c.(password := secret))
  {
  }
}
