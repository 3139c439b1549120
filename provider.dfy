/**
 * The provider's `Configure`: resolve the server address and API token from
 * the provider block or the environment, build a client, check that the
 * server answers and runs Woodpecker 3.0.0 or later, and hand the client to
 * every resource and data source.
 */
module Provider {
  import opened Wrappers
  import opened GoStrings
  import opened Framework
  import opened Woodpecker

  // ---------------------------------------------------------------------------
  // providerConfig and newProviderConfig

  /** The provider block: `server` and `token`, both optional. */
  datatype ProviderConfig = ProviderConfig(server: Val<string>, token: Val<string>)

  const ServerVariable := "WOODPECKER_SERVER"
  const TokenVariable := "WOODPECKER_TOKEN"

  const MissingServer := Diagnostic("Missing Server URL Configuration",
    "While configuring the provider, the server URL was not found in the WOODPECKER_SERVER environment "
    + "variable or provider configuration block server attribute.")
  const MissingToken := Diagnostic("Missing API Token Configuration",
    "While configuring the provider, the API token was not found in the WOODPECKER_TOKEN environment "
    + "variable or provider configuration block token attribute.")

  /**
   * One attribute after the environment fallback: a configured non-empty
   * value is kept as it is; otherwise (null, unknown or "") the value of the
   * environment variable takes its place, even when that is empty too.
   */
  function Resolve(configured: Val<string>, fromEnv: string): (r: Val<string>)
    ensures ValueString(r) == "" <==> ValueString(configured) == "" && fromEnv == ""
    ensures ValueString(configured) != "" ==> r == configured
    ensures ValueString(configured) == "" ==> r == Known(fromEnv)
  {
    if ValueString(configured) == "" then Known(fromEnv) else configured
  }

  /** The configuration newProviderConfig returns, given the environment `env`. */
  function Resolved(configured: ProviderConfig, env: string -> string): (r: ProviderConfig)
    ensures ValueString(configured.server) != "" ==> r.server == configured.server
    ensures ValueString(configured.token) != "" ==> r.token == configured.token
    ensures ValueString(r.server) == "" <==> ValueString(configured.server) == "" && env(ServerVariable) == ""
    ensures ValueString(r.token) == "" <==> ValueString(configured.token) == "" && env(TokenVariable) == ""
  {
    ProviderConfig(Resolve(configured.server, env(ServerVariable)), Resolve(configured.token, env(TokenVariable)))
  }

  /** The errors newProviderConfig adds for a resolved configuration: the server check, then the token check. */
  function ConfigErrors(cfg: ProviderConfig): (errs: seq<Diagnostic>)
    ensures MissingServer in errs <==> ValueString(cfg.server) == ""
    ensures MissingToken in errs <==> ValueString(cfg.token) == ""
    ensures |errs| <= 2 && forall d :: d in errs ==> d == MissingServer || d == MissingToken
  {
    (if ValueString(cfg.server) == "" then [MissingServer] else [])
    + (if ValueString(cfg.token) == "" then [MissingToken] else [])
  }

  /**
   * The environment is consulted only for an empty attribute, so a configured
   * server or token always wins; an error is reported for an attribute
   * exactly when it is empty in the block and in the environment.
   */
  lemma ConfigFallback(configured: ProviderConfig, env: string -> string)
    ensures var cfg := Resolved(configured, env);
      (ValueString(configured.server) != "" ==> cfg.server == configured.server)
      && (ValueString(configured.token) != "" ==> cfg.token == configured.token)
      && (MissingServer in ConfigErrors(cfg) <==> ValueString(configured.server) == "" && env(ServerVariable) == "")
      && (MissingToken in ConfigErrors(cfg) <==> ValueString(configured.token) == "" && env(TokenVariable) == "")
  {
  }

  /** The two checks are independent: with nothing configured anywhere, both errors are reported, server first. */
  lemma ConfigReportsBoth(configured: ProviderConfig, env: string -> string)
    requires ValueString(configured.server) == "" && env(ServerVariable) == ""
    requires ValueString(configured.token) == "" && env(TokenVariable) == ""
    ensures ConfigErrors(Resolved(configured, env)) == [MissingServer, MissingToken]
  {
  }

  // ---------------------------------------------------------------------------
  // The version check of newClient

  /** A parsed semantic version; only the release triple matters for the constraint. */
  datatype SemVer = SemVer(major: nat, minor: nat, patch: nat)

  /** Semantic-version precedence on the release triple: major, then minor, then patch. */
  function Compare(a: SemVer, b: SemVer): (c: int)
    ensures -1 <= c <= 1
    ensures c == 0 <==> a == b
  {
    if a.major != b.major then (if a.major < b.major then -1 else 1)
    else if a.minor != b.minor then (if a.minor < b.minor then -1 else 1)
    else if a.patch != b.patch then (if a.patch < b.patch then -1 else 1)
    else 0
  }

  lemma CompareAntisymmetric(a: SemVer, b: SemVer)
    ensures Compare(a, b) == -Compare(b, a)
  {
  }

  lemma CompareTransitive(a: SemVer, b: SemVer, c: SemVer)
    requires Compare(a, b) >= 0 && Compare(b, c) >= 0
    ensures Compare(a, c) >= 0
  {
  }

  /** The constraint `>= 3.0.0`, and the text its String() renders. */
  const MinimumVersion := SemVer(3, 0, 0)
  const ConstraintText := ">=3.0.0"

  predicate SatisfiesConstraint(v: SemVer) {
    Compare(v, MinimumVersion) >= 0
  }

  /** Any 3.x release or later passes, every 2.x or earlier fails. */
  lemma SatisfiesConstraintIffMajor(v: SemVer)
    ensures SatisfiesConstraint(v) <==> v.major >= 3
  {
  }

  /**
   * The version string is cut at its first '-' before parsing, so that a
   * build suffix such as "2.0.0-f05c1631d2" does not reach the parser. The
   * result is the longest '-'-free prefix.
   */
  function StripVersion(v: string): (r: string)
    ensures '-' !in r
    ensures r <= v
    ensures |r| == |v| || v[|r|] == '-'
  {
    SplitFirstIsPrefix(v, '-');
    Split(v, '-')[0]
  }

  lemma StripVersionExample()
    ensures StripVersion("2.0.0-f05c1631d2") == "2.0.0"
  {
    assert "2.0.0-f05c1631d2" == "2.0.0" + ['-'] + "f05c1631d2";
    SplitAfterPrefix("2.0.0", "f05c1631d2", '-');
  }

  /** A version without '-' is parsed as it is. */
  lemma StripVersionKeepsPlain(v: string)
    requires '-' !in v
    ensures StripVersion(v) == v
  {
    SplitNoSeparator(v, '-');
  }

  /** `newClient`'s findings: the requests it sends and the errors it adds (none means the client is returned). */
  datatype ClientCheck = ClientCheck(calls: seq<Call>, diagnostics: seq<Diagnostic>)

  /** Summaries of the errors newClient adds. */
  const CurrentUserError := "Couldn't get current user"
  const VersionError := "Couldn't get woodpecker version"
  const VersionParseError := "Couldn't parse woodpecker version"
  const ConstraintError := "Woodpecker version doesn't satisfy the constraint"

  const ReportSuffix := ". Please report this issue to the provider developers."
  const CurrentVersionPrefix := "Current woodpecker version: "
  const ExpectedInfix := ", expected: "
  const UpgradeAdvice := ". Consider using an older version of the provider or update your Woodpecker CI instance."

  /** The detail of a parse error: the parser's message and a plea to report it. */
  function ReportDetail(err: string): string {
    err + ReportSuffix
  }

  /** The detail of the constraint error: the version the server reported, and the constraint. */
  function ConstraintDetail(version: string): string {
    CurrentVersionPrefix + version + ExpectedInfix + ConstraintText + UpgradeAdvice
  }

  /**
   * `newClient` against a server that answers as `api` does and a version
   * parser `parse`: fetch the current user, fetch the server version, parse
   * it without its '-' suffix, and check it against `>= 3.0.0`, stopping at
   * the first failure.
   */
  function NewClientCheck(api: Api, parse: string -> Result<SemVer, string>): (c: ClientCheck)
    ensures c.calls == (if api.self.Success? then [SelfCall, VersionCall] else [SelfCall])
    ensures |c.diagnostics| <= 1
    ensures api.self.Failure? || api.version.Failure? ==> |c.diagnostics| == 1
  {
    match api.self
    case Failure(e) => ClientCheck([SelfCall], [Diagnostic(CurrentUserError, e.message)])
    case Success(_) =>
      match api.version
      case Failure(e) => ClientCheck([SelfCall, VersionCall], [Diagnostic(VersionError, e.message)])
      case Success(ver) => ClientCheck([SelfCall, VersionCall], VersionErrors(ver.version, parse))
  }

  /** The errors for the version string the server reported: it does not parse, or it is below 3.0.0. */
  function VersionErrors(version: string, parse: string -> Result<SemVer, string>): (errs: seq<Diagnostic>)
    ensures |errs| <= 1
    ensures errs == [] <==> parse(StripVersion(version)).Success? && SatisfiesConstraint(parse(StripVersion(version)).value)
  {
    match parse(StripVersion(version))
    case Failure(err) => [Diagnostic(VersionParseError, ReportDetail(err))]
    case Success(parsed) =>
      if SatisfiesConstraint(parsed) then []
      else [Diagnostic(ConstraintError, ConstraintDetail(version))]
  }

  /**
   * The client is accepted exactly when the user and version requests
   * succeed, the stripped version parses, and it satisfies `>= 3.0.0` (that
   * is, its major number is at least 3); any failure adds exactly one error.
   */
  lemma NewClientAccepts(api: Api, parse: string -> Result<SemVer, string>)
    ensures var c := NewClientCheck(api, parse);
      (c.diagnostics == [] <==>
        api.self.Success? && api.version.Success?
        && parse(StripVersion(api.version.value.version)).Success?
        && SatisfiesConstraint(parse(StripVersion(api.version.value.version)).value))
      && |c.diagnostics| <= 1
  {
  }

  /**
   * A server older than 3.0.0 is refused with the constraint error, whose
   * message quotes the version as the server sent it, suffix included (the
   * suffix is cut only for parsing; see StripVersionExample).
   */
  lemma NewClientRefusesOldServer(api: Api, parse: string -> Result<SemVer, string>, version: string, parsed: SemVer)
    requires api.self.Success? && api.version == Success(Version(version))
    requires parse(StripVersion(version)) == Success(parsed) && parsed.major < 3
    ensures NewClientCheck(api, parse) ==
      ClientCheck([SelfCall, VersionCall], [Diagnostic(ConstraintError, ConstraintDetail(version))])
  {
    SatisfiesConstraintIffMajor(parsed);
  }

  // ---------------------------------------------------------------------------
  // Configure

  /** `provider.ConfigureResponse`: diagnostics and the client handed to data sources and resources. */
  class ConfigureResponse {
    var diagnostics: seq<Diagnostic>
    var dataSourceData: Option<Client>
    var resourceData: Option<Client>

    constructor ()
      ensures diagnostics == [] && dataSourceData == None && resourceData == None
    {
      diagnostics := [];
      dataSourceData := None;
      resourceData := None;
    }

    predicate HasError()
      reads this
    {
      diagnostics != []
    }

    method AddError(d: Diagnostic)
      modifies this
      ensures diagnostics == old(diagnostics) + [d]
      ensures dataSourceData == old(dataSourceData) && resourceData == old(resourceData)
    {
      diagnostics := diagnostics + [d];
    }
  }

  /**
   * `newProviderConfig` with the block already decoded; `env` stands for
   * `os.Getenv`. Returns the resolved configuration and adds ConfigErrors.
   */
  method NewProviderConfig(configured: ProviderConfig, env: string -> string, resp: ConfigureResponse)
    returns (config: ProviderConfig)
    modifies resp
    ensures config == Resolved(configured, env)
    ensures resp.diagnostics == old(resp.diagnostics) + ConfigErrors(config)
    ensures resp.dataSourceData == old(resp.dataSourceData) && resp.resourceData == old(resp.resourceData)
  {
    config := configured;
    if ValueString(config.server) == "" {
      config := config.(server := Known(env(ServerVariable)));
    }
    if ValueString(config.server) == "" {
      resp.AddError(MissingServer);
    }
    if ValueString(config.token) == "" {
      config := config.(token := Known(env(TokenVariable)));
    }
    if ValueString(config.token) == "" {
      resp.AddError(MissingToken);
    }
  }

  /**
   * `newClient`: a client for the resolved server and token, returned only
   * when NewClientCheck finds nothing wrong; otherwise none, with the error.
   */
  method NewClient(config: ProviderConfig, api: Api, parse: string -> Result<SemVer, string>, resp: ConfigureResponse)
    returns (client: Option<Client>)
    modifies resp
    ensures var c := NewClientCheck(api, parse);
      resp.diagnostics == old(resp.diagnostics) + c.diagnostics
      && (client.Some? <==> c.diagnostics == [])
      && (client.Some? ==>
            (fresh(client.value) && client.value.calls == c.calls && client.value.api == api
             && client.value.server == ValueString(config.server) && client.value.token == ValueString(config.token)))
    ensures resp.dataSourceData == old(resp.dataSourceData) && resp.resourceData == old(resp.resourceData)
  {
    var c := new Client(ValueString(config.server), ValueString(config.token), api);
    var self := c.Self();
    if self.Failure? {
      resp.AddError(Diagnostic(CurrentUserError, self.error.message));
      return None;
    }
    var ok := CheckVersion(c, parse, resp);
    if !ok {
      return None;
    }
    return Some(c);
  }

  /** The version half of `newClient`, on the client it built. */
  method CheckVersion(c: Client, parse: string -> Result<SemVer, string>, resp: ConfigureResponse)
    returns (ok: bool)
    modifies c, resp
    ensures c.calls == old(c.calls) + [VersionCall]
    ensures var errs := match c.api.version
        case Failure(e) => [Diagnostic(VersionError, e.message)]
        case Success(ver) => VersionErrors(ver.version, parse);
      resp.diagnostics == old(resp.diagnostics) + errs && (ok <==> errs == [])
    ensures resp.dataSourceData == old(resp.dataSourceData) && resp.resourceData == old(resp.resourceData)
  {
    var ver := c.Version();
    if ver.Failure? {
      resp.AddError(Diagnostic(VersionError, ver.error.message));
      return false;
    }
    var parsed := parse(StripVersion(ver.value.version));
    if parsed.Failure? {
      resp.AddError(Diagnostic(VersionParseError, ReportDetail(parsed.error)));
      return false;
    }
    if !SatisfiesConstraint(parsed.value) {
      resp.AddError(Diagnostic(ConstraintError, ConstraintDetail(ver.value.version)));
      return false;
    }
    return true;
  }

  /**
   * `Configure`: a configuration error stops it before any client is built;
   * otherwise the client NewClient returns, if any, becomes both the data
   * source data and the resource data.
   */
  method Configure(configured: ProviderConfig, env: string -> string, api: Api,
                   parse: string -> Result<SemVer, string>, resp: ConfigureResponse)
    requires resp.diagnostics == [] && resp.dataSourceData == None && resp.resourceData == None
    modifies resp
    ensures var cfg := Resolved(configured, env);
      if ConfigErrors(cfg) != [] then
        resp.diagnostics == ConfigErrors(cfg) && resp.dataSourceData == None && resp.resourceData == None
      else
        var c := NewClientCheck(api, parse);
        resp.diagnostics == c.diagnostics && resp.resourceData == resp.dataSourceData
        && (resp.dataSourceData.Some? <==> c.diagnostics == [])
        && (resp.dataSourceData.Some? ==>
              var client := resp.dataSourceData.value;
              fresh(client) && client.calls == c.calls && client.api == api
              && client.server == ValueString(cfg.server) && client.token == ValueString(cfg.token))
  {
    var cfg := NewProviderConfig(configured, env, resp);
    if resp.HasError() {
      return;
    }
    var client := NewClient(cfg, api, parse, resp);
    if resp.HasError() {
      return;
    }
    resp.dataSourceData := client;
    resp.resourceData := client;
  }
}
