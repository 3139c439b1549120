/**
 * The Woodpecker API client as the provider sees it: the payload structs it
 * sends and receives, and the calls it makes. The server is an oracle: each
 * endpoint answers with whatever the `Api` value says, and the client keeps a
 * log of the calls made so that a handler's contract can state which requests
 * it sent, in which order, with which arguments.
 */
module Woodpecker {
  import opened Wrappers
  import opened GoStrconv

  datatype User = User(
    id: Int64, forgeId: Int64, login: string, email: string,
    avatar: string, active: bool, admin: bool)

  datatype Secret = Secret(
    id: Int64, name: string, value: string,
    images: seq<string>, events: seq<string>)

  datatype TrustedConfiguration = TrustedConfiguration(network: bool, volumes: bool, security: bool)

  /** `woodpecker.Repo`; `Visibility` and `RequireApproval` are kept as their `String()` rendering. */
  datatype Repo = Repo(
    id: Int64, forgeId: Int64, forgeRemoteId: string,
    owner: string, name: string, fullName: string,
    avatar: string, forgeUrl: string, clone: string, branch: string,
    timeout: Int64, visibility: string, isScmPrivate: bool,
    trusted: TrustedConfiguration, requireApproval: string,
    isActive: bool, allowPullRequests: bool, allowDeployments: bool,
    config: string,
    cancelPreviousPipelineEvents: seq<string>, netrcTrustedPlugins: seq<string>)

  /** A nil pointer is `None`: the server leaves that setting as it is. */
  datatype TrustedConfigurationPatch = TrustedConfigurationPatch(
    network: Option<bool>, volumes: Option<bool>, security: Option<bool>)

  datatype RepoPatch = RepoPatch(
    config: Option<string>, timeout: Option<Int64>, visibility: Option<string>,
    allowPullRequests: Option<bool>, allowDeployments: Option<bool>,
    cancelPreviousPipelineEvents: seq<string>, netrcTrustedPlugins: seq<string>,
    trusted: Option<TrustedConfigurationPatch>)

  datatype Cron = Cron(
    id: Int64, name: string, repoId: Int64, creatorId: Int64,
    schedule: string, created: Int64, branch: string)

  datatype Registry = Registry(id: Int64, address: string, username: string, password: string)

  datatype Version = Version(version: string)

  /** An error returned by a client call; `message` is its `Error()` text. */
  datatype ClientError = ClientError(message: string)

  // Event names (`woodpecker.EventPush`, ...).
  const EventPush := "push"
  const EventTag := "tag"
  const EventPull := "pull_request"
  const EventPullClosed := "pull_request_closed"
  const EventDeploy := "deployment"
  const EventCron := "cron"
  const EventManual := "manual"
  const EventRelease := "release"

  /** A request the provider sent, with its arguments. */
  datatype Call =
    | SelfCall
    | UserCall(login: string)
    | VersionCall
    | RepoListOptsCall(all: bool, active: bool)
    | RepoPostCall(forgeRemoteId: Int64)
    | RepoPatchCall(repoId: Int64, patch: RepoPatch)
    | GlobalSecretCreateCall(secret: Secret)
    | GlobalSecretDeleteCall(secretName: string)
    | OrgSecretDeleteCall(orgId: Int64, secretName: string)
    | RegistryCreateCall(repoId: Int64, registry: Registry)
    | RegistryCall(repoId: Int64, address: string)
    | RegistryDeleteCall(repoId: Int64, address: string)
    | CronDeleteCall(repoId: Int64, cronId: Int64)
    | SecretDeleteCall(repoId: Int64, secretName: string)
    | RepoDelCall(repoId: Int64)

  /** The server's answers, one per endpoint; a delete answers only with an optional error. */
  datatype Api = Api(
    self: Result<User, ClientError>,
    user: string -> Result<User, ClientError>,
    version: Result<Version, ClientError>,
    repoListOpts: (bool, bool) -> Result<seq<Repo>, ClientError>,
    repoPost: Int64 -> Result<Repo, ClientError>,
    repoPatch: (Int64, RepoPatch) -> Result<Repo, ClientError>,
    globalSecretCreate: Secret -> Result<Secret, ClientError>,
    globalSecretDelete: string -> Option<ClientError>,
    orgSecretDelete: (Int64, string) -> Option<ClientError>,
    registryCreate: (Int64, Registry) -> Result<Registry, ClientError>,
    registry: (Int64, string) -> Result<Registry, ClientError>,
    registryDelete: (Int64, string) -> Option<ClientError>,
    cronDelete: (Int64, Int64) -> Option<ClientError>,
    secretDelete: (Int64, string) -> Option<ClientError>,
    repoDel: Int64 -> Option<ClientError>)

  /** `woodpecker.Client`, built from a server address and an OAuth access token. */
  class Client {
    const server: string
    const token: string
    const api: Api
    var calls: seq<Call>

    constructor (server: string, token: string, api: Api)
      ensures this.server == server && this.token == token && this.api == api
      ensures calls == []
    {
      this.server := server;
      this.token := token;
      this.api := api;
      calls := [];
    }

    method Self() returns (r: Result<User, ClientError>)
      modifies this
      ensures calls == old(calls) + [SelfCall] && r == api.self
    {
      calls := calls + [SelfCall];
      r := api.self;
    }

    method User(login: string) returns (r: Result<User, ClientError>)
      modifies this
      ensures calls == old(calls) + [UserCall(login)] && r == api.user(login)
    {
      calls := calls + [UserCall(login)];
      r := api.user(login);
    }

    method Version() returns (r: Result<Version, ClientError>)
      modifies this
      ensures calls == old(calls) + [VersionCall] && r == api.version
    {
      calls := calls + [VersionCall];
      r := api.version;
    }

    method RepoListOpts(all: bool, active: bool) returns (r: Result<seq<Repo>, ClientError>)
      modifies this
      ensures calls == old(calls) + [RepoListOptsCall(all, active)] && r == api.repoListOpts(all, active)
    {
      calls := calls + [RepoListOptsCall(all, active)];
      r := api.repoListOpts(all, active);
    }

    method RepoPost(forgeRemoteId: Int64) returns (r: Result<Repo, ClientError>)
      modifies this
      ensures calls == old(calls) + [RepoPostCall(forgeRemoteId)] && r == api.repoPost(forgeRemoteId)
    {
      calls := calls + [RepoPostCall(forgeRemoteId)];
      r := api.repoPost(forgeRemoteId);
    }

    method RepoPatch(repoId: Int64, patch: RepoPatch) returns (r: Result<Repo, ClientError>)
      modifies this
      ensures calls == old(calls) + [RepoPatchCall(repoId, patch)] && r == api.repoPatch(repoId, patch)
    {
      calls := calls + [RepoPatchCall(repoId, patch)];
      r := api.repoPatch(repoId, patch);
    }

    method GlobalSecretCreate(secret: Secret) returns (r: Result<Secret, ClientError>)
      modifies this
      ensures calls == old(calls) + [GlobalSecretCreateCall(secret)] && r == api.globalSecretCreate(secret)
    {
      calls := calls + [GlobalSecretCreateCall(secret)];
      r := api.globalSecretCreate(secret);
    }

    method GlobalSecretDelete(secretName: string) returns (err: Option<ClientError>)
      modifies this
      ensures calls == old(calls) + [GlobalSecretDeleteCall(secretName)] && err == api.globalSecretDelete(secretName)
    {
      calls := calls + [GlobalSecretDeleteCall(secretName)];
      err := api.globalSecretDelete(secretName);
    }

    method OrgSecretDelete(orgId: Int64, secretName: string) returns (err: Option<ClientError>)
      modifies this
      ensures calls == old(calls) + [OrgSecretDeleteCall(orgId, secretName)] && err == api.orgSecretDelete(orgId, secretName)
    {
      calls := calls + [OrgSecretDeleteCall(orgId, secretName)];
      err := api.orgSecretDelete(orgId, secretName);
    }

    method RegistryCreate(repoId: Int64, registry: Registry) returns (r: Result<Registry, ClientError>)
      modifies this
      ensures calls == old(calls) + [RegistryCreateCall(repoId, registry)] && r == api.registryCreate(repoId, registry)
    {
      calls := calls + [RegistryCreateCall(repoId, registry)];
      r := api.registryCreate(repoId, registry);
    }

    method Registry(repoId: Int64, address: string) returns (r: Result<Registry, ClientError>)
      modifies this
      ensures calls == old(calls) + [RegistryCall(repoId, address)] && r == api.registry(repoId, address)
    {
      calls := calls + [RegistryCall(repoId, address)];
      r := api.registry(repoId, address);
    }

    method RegistryDelete(repoId: Int64, address: string) returns (err: Option<ClientError>)
      modifies this
      ensures calls == old(calls) + [RegistryDeleteCall(repoId, address)] && err == api.registryDelete(repoId, address)
    {
      calls := calls + [RegistryDeleteCall(repoId, address)];
      err := api.registryDelete(repoId, address);
    }

    method CronDelete(repoId: Int64, cronId: Int64) returns (err: Option<ClientError>)
      modifies this
      ensures calls == old(calls) + [CronDeleteCall(repoId, cronId)] && err == api.cronDelete(repoId, cronId)
    {
      calls := calls + [CronDeleteCall(repoId, cronId)];
      err := api.cronDelete(repoId, cronId);
    }

    method SecretDelete(repoId: Int64, secretName: string) returns (err: Option<ClientError>)
      modifies this
      ensures calls == old(calls) + [SecretDeleteCall(repoId, secretName)] && err == api.secretDelete(repoId, secretName)
    {
      calls := calls + [SecretDeleteCall(repoId, secretName)];
      err := api.secretDelete(repoId, secretName);
    }

    method RepoDel(repoId: Int64) returns (err: Option<ClientError>)
      modifies this
      ensures calls == old(calls) + [RepoDelCall(repoId)] && err == api.repoDel(repoId)
    {
      calls := calls + [RepoDelCall(repoId)];
      err := api.repoDel(repoId);
    }
  }
}
