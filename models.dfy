/**
 * The mapping layer between Terraform attribute values and client payloads.
 *
 * Each Go model struct whose `setValues` assigns its fields in place is a
 * class with those fields; `State()` is the record of its attribute values
 * that the framework reads from a plan or state into the struct (the
 * constructor) and writes back with `State.Set`. Structs the code only reads
 * (the version-0 secret records) are plain datatypes.
 */
module Models {
  import opened Wrappers
  import opened GoStrconv
  import opened Framework
  import opened Woodpecker

  ghost predicate SameElements(xs: seq<string>, ys: seq<string>) {
    forall x :: x in xs <==> x in ys
  }

  // ---------------------------------------------------------------------------
  // userModel

  datatype UserState = UserState(
    id: Val<Int64>, forgeId: Val<Int64>, login: Val<string>, email: Val<string>,
    avatarUrl: Val<string>, isAdmin: Val<bool>)

  class UserModel {
    var id: Val<Int64>
    var forgeId: Val<Int64>
    var login: Val<string>
    var email: Val<string>
    var avatarUrl: Val<string>
    var isAdmin: Val<bool>

    constructor (s: UserState)
      ensures State() == s
    {
      id, forgeId, login, email, avatarUrl, isAdmin := s.id, s.forgeId, s.login, s.email, s.avatarUrl, s.isAdmin;
    }

    function State(): UserState
      reads this
    {
      UserState(id, forgeId, login, email, avatarUrl, isAdmin)
    }

    /** Every attribute becomes known; reading the model back gives the user, except that `Active` is not carried. */
    method SetValues(user: User) returns (diags: seq<Diagnostic>)
      modifies this
      ensures State() == UserState(Known(user.id), Known(user.forgeId), Known(user.login),
                                   Known(user.email), Known(user.avatar), Known(user.admin))
      ensures ToWoodpeckerModel() == user.(active := false)
      ensures diags == []
    {
      id := Known(user.id);
      forgeId := Known(user.forgeId);
      login := Known(user.login);
      email := Known(user.email);
      avatarUrl := Known(user.avatar);
      isAdmin := Known(user.admin);
      diags := [];
    }

    /** The payload never asks for an active user, and a null or unknown attribute sends the zero value. */
    function ToWoodpeckerModel(): (u: User)
      reads this
      ensures !u.active
      ensures State() == UserState(Known(u.id), Known(u.forgeId), Known(u.login),
                                   Known(u.email), Known(u.avatar), Known(u.admin))
        <== id.Known? && forgeId.Known? && login.Known? && email.Known? && avatarUrl.Known? && isAdmin.Known?
      ensures !login.Known? ==> u.login == ""
    {
      User(ValueInt64(id), ValueInt64(forgeId), ValueString(login), ValueString(email),
           ValueString(avatarUrl), false, ValueBool(isAdmin))
    }
  }

  // ---------------------------------------------------------------------------
  // Secrets: the payload shared by the global, organization and repository secret models.

  /**
   * `toWoodpeckerModel` of a secret model: ID, Name and Value as plain values,
   * Images and Events converted with `ElementsAs(..., false)`, so an unknown
   * set is an error.
   */
  function SecretPayload(id: Val<Int64>, name: Val<string>, value: Val<string>,
                         images: Val<set<string>>, events: Val<set<string>>): (r: (Secret, seq<Diagnostic>))
    ensures r.0.id == ValueInt64(id) && r.0.name == ValueString(name) && r.0.value == ValueString(value)
    ensures (set x | x in r.0.images) == (if images.Known? then images.v else {})
    ensures (set x | x in r.0.events) == (if events.Known? then events.v else {})
    ensures r.1 != [] <==> images.Unknown? || events.Unknown?
  {
    var (imgs, d1) := ElementsAs(images, false);
    var (evs, d2) := ElementsAs(events, false);
    (Secret(ValueInt64(id), ValueString(name), ValueString(value), imgs, evs), d1 + d2)
  }

  /** Sending a secret read from the server back: ID and Name survive, Images and Events survive as sets. */
  lemma SecretPayloadRoundTrip(secret: Secret, value: Val<string>)
    ensures var (w, d) := SecretPayload(Known(secret.id), Known(secret.name), value,
                                       SetValueFrom(secret.images), SetValueFrom(secret.events));
      d == [] && w.id == secret.id && w.name == secret.name && w.value == ValueString(value) &&
      SameElements(w.images, secret.images) && SameElements(w.events, secret.events)
  {
    var (w, d) := SecretPayload(Known(secret.id), Known(secret.name), value,
                                SetValueFrom(secret.images), SetValueFrom(secret.events));
    assert forall x :: x in w.images <==> x in (set y | y in w.images);
    assert forall x :: x in w.events <==> x in (set y | y in w.events);
  }

  /** Order and repetitions are not preserved: a secret listing an image twice comes back listing it once. */
  lemma SecretPayloadDropsDuplicates()
    ensures SecretPayload(Known(1), Known("s"), Null, SetValueFrom(["x", "x"]), SetValueFrom([])).0.images == ["x"]
  {
    var imgs := SetValueFrom(["x", "x"]);
    assert imgs.v == {"x"} by {
      assert "x" in ["x", "x"];
      forall y | y in imgs.v ensures y == "x" { }
    }
    var r := ElementsAs(imgs, false).0;
    assert |r| == 1;
    assert r[0] in (set y | y in r);
  }

  /** `secretResourceModelV0`: the state of a global secret written by schema version 0. */
  datatype SecretStateV0 = SecretStateV0(
    id: Val<Int64>, name: Val<string>, value: Val<string>,
    images: Val<set<string>>, pluginsOnly: Val<bool>, events: Val<set<string>>)

  datatype SecretStateV1 = SecretStateV1(
    id: Val<Int64>, name: Val<string>, value: Val<string>,
    images: Val<set<string>>, events: Val<set<string>>)

  /** `secretResourceModelV1`, the global secret at schema version 1. */
  class SecretModelV1 {
    var id: Val<Int64>
    var name: Val<string>
    var value: Val<string>
    var images: Val<set<string>>
    var events: Val<set<string>>

    constructor (s: SecretStateV1)
      ensures State() == s
    {
      id, name, value, images, events := s.id, s.name, s.value, s.images, s.events;
    }

    function State(): SecretStateV1
      reads this
    {
      SecretStateV1(id, name, value, images, events)
    }

    /** ID, Name, Images and Events come from the server; Value keeps what was configured. */
    method SetValues(secret: Secret) returns (diags: seq<Diagnostic>)
      modifies this
      ensures State() == SecretStateV1(Known(secret.id), Known(secret.name), old(value),
                                       SetValueFrom(secret.images), SetValueFrom(secret.events))
      ensures var (w, d) := ToWoodpeckerModel();
        d == [] && w.id == secret.id && w.name == secret.name && w.value == ValueString(old(value)) &&
        SameElements(w.images, secret.images) && SameElements(w.events, secret.events)
      ensures diags == []
    {
      id := Known(secret.id);
      name := Known(secret.name);
      images := SetValueFrom(secret.images);
      events := SetValueFrom(secret.events);
      diags := [];
      SecretPayloadRoundTrip(secret, value);
    }

    /**
     * `toWoodpeckerModel`: ID, Name and Value as plain values, Images and
     * Events as the elements of the sets; an error exactly when a set is unknown.
     */
    function ToWoodpeckerModel(): (r: (Secret, seq<Diagnostic>))
      reads this
      ensures r.0.id == ValueInt64(id) && r.0.name == ValueString(name) && r.0.value == ValueString(value)
      ensures (set x | x in r.0.images) == (if images.Known? then images.v else {})
      ensures (set x | x in r.0.events) == (if events.Known? then events.v else {})
      ensures r.1 != [] <==> images.Unknown? || events.Unknown?
    {
      SecretPayload(id, name, value, images, events)
    }
  }

  /** `repositorySecretResourceModelV0`: the state of a repository secret written by schema version 0. */
  datatype RepositorySecretStateV0 = RepositorySecretStateV0(
    id: Val<Int64>, repositoryId: Val<Int64>, name: Val<string>, value: Val<string>,
    images: Val<set<string>>, pluginsOnly: Val<bool>, events: Val<set<string>>)

  datatype RepositorySecretStateV1 = RepositorySecretStateV1(
    id: Val<Int64>, repositoryId: Val<Int64>, name: Val<string>, value: Val<string>,
    images: Val<set<string>>, events: Val<set<string>>)

  /** `repositorySecretResourceModelV1`. */
  class RepositorySecretModelV1 {
    var id: Val<Int64>
    var repositoryId: Val<Int64>
    var name: Val<string>
    var value: Val<string>
    var images: Val<set<string>>
    var events: Val<set<string>>

    constructor (s: RepositorySecretStateV1)
      ensures State() == s
    {
      id, repositoryId, name, value, images, events := s.id, s.repositoryId, s.name, s.value, s.images, s.events;
    }

    function State(): RepositorySecretStateV1
      reads this
    {
      RepositorySecretStateV1(id, repositoryId, name, value, images, events)
    }

    /** ID, Name, Images and Events come from the server; RepositoryID and Value are never modified. */
    method SetValues(secret: Secret) returns (diags: seq<Diagnostic>)
      modifies this
      ensures State() == RepositorySecretStateV1(Known(secret.id), old(repositoryId), Known(secret.name), old(value),
                                                 SetValueFrom(secret.images), SetValueFrom(secret.events))
      ensures var (w, d) := ToWoodpeckerModel();
        d == [] && w.id == secret.id && w.name == secret.name && w.value == ValueString(old(value)) &&
        SameElements(w.images, secret.images) && SameElements(w.events, secret.events)
      ensures diags == []
    {
      id := Known(secret.id);
      name := Known(secret.name);
      images := SetValueFrom(secret.images);
      events := SetValueFrom(secret.events);
      diags := [];
      SecretPayloadRoundTrip(secret, value);
    }

    /**
     * `toWoodpeckerModel`: ID, Name and Value as plain values, Images and
     * Events as the elements of the sets; an error exactly when a set is unknown.
     */
    function ToWoodpeckerModel(): (r: (Secret, seq<Diagnostic>))
      reads this
      ensures r.0.id == ValueInt64(id) && r.0.name == ValueString(name) && r.0.value == ValueString(value)
      ensures (set x | x in r.0.images) == (if images.Known? then images.v else {})
      ensures (set x | x in r.0.events) == (if events.Known? then events.v else {})
      ensures r.1 != [] <==> images.Unknown? || events.Unknown?
    {
      SecretPayload(id, name, value, images, events)
    }
  }

  // ---------------------------------------------------------------------------
  // repositoryModel

  /** The `trusted` object attribute; `setValues` always builds it with exactly these three keys. */
  datatype TrustedState = TrustedState(network: Val<bool>, volumes: Val<bool>, security: Val<bool>)

  datatype RepositoryState = RepositoryState(
    id: Val<Int64>, forgeId: Val<Int64>, forgeRemoteId: Val<string>,
    owner: Val<string>, name: Val<string>, fullName: Val<string>,
    avatarUrl: Val<string>, forgeUrl: Val<string>, cloneUrl: Val<string>, defaultBranch: Val<string>,
    timeout: Val<Int64>, visibility: Val<string>, isPrivate: Val<bool>,
    trusted: Val<TrustedState>, requireApproval: Val<string>,
    isActive: Val<bool>, allowPullRequests: Val<bool>, allowDeployments: Val<bool>,
    configFile: Val<string>,
    cancelPreviousPipelineEvents: Val<set<string>>, netrcTrustedPlugins: Val<set<string>>)

  /** `types.ObjectValue` over the trusted attributes of a repo: all three keys, all known. */
  function TrustedValue(t: TrustedConfiguration): (r: Val<TrustedState>)
    ensures r.Known? && r.v.network.Known? && r.v.volumes.Known? && r.v.security.Known?
    ensures TrustedPatch(r) == Some(TrustedConfigurationPatch(Some(t.network), Some(t.volumes), Some(t.security)))
  {
    Known(TrustedState(Known(t.network), Known(t.volumes), Known(t.security)))
  }

  /**
   * `Trusted.As(ctx, &trusted, {UnhandledUnknownAsEmpty: true})` followed by the
   * `trusted != nil` branch: a null or unknown object leaves the pointer nil;
   * otherwise each setting is a pointer that is nil exactly when the
   * sub-attribute is null.
   */
  function TrustedPatch(t: Val<TrustedState>): (r: Option<TrustedConfigurationPatch>)
    ensures r.None? <==> !t.Known?
    ensures t.Known? ==>
      (r.value.network.None? <==> t.v.network.Null?) &&
      (r.value.volumes.None? <==> t.v.volumes.Null?) &&
      (r.value.security.None? <==> t.v.security.Null?)
    ensures t.Known? && t.v.network.Known? ==> r.value.network == Some(t.v.network.v)
    ensures t.Known? && t.v.volumes.Known? ==> r.value.volumes == Some(t.v.volumes.v)
    ensures t.Known? && t.v.security.Known? ==> r.value.security == Some(t.v.security.v)
  {
    match t
    case Known(tr) =>
      Some(TrustedConfigurationPatch(ValuePointer(tr.network, false), ValuePointer(tr.volumes, false),
                                     ValuePointer(tr.security, false)))
    case _ => None
  }

  /** The attribute values `setValues` writes for a repo read from the server. */
  function RepositoryStateOf(repo: Repo): RepositoryState {
    RepositoryState(
      Known(repo.id), Known(repo.forgeId), Known(repo.forgeRemoteId), Known(repo.owner), Known(repo.name),
      Known(repo.fullName), Known(repo.avatar), Known(repo.forgeUrl), Known(repo.clone), Known(repo.branch),
      Known(repo.timeout), Known(repo.visibility), Known(repo.isScmPrivate), TrustedValue(repo.trusted),
      Known(repo.requireApproval), Known(repo.isActive), Known(repo.allowPullRequests),
      Known(repo.allowDeployments), Known(repo.config),
      SetValueFrom(repo.cancelPreviousPipelineEvents), SetValueFrom(repo.netrcTrustedPlugins))
  }

  /**
   * `toWoodpeckerPatch`: each scalar setting is a pointer that is nil exactly
   * when its attribute is null; the event list must not be unknown
   * (`ElementsAs(..., false)`), the plugin list may be
   * (`ElementsAs(..., true)`); `Trusted` follows TrustedPatch. Identity and
   * forge attributes are not part of the patch.
   */
  function RepositoryPatch(s: RepositoryState): (r: (RepoPatch, seq<Diagnostic>))
    ensures (r.0.config.None? <==> s.configFile.Null?) && (s.configFile.Known? ==> r.0.config == Some(s.configFile.v))
    ensures (r.0.timeout.None? <==> s.timeout.Null?) && (s.timeout.Known? ==> r.0.timeout == Some(s.timeout.v))
    ensures (r.0.visibility.None? <==> s.visibility.Null?) &&
            (s.visibility.Known? ==> r.0.visibility == Some(s.visibility.v))
    ensures (r.0.allowPullRequests.None? <==> s.allowPullRequests.Null?) &&
            (s.allowPullRequests.Known? ==> r.0.allowPullRequests == Some(s.allowPullRequests.v))
    ensures (r.0.allowDeployments.None? <==> s.allowDeployments.Null?) &&
            (s.allowDeployments.Known? ==> r.0.allowDeployments == Some(s.allowDeployments.v))
    ensures (set x | x in r.0.cancelPreviousPipelineEvents) ==
            (if s.cancelPreviousPipelineEvents.Known? then s.cancelPreviousPipelineEvents.v else {})
    ensures (set x | x in r.0.netrcTrustedPlugins) ==
            (if s.netrcTrustedPlugins.Known? then s.netrcTrustedPlugins.v else {})
    ensures r.0.trusted == TrustedPatch(s.trusted)
    ensures r.1 != [] <==> s.cancelPreviousPipelineEvents.Unknown?
  {
    var (cancel, d1) := ElementsAs(s.cancelPreviousPipelineEvents, false);
    var (netrc, d2) := ElementsAs(s.netrcTrustedPlugins, true);
    (RepoPatch(ValuePointer(s.configFile, ""), ValuePointer(s.timeout, 0), ValuePointer(s.visibility, ""),
               ValuePointer(s.allowPullRequests, false), ValuePointer(s.allowDeployments, false),
               cancel, netrc, TrustedPatch(s.trusted)),
     d1 + d2)
  }

  /**
   * Patching with the state `setValues` wrote sends every setting of the repo
   * back: all pointers present, the trusted settings in full, the event and
   * plugin lists as sets, and no diagnostics.
   */
  lemma RefreshedRepositoryPatch(repo: Repo)
    ensures var (p, d) := RepositoryPatch(RepositoryStateOf(repo));
      d == [] &&
      p.config == Some(repo.config) && p.timeout == Some(repo.timeout) &&
      p.visibility == Some(repo.visibility) &&
      p.allowPullRequests == Some(repo.allowPullRequests) && p.allowDeployments == Some(repo.allowDeployments) &&
      p.trusted == Some(TrustedConfigurationPatch(Some(repo.trusted.network), Some(repo.trusted.volumes),
                                                  Some(repo.trusted.security))) &&
      SameElements(p.cancelPreviousPipelineEvents, repo.cancelPreviousPipelineEvents) &&
      SameElements(p.netrcTrustedPlugins, repo.netrcTrustedPlugins)
  {
    SetValueFromElementsAs(repo.cancelPreviousPipelineEvents, false);
    SetValueFromElementsAs(repo.netrcTrustedPlugins, true);
  }

  /** `repositoryModel`. */
  class RepositoryModel {
    var id: Val<Int64>
    var forgeId: Val<Int64>
    var forgeRemoteId: Val<string>
    var owner: Val<string>
    var name: Val<string>
    var fullName: Val<string>
    var avatarUrl: Val<string>
    var forgeUrl: Val<string>
    var cloneUrl: Val<string>
    var defaultBranch: Val<string>
    var timeout: Val<Int64>
    var visibility: Val<string>
    var isPrivate: Val<bool>
    var trusted: Val<TrustedState>
    var requireApproval: Val<string>
    var isActive: Val<bool>
    var allowPullRequests: Val<bool>
    var allowDeployments: Val<bool>
    var configFile: Val<string>
    var cancelPreviousPipelineEvents: Val<set<string>>
    var netrcTrustedPlugins: Val<set<string>>

    constructor (s: RepositoryState)
      ensures State() == s
    {
      id, forgeId, forgeRemoteId := s.id, s.forgeId, s.forgeRemoteId;
      owner, name, fullName := s.owner, s.name, s.fullName;
      avatarUrl, forgeUrl, cloneUrl, defaultBranch := s.avatarUrl, s.forgeUrl, s.cloneUrl, s.defaultBranch;
      timeout, visibility, isPrivate := s.timeout, s.visibility, s.isPrivate;
      trusted, requireApproval := s.trusted, s.requireApproval;
      isActive, allowPullRequests, allowDeployments := s.isActive, s.allowPullRequests, s.allowDeployments;
      configFile := s.configFile;
      cancelPreviousPipelineEvents, netrcTrustedPlugins := s.cancelPreviousPipelineEvents, s.netrcTrustedPlugins;
    }

    function State(): RepositoryState
      reads this
    {
      RepositoryState(id, forgeId, forgeRemoteId, owner, name, fullName, avatarUrl, forgeUrl, cloneUrl,
                      defaultBranch, timeout, visibility, isPrivate, trusted, requireApproval, isActive,
                      allowPullRequests, allowDeployments, configFile, cancelPreviousPipelineEvents,
                      netrcTrustedPlugins)
    }

    /** Overwrites the identity and forge attributes. */
    method AssignIdentity(st: RepositoryState)
      modifies this`id, this`forgeId, this`forgeRemoteId, this`owner, this`name, this`fullName, this`avatarUrl,
        this`forgeUrl, this`cloneUrl, this`defaultBranch
      ensures id == st.id && forgeId == st.forgeId && forgeRemoteId == st.forgeRemoteId && owner == st.owner
      ensures name == st.name && fullName == st.fullName && avatarUrl == st.avatarUrl
      ensures forgeUrl == st.forgeUrl && cloneUrl == st.cloneUrl && defaultBranch == st.defaultBranch
    {
      id, forgeId, forgeRemoteId, owner := st.id, st.forgeId, st.forgeRemoteId, st.owner;
      name, fullName, avatarUrl := st.name, st.fullName, st.avatarUrl;
      forgeUrl, cloneUrl, defaultBranch := st.forgeUrl, st.cloneUrl, st.defaultBranch;
    }

    /** Overwrites the settings attributes. */
    method AssignSettings(st: RepositoryState)
      modifies this`timeout, this`visibility, this`isPrivate, this`trusted, this`requireApproval, this`isActive,
        this`allowPullRequests, this`allowDeployments, this`configFile, this`cancelPreviousPipelineEvents,
        this`netrcTrustedPlugins
      ensures timeout == st.timeout && visibility == st.visibility && isPrivate == st.isPrivate && trusted == st.trusted
      ensures requireApproval == st.requireApproval && isActive == st.isActive
      ensures allowPullRequests == st.allowPullRequests && allowDeployments == st.allowDeployments
      ensures configFile == st.configFile && cancelPreviousPipelineEvents == st.cancelPreviousPipelineEvents
      ensures netrcTrustedPlugins == st.netrcTrustedPlugins
    {
      timeout, visibility, isPrivate, trusted := st.timeout, st.visibility, st.isPrivate, st.trusted;
      requireApproval, isActive := st.requireApproval, st.isActive;
      allowPullRequests, allowDeployments := st.allowPullRequests, st.allowDeployments;
      configFile, cancelPreviousPipelineEvents, netrcTrustedPlugins := st.configFile, st.cancelPreviousPipelineEvents, st.netrcTrustedPlugins;
    }

    /** Every attribute is overwritten from the repo. */
    method SetValues(repo: Repo) returns (diags: seq<Diagnostic>)
      modifies this
      ensures State() == RepositoryStateOf(repo)
      ensures diags == []
    {
      var st := RepositoryStateOf(repo);
      AssignIdentity(st);
      AssignSettings(st);
      diags := [];
    }

    /**
     * `toWoodpeckerPatch`: each scalar setting absent exactly when its
     * attribute is null, the trusted settings as TrustedPatch gives them, and
     * an error exactly when the pipeline-event set is unknown.
     */
    function ToWoodpeckerPatch(): (r: (RepoPatch, seq<Diagnostic>))
      reads this
      ensures r.0.config.None? <==> configFile.Null?
      ensures r.0.timeout.None? <==> timeout.Null?
      ensures r.0.visibility.None? <==> visibility.Null?
      ensures r.0.allowPullRequests.None? <==> allowPullRequests.Null?
      ensures r.0.allowDeployments.None? <==> allowDeployments.Null?
      ensures r.0.trusted == TrustedPatch(trusted)
      ensures r.1 != [] <==> cancelPreviousPipelineEvents.Unknown?
    {
      RepositoryPatch(State())
    }
  }

  // ---------------------------------------------------------------------------
  // repositoryCronModel

  datatype CronState = CronState(
    id: Val<Int64>, name: Val<string>, repositoryId: Val<Int64>, creatorId: Val<Int64>,
    schedule: Val<string>, createdAt: Val<Int64>, branch: Val<string>)

  class CronModel {
    var id: Val<Int64>
    var name: Val<string>
    var repositoryId: Val<Int64>
    var creatorId: Val<Int64>
    var schedule: Val<string>
    var createdAt: Val<Int64>
    var branch: Val<string>

    constructor (s: CronState)
      ensures State() == s
    {
      id, name, repositoryId, creatorId := s.id, s.name, s.repositoryId, s.creatorId;
      schedule, createdAt, branch := s.schedule, s.createdAt, s.branch;
    }

    function State(): CronState
      reads this
    {
      CronState(id, name, repositoryId, creatorId, schedule, createdAt, branch)
    }

    /** Every attribute becomes known, and reading the model back gives exactly the cron. */
    method SetValues(cron: Cron) returns (diags: seq<Diagnostic>)
      modifies this
      ensures State() == CronState(Known(cron.id), Known(cron.name), Known(cron.repoId), Known(cron.creatorId),
                                   Known(cron.schedule), Known(cron.created), Known(cron.branch))
      ensures ToWoodpeckerModel() == cron
      ensures diags == []
    {
      id := Known(cron.id);
      name := Known(cron.name);
      repositoryId := Known(cron.repoId);
      creatorId := Known(cron.creatorId);
      schedule := Known(cron.schedule);
      createdAt := Known(cron.created);
      branch := Known(cron.branch);
      diags := [];
    }

    /** A model whose attributes are all known is exactly the cron it describes. */
    function ToWoodpeckerModel(): (c: Cron)
      reads this
      ensures id.Known? && name.Known? && repositoryId.Known? && creatorId.Known? &&
              schedule.Known? && createdAt.Known? && branch.Known? ==>
        State() == CronState(Known(c.id), Known(c.name), Known(c.repoId), Known(c.creatorId),
                             Known(c.schedule), Known(c.created), Known(c.branch))
    {
      Cron(ValueInt64(id), ValueString(name), ValueInt64(repositoryId), ValueInt64(creatorId),
           ValueString(schedule), ValueInt64(createdAt), ValueString(branch))
    }
  }

  // ---------------------------------------------------------------------------
  // repositoryRegistryResourceModel

  datatype RegistryState = RegistryState(
    id: Val<Int64>, repositoryId: Val<Int64>, address: Val<string>, username: Val<string>, password: Val<string>)

  class RegistryModel {
    var id: Val<Int64>
    var repositoryId: Val<Int64>
    var address: Val<string>
    var username: Val<string>
    var password: Val<string>

    constructor (s: RegistryState)
      ensures State() == s
    {
      id, repositoryId, address, username, password := s.id, s.repositoryId, s.address, s.username, s.password;
    }

    function State(): RegistryState
      reads this
    {
      RegistryState(id, repositoryId, address, username, password)
    }

    /** Only ID, Address and Username are set; Password and RepositoryID keep their values. */
    method SetValues(registry: Registry) returns (diags: seq<Diagnostic>)
      modifies this
      ensures State() == RegistryState(Known(registry.id), old(repositoryId), Known(registry.address),
                                       Known(registry.username), old(password))
      ensures ToWoodpeckerModel() == registry.(password := ValueString(old(password)))
      ensures diags == []
    {
      id := Known(registry.id);
      address := Known(registry.address);
      username := Known(registry.username);
      diags := [];
    }

    /** The payload carries no repository id: the repository travels as a separate argument. */
    function ToWoodpeckerModel(): (r: Registry)
      reads this
      ensures id.Known? && address.Known? && username.Known? && password.Known? ==>
        State() == RegistryState(Known(r.id), repositoryId, Known(r.address), Known(r.username), Known(r.password))
    {
      Registry(ValueInt64(id), ValueString(address), ValueString(username), ValueString(password))
    }
  }
}
