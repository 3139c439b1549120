/** `woodpecker_repository`: its validators, import, the Create sequence that activates a repository, and Delete. */
module ResourceRepository {
  import opened Wrappers
  import opened GoStrconv
  import opened GoStrings
  import opened Framework
  import opened Woodpecker
  import opened Models

  /** The `timeout` validator, `int64validator.AtLeast(1)`. */
  predicate TimeoutValid(timeout: Val<Int64>)
    ensures TimeoutValid(timeout) <==> timeout.Known? ==> timeout.v >= 1
  {
    AtLeast(1, timeout)
  }

  const Visibilities: seq<string> := ["public", "private", "internal"]

  /** The `visibility` validator, `stringvalidator.OneOfCaseInsensitive("public", "private", "internal")`. */
  predicate VisibilityValid(visibility: Val<string>)
    ensures visibility.Known? && visibility.v in Visibilities ==> VisibilityValid(visibility)
    ensures VisibilityValid(visibility) <==>
      visibility.Known? ==> exists i :: 0 <= i < |Visibilities| && EqualFold(visibility.v, Visibilities[i])
  {
    OneOfCaseInsensitive(Visibilities, visibility)
  }

  /** A timeout of 0 is rejected and 1 accepted; "asdf" is rejected and "Private" accepted. */
  lemma ValidatorExamples()
    ensures !TimeoutValid(Known(0)) && TimeoutValid(Known(1)) && TimeoutValid(Null)
    ensures !VisibilityValid(Known("asdf")) && VisibilityValid(Known("Private")) && VisibilityValid(Unknown)
  {
    assert EqualFold("Private", Visibilities[1]);
    forall i | 0 <= i < |Visibilities| ensures !EqualFold("asdf", Visibilities[i]) {
      assert |Visibilities[i]| != 4;
    }
  }

  /** Any case variant of an allowed visibility passes. */
  lemma VisibilityValidUpper(i: nat)
    requires i < |Visibilities|
    ensures VisibilityValid(Known(AsciiUpper(Visibilities[i])))
  {
    AsciiUpperFolds(Visibilities[i]);
  }

  /** `ImportState`: the whole identifier becomes `full_name`. */
  method ImportState(id: string, resp: ImportResponse)
    modifies resp
    ensures resp.attributes == old(resp.attributes)["full_name" := StrAttr(id)]
    ensures resp.diagnostics == old(resp.diagnostics)
  {
    resp.SetAttribute("full_name", StrAttr(id));
  }

  /**
   * `slices.IndexFunc(repos, func(repo) bool { return repo.FullName == name })`:
   * the first position whose full name is `name`, or -1.
   */
  function IndexByFullName(repos: seq<Repo>, name: string): (idx: int)
    ensures -1 <= idx < |repos|
    ensures idx >= 0 ==> repos[idx].fullName == name && forall j :: 0 <= j < idx ==> repos[j].fullName != name
    ensures idx == -1 <==> forall j :: 0 <= j < |repos| ==> repos[j].fullName != name
  {
    if repos == [] then -1
    else if repos[0].fullName == name then 0
    else
      var k := IndexByFullName(repos[1..], name);
      assert forall j :: 1 <= j < |repos| ==> repos[j] == repos[1..][j - 1];
      if k < 0 then -1 else k + 1
  }

  const NotFoundPrefix := "Repository with name '"
  const NotFoundSuffix := "' not found"

  function NotFoundDetail(name: string): string {
    NotFoundPrefix + name + NotFoundSuffix
  }

  /** Summaries of the errors `Create` adds. */
  const ListError := "Couldn't list repositories"
  const NotFoundError := "Repository not found"
  const ForgeRemoteIdError := "Couldn't parse ForgeRemoteID"
  const ActivateError := "Couldn't activate repository"
  const UpdateError := "Couldn't update repository"

  /** What a handler leaves behind: the requests it sent, its diagnostics and the recorded state. */
  datatype Outcome = Outcome(calls: seq<Call>, diagnostics: seq<Diagnostic>, state: Option<RepositoryState>)

  /**
   * The outcome of `Create` against a server that answers as `api` does. In
   * order: list the user's repositories (`RepoListOpts(true, true)`), pick
   * the first whose full name is the configured one, build the patch, parse
   * that repo's ForgeRemoteID as a decimal int64, activate it with
   * `RepoPost`, patch the repo `RepoPost` returned, and record the patched
   * repo. Each failure adds one error and sends nothing further.
   */
  function CreateOutcome(api: Api, config: RepositoryState): (o: Outcome)
    ensures o.state.Some? <==> o.diagnostics == []
    ensures 1 <= |o.calls| <= 3 && o.calls[0] == RepoListOptsCall(true, true)
    ensures o.state.Some? ==> |o.calls| == 3
  {
    var list := RepoListOptsCall(true, true);
    match api.repoListOpts(true, true)
    case Failure(e) => Outcome([list], [Diagnostic(ListError, e.message)], None)
    case Success(repos) =>
      var name := ValueString(config.fullName);
      var idx := IndexByFullName(repos, name);
      if idx < 0 then Outcome([list], [Diagnostic(NotFoundError, NotFoundDetail(name))], None)
      else
        var rest := PatchOutcome(api, repos[idx].forgeRemoteId, config);
        Outcome([list] + rest.calls, rest.diagnostics, rest.state)
  }

  /** The steps after the lookup: build the patch, stopping on its errors, then activate. */
  function PatchOutcome(api: Api, forgeRemoteId: string, config: RepositoryState): (o: Outcome)
    ensures o.state.Some? <==> o.diagnostics == []
    ensures |o.calls| <= 2
    ensures o.state.Some? ==> |o.calls| == 2
  {
    var (patch, patchDiags) := RepositoryPatch(config);
    if patchDiags != [] then Outcome([], patchDiags, None)
    else ActivateOutcome(api, forgeRemoteId, patch)
  }

  /**
   * The second half of `Create`, once the repo is found and the patch built:
   * parse its ForgeRemoteID, activate it, patch the activated repo and
   * record the result.
   */
  function ActivateOutcome(api: Api, forgeRemoteId: string, patch: RepoPatch): (o: Outcome)
    ensures o.state.Some? <==> o.diagnostics == []
    ensures |o.diagnostics| <= 1 && |o.calls| <= 2
    ensures o.calls == [] <==> ParseInt64(forgeRemoteId).Failure?
    ensures o.calls != [] ==> o.calls[0] == RepoPostCall(ParseInt64(forgeRemoteId).value)
  {
    match ParseInt64(forgeRemoteId)
    case Failure(e) => Outcome([], [Diagnostic(ForgeRemoteIdError, e.Error())], None)
    case Success(id) =>
      var post := RepoPostCall(id);
      match api.repoPost(id)
      case Failure(e) => Outcome([post], [Diagnostic(ActivateError, e.message)], None)
      case Success(activated) =>
        var patchCall := RepoPatchCall(activated.id, patch);
        match api.repoPatch(activated.id, patch)
        case Failure(e) =>
          Outcome([post, patchCall], [Diagnostic(UpdateError, e.message)], None)
        case Success(updated) =>
          Outcome([post, patchCall], [], Some(RepositoryStateOf(updated)))
  }

  /**
   * `Create` with the configuration already decoded: it sends the requests,
   * adds the diagnostics and records the state that CreateOutcome describes.
   */
  method Create(client: Client, config: RepositoryState, resp: Response<RepositoryState>)
    requires resp.diagnostics == [] && resp.state == None
    modifies client, resp
    ensures var o := CreateOutcome(client.api, config);
      client.calls == old(client.calls) + o.calls && resp.diagnostics == o.diagnostics && resp.state == o.state
  {
    var data := new RepositoryModel(config);
    var repoFullName := ValueString(data.fullName);
    var repos := client.RepoListOpts(true, true);
    if repos.Failure? {
      resp.AddError(ListError, repos.error.message);
      return;
    }
    var idx := IndexByFullName(repos.value, repoFullName);
    if idx < 0 {
      resp.AddError(NotFoundError, NotFoundDetail(repoFullName));
      return;
    }
    PatchAndActivate(client, repos.value[idx].forgeRemoteId, config, data, resp);
  }

  /** The steps of `Create` after the lookup, as PatchOutcome describes them, on the handler's model `data`. */
  method PatchAndActivate(client: Client, forgeRemoteIdText: string, ghost config: RepositoryState,
                          data: RepositoryModel, resp: Response<RepositoryState>)
    requires data.State() == config
    requires resp.diagnostics == [] && resp.state == None
    modifies client, data, resp
    ensures var o := PatchOutcome(client.api, forgeRemoteIdText, config);
      client.calls == old(client.calls) + o.calls && resp.diagnostics == o.diagnostics && resp.state == o.state
  {
    var (wData, diags) := data.ToWoodpeckerPatch();
    resp.Append(diags);
    if resp.HasError() {
      return;
    }
    Activate(client, forgeRemoteIdText, wData, data, resp);
  }

  /** The steps of `Create` that ActivateOutcome describes, on the handler's model `data`. */
  method Activate(client: Client, forgeRemoteIdText: string, wData: RepoPatch, data: RepositoryModel,
                  resp: Response<RepositoryState>)
    requires resp.diagnostics == [] && resp.state == None
    modifies client, data, resp
    ensures var o := ActivateOutcome(client.api, forgeRemoteIdText, wData);
      client.calls == old(client.calls) + o.calls && resp.diagnostics == o.diagnostics && resp.state == o.state
  {
    var forgeRemoteId := ParseInt64(forgeRemoteIdText);
    if forgeRemoteId.Failure? {
      resp.AddError(ForgeRemoteIdError, forgeRemoteId.error.Error());
      return;
    }
    var activated := client.RepoPost(forgeRemoteId.value);
    if activated.Failure? {
      resp.AddError(ActivateError, activated.error.message);
      return;
    }
    var updated := client.RepoPatch(activated.value.id, wData);
    if updated.Failure? {
      resp.AddError(UpdateError, updated.error.message);
      return;
    }
    var setDiags := data.SetValues(updated.value);
    resp.Append(setDiags);
    if resp.HasError() {
      return;
    }
    resp.SetState(data.State());
  }

  /** Exactly one of the two: an error was reported, or a state was recorded. */
  lemma CreateErrorOrState(api: Api, config: RepositoryState)
    ensures var o := CreateOutcome(api, config);
      (o.state.Some? <==> o.diagnostics == []) && 1 <= |o.calls| <= 3
      && o.calls[0] == RepoListOptsCall(true, true)
  {
  }

  /** No repository carries the configured full name: nothing is activated. */
  lemma CreateNotFound(api: Api, config: RepositoryState)
    requires api.repoListOpts(true, true).Success?
    requires forall j :: 0 <= j < |api.repoListOpts(true, true).value| ==>
      api.repoListOpts(true, true).value[j].fullName != ValueString(config.fullName)
    ensures CreateOutcome(api, config) == Outcome([RepoListOptsCall(true, true)],
      [Diagnostic(NotFoundError, NotFoundDetail(ValueString(config.fullName)))], None)
  {
  }

  /** An unknown cancel_previous_pipeline_events stops `Create` before activation. */
  lemma CreateStopsOnPatchError(api: Api, config: RepositoryState)
    requires config.cancelPreviousPipelineEvents.Unknown?
    ensures var o := CreateOutcome(api, config);
      o.calls == [RepoListOptsCall(true, true)] && o.state == None && o.diagnostics != []
  {
  }

  /**
   * The repo activated is the FIRST one listed with the configured full name,
   * by its ForgeRemoteID; a ForgeRemoteID that is not a decimal int64 stops
   * `Create` before any activation.
   */
  lemma CreateActivatesFirstMatch(api: Api, config: RepositoryState, i: nat)
    requires api.repoListOpts(true, true).Success?
    requires var repos := api.repoListOpts(true, true).value;
      i < |repos| && repos[i].fullName == ValueString(config.fullName)
      && forall j :: 0 <= j < i ==> repos[j].fullName != ValueString(config.fullName)
    requires !config.cancelPreviousPipelineEvents.Unknown?
    ensures var o := CreateOutcome(api, config);
      match ParseInt64(api.repoListOpts(true, true).value[i].forgeRemoteId)
      case Success(id) => |o.calls| >= 2 && o.calls[1] == RepoPostCall(id)
      case Failure(e) =>
        (o.calls == [RepoListOptsCall(true, true)]
         && o.diagnostics == [Diagnostic(ForgeRemoteIdError, e.Error())])
  {
    assert IndexByFullName(api.repoListOpts(true, true).value, ValueString(config.fullName)) == i;
  }

  /**
   * The patch request goes to the id of the repo `RepoPost` returned, not to
   * the listed repo, and carries the patch built from the configuration; the
   * state recorded is the repo the patch request returned.
   */
  lemma CreatePatchesActivatedRepo(api: Api, config: RepositoryState)
    ensures var o := CreateOutcome(api, config);
      |o.calls| == 3 ==>
        o.calls[1].RepoPostCall? && api.repoPost(o.calls[1].forgeRemoteId).Success?
        && o.calls[2] == RepoPatchCall(api.repoPost(o.calls[1].forgeRemoteId).value.id, RepositoryPatch(config).0)
        && (o.state.Some? <==> api.repoPatch(o.calls[2].repoId, o.calls[2].patch).Success?)
        && (o.state.Some? ==> o.state.value == RepositoryStateOf(api.repoPatch(o.calls[2].repoId, o.calls[2].patch).value))
  {
  }

  /** The state `Create` records reads back as a patch with every setting present and no error. */
  lemma CreatedStateIsRefreshed(api: Api, config: RepositoryState)
    ensures var o := CreateOutcome(api, config);
      o.state.Some? ==> RepositoryPatch(o.state.value).1 == []
  {
    var o := CreateOutcome(api, config);
    if o.state.Some? {
      assert |o.calls| == 3;
      RefreshedRepositoryPatch(api.repoPatch(o.calls[2].repoId, o.calls[2].patch).value);
    }
  }

  const DeleteError := "Couldn't delete repository"

  /**
   * `Delete`: one `RepoDel` request for the repository's ID. The handler
   * never removes the state itself: on success it leaves that to the
   * framework, on an error it adds the diagnostic, and the state stays.
   */
  method Delete(client: Client, state: RepositoryState, resp: Response<RepositoryState>)
    requires resp.diagnostics == []
    modifies client, resp
    ensures client.calls == old(client.calls) + [RepoDelCall(ValueInt64(state.id))]
    ensures resp.state == old(resp.state)
    ensures match client.api.repoDel(ValueInt64(state.id))
      case Some(e) => resp.diagnostics == [Diagnostic(DeleteError, e.message)]
      case None => resp.diagnostics == []
  {
    var err := client.RepoDel(ValueInt64(state.id));
    if err.Some? {
      resp.AddError(DeleteError, err.value.message);
    }
  }
}
