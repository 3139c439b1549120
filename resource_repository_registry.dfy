/** `woodpecker_repository_registry`: import identifier, Create and Delete. */
module ResourceRepositoryRegistry {
  import opened Wrappers
  import opened GoStrconv
  import opened Framework
  import opened Woodpecker
  import opened Models
  import opened ImportIds

  const ImportFormat := "repository_id/address"

  /** `ImportState`: `<repository_id>/<address>` sets exactly `repository_id` and `address`. */
  method ImportState(id: string, resp: ImportResponse)
    modifies resp
    ensures ParseKeyed(id, ImportFormat).Failure? ==>
      resp.diagnostics == old(resp.diagnostics) + [ParseKeyed(id, ImportFormat).error] &&
      resp.attributes == old(resp.attributes)
    ensures ParseKeyed(id, ImportFormat).Success? ==>
      var (repoId, address) := ParseKeyed(id, ImportFormat).value;
      resp.diagnostics == old(resp.diagnostics) &&
      resp.attributes == old(resp.attributes)["repository_id" := IntAttr(repoId)]["address" := StrAttr(address)]
  {
    ImportKeyed(id, ImportFormat, "repository_id", "address", resp);
  }

  /**
   * `Create`: `RegistryCreate` returns no ID, so the registry is read back
   * by (repository_id, address); the state's ID, Address and Username come
   * from that lookup, RepositoryID and Password from the configuration. A
   * failed create or lookup ends the handler without a state.
   */
  method Create(client: Client, config: RegistryState, resp: Response<RegistryState>)
    requires resp.diagnostics == [] && resp.state == None
    modifies client, resp
    ensures var repoId := ValueInt64(config.repositoryId);
      var wData := Registry(ValueInt64(config.id), ValueString(config.address), ValueString(config.username),
                            ValueString(config.password));
      match client.api.registryCreate(repoId, wData)
      case Failure(e) =>
        client.calls == old(client.calls) + [RegistryCreateCall(repoId, wData)] &&
        resp.diagnostics == [Diagnostic("Couldn't create registry", e.message)] && resp.state == None
      case Success(_) =>
        client.calls == old(client.calls) + [RegistryCreateCall(repoId, wData), RegistryCall(repoId, wData.address)] &&
        match client.api.registry(repoId, wData.address)
        case Failure(e) =>
          resp.diagnostics == [Diagnostic("Couldn't get registry", e.message)] && resp.state == None
        case Success(registry) =>
          resp.diagnostics == [] &&
          resp.state == Some(RegistryState(Known(registry.id), config.repositoryId, Known(registry.address),
                                           Known(registry.username), config.password))
  {
    var data := new RegistryModel(config);
    var wData := data.ToWoodpeckerModel();
    var created := client.RegistryCreate(ValueInt64(data.repositoryId), wData);
    if created.Failure? {
      resp.AddError("Couldn't create registry", created.error.message);
      return;
    }
    var registry := client.Registry(ValueInt64(data.repositoryId), wData.address);
    if registry.Failure? {
      resp.AddError("Couldn't get registry", registry.error.message);
      return;
    }
    var setDiags := data.SetValues(registry.value);
    resp.Append(setDiags);
    if resp.HasError() {
      return;
    }
    resp.SetState(data.State());
  }

  /** `Delete`: the resource leaves the state only when `RegistryDelete` succeeds. */
  method Delete(client: Client, state: RegistryState, resp: Response<RegistryState>)
    requires resp.diagnostics == []
    modifies client, resp
    ensures client.calls == old(client.calls) + [RegistryDeleteCall(ValueInt64(state.repositoryId), ValueString(state.address))]
    ensures match client.api.registryDelete(ValueInt64(state.repositoryId), ValueString(state.address))
      case Some(e) =>
        resp.diagnostics == [Diagnostic("Couldn't delete registry", e.message)] && resp.state == old(resp.state)
      case None =>
        resp.diagnostics == [] && resp.state == None
  {
    var err := client.RegistryDelete(ValueInt64(state.repositoryId), ValueString(state.address));
    if err.Some? {
      resp.AddError("Couldn't delete registry", err.value.message);
      return;
    }
    resp.RemoveResource();
  }
}
