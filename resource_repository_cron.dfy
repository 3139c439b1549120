/** `woodpecker_repository_cron`: its two-integer import identifier and Delete. */
module ResourceRepositoryCron {
  import opened Wrappers
  import opened GoStrconv
  import opened Framework
  import opened Woodpecker
  import opened Models
  import opened ImportIds

  const ImportFormat := "repository_id/id"

  /** `ImportState`: `<repository_id>/<id>` sets exactly `repository_id` and `id`, and not `name`. */
  method ImportState(id: string, resp: ImportResponse)
    modifies resp
    ensures ParseIdPair(id, ImportFormat).Failure? ==>
      resp.diagnostics == old(resp.diagnostics) + [ParseIdPair(id, ImportFormat).error] &&
      resp.attributes == old(resp.attributes)
    ensures ParseIdPair(id, ImportFormat).Success? ==>
      var (repoId, cronId) := ParseIdPair(id, ImportFormat).value;
      resp.diagnostics == old(resp.diagnostics) &&
      resp.attributes == old(resp.attributes)["repository_id" := IntAttr(repoId)]["id" := IntAttr(cronId)]
  {
    match ParseIdPair(id, ImportFormat)
    case Failure(d) =>
      resp.AddError(d.summary, d.detail);
    case Success((repoId, cronId)) =>
      resp.SetAttribute("repository_id", IntAttr(repoId));
      resp.SetAttribute("id", IntAttr(cronId));
  }

  /** `Delete`: the resource leaves the state only when `CronDelete` succeeds. */
  method Delete(client: Client, state: CronState, resp: Response<CronState>)
    requires resp.diagnostics == []
    modifies client, resp
    ensures client.calls == old(client.calls) + [CronDeleteCall(ValueInt64(state.repositoryId), ValueInt64(state.id))]
    ensures match client.api.cronDelete(ValueInt64(state.repositoryId), ValueInt64(state.id))
      case Some(e) =>
        resp.diagnostics == [Diagnostic("Couldn't delete cron job", e.message)] && resp.state == old(resp.state)
      case None =>
        resp.diagnostics == [] && resp.state == None
  {
    var err := client.CronDelete(ValueInt64(state.repositoryId), ValueInt64(state.id));
    if err.Some? {
      resp.AddError("Couldn't delete cron job", err.value.message);
      return;
    }
    resp.RemoveResource();
  }
}
