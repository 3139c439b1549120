/** `woodpecker_org_secret`: its events validator, import identifier and Delete. */
module ResourceOrgSecret {
  import opened Wrappers
  import opened GoStrconv
  import opened Framework
  import opened Woodpecker
  import opened ImportIds

  /** The allowed event names, written out literally and compared exactly. */
  const Events: seq<string> :=
    ["push", "tag", "pull_request", "pull_request_closed", "deployment", "cron", "manual", "release"]

  /** The `events` validator: `ValueStringsAre(OneOf(Events...))`. */
  predicate EventsValid(events: Val<set<string>>)
    ensures EventsValid(events) <==> events.Known? ==> forall e :: e in events.v ==> e in Events
  {
    ValueStringsAre(events, (e: Val<string>) => OneOf(Events, e))
  }

  /** The literal list names the same eight events as the client's constants. */
  lemma EventsAreClientEvents()
    ensures Events == [EventPush, EventTag, EventPull, EventPullClosed, EventDeploy, EventCron, EventManual, EventRelease]
  {
  }

  /** Comparison is case-sensitive: "Push" and "random" are rejected. */
  lemma EventsValidRejects()
    ensures !EventsValid(Known({"Push"})) && !EventsValid(Known({"random"}))
    ensures EventsValid(Known({"deployment", "manual"}))
  {
    assert "Push" in {"Push"} && "random" in {"random"};
    assert "Push" != "push" by { assert "Push"[0] != "push"[0]; }
  }

  const ImportFormat := "org_id/name"

  /**
   * `ImportState`: `<org_id>/<name>` sets exactly `org_id` and `name`; a bad
   * first part is reported as "Invalid repository id", as the code words it.
   */
  method ImportState(id: string, resp: ImportResponse)
    modifies resp
    ensures ParseKeyed(id, ImportFormat).Failure? ==>
      resp.diagnostics == old(resp.diagnostics) + [ParseKeyed(id, ImportFormat).error] &&
      resp.attributes == old(resp.attributes)
    ensures ParseKeyed(id, ImportFormat).Success? ==>
      var (orgId, name) := ParseKeyed(id, ImportFormat).value;
      resp.diagnostics == old(resp.diagnostics) &&
      resp.attributes == old(resp.attributes)["org_id" := IntAttr(orgId)]["name" := StrAttr(name)]
  {
    ImportKeyed(id, ImportFormat, "org_id", "name", resp);
  }

  /** The two attributes of an organization secret's state that Delete reads. */
  datatype OrgSecretKey = OrgSecretKey(orgId: Val<Int64>, name: Val<string>)

  /** `Delete`: the resource leaves the state only when `OrgSecretDelete` succeeds. */
  method Delete<S>(client: Client, key: OrgSecretKey, resp: Response<S>)
    requires resp.diagnostics == []
    modifies client, resp
    ensures client.calls == old(client.calls) + [OrgSecretDeleteCall(ValueInt64(key.orgId), ValueString(key.name))]
    ensures match client.api.orgSecretDelete(ValueInt64(key.orgId), ValueString(key.name))
      case Some(e) =>
        resp.diagnostics == [Diagnostic("Couldn't delete secret", e.message)] && resp.state == old(resp.state)
      case None =>
        resp.diagnostics == [] && resp.state == None
  {
    var err := client.OrgSecretDelete(ValueInt64(key.orgId), ValueString(key.name));
    if err.Some? {
      resp.AddError("Couldn't delete secret", err.value.message);
      return;
    }
    resp.RemoveResource();
  }
}
