/** `woodpecker_secret`, a global secret: events validator, state upgrader, import, Create and Delete. */
module ResourceSecret {
  import opened Wrappers
  import opened GoStrconv
  import opened Framework
  import opened Woodpecker
  import opened Models

  const SchemaVersion: Int64 := 1

  /** The allowed event names, compared exactly (`stringvalidator.OneOf`). */
  const Events: seq<string> :=
    [EventPush, EventTag, EventPull, EventPullClosed, EventDeploy, EventCron, EventManual, EventRelease]

  /** The `events` validator: `ValueStringsAre(OneOf(Events...))`. */
  predicate EventsValid(events: Val<set<string>>)
    ensures EventsValid(events) <==> events.Known? ==> forall e :: e in events.v ==> e in Events
  {
    ValueStringsAre(events, (e: Val<string>) => OneOf(Events, e))
  }

  /** The exact lower-case names pass, and so do null and unknown sets. */
  lemma EventsValidAccepts()
    ensures EventsValid(Known({"push", "pull_request_closed", "release"}))
    ensures EventsValid(Null) && EventsValid(Unknown)
  {
  }

  /** Comparison is case-sensitive: "PUSH" is rejected, like "random". */
  lemma EventsValidRejects()
    ensures !EventsValid(Known({"PUSH"})) && !EventsValid(Known({"random"}))
  {
    assert "PUSH" in {"PUSH"} && "random" in {"random"};
    assert "PUSH" != "push" by { assert "PUSH"[0] != "push"[0]; }
  }

  /** The version-0 record that this version-1 record came from, given the dropped `plugins_only`. */
  function WithPluginsOnly(s: SecretStateV1, pluginsOnly: Val<bool>): SecretStateV0 {
    SecretStateV0(s.id, s.name, s.value, s.images, pluginsOnly, s.events)
  }

  /**
   * The state upgrader from version 0: ID, Name, Value, Images and Events are
   * copied unchanged and `plugins_only` is dropped.
   */
  function UpgradeV0(prior: SecretStateV0): (r: SecretStateV1)
    ensures WithPluginsOnly(r, prior.pluginsOnly) == prior
  {
    SecretStateV1(prior.id, prior.name, prior.value, prior.images, prior.events)
  }

  /** Upgrading forgets only `plugins_only`. */
  lemma UpgradeV0Forgets(a: SecretStateV0, b: SecretStateV0)
    ensures UpgradeV0(a) == UpgradeV0(b) <==> a.(pluginsOnly := Null) == b.(pluginsOnly := Null)
  {
    if UpgradeV0(a) == UpgradeV0(b) {
      assert WithPluginsOnly(UpgradeV0(a), Null) == a.(pluginsOnly := Null);
      assert WithPluginsOnly(UpgradeV0(b), Null) == b.(pluginsOnly := Null);
    }
  }

  /** `UpgradeState`: a single upgrader, registered for prior version 0 only. */
  function Upgraders(): (m: map<Int64, SecretStateV0 -> SecretStateV1>)
    ensures m.Keys == {0} && forall v :: v in m ==> 0 <= v < SchemaVersion
    ensures forall p :: m[0](p) == UpgradeV0(p)
  {
    map[0 := UpgradeV0]
  }

  /** `ImportState`: the whole identifier, unsplit, becomes `name`. */
  method ImportState(id: string, resp: ImportResponse)
    modifies resp
    ensures resp.attributes == old(resp.attributes)["name" := StrAttr(id)]
    ensures resp.diagnostics == old(resp.diagnostics)
  {
    resp.SetAttribute("name", StrAttr(id));
  }

  /**
   * `Create` with the configuration already decoded: build the payload, stop
   * if an unknown set made that fail, send `GlobalSecretCreate`, and record
   * the server's ID, Name, Images and Events next to the configured Value.
   */
  method Create(client: Client, config: SecretStateV1, resp: Response<SecretStateV1>)
    requires resp.diagnostics == [] && resp.state == None
    modifies client, resp
    ensures var (wData, diags) := SecretPayload(config.id, config.name, config.value, config.images, config.events);
      if diags != [] then
        client.calls == old(client.calls) && resp.diagnostics == diags && resp.state == None
      else
        client.calls == old(client.calls) + [GlobalSecretCreateCall(wData)] &&
        match client.api.globalSecretCreate(wData)
        case Failure(e) =>
          resp.diagnostics == [Diagnostic("Couldn't create secret", e.message)] && resp.state == None
        case Success(secret) =>
          resp.diagnostics == [] &&
          resp.state == Some(SecretStateV1(Known(secret.id), Known(secret.name), config.value,
                                           SetValueFrom(secret.images), SetValueFrom(secret.events)))
  {
    var data := new SecretModelV1(config);
    var (wData, diags) := data.ToWoodpeckerModel();
    resp.Append(diags);
    if resp.HasError() {
      return;
    }
    var created := client.GlobalSecretCreate(wData);
    if created.Failure? {
      resp.AddError("Couldn't create secret", created.error.message);
      return;
    }
    var setDiags := data.SetValues(created.value);
    resp.Append(setDiags);
    if resp.HasError() {
      return;
    }
    resp.SetState(data.State());
  }

  /** `Delete`: the resource leaves the state only when `GlobalSecretDelete` succeeds. */
  method Delete(client: Client, state: SecretStateV1, resp: Response<SecretStateV1>)
    requires resp.diagnostics == []
    modifies client, resp
    ensures client.calls == old(client.calls) + [GlobalSecretDeleteCall(ValueString(state.name))]
    ensures match client.api.globalSecretDelete(ValueString(state.name))
      case Some(e) =>
        resp.diagnostics == [Diagnostic("Couldn't delete secret", e.message)] && resp.state == old(resp.state)
      case None =>
        resp.diagnostics == [] && resp.state == None
  {
    var err := client.GlobalSecretDelete(ValueString(state.name));
    if err.Some? {
      resp.AddError("Couldn't delete secret", err.value.message);
      return;
    }
    resp.RemoveResource();
  }
}
