/** `woodpecker_repository_secret`: its events validator, state upgrader, import identifier and Delete. */
module ResourceRepositorySecret {
  import opened Wrappers
  import opened GoStrconv
  import opened GoStrings
  import opened Framework
  import opened Woodpecker
  import opened Models
  import opened ImportIds

  const SchemaVersion: Int64 := 1

  /** The allowed event names, compared with `strings.EqualFold`. */
  const Events: seq<string> := ["push", "tag", "pull_request", "deployment", "cron", "manual"]

  lemma EventsAreAscii()
    ensures AllAscii(Events)
  {
    forall i | 0 <= i < |Events| ensures IsAscii(Events[i]) {
      assert Events[i] in Events;
    }
  }

  /** The `events` validator: `ValueStringsAre(OneOfCaseInsensitive(Events...))`. */
  predicate EventsValid(events: Val<set<string>>)
    ensures EventsValid(events) <==>
      events.Known? ==> forall e :: e in events.v ==> exists i :: 0 <= i < |Events| && EqualFold(e, Events[i])
  {
    EventsAreAscii();
    ValueStringsAre(events, (e: Val<string>) => OneOfCaseInsensitive(Events, e))
  }

  /** Case does not matter: "PUSH" and "Cron" pass; "random" does not. */
  lemma EventsValidExamples()
    ensures EventsValid(Known({"PUSH", "Cron"}))
    ensures !EventsValid(Known({"push", "random"}))
    ensures EventsValid(Null) && EventsValid(Unknown)
  {
    EventsAreAscii();
    assert EqualFold("PUSH", Events[0]);
    assert EqualFold("Cron", Events[4]);
    assert "random" in {"push", "random"};
    forall i | 0 <= i < |Events| ensures !EqualFold("random", Events[i]) {
      assert "random"[0] == 'r';
      if |Events[i]| == 6 {
        assert Events[i][0] != 'r' && Events[i][0] != 'R';
      }
    }
  }

  /** Any case variant of an allowed event passes: a set of upper-cased event names is valid. */
  lemma EventsValidUpper(names: set<string>)
    requires forall e :: e in names ==> exists i :: 0 <= i < |Events| && e == AsciiUpper(Events[i])
    ensures EventsValid(Known(names))
  {
    EventsAreAscii();
    forall e | e in names ensures exists i :: 0 <= i < |Events| && EqualFold(e, Events[i]) {
      var i :| 0 <= i < |Events| && e == AsciiUpper(Events[i]);
      AsciiUpperFolds(Events[i]);
    }
  }

  /** The version-0 record that this version-1 record came from, given the dropped `plugins_only`. */
  function WithPluginsOnly(s: RepositorySecretStateV1, pluginsOnly: Val<bool>): RepositorySecretStateV0 {
    RepositorySecretStateV0(s.id, s.repositoryId, s.name, s.value, s.images, pluginsOnly, s.events)
  }

  /**
   * The state upgrader from version 0: every attribute is copied unchanged and
   * `plugins_only` is dropped, so adding the dropped value back restores the
   * prior record exactly.
   */
  function UpgradeV0(prior: RepositorySecretStateV0): (r: RepositorySecretStateV1)
    ensures WithPluginsOnly(r, prior.pluginsOnly) == prior
  {
    RepositorySecretStateV1(prior.id, prior.repositoryId, prior.name, prior.value, prior.images, prior.events)
  }

  /** Upgrading forgets only `plugins_only`: two prior records upgrade alike exactly when they differ at most there. */
  lemma UpgradeV0Forgets(a: RepositorySecretStateV0, b: RepositorySecretStateV0)
    ensures UpgradeV0(a) == UpgradeV0(b) <==> a.(pluginsOnly := Null) == b.(pluginsOnly := Null)
  {
    if UpgradeV0(a) == UpgradeV0(b) {
      assert WithPluginsOnly(UpgradeV0(a), Null) == a.(pluginsOnly := Null);
      assert WithPluginsOnly(UpgradeV0(b), Null) == b.(pluginsOnly := Null);
    }
  }

  /** `UpgradeState`: a single upgrader, registered for prior version 0 only. */
  function Upgraders(): (m: map<Int64, RepositorySecretStateV0 -> RepositorySecretStateV1>)
    ensures m.Keys == {0} && forall v :: v in m ==> 0 <= v < SchemaVersion
    ensures forall p :: m[0](p) == UpgradeV0(p)
  {
    map[0 := UpgradeV0]
  }

  const ImportFormat := "repository_id/name"

  /** `ImportState`: `<repository_id>/<name>` sets exactly `repository_id` and `name`. */
  method ImportState(id: string, resp: ImportResponse)
    modifies resp
    ensures ParseKeyed(id, ImportFormat).Failure? ==>
      resp.diagnostics == old(resp.diagnostics) + [ParseKeyed(id, ImportFormat).error] &&
      resp.attributes == old(resp.attributes)
    ensures ParseKeyed(id, ImportFormat).Success? ==>
      var (repoId, name) := ParseKeyed(id, ImportFormat).value;
      resp.diagnostics == old(resp.diagnostics) &&
      resp.attributes == old(resp.attributes)["repository_id" := IntAttr(repoId)]["name" := StrAttr(name)]
  {
    ImportKeyed(id, ImportFormat, "repository_id", "name", resp);
  }

  /** `Delete`: the resource leaves the state only when `SecretDelete` succeeds. */
  method Delete(client: Client, state: RepositorySecretStateV1, resp: Response<RepositorySecretStateV1>)
    requires resp.diagnostics == []
    modifies client, resp
    ensures client.calls == old(client.calls) + [SecretDeleteCall(ValueInt64(state.repositoryId), ValueString(state.name))]
    ensures match client.api.secretDelete(ValueInt64(state.repositoryId), ValueString(state.name))
      case Some(e) =>
        resp.diagnostics == [Diagnostic("Couldn't delete secret", e.message)] && resp.state == old(resp.state)
      case None =>
        resp.diagnostics == [] && resp.state == None
  {
    var err := client.SecretDelete(ValueInt64(state.repositoryId), ValueString(state.name));
    if err.Some? {
      resp.AddError("Couldn't delete secret", err.value.message);
      return;
    }
    resp.RemoveResource();
  }
}
