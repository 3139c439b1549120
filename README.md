# Woodpecker CI Terraform provider: a Dafny model of its logic

The provider manages Woodpecker CI users, secrets, repositories, repository
secrets, crons and registries through the Terraform plugin framework. Most of
it is plumbing between Terraform and an HTTP client. This project models the
parts that take decisions, and proves what they promise:

- the **mapping layer** between Terraform attribute values and client
  payloads (`setValues`, `toWoodpeckerModel`, `toWoodpeckerPatch`);
- the **composite import identifiers** `<id>/<key>` and `<id>/<id>`, parsed
  with Go's `strings.Split` and `strconv.ParseInt(s, 10, 64)`;
- the **state upgraders** from schema version 0 to 1 of the two secret resources;
- the **schema validators**: event allow-lists, visibility, timeout;
- the handlers that do more than one call: repository `Create`, which lists,
  looks up, builds a patch, parses the forge id, activates and patches in
  order; registry `Create`, which creates and then reads the registry back;
  the secret `Create`; and the `Delete` handlers, most of which remove the
  state only after the server agrees;
- the provider's `Configure`: server and token taken from the provider block
  or the environment, and a server that runs Woodpecker 3.0.0 or later;
- the `woodpecker_user` data source, which reads the current user for an
  empty login.

Layout, one module per file:

| file | module | contents |
|---|---|---|
| wrappers.dfy | Wrappers | `Option`, `Result` |
| gostrconv.dfy | GoStrconv | int64 range, `strconv.ParseInt` base 10, `%d` formatting |
| gostrings.dfy | GoStrings | `strings.Split`, `strings.EqualFold` against ASCII, set elements in order |
| framework.dfy | Framework | attribute values, set conversions, validators, response objects |
| client.dfy | Woodpecker | client payload structs, and the client as a log of calls to a server oracle |
| models.dfy | Models | the model structs, one class per struct whose `setValues` assigns in place |
| importids.dfy | ImportIds | the composite import identifier parsers |
| resource_*.dfy, data_source_user.dfy, provider.dfy | one per Go file | validators, upgraders, ImportState and the handlers |

How the model is built:

- **Server.** It is a value `Api` that gives the answer of every endpoint. A
  `Client` method appends its `Call` to `calls` and returns that answer. A
  handler's contract can therefore say which requests were sent, in which
  order and with which arguments.
- **Attribute values.** A framework value is `Null | Unknown | Known(v)`.
  `ValueString()` and its siblings give the zero value for null or unknown.
  `ValueStringPointer()` and its siblings give nil only for null.
- **Model structs.** Each Go struct whose `setValues` assigns its fields in
  place is a class with the same fields. The constructor stands for reading
  the plan or config into the struct. `State()` stands for the record that
  `State.Set` writes.
- **Multi-step handlers.** Repository `Create` and `newClient` are specified
  by pure functions, `CreateOutcome` and `NewClientCheck`. Each function
  returns the requests sent, the diagnostics and the result. Lemmas state the
  ordering and error properties of those functions.

Facts about the code that the contracts make explicit:

- `newClient` always refuses a server older than 3.0.0.
- The secret, repository secret, org secret, registry and cron `Delete`
  handlers call `RemoveResource` themselves, and only after the delete request
  succeeds. The repository and user `Delete` handlers leave the removal to the
  framework.
- A secret's images and events come back as sets, so order and repeats are lost.
- The user payload never carries `Active`.
- The registry keeps the configured password, not the server's.

## Model

| member | source | states |
|---|---|---|
| GoStrconv.ParseInt64 | internal/resource_repository_secret.go:254-258 | success exactly for an optionally signed decimal string whose value is an int64, with that value; every error names ParseInt and the whole input; a decimal string out of range is a range error, and an input without a digit after the sign a syntax error |
| GoStrconv.ScanStopsAt | internal/resource_repository_secret.go:254-258 | the digit loop stops at the first non-digit with a syntax error unless the digits before it already overflow a uint64, which is a range error |
| GoStrconv.ParseInt64ErrorKind | internal/resource_repository_secret.go:254-258 | on an input with a non-digit after the sign, the error is a range error exactly when the digits before the first non-digit overflow a uint64, and a syntax error otherwise |
| GoStrconv.FormatParseRoundTrip | internal/resource_repository_secret_test.go:120 | parsing what `%d` prints gives back every int64 |
| GoStrconv.FormatHasNoSlash | internal/resource_repository_cron_test.go:105 | a printed int64 never contains the `/` separator |
| GoStrings.Split | internal/resource_repository_secret.go:244 | one more part than separators, no part holds the separator, joining the parts gives the input back, the first part is empty exactly when the input is empty or starts with the separator |
| GoStrings.SplitFirstIsPrefix | internal/provider.go:191 | the first part of a split is the prefix up to the first separator |
| Framework.ValuePointer | internal/models.go:187-197 | the pointer is nil exactly for a null value; a known value gives a pointer to it |
| Framework.ElementsAs | internal/models.go:199-200 | the slice holds each element of a known set once, and nothing for null or unknown; an error arises exactly for an unknown set when unknowns are not allowed |
| Framework.SetValueFromElementsAs | internal/models.go:66-68 | turning a slice into a set and back keeps exactly its elements, with no error |
| Models.UserModel.SetValues | internal/models.go:22-30 | every attribute becomes known from the user, and the payload built from the model equals the user except that Active is false |
| Models.UserModel.ToWoodpeckerModel | internal/models.go:32-41 | the payload never asks for an active user; with every attribute known the model records exactly the payload's fields |
| Models.SecretPayload | internal/models.go:74-86 | ID, Name and Value are the plain values; Images and Events hold the elements of the sets; an error arises exactly when images or events is unknown |
| Models.SecretPayloadRoundTrip | internal/models.go:60-86 | sending back a secret read from the server keeps ID and Name, keeps the given Value, keeps Images and Events as sets, and raises no error |
| Models.SecretPayloadDropsDuplicates | internal/models.go:66-68 | an image listed twice by the server is sent back once |
| Models.SecretModelV1.ToWoodpeckerModel | internal/models.go:74-86 | ID, Name and Value are the model's plain values, Images and Events the elements of its sets, and an error arises exactly when a set is unknown |
| Models.SecretModelV1.SetValues | internal/models.go:60-72 | ID, Name, Images and Events come from the server and Value is unchanged; the payload built afterwards matches the server's secret as sets |
| Models.RepositorySecretModelV1.SetValues | internal/models.go:234-246 | as for the global secret, and RepositoryID is never modified |
| Models.RepositorySecretModelV1.ToWoodpeckerModel | internal/models.go:248-270 | as for the global secret: plain ID, Name and Value, the sets' elements, and an error exactly when a set is unknown |
| Models.TrustedValue | internal/models.go:156-163 | the trusted object has its three keys, all known, and the patch built from it carries all three settings |
| Models.TrustedPatch | internal/models.go:202-210 | no trusted patch exactly when the object is null or unknown; otherwise each setting is absent exactly when its sub-attribute is null, and present with the value when known |
| Models.RepositoryPatch | internal/models.go:184-213 | config, timeout, visibility, allow-pull-requests and allow-deployments are each absent exactly when null and carry the value when known; the two lists hold the set elements; trusted follows TrustedPatch; an error exactly when the pipeline-event set is unknown |
| Models.RefreshedRepositoryPatch | internal/models.go:139-176 | the patch built from the state `setValues` wrote carries every setting of the repo, the full trusted settings, both lists as sets, and no error |
| Models.RepositoryModel.SetValues | internal/models.go:139-176 | every one of the 21 attributes is overwritten from the repo |
| Models.RepositoryModel.ToWoodpeckerPatch | internal/models.go:184-213 | each scalar setting is absent exactly when its attribute is null, trusted follows TrustedPatch, and an error arises exactly when the pipeline-event set is unknown |
| Models.CronModel.SetValues | internal/models.go:296-305 | every attribute becomes known, and the payload built afterwards is exactly the cron |
| Models.CronModel.ToWoodpeckerModel | internal/models.go:307-317 | with every attribute known, the model records exactly the payload's seven fields |
| Models.RegistryModel.SetValues | internal/models.go:327-332 | only ID, Address and Username are set; RepositoryID and Password keep their values |
| Models.RegistryModel.ToWoodpeckerModel | internal/models.go:334-343 | with every attribute known, the model records exactly the payload's fields |
| ImportIds.SplitPair | internal/resource_repository_secret.go:244-252 | accepts exactly the identifiers with one separator at neither end; the two halves are non-empty, separator-free and rebuild the identifier |
| ImportIds.SplitPairHalves | internal/resource_repository_secret.go:244-252 | two non-empty separator-free halves are accepted and given back |
| ImportIds.SplitPairRejects | internal/resource_repository_secret.go:244-252 | "", "/", "a/", "/b" and "1/a/b" are rejected |
| ImportIds.UnexpectedImportIdentifier | internal/resource_repository_secret.go:246-251 | the summary is Unexpected Import Identifier, and the detail names the expected format and ends with the identifier in quotes |
| ImportIds.ParseKeyed | internal/resource_repository_secret.go:244-261 | an identifier of the wrong shape gives the Unexpected Import Identifier error and nothing else does; on an accepted shape a failure is an Invalid repository id; success returns the parsed prefix and the separator-free suffix |
| ImportIds.ParseKeyedHalves | internal/resource_repository_secret.go:254-261 | on an accepted shape the outcome is decided by ParseInt on the first half alone |
| ImportIds.ParseKeyedRoundTrip | internal/resource_repository_secret_test.go:120 | `%d/%s` with a non-empty separator-free key parses back to the id and the key |
| ImportIds.ParseKeyedBadId | internal/resource_repository_secret.go:254-258 | a non-numeric first part is reported as Invalid repository id with the ParseInt syntax error |
| ImportIds.ParseIdPair | internal/resource_repository_cron.go:228-251 | the shape first, then the repository id, then the cron id; success exactly when both halves parse, giving both |
| ImportIds.ParseIdPairChecksRepositoryFirst | internal/resource_repository_cron.go:238-248 | when the repository id is bad, that is the only error, whatever the cron id is |
| ImportIds.ParseIdPairRoundTrip | internal/resource_repository_cron_test.go:105 | `%d/%d` parses back to the pair of ids |
| ImportIds.ImportKeyed | internal/resource_repository_secret.go:239-262 | on an error, just the diagnostic; on success exactly the two attributes, the id and the key |
| ResourceRepositorySecret.EventsValid | internal/resource_repository_secret.go:86-89 | a known set passes exactly when each element equals one of the six event names up to case (strings.EqualFold); null and unknown sets pass |
| ResourceRepositorySecret.EventsValidUpper | internal/resource_repository_secret.go:86-89 | any set of upper-cased event names passes |
| ResourceRepositorySecret.EventsValidExamples | internal/resource_repository_secret.go:86-89 | case does not matter ("PUSH", "Cron" pass); "random" is rejected; null and unknown sets pass |
| ResourceRepositorySecret.UpgradeV0 | internal/resource_repository_secret.go:341-348 | adding the dropped plugins_only back gives the prior record exactly |
| ResourceRepositorySecret.UpgradeV0Forgets | internal/resource_repository_secret.go:341-348 | two prior records upgrade alike exactly when they differ at most in plugins_only |
| ResourceRepositorySecret.Upgraders | internal/resource_repository_secret.go:264-352 | one upgrader, registered for prior version 0 only, below schema version 1, and it is UpgradeV0 on every prior record |
| ResourceRepositorySecret.ImportState | internal/resource_repository_secret.go:239-262 | a bad identifier adds its error and sets nothing; a good one sets exactly repository_id and name |
| ResourceRepositorySecret.Delete | internal/resource_repository_secret.go:219-237 | the state is removed only when the delete request for the repository id and name succeeds |
| ResourceSecret.EventsValid | internal/resource_secret.go:82-94 | a known set passes exactly when every element is one of the eight event names, compared exactly; null and unknown sets pass |
| ResourceSecret.EventsValidAccepts | internal/resource_secret.go:82-94 | the exact event names, and null and unknown sets, pass |
| ResourceSecret.EventsValidRejects | internal/resource_secret.go:82-94 | the comparison is case-sensitive: "PUSH" and "random" are rejected |
| ResourceSecret.UpgradeV0 | internal/resource_secret.go:307-313 | adding the dropped plugins_only back gives the prior record exactly |
| ResourceSecret.UpgradeV0Forgets | internal/resource_secret.go:307-313 | two prior records upgrade alike exactly when they differ at most in plugins_only |
| ResourceSecret.Upgraders | internal/resource_secret.go:236-317 | one upgrader, registered for prior version 0 only, below schema version 1, and it is UpgradeV0 on every prior record |
| ResourceSecret.ImportState | internal/resource_secret.go:228-234 | the whole identifier, unsplit, becomes name |
| ResourceSecret.Create | internal/resource_secret.go:135-161 | an unknown set stops it before any request; otherwise one create request; on success ID, Name, Images and Events come from the server and Value is the configured one |
| ResourceSecret.Delete | internal/resource_secret.go:212-226 | the state is removed only when the delete request succeeds; on an error it is left as it was |
| ResourceOrgSecret.EventsValid | internal/resource_org_secret.go:85-98 | a known set passes exactly when every element is one of the eight literal names, compared exactly; null and unknown sets pass |
| ResourceOrgSecret.EventsAreClientEvents | internal/resource_org_secret.go:85-98 | the eight literal names are the client's eight event constants |
| ResourceOrgSecret.EventsValidRejects | internal/resource_org_secret.go:85-98 | the comparison is case-sensitive: "Push" and "random" are rejected, "deployment" and "manual" pass |
| ResourceOrgSecret.ImportState | internal/resource_org_secret.go:247-270 | a bad identifier adds its error and sets nothing; a good one sets exactly org_id and name |
| ResourceOrgSecret.Delete | internal/resource_org_secret.go:227-245 | the state is removed only when the delete request succeeds |
| ResourceRepositoryRegistry.ImportState | internal/resource_repository_registry.go:228-251 | a bad identifier adds its error and sets nothing; a good one sets exactly repository_id and address |
| ResourceRepositoryRegistry.Create | internal/resource_repository_registry.go:116-153 | create, then read the registry back by repository id and address; either failure ends the handler with no state; on success ID, Address and Username come from the lookup, RepositoryID and Password from the configuration |
| ResourceRepositoryRegistry.Delete | internal/resource_repository_registry.go:208-226 | the state is removed only when the delete request succeeds |
| ResourceRepositoryCron.ImportState | internal/resource_repository_cron.go:223-252 | a bad identifier adds its one error and sets nothing; a good one sets exactly repository_id and id, not name |
| ResourceRepositoryCron.Delete | internal/resource_repository_cron.go:203-221 | the state is removed only when the delete request succeeds |
| ResourceRepository.TimeoutValid | internal/resource_repository.go:121-123 | a known timeout passes exactly when it is at least 1; null and unknown pass |
| ResourceRepository.VisibilityValid | internal/resource_repository.go:133-135 | a known visibility passes exactly when it equals public, private or internal up to case, so the exact names pass; null and unknown pass |
| ResourceRepository.ValidatorExamples | internal/resource_repository.go:121-135 | timeout 0 is rejected and 1 accepted; "asdf" is rejected and "Private" accepted; null and unknown pass |
| ResourceRepository.VisibilityValidUpper | internal/resource_repository.go:133-135 | the upper-case form of every allowed visibility passes |
| ResourceRepository.ImportState | internal/resource_repository.go:359-365 | the whole identifier becomes full_name |
| ResourceRepository.IndexByFullName | internal/resource_repository.go:251-253 | the first position whose full name matches, or -1 exactly when none does |
| ResourceRepository.CreateOutcome | internal/resource_repository.go:235-290 | the listing comes first, at most three requests are sent, a state is recorded exactly when no error is reported, and then all three requests were sent |
| ResourceRepository.PatchOutcome | internal/resource_repository.go:259-290 | after the lookup, at most two requests; a state exactly when no error, and then both RepoPost and RepoPatch were sent |
| ResourceRepository.ActivateOutcome | internal/resource_repository.go:265-290 | no request exactly when ForgeRemoteID does not parse; otherwise RepoPost with the parsed id comes first; at most two requests and one error; a state exactly when no error |
| ResourceRepository.Create | internal/resource_repository.go:235-290 | sends the requests, adds the diagnostics and records the state that CreateOutcome gives |
| ResourceRepository.PatchAndActivate | internal/resource_repository.go:259-290 | the patch build and activation steps, as PatchOutcome gives them |
| ResourceRepository.Activate | internal/resource_repository.go:265-289 | the parse, activate, patch and record steps, as ActivateOutcome gives them |
| ResourceRepository.CreateErrorOrState | internal/resource_repository.go:235-290 | either an error or a state, never both or neither; the listing is always the first request, and at most three requests are sent |
| ResourceRepository.CreateNotFound | internal/resource_repository.go:254-257 | when no listed repo has the full name, the only request is the listing and the only error is Repository not found |
| ResourceRepository.CreateStopsOnPatchError | internal/resource_repository.go:259-263 | a patch that cannot be built stops the handler before activation |
| ResourceRepository.CreateActivatesFirstMatch | internal/resource_repository.go:251-272 | the first repo with the full name is the one activated, by its parsed ForgeRemoteID; an unparsable one stops the handler before RepoPost with the parse error |
| ResourceRepository.CreatePatchesActivatedRepo | internal/resource_repository.go:272-289 | the patch goes to the id RepoPost returned, with the patch built from the configuration, and the state recorded is the patched repo |
| ResourceRepository.CreatedStateIsRefreshed | internal/resource_repository.go:283-289 | the recorded state reads back as a patch with no error |
| ResourceRepository.Delete | internal/resource_repository.go:341-357 | one delete request for the repository's ID; the handler never removes the state itself, and adds the error exactly when the request fails |
| Provider.Resolve | internal/provider.go:125-127 | a non-empty configured value is kept; an empty one is replaced by the environment's; the result is empty exactly when both are |
| Provider.Resolved | internal/provider.go:114-127 | a configured non-empty server or token is kept; each is empty exactly when it is empty in the block and its environment variable is empty |
| Provider.ConfigErrors | internal/provider.go:129-149 | the missing-server error is present exactly when the server is empty, the missing-token error exactly when the token is empty, and there are no others |
| Provider.ConfigFallback | internal/provider.go:125-149 | a configured server or token always wins; each error is reported exactly when the value is empty in the block and in the environment |
| Provider.ConfigReportsBoth | internal/provider.go:129-149 | with nothing configured anywhere, both errors are reported, server first |
| Provider.Compare | internal/provider.go:203 | version precedence is -1, 0 or 1, and 0 exactly for equal versions |
| Provider.CompareAntisymmetric | internal/provider.go:203 | swapping the versions negates the comparison |
| Provider.CompareTransitive | internal/provider.go:203 | the ordering is transitive |
| Provider.SatisfiesConstraintIffMajor | internal/provider.go:172 | a version satisfies >= 3.0.0 exactly when its major number is at least 3 |
| Provider.StripVersion | internal/provider.go:191 | the result is the longest prefix without '-', so it has no '-', and the input continues with '-' or ends there |
| Provider.StripVersionExample | internal/provider.go:190-191 | "2.0.0-f05c1631d2" becomes "2.0.0" |
| Provider.StripVersionKeepsPlain | internal/provider.go:191 | a version without '-' is unchanged |
| Provider.VersionErrors | internal/provider.go:191-214 | no error exactly when the stripped version parses and satisfies the constraint, and at most one error |
| Provider.NewClientCheck | internal/provider.go:154-217 | the user request always comes first and the version request follows exactly when it succeeds; at most one error, and exactly one when either request fails |
| Provider.NewClientAccepts | internal/provider.go:154-217 | the client is accepted exactly when the user and version requests succeed, the stripped version parses and satisfies >= 3.0.0; any failure adds one error |
| Provider.NewClientRefusesOldServer | internal/provider.go:203-214 | a server older than 3.0.0 is refused with the constraint error, which quotes the version as the server sent it |
| Provider.NewProviderConfig | internal/provider.go:114-152 | returns the resolved configuration and adds ConfigErrors for it |
| Provider.NewClient | internal/provider.go:154-217 | a fresh client for the resolved server and token, returned exactly when NewClientCheck finds no error |
| Provider.CheckVersion | internal/provider.go:184-214 | one version request; the errors are the version request's failure or VersionErrors |
| Provider.Configure | internal/provider.go:90-107 | a configuration error stops it before any client is built; otherwise the client, if accepted, becomes both the data source and the resource data |
| DataSourceUser.StateOfCopiesExactly | internal/data_source_user.go:32-39 | two users give the same state exactly when they agree on ID, Login, Email, Avatar, Active and Admin |
| DataSourceUser.UserDataSourceModel.SetValues | internal/data_source_user.go:32-39 | every attribute is overwritten from the user |
| DataSourceUser.UserRequest | internal/data_source_user.go:108-112 | the current user is fetched exactly for the empty login, and any other login is looked up as given |
| DataSourceUser.Read | internal/data_source_user.go:97-122 | one request, chosen by the login; on an error the diagnostic is added and the state is not written; otherwise the state is the user read |

## Left out

- Form: each model struct is a class, and `State()` stands for the record the framework reads and writes. Decoding a plan, state or config with `Get` is taken to succeed, so every handler starts from a record already decoded, with no diagnostics. In the same way, `State.Set` and `State.SetAttribute` are taken to add no diagnostics.
- The HTTP client and the `woodpecker` client package are not part of this model. The server is an oracle value, and error texts are opaque strings. The values of the client's event constants are the Woodpecker event names.
- Semver parsing (the Masterminds library, lenient formats, pre-release ordering) is not modelled. The parse is a parameter, and the constraint compares (major, minor, patch) triples.
- Provider.CheckVersion: the "Couldn't parse woodpecker version constraint" branch is left out, because the constraint is the constant ">= 3.0.0". `c.String()` is taken to render it as ">=3.0.0".
- `os.Getenv` is a parameter of `Configure` and `NewProviderConfig`.
- The `Configure` type assertions on `ProviderData` in every resource and data source, schemas, plan modifiers and `Metadata` are declarations, not logic.
- ImportIds.UnexpectedImportIdentifier and GoStrconv.NumError.Error: the `%q` and `strconv.Quote` quoting is plain surrounding double quotes; Go's escaping of quotes, backslashes and control characters is not modelled. The `Invalid repository id` and `Invalid cron id` details carry that text.
- Framework.SetValueFrom: always gives a known set. The framework gives a null set for a nil slice, so when the server sends no images, events or lists, `setValues` records null there and the model records a known empty set.
- Framework.ElementsAs: the order of a set's elements is fixed here as ascending; the framework leaves it unspecified. A nil slice and an empty one are not distinguished.
- The Read and Update handlers of every resource are not modelled. Several Read handlers go on to `setValues` after a client error, and a nil dereference is not modelled.
- The Create handlers of the repository secret, org secret and cron resources are not modelled. They follow the pattern of the global secret's Create.
- The handlers of the `woodpecker_user` resource (internal/resource_user.go) are not modelled. Each forwards one client call, and its `Delete` leaves the state removal to the framework. The `userModel` mapping they use is modelled.
- ResourceOrgSecret.Delete: `orgSecretResourceModel` is not defined in the available files, so Delete reads only the two attributes it uses, org_id and name.
- Version skew between files: the repository schema's attribute names and the user resource's schema do not match the model structs' tags. The model follows `models.go` as written.
- The prior schema of the global secret (internal/resource_secret.go:242-297) lacks `plugins_only`, although `secretResourceModelV0` has it. The upgrader follows the struct.
- The remaining data sources only forward a lookup key to one client call. `main.go`, the provider's `Metadata`, `Schema`, `DataSources` and `Resources` lists, and the test harness only wire things up.
- A bad first part of an org secret identifier is reported as "Invalid repository id", as the code words it. The model keeps that text.
