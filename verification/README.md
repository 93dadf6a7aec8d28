# terraform-controller: the Configuration lifecycle

A Dafny model of the controller that keeps Configurations in an in-memory store, reconciles them with
`terraform apply` and `terraform destroy`, and is driven by REST calls and work queues; and proofs of what
it keeps over whole runs.

The system is modelled twice, and the two are proved to agree.

- **As the program has it** (`Store`, `Reconcilers`, `Server`): Configuration objects on the heap that the
  store and the informer's indexer may share, a `Cache` over a `ThreadSafeMap`, work queues, meta data filled
  in step by step, reconcilers that assign to fields of shared objects, the worker and the REST handlers.
  Every method is proved to make the step the specification gives.
- **As a state machine** (`Objects`, `Render`, `Variables`, `Lifecycle`, `Protocol`): one value `State` holds
  the store, both indexers, both queues, the process environment and a log of what terraform did; every
  operation is a function on it. An indexer entry is `Same` while the indexer holds the very object of the
  store and `Own(c)` once it holds another one, which is all that aliasing can show.

The theorems are about the state machine and its runs: `Safety` (nothing is forgotten), `History` (what held
at every terraform run), `Checks`, `Secrets`, `Deletion`, `Aftermath`, `Convergence`, `Retries`, `Crash`,
`Accounting`, `Region`, `Outputs`, `Ownership`, `RoundTrip`, `Leftovers`. `Texts`, `Folding`, `Publishing`,
`Readiness` and `Effects` say what the outside sees, in its own terms and not in those of the functions that
compute it. `Lifetime` and `Findings` have runs from the empty store. `Server.Execute` carries the main theorem
back to the heap. `KeyCodec` is about the string keys, and justifies keeping one map per kind. `Frames` says
what the parts of a reconcile leave alone.

## Assumptions

- One step is one REST call, one timer of a work queue, or one call of `reconcileHandler`. Each controller
  has one worker; REST calls and the other controller's worker do not interleave with a reconcile.
- `InjectWorkerQueue` is a call into a library that is not part of the repository. It is taken to make the
  object the indexer's object for its name and to enqueue its request. A lookup in an indexer without the
  object is an error.
- A work queue holds a request at most once as ready and at most once as delayed; backoff is a timer that
  fires at some time. The queue hands out any ready request.
- REST bodies have the kind of their endpoint; Configurations are in namespace `default` and carry neither
  finalizer nor deletion timestamp; names and namespaces are not empty and have no slash. A body may carry a
  status.
- What the outside world answers during a reconcile is an `Oracle`: whether the `RESOURCES_*` quantities
  parse, what decoding and checking a provider's secret gives, whether the terraform run succeeds, and the
  state file read after an apply. The state file at `/tmp/terraform.tfstate` is the one the apply wrote only
  for the default backend path; results about outputs speak of the file that is read.
- Decompressing inverts compressing.
- A process may start with any environment: every result about runs from the empty store holds for all of them.
- `strings.EqualFold` compares by some table that folds characters; no result depends on which one it is.

## What the code does that one might not expect

- `preCheck` stores the rendered text and compares afterwards, so the change it looks for never shows
  (`History.PreCheckStoresInput`).
- `preCheck` writes its status through a pointer it may share with the store, before `IsDeletable` reads it:
  on an object the store shares, TerraformInitError and ProvisioningAndChecking are overwritten when the spec
  is invalid, or a region is set and the environment differs (`Checks.DeletableKnown`).
- Deleting goes on when `preCheck` fails. A Configuration that is invalid is destroyed with the text in the
  ConfigMap that all Configurations share (`Findings.DestroyInput`, `Findings.InvalidLife`; a run:
  `Findings.ForeignTextDestroyed`).
- "Deletable" is documented as "no external cloud resources are provisioned", but a Configuration that was
  applied and whose provider has since been deleted or become unready is released without a destroy
  (`Deletion.RecordLeavesExactlyWhen`, `Deletion.ReleasesAreJustified`; a run:
  `Findings.DeletedProviderReleases`).
- A Configuration named `<name>-destroy` makes the destroy job of `<name>` be skipped, and the record goes
  without terraform (`Deletion.RecordLeavesExactlyWhen`; a run: `Findings.ShadowedJobReleases`).
- Deleting panics when the variables differ from the variable secret or when the connection secret exists:
  both type assertions to `v1.Secret` meet a `*types.Secret` (`Crash.ReconcilePanicsExactlyWhen`). As
  `preCheck` never refreshes the variable secret (`Secrets.PreCheckSecrets`), a PUT with another variable, its
  reconcile and a DELETE end there once the destroy job succeeds (`Findings.PutThenDeleteCrashes`; a run:
  `Findings.ChangedVariablesCrash`).
- A second DELETE can leave an entry behind that is retried forever (`Convergence.StaysScheduledExactlyWhen`,
  `Findings.SecondDeleteIsRetriedForever`; a run: `Findings.TwoDeletesNeverEnd`).
- A DELETE before the finalizer is there does not last (`Findings.DeletedTooEarlyComesBack`).
- The credentials of a provider of cloud `custom`, and of no other, are whatever its secret lists, and so may set
  `TERRAFORM_BACKEND_NAMESPACE`; the next reconcile then looks for the state in another
  namespace (`RoundTrip.ApplyMovesNamespace`), and the backend secret of the earlier apply stays as long as no
  credentials name the old namespace again and REST does not delete it (`Leftovers.LeftBehindForever`; a run:
  `Findings.MovedNamespaceLeavesState`).
- The field `deleteResource` of a Configuration is never read: the meta data sets its own flag to true.
- The ClusterRole is looked up by a key it is never stored under (`KeyCodec.ClusterRoleNeverFound`).
- The branch of `Reconcile` for a destroy job that has not completed cannot be taken: that error is returned
  only when neither of two flags is set, and where it is decided one of them always is.

## Model

| member | source | states |
|---|---|---|
| `Server.Execute` | controllers/controller.go:102-157 | The program on the heap, from an empty store in a process with any environment, through any interleaving of REST calls, timers and worker turns that does not crash, ends in the state the protocol ends in; there, whatever terraform may have created belongs to a stored Configuration with its finalizer or to one whose request is scheduled |
| `Safety.NothingIsForgotten` | controllers/configuration_controller.go:98-150 | In every reachable state, a Configuration for which terraform apply ran since its last destroy or release is in the store with its finalizer, or its request is scheduled |
| `Safety.StepKeepsInv` | controllers/configuration_controller.go:86-163 | The inductive invariant behind it: every REST call, timer and handler call keeps the relation between the record, the indexer's object, the log and the queues, for every name |
| `Safety.RunKeepsInv` | controllers/controller.go:102-127 | The invariant holds at the end of every run that starts with it |
| `Safety.ReconcileEffect` | controllers/configuration_controller.go:86-163 | What one reconcile does: it touches no other name and neither queue, logs at most one terraform run or release, keeps finalizer and deletion mark of its record, never unsets a region, puts a record that was gone back with the region the indexer's object carries, and without error either applied or removed the record |
| `History.TerraformRunsOnlyWhenReady` | controllers/configuration_controller.go:98-154 | At every terraform apply of every run the stored Configuration carries its finalizer and no deletion mark, the ConfigMap holds exactly its rendering, its provider exists, credentials were fetched, and every non-empty merged variable is in the process environment; at every destroy it carries finalizer and mark and its provider is there and not unready |
| `History.PreCheckStoresInput` | controllers/configuration_controller.go:411-434 | Storing the text before comparing makes the change flag false for all inputs; the ConfigMap ends as the rendering exactly when the quantities parse and the spec is valid, and is untouched otherwise |
| `Checks.PreCheckOutcome` | controllers/configuration_controller.go:387-493 | preCheck succeeds if and only if quantities parse, the spec is valid, the record is stored, the provider is there and gives credentials, and variables and credentials can be merged; and the apply status tells an invalid spec, a missing provider and a changed environment apart |
| `Checks.ApplySucceedsExactlyWhen` | controllers/configuration_controller.go:98-163 | A reconcile that is not a deletion returns no error exactly when preCheck would succeed, terraform apply succeeds and its state file is readable; it asks for a delayed retry exactly when it got as far as terraform |
| `Checks.DeletableKnown` | controllers/configuration/configuration.go:111-130 | What IsDeletable will answer after preCheck, decided before it: the two states it looks for are overwritten by preCheck exactly when the provider is there, store and indexer share the object, and quantities parse while the spec is invalid or a region is set and the environment differs |
| `Checks.InputKnown` | controllers/configuration_controller.go:387-493 | Likewise the ConfigMap and the names of the secrets preCheck leaves: a ConfigMap is there afterwards exactly when one was or the spec is valid and quantities parse, and the one secret added is the variable secret, exactly when preCheck succeeds |
| `Secrets.EnvChangedExactly` | controllers/configuration_controller.go:471-483 | The environment counts as changed if and only if some merged entry is missing from, or not equal up to case in, an existing variable secret |
| `Secrets.PreCheckSecrets` | controllers/configuration_controller.go:453-489 | preCheck creates a missing variable secret and never changes a secret that is there, not even a variable secret it found out of date |
| `Variables.FreshSecretRecordsEnvironment` | controllers/configuration_controller.go:457-483 | A variable secret that was just written from an environment does not count as changed for it |
| `Deletion.RecordLeavesExactlyWhen` | controllers/configuration_controller.go:124-150 | A destroy reconcile that returns takes the record out of the store if and only if, before the call, the Configuration may be deleted directly, or a Configuration named like the destroy job exists, or there will be an input and terraform destroy succeeds; it returns without error in exactly these cases, and the log tells them apart |
| `Deletion.RecordLeavesOnlyAfterDestroy` | controllers/configuration_controller.go:262-340 | Without a Configuration named like the destroy job, the record leaves only after a successful terraform destroy, or with its provider gone or unready, or after TerraformInitError |
| `Deletion.ReleasesAreJustified` | controllers/configuration_controller.go:262-298 | In every reachable state: a step that releases a record without a destroy run is the reconcile of that name, and either its provider is absent or unready or its status is TerraformInitError, or a Configuration named like its destroy job is in the store |
| `Deletion.CleanUpIsComplete` | controllers/configuration_controller.go:299-337 | A successful destroy reconcile removes the record, its variable secret, its backend secret and the input ConfigMap, and changes no other record, secret, provider, indexer entry or queue entry |
| `Secrets.TerraformDestroySecrets` | controllers/configuration_controller.go:299-337 | A terraformDestroy that goes through leaves the secrets of before less the two derived ones, and cannot have met a connection secret |
| `RoundTrip.ApplyThenDeleteRestores` | controllers/configuration_controller.go:98-150 | Apply, DELETE, destroy: the other records and the providers are as before and the ConfigMap is gone; with no connection secret asked for and no derived secret there before, the secrets are as before if and only if the apply's credentials do not name a backend namespace other than the current one, and otherwise the backend secret is left |
| `RoundTrip.ApplyMovesNamespace` | controllers/configuration_controller.go:245-260 | An apply without error moves the backend namespace to the non-empty one its credentials name, and leaves it otherwise: no variable of a Configuration can be it |
| `RoundTrip.ApplySecrets` | controllers/configuration_controller.go:595-620 | An apply without error writes no secret but its variable secret, its backend secret and the connection secret it asks for |
| `Leftovers.ReconcileApart` | controllers/configuration_controller.go:86-163 | Whatever its outcome, a reconcile changes, adds or removes no secret but its variable, backend and connection secret, does not remove the connection secret, and leaves the environment as it was or the backend namespace as its credentials say |
| `Leftovers.LeftBehindForever` | controllers/configuration_controller.go:299-337 | Over any run in which no credentials name that namespace again and REST does not delete it, a backend secret outside the current backend namespace stays; no reconcile deletes it, not even that of its deleted Configuration |
| `Aftermath.StaleReconcile` | controllers/configuration_controller.go:262-340 | With the record gone and a marked object left in the indexer, a reconcile runs no terraform, brings back no record, and changes at most the ConfigMap and its two derived secrets; unless it panics it fails and is retried |
| `Aftermath.StaleForever` | controllers/configuration_controller.go:124-150 | Over any run in which nobody creates the name again: no log entry about it, no record of it, and an entry of its request once scheduled stays scheduled forever |
| `Aftermath.AtMostOneDestroy` | controllers/configuration_controller.go:124-150 | In any run, between a successful destroy or a release of a name and the next terraform run for it there is a REST write of it |
| `Convergence.Convergence` | controllers/controller.go:129-157 | A marked record with one outstanding entry, in any interleaving without REST calls on it: while it is there every attempt has failed and one entry is outstanding; once it is gone there was exactly one attempt more than failures and nothing is scheduled |
| `Convergence.Attempt` | controllers/controller.go:139-156 | One attempt either fails and is retried with one entry outstanding, or ends with the record gone and nothing scheduled |
| `Convergence.StaysScheduledExactlyWhen` | controllers/controller.go:129-157 | The reconcile that takes a marked record away leaves its request scheduled if and only if it was delayed as well as ready, and through every further run without a create of the name it stays scheduled, or unscheduled |
| `Retries.RetriesSucceed` | controllers/controller.go:129-157 | For a marked Configuration that nothing but its destroy job holds up: in any run in which its destroys fail, interleaved with any number of timers, reconciles of other Configurations and of providers and REST calls that do not concern it, none of its attempts crashes; and at the end one more attempt, whose destroy succeeds and has an input, is possible and leaves the record gone and nothing scheduled |
| `Retries.RoundsAreUndisturbed` | controllers/controller.go:139-156 | Any number of failing attempts, each after the timer of the one before, is such a run |
| `Retries.ProvidersAlwaysAgree` | tools/cache/store.go:93-139 | In every reachable state the provider indexer holds, for every stored provider, what the store holds |
| `Crash.ReconcilePanicsExactlyWhen` | controllers/configuration_controller.go:624-637 | A reconcile panics if and only if, before the call, the object is being deleted and either it may be deleted directly and its connection secret is or will be there, or its destroy job will not fail and its merged variables are not those of the variable secret or its connection secret is there or will be written |
| `Crash.DestroyOutcome` | controllers/configuration_controller.go:124-150 | Which of the four ways a destroy reconcile ends (panic, retry after a delay, success, failure without a record) is decided by the state before it and the answers, for all of them |
| `Crash.ConnectionSecretPanics` | controllers/configuration_controller.go:831-847 | Every marked Configuration whose connection secret is in the store, with its provider ready, no special status, no shadowed job and an input, panics as soon as terraform destroy succeeds |
| `Crash.ChangedEnvironmentPanics` | controllers/configuration_controller.go:624-637 | Every marked Configuration whose merged variables are not those of its variable secret, with its provider ready, no special status and no shadowed job, panics as soon as terraform destroy succeeds |
| `Crash.TerraformDestroyPanics` | controllers/configuration_controller.go:831-847 | The same for terraformDestroy: the two assertions to v1.Secret fail whenever they are reached |
| `Accounting.ReconcileNeverInjects` | tools/cache/store.go:122-139 | No write of a reconcile of either controller reaches a work queue |
| `Accounting.WorkAccounting` | tools/cache/store.go:93-161 | Over any run, handler calls made plus entries outstanding never exceed injections by REST calls plus retries asked for |
| `Accounting.NoSelfTriggering` | controllers/controller.go:116-157 | Without REST calls nothing is injected, however long the workers run |
| `Region.RegionIsSticky` | controllers/configuration/configuration.go:76-87 | Across any run without a POST or PUT of the Configuration, with deletions of it included: whenever it is in the store, its non-empty region is the one it had, even when a reconcile has put the record back in between |
| `Region.SetRegionReturnsStored` | controllers/configuration/configuration.go:76-87 | SetRegion returns the region the store holds afterwards, writes only where there was none, only the region, and into a copy: the indexer's object stays as it was |
| `Outputs.SuccessfulApply` | controllers/configuration_controller.go:495-523 | After an apply without error the backend secret holds the state file, the status is Available with the converted outputs exactly when the file parses, all outputs convert and the connection secret is absent, unowned or owned by this Configuration, and the connection secret then holds them; otherwise GeneratingOutputs |
| `Outputs.UpdateAvailableWrites` | controllers/configuration_controller.go:666-757 | The same for updateApplyStatus alone, with the labels of an existing connection secret kept and a new one labelled with its owner |
| `Publishing.OutputsReported` | controllers/configuration_controller.go:505-523 | After an apply without error of a Configuration that asks for no connection secret: Available if and only if its state file parses and every output has a text, and then exactly the outputs of the file are reported, strings unchanged, numbers in decimal, booleans as true and false; GeneratingOutputs and no outputs otherwise |
| `Publishing.OutputsPublished` | controllers/configuration_controller.go:699-756 | The same with a connection secret, for which it must also be absent or have labels that name no other owner and no other namespace: then it holds the reported outputs as texts and keeps its labels, or has the three owner labels if it is new; otherwise it is as it was |
| `Publishing.OpenExactly` | controllers/configuration_controller.go:738-750 | A secret is closed to a Configuration if and only if a label that is not empty names another owner or another namespace |
| `Publishing.AskedExactly` | controllers/configuration_controller.go:699-707 | The connection secret asked for is the one named, in namespace default when none is given, and none when the name is empty |
| `Publishing.StateStored` | controllers/configuration_controller.go:595-620 | After an apply without error the state file is the one entry of the secret tfstate-default-<name> in the backend namespace of the environment, or in vela-system |
| `Publishing.StateReadExactly` | controllers/configuration_controller.go:666-698 | Outputs are read back if and only if that secret is there with a compressed state file under tfstate that parses and whose outputs all have a text, and they are those outputs |
| `Texts.ConversionExactly` | controllers/configuration/conver.go:80-102 | A value converts to a text if and only if that text says it: a string itself, an integer its decimal form (read back, with sign and without leading zero), a boolean "true" or "false"; and fails only for a value JSON cannot encode |
| `Texts.MergedExactly` | controllers/configuration_controller.go:759-803 | Merging variables and credentials fails exactly for malformed variables, for a value without text and for nothing to merge; otherwise it gives every credential unchanged and every variable no credential overrides under TF_VAR_ and its name with the text that says it, and nothing else |
| `Texts.TerraformReceives` | controllers/configuration_controller.go:245-260 | At every apply of every run, the variables of the stored Configuration merged in this way with the credentials are what terraform gets, and all that are not empty are in the process environment |
| `Texts.NewVariableSecret` | controllers/configuration_controller.go:453-470 | A variable secret preCheck creates is named variable-<name> in namespace default and holds exactly the merged variables as texts |
| `Folding.EqualFoldExactly` | controllers/configuration_controller.go:477-478 | Two texts count as equal if and only if they have the same length and the table folds them together character by character |
| `Folding.PlainTexts` | controllers/configuration_controller.go:477-478 | Texts of characters without case count as equal only if they are |
| `Folding.CaseIsIgnored` | controllers/configuration_controller.go:477-478 | Folding any one character of a text gives a text that counts as equal, for a table whose representatives stand for themselves |
| `Folding.ReloadsExactlyWhen` | controllers/configuration_controller.go:471-484 | preCheck that gets as far as the comparison reports a changed environment, and ConfigurationReloading, if and only if some merged variable is missing from the variable secret or recorded there with a text that does not count as equal |
| `Folding.MissingPanics` | controllers/configuration_controller.go:624-637 | Deleting a Configuration with such a variable ends in the panic once terraform destroy succeeds |
| `Readiness.LookupExactly` | controllers/provider/credentials.go:58-126 | Credentials are what decoding gives if and only if the source is Secret, the secret is there with the key, the cloud is one of the eleven and decoding does not fail; an error otherwise |
| `Readiness.ProviderHandled` | controllers/provider_controller.go:25-57 | Handling a provider request makes the provider ready in store and indexer if its credentials can be had, and not ready otherwise; the request is retried exactly in the second case, and nothing else changes |
| `Readiness.ReleasedDirectlyExactlyWhen` | controllers/configuration/configuration.go:111-130 | A destroy reconcile that returns releases the record without a destroy run if and only if the provider is absent or not ready, or the status is TerraformInitError and preCheck leaves it |
| `Readiness.WaitingRunsNothing` | controllers/configuration/configuration.go:121-126 | With a ready provider and the status ConfigurationProvisioningAndChecking, which preCheck leaves, a destroy reconcile fails, runs no terraform and is to be tried again after three seconds |
| `Readiness.UnreadyReleases` | controllers/provider_controller.go:37-45 | Right after a provider request that failed, every marked Configuration that refers to the provider and asks for no connection secret is released without a destroy, whatever the answers |
| `Effects.SecretIsRead` | rest/handle_secret.go:44-92 | What was POSTed, or PUT over an existing secret of the same name, is what a read returns and nothing else changes; after DELETE there is none |
| `Effects.ProviderIsRead` | rest/handle_provider.go:44-92 | The same for a provider, in store and indexer, and its reconcile is scheduled; DELETE takes it out of the store only |
| `Effects.ConfigurationIsRead` | rest/handle_configuration.go:44-76 | The same for a Configuration, which has neither finalizer nor deletion mark afterwards |
| `Effects.ConfigurationIsDeleted` | tools/cache/store.go:142-161 | DELETE marks a Configuration with its finalizer, makes the indexer share it and schedules it; without one the record goes and the indexer keeps its object |
| `Effects.TerraformRuns` | controllers/configuration/configuration.go:48-73 | At every apply of every run the one file terraform runs is main.tf with the HCL and the backend block after it, or terraform-backend.tf with the backend block for remote code, with the path asked for or /tmp/terraform.tfstate |
| `Effects.InputStored` | controllers/configuration_controller.go:411-434 | preCheck of a valid Configuration leaves that file in the ConfigMap, whatever was there |
| `Effects.RegionStored` | controllers/configuration/configuration.go:76-87 | preCheck of a valid Configuration stores the region of its provider where there is none, whether or not credentials are found |
| `Effects.ClusterRoleStored` | controllers/rbac.go:12-45 | A preCheck that succeeds leaves the ClusterRole in the store |
| `Effects.JobRunsExactlyWhen` | controllers/configuration_controller.go:275-287 | A destroy that is neither direct nor to wait runs terraform if and only if there is an input and no Configuration is named like it with -destroy after the name |
| `Effects.DestroyReported` | controllers/configuration_controller.go:294-298 | A terraformDestroy that goes through leaves the status ConfigurationDestroying on the record that is about to go |
| `Ownership.ConnectionSecretsAreOwned` | controllers/configuration_controller.go:699-756 | Over any run in which REST does not write the secret, whenever it is there it is labelled with one owner and holds the outputs of a successful apply of that owner, or of a state file REST has put into a backend secret of that owner; REST may delete any secret, and Configurations may ask for any connection secret |
| `Ownership.OwnerNeverChanges` | controllers/configuration_controller.go:737-755 | Once a connection secret has an owner it keeps that owner through any further run in which REST does not delete it |
| `Ownership.OthersLeaveKey` | controllers/configuration_controller.go:735-750 | A reconcile of a Configuration that is not the owner leaves the secret as it is |
| `Lifetime.WholeLife` | controllers/configuration_controller.go:86-163 | In a process with any environment, a run from the empty store that meets the hypotheses of the round trip: a Configuration is created with a provider and the YAML credentials it decodes, applied, deleted and destroyed with the same credentials without a crash; record and ConfigMap are gone and the credentials are the only secret left |
| `Findings.DestroyInput` | controllers/configuration_controller.go:110-133 | The text a destroy run reads: the Configuration's own rendering if quantities parse and the spec is valid, and otherwise whatever the shared ConfigMap held before |
| `Findings.ForeignTextDestroyed` | controllers/configuration_controller.go:541-558 | A run from the empty store in which deleting a Configuration that never was valid runs terraform destroy with the rendering of another Configuration |
| `Findings.InvalidDestroy` | controllers/configuration_controller.go:275-292 | Every invalid Configuration being deleted, with its provider at hand, a ConfigMap there and nothing else in the way, is destroyed with the text the ConfigMap happens to hold |
| `Findings.InvalidLife` | controllers/configuration_controller.go:541-558 | In every state of the invariant with a ConfigMap: creating any invalid Configuration whose provider is at hand, with no connection secret and no shadowed job, reconciling it, deleting it and reconciling it again runs terraform destroy with the text that was in the ConfigMap before |
| `Findings.PutThenDeleteCrashes` | controllers/configuration_controller.go:453-489 | In every state of the invariant: a PUT whose merged variables the variable secret does not record, its successful apply and a DELETE end in the panic as soon as terraform destroy succeeds, for a Configuration with its provider at hand, no connection secret and no shadowed job |
| `Findings.ChangedVariablesCrash` | controllers/configuration_controller.go:624-637 | A run from the empty store that does so: a variable is added by PUT, applied, the Configuration is deleted, and the next step crashes |
| `Findings.ShadowedJobReleases` | controllers/configuration_controller.go:275-287 | A run from the empty store in which terraform applied a Configuration and never destroys it: its record is released because a Configuration named like its destroy job was created |
| `Findings.DeletedProviderReleases` | controllers/configuration/configuration.go:109-119 | A run from the empty store in which terraform applied a Configuration and never destroys it: its provider is deleted, and the record is released directly |
| `Findings.DeletedTooEarlyComesBack` | controllers/configuration_controller.go:100-103 | A Configuration deleted before it got its finalizer leaves the store, is still scheduled, and is put back with a finalizer by that reconcile |
| `Findings.SecondDeleteIsRetriedForever` | tools/cache/store.go:142-154 | A DELETE while a retry waits leaves, after a successful destroy, an entry that every further run without a create of the name keeps scheduled |
| `Findings.TwoDeletesNeverEnd` | tools/cache/store.go:142-154 | A run from the empty store with two DELETEs, the second while the retry of the first waits, after which the request stays scheduled through every further run without a create of the name |
| `Findings.MovedNamespaceLeavesState` | controllers/configuration_controller.go:245-260 | For every starting environment that does not already name it, a run from the empty store in which the credentials of a custom provider move the backend namespace: the Configuration is applied, deleted and destroyed with the same credentials, and its backend secret is left behind |
| `Render.RenderHCLRoundTrip` | controllers/configuration/configuration.go:63-67 | For any HCL text and any path without quotes, both are recovered from the rendered text |
| `Render.RenderTemplateRoundTrip` | controllers/configuration/conver.go:31-37 | The path is recovered from the backend text, whatever it is |
| `Render.RenderEqualityExactly` | controllers/configuration/configuration.go:48-73 | For any HCL texts and any paths: remote texts are equal if and only if the effective paths are; HCL texts if and only if HCL and effective path are, or one path holds the joint between HCL and path and the HCL texts differ by the part before it |
| `Render.UnambiguousExactly` | controllers/configuration/configuration.go:63-67 | A rendered HCL text comes from one HCL text and path only, if and only if that HCL text does not hold the joint and that path does not hold it before its end |
| `Render.RenderIsStable` | controllers/configuration/configuration.go:49-57 | Rendering again after the default path was written into the object gives the same text and the same object |
| `Render.QuotedPathsAreAmbiguous` | controllers/configuration/conver.go:31-37 | With quotes in the path different Configurations render to the same text |
| `Render.ValidConfigurationObject` | controllers/configuration/configuration.go:31-45 | A type is found if and only if exactly one of hcl and remote is set |
| `Render.WithBackend` | controllers/configuration/configuration.go:49-57 | Only the backend is written, and its path is the one that is rendered |
| `Objects.Converted` | controllers/configuration_controller.go:691-698 | Every output keeps its key, under the converted form of its value |
| `Variables.Prefixed` | controllers/configuration_controller.go:812-814 | Exactly the variables, each under TF_VAR_ and its name |
| `KeyCodec.RequestRoundTrip` | controllers/configuration_controller.go:206-211 | Splitting a request inverts joining it, so that the name read off it is the object's |
| `KeyCodec.KeyRoundTrip` | tools/cache/store.go:65-74 | Splitting a key gives back kind, namespace and name |
| `KeyCodec.BuiltKeyInjective` | tools/cache/store.go:65-74 | For parts without slashes, keys are equal if and only if kind, namespace and name are |
| `KeyCodec.SlashesCollide` | tools/cache/store.go:70-72 | With a slash in a name, two objects have the same key |
| `KeyCodec.BuiltKeyFinds` | controllers/configuration_controller.go:278-280 | A key put together by hand is the store's key of the object exactly when the object has a kind and a namespace |
| `KeyCodec.ClusterRoleNeverFound` | controllers/rbac.go:35-43 | The key the ClusterRole is looked up by is never the key it is stored under |
| `KeyCodec.KeyTextInjective` | tools/cache/store.go:65-74 | No two objects of the model share a string key |
| `KeyCodec.DerivedKeysDisjoint` | controllers/configuration_controller.go:216-240 | Variable and backend secrets of different Configurations, and of the same one, have different keys even in one namespace |
| `Store.ThreadSafeMap.Add` | tools/cache/thread_safe_store.go:22-24 | The map with the object under the key |
| `Store.ThreadSafeMap.Update` | tools/cache/thread_safe_store.go:26-30 | The map with the object under the key |
| `Store.ThreadSafeMap.Delete` | tools/cache/thread_safe_store.go:32-38 | The map without the key, whether or not it was there |
| `Store.ThreadSafeMap.Get` | tools/cache/thread_safe_store.go:40-45 | The object under the key, if there is one |
| `Store.ThreadSafeMap.List` | tools/cache/thread_safe_store.go:47-55 | Every object once, and no other, in some order |
| `Store.Cache.Add` | tools/cache/store.go:93-119 | The object is stored; a Configuration or Provider also becomes the indexer's object and its request is enqueued; nothing else changes, as the step AddConfiguration, AddProvider or PutSecret of the model |
| `Store.Cache.StoreAndInject` | tools/cache/store.go:93-139 | The same for a Configuration, on the heap: store and indexer share the object afterwards |
| `Store.Cache.AddValue` | tools/cache/store.go:93-119 | The same for the other kinds |
| `Store.Cache.Update` | tools/cache/store.go:122-139 | The object is stored; only with reconciliationLoop is it injected; an object the store did not share with the indexer leaves the indexer its own |
| `Store.Cache.UpdateConfigurationObject` | tools/cache/store.go:122-139 | Storing the indexer's object makes both share it, storing another one leaves the indexer the old object, and storing what is stored changes nothing |
| `Store.Cache.UpdateValue` | tools/cache/store.go:122-139 | Without reconciliationLoop only the store changes |
| `Store.Cache.Delete` | tools/cache/store.go:142-161 | With the finalizer on, a Configuration is marked, stored and injected; everything else is taken out of the store |
| `Store.Cache.DeleteConfigurationObject` | tools/cache/store.go:142-161 | The same for a Configuration: without finalizer the indexer and the queue are not touched |
| `Store.Cache.Drop` | tools/cache/store.go:155-160 | The record leaves the store and the indexer keeps its object |
| `Store.Cache.DeleteValue` | tools/cache/store.go:155-160 | Only the key leaves the store |
| `Store.Cache.GetByKey` | tools/cache/store.go:181-188 | The object of the model under the key, and None exactly when there is none |
| `Store.Cache.SetSpec` | controllers/configuration/configuration.go:49-57 | Assigning through the indexer's pointer changes the stored record exactly when the object is shared |
| `Store.Cache.SetStatus` | controllers/configuration_controller.go:505-521 | The same for an assignment to the status |
| `Store.Cache.AddFinalizer` | controllers/configuration_controller.go:101-102 | The same for the finalizer |
| `Store.Cache.Take` | controllers/controller.go:116-123 | The item leaves the queue |
| `Store.Cache.Retry` | controllers/controller.go:141-153 | The request waits in the queue and the retry is counted |
| `Reconcilers.TFConfigurationMeta.constructor` | controllers/configuration_controller.go:203-243 | The meta data starts with the provider reference of the object and nothing else established |
| `Reconcilers.TFConfigurationMeta.ToProperties` | controllers/configuration_controller.go:691-698 | In any iteration order: all outputs converted, or an error exactly when one does not convert |
| `Reconcilers.TFConfigurationMeta.StateOutputs` | controllers/configuration_controller.go:666-698 | The outputs in the backend secret, if it is there, decompresses, parses and converts |
| `Reconcilers.TFConfigurationMeta.WriteConnectionSecret` | controllers/configuration_controller.go:699-756 | The outputs are published unless another Configuration owns the secret, in which case nothing changes |
| `Reconcilers.TFConfigurationMeta.GetTFOutputs` | controllers/configuration_controller.go:666-757 | Both together |
| `Reconcilers.TFConfigurationMeta.GenerateOutputs` | controllers/configuration_controller.go:509-519 | The status of the stored object reports the outputs, or that they could not be generated |
| `Reconcilers.TFConfigurationMeta.UpdateApplyStatus` | controllers/configuration_controller.go:495-523 | The stored object's apply status is assigned, for Available with its outputs; nothing happens without a record |
| `Reconcilers.TFConfigurationMeta.UpdateDestroyStatus` | controllers/configuration_controller.go:525-538 | The stored object's destroy status is assigned |
| `Reconcilers.TFConfigurationMeta.GetTerraformJSONVariable` | controllers/configuration_controller.go:805-816 | In any iteration order: the variables under their TF_VAR_ names, or an error for malformed ones |
| `Reconcilers.TFConfigurationMeta.AddVariables` | controllers/configuration_controller.go:776-785 | In any iteration order: one environment entry per variable and all values converted, or an error exactly when one does not convert |
| `Reconcilers.TFConfigurationMeta.AddCredentials` | controllers/configuration_controller.go:790-795 | In any iteration order: one environment entry per credential, and credentials override variables |
| `Reconcilers.TFConfigurationMeta.PrepareTFVariables` | controllers/configuration_controller.go:759-803 | The merged variables; one environment entry per source entry, each with its key in them; an error exactly when variables are malformed or do not convert or there is no entry at all |
| `Reconcilers.TFConfigurationMeta.VariablesDiffer` | controllers/configuration_controller.go:473-482 | In any iteration order: true if and only if some entry is not recorded in the stored secret up to case |
| `Reconcilers.TFConfigurationMeta.CreateOrUpdateConfigMap` | controllers/configuration_controller.go:849-871 | The ConfigMap holds the data afterwards, whatever it held before |
| `Reconcilers.TFConfigurationMeta.StoreTFConfiguration` | controllers/configuration_controller.go:886-889 | The ConfigMap holds the rendered text under the file name of its type |
| `Reconcilers.TFConfigurationMeta.CheckWhetherConfigurationChanges` | controllers/configuration_controller.go:892-918 | The flag is set exactly when an HCL text differs from the ConfigMap's; without a ConfigMap it is an error |
| `Reconcilers.TFConfigurationMeta.RenderConfiguration` | controllers/configuration/configuration.go:48-73 | The text, and the default backend written into the indexer's object |
| `Reconcilers.TFConfigurationMeta.ReadBackendNamespace` | controllers/configuration_controller.go:390-393 | The namespace of the process environment, or vela-system |
| `Reconcilers.TFConfigurationMeta.GetCredentials` | controllers/configuration_controller.go:921-935 | Region first, then credentials; both, or an error |
| `Reconcilers.TFConfigurationMeta.CheckEnvironment` | controllers/configuration_controller.go:453-492 | A missing variable secret is created, a differing one sets the flag and the status, and the ClusterRole is stored |
| `Reconcilers.TFConfigurationMeta.CheckProvider` | controllers/configuration_controller.go:437-492 | preCheck from the provider lookup on |
| `Reconcilers.TFConfigurationMeta.AssembleAndTriggerJob` | controllers/configuration_controller.go:540-620 | Without ConfigMap no run; a successful apply stores its state file; a successful run updates the status |
| `Reconcilers.TFConfigurationMeta.UpdateTerraformJobIfNeeded` | controllers/configuration_controller.go:624-637 | The panic, exactly when a flag is set and the variable secret is there |
| `Reconcilers.TFConfigurationMeta.DeleteConfigMap` | controllers/configuration_controller.go:818-829 | The ConfigMap is gone |
| `Reconcilers.TFConfigurationMeta.DeleteSecrets` | controllers/configuration_controller.go:314-336 | Both derived secrets are gone |
| `Reconcilers.DeleteConnectionSecret` | controllers/configuration_controller.go:831-847 | The panic, exactly when the secret asked for is there |
| `Reconcilers.CheckDeletable` | controllers/configuration/configuration.go:111-130 | Directly without provider, with an unready one or after TerraformInitError; not yet while provisioning |
| `Reconcilers.StoreRegion` | controllers/configuration/configuration.go:76-87 | The region goes into a copy that replaces the stored object, and the indexer keeps the old one |
| `Reconcilers.UpdateCopy` | controllers/configuration/configuration.go:89-107 | Storing a copy detaches the indexer's object from the store |
| `Reconcilers.LookupCredentials` | controllers/provider/credentials.go:58-126 | The credentials of the secret the provider names, or an error when source, secret, key or cloud are unknown |
| `Reconcilers.CreateTerraformExecutorClusterRole` | controllers/rbac.go:12-45 | The ClusterRole is in the store |
| `Reconcilers.ConfigurationReconciler.StoreRendered` | controllers/configuration_controller.go:411-425 | Rendering, storing and comparing, in this order |
| `Reconcilers.ConfigurationReconciler.PreCheck` | controllers/configuration_controller.go:387-493 | The whole of preCheck: new state, meta data and error as in the model |
| `Reconcilers.ConfigurationReconciler.SetEnvironment` | controllers/configuration_controller.go:249-257 | In any iteration order: the environment gains exactly the entries that are not empty |
| `Reconcilers.ConfigurationReconciler.TerraformApply` | controllers/configuration_controller.go:245-260 | The environment is set, then the apply job runs |
| `Reconcilers.ConfigurationReconciler.CleanUp` | controllers/configuration_controller.go:294-338 | Status, ConfigMap, connection secret, derived secrets, in this order, ending at the panic |
| `Reconcilers.ConfigurationReconciler.TerraformDestroy` | controllers/configuration_controller.go:262-340 | The decision between direct deletion, the destroy job and its shadowing, and its result |
| `Reconcilers.ConfigurationReconciler.EnsureFinalizer` | controllers/configuration_controller.go:98-107 | The finalizer is on the indexer's object and the store holds it, unless it is being deleted |
| `Reconcilers.ConfigurationReconciler.RemoveRecord` | controllers/configuration_controller.go:134-147 | The finalizer goes from a copy, and the record from the store |
| `Reconcilers.ConfigurationReconciler.ReconcileDestroy` | controllers/configuration_controller.go:124-150 | Result and requeue decision of a destroy reconcile |
| `Reconcilers.ConfigurationReconciler.ReconcileApply` | controllers/configuration_controller.go:152-162 | Result and requeue decision of an apply reconcile |
| `Reconcilers.ConfigurationReconciler.Reconcile` | controllers/configuration_controller.go:86-163 | The reconcile on shared heap objects ends in the state and with the outcome the model gives |
| `Reconcilers.ProviderReconciler.Reconcile` | controllers/provider_controller.go:25-57 | The provider is ready or not by its credentials, in the indexer and in the store |
| `Server.Controller.ProcessNextWorkItem` | controllers/controller.go:116-157 | One turn of the worker is one handler step of the protocol: it crashes exactly when that does, and otherwise ends in its state |
| `Server.CreateConfiguration` | rest/handle_configuration.go:44-52 | The step of the protocol for POST |
| `Server.UpdateConfiguration` | rest/handle_configuration.go:54-76 | The step for PUT, and the status code: 404 without a record, 400 for another name in the body |
| `Server.DeleteConfiguration` | rest/handle_configuration.go:78-92 | The step for DELETE, and the status code |
| `Server.CreateProvider` | rest/handle_provider.go:44-52 | The step for POST |
| `Server.UpdateProvider` | rest/handle_provider.go:54-76 | The step for PUT, which injects, and the status code |
| `Server.DeleteProvider` | rest/handle_provider.go:78-92 | The step for DELETE, and the status code |
| `Server.CreateSecret` | rest/handle_secret.go:44-52 | The step for POST |
| `Server.UpdateSecret` | rest/handle_secret.go:54-76 | The step for PUT, and the status code |
| `Server.DeleteSecretAt` | rest/handle_secret.go:78-92 | The step for DELETE, and the status code |
| `Server.Advance` | controllers/controller.go:96-127 | Whichever part of the program runs, it makes the step of the protocol |

## Left out

- HTTP routing, JSON decoding and encoding, logging, signals and `manager.Start`; of each REST handler its effect on the store and its status code are kept. The list and single-object GET endpoints only read.
- Installing terraform, `terraform init`, writing the ConfigMap's entries to `work/` and the files earlier runs left there, and `klog.Fatal` on a failing rename or Setenv: a run is one answer of the oracle.
- Status messages, error texts, `observedGeneration` and timestamps; the deletion timestamp is a flag, and errors are told apart only where the code does.
- `ReplaceTerraformSource`, `RemoteGit`, `RemoteGitPath` and the resource quantities: computed into meta data that nothing reads afterwards.
- The decoding of each cloud's credentials and the Alibaba STS call: one answer of the oracle; the lookup of the secret around it is modelled. A provider without `secretRef`, on which the code dereferences nil, is not modelled.
- Providers, Secrets and ConfigMaps as heap objects: they are kept as values, because no pointer to one is kept where a later change to it could be told from a change to the store's (a Provider's fields are assigned in the indexer and written to the store in one reconcile). What is lost is their update in place.
- `AddInformer` and creating the informers after the store: the informers are there from the start.
- String keys in `Store.Cache`: its keys are the datatype `KeyCodec.Key`; that their texts are as different as they are is `KeyCodec.KeyTextInjective`.
- Locks and concurrency inside the store, and REST calls in the middle of a reconcile.
- Configurations outside namespace `default`, for which the code mixes two namespaces, and finalizers other than the controller's.
- The floats and compound values of `Interface2String`: their printed form is taken as given.
- Reconcilers.TFConfigurationMeta.constructor: leaves out `RemoteGit` and `RemoteGitPath`, which nothing reads afterwards.
- Reconcilers.LookupCredentials: takes what decoding the secret gives as a parameter, which is not tied to the data found.
- A secret entry is text or a compressed state file, told apart by a constructor; that a compressed file is also some text is not modelled.
- Store.ConfigurationInformer.InjectWorkerQueue: stands for a library call and states the effect assumed above.
- Reconcilers.CreateTerraformExecutorClusterRole: does not look the ClusterRole up first, because that lookup never finds it.
- Reconcilers.TFConfigurationMeta.AssembleAndTriggerJob: takes the answers of terraform as a parameter.
- Server.Controller.ProcessNextWorkItem: takes the item the queue hands out as a parameter; items that are not requests are never enqueued.
- Convergence.Convergence: counts attempts while the run goes on; that a failing destroy succeeds in the end is an assumption of `Retries.RetriesSucceed`.
- Ownership.ConnectionSecretsAreOwned: for secrets that REST does not create or update and whose names are not of the forms derived for variable and backend secrets.
