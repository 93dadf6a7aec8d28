/** A destroy that fails any number of times and then succeeds, interleaved with everything that does not
    concern it: every call of the handler is possible, and the record is gone at the end. */
module Retries {
  import opened Objects
  import opened Render
  import opened Variables
  import opened Lifecycle
  import opened Protocol
  import opened Frames
  import opened Safety
  import opened History
  import opened Checks
  import opened Secrets
  import opened Deletion
  import opened Crash
  import opened Convergence
  import opened RoundTrip
  import opened Leftovers

  /** Nothing but its destroy job can hold up the deletion: its provider is at hand, its state is not special,
      it is not shadowed, and there is no connection secret to meet, nor one the job would write. */
  ghost predicate SettledRecord(s: State, n: string, c: Configuration) {
    var ref := GetProviderNamespacedName(c.spec);
    && ref in s.providers && s.providers[ref].state != ProviderIsNotReady
    && !Special(c.status.apply.state)
    && !Shadowed(s, n)
    && NoConnection(s, n, c.spec)
  }

  ghost predicate NoConnection(s: State, n: string, spec: Spec) {
    ConnectionSecret(spec).Some? ==>
      && ConnectionSecret(spec).value !in s.secrets && ConnectionSecret(spec).value != VariableSecret(n)
      && StateOutputs(s, BackendNamespace(s.environment), n).None?
  }

  /** The provider indexer holds what the store holds. */
  ghost predicate ProvidersAgree(s: State) {
    forall ref <- s.providers :: ref in s.indexedProviders && s.indexedProviders[ref] == s.providers[ref]
  }

  /** Such a Configuration, marked for deletion and with one outstanding request. */
  ghost predicate Settled(s: State, n: string) {
    && Inv(s) && ProvidersAgree(s) && Doomed(s, n)
    && n in s.indexed && Indexed(s, n).Some? && SettledRecord(s, n, Indexed(s, n).value)
  }

  /** With these answers the merged variables are those of the variable secret. */
  ghost predicate Fits(s: State, n: string, p: Oracle) {
    Indexed(s, n).Some? && !EnvironmentDiffers(s, Indexed(s, n).value, p)
  }

  /** The variable secret is there, or it will be created from the same credentials. */
  predicate SameVariables(s: State, n: string, o: Oracle, p: Oracle) {
    VariableSecret(n) in s.secrets || o.credentials == p.credentials
  }

  /** The marked Configuration as the reconcile of its request finds it. */
  lemma SettledStart(s: State, n: string, o: Oracle)
    requires Settled(s, n) && ConfigurationRequest(n) in s.ready
    ensures var s0 := Taken(s, ConfigurationRequest(n)); var c := Indexed(s, n).value;
      && c.name == n && n in s.configurations
      && BeingDeleted(s0, n) && Indexed(s0, n) == Indexed(s, n)
      && DeletableBefore(s, c, o).AfterDestroy? && DeletableBefore(s0, c, o) == DeletableBefore(s, c, o)
      && JobWillRun(s0, c, o) && !ConnectionWillBeThere(s0, c, o)
      && EnvironmentDiffers(s0, c, o) == EnvironmentDiffers(s, c, o)
  {
    var s0 := Taken(s, ConfigurationRequest(n));
    var c := Indexed(s, n).value;
    MarkedIsBeingDeleted(s, n);
    IndexedName(s0, n);
    SameDecisions(s, s0, c, o);
    hide Inv, BeingDeleted, StatusOverwritten, EnvironmentDiffers, StateOutputs, ConnectionSecret, BackendNamespace,
      WellFormed, GetProviderNamespacedName;
    assert StateOutputs(s0, BackendNamespace(s.environment), n) == StateOutputs(s, BackendNamespace(s.environment), n) by {
      SameSecretsOutputs(s, s0, BackendNamespace(s.environment), n);
    }
  }

  lemma SameSecretsOutputs(s: State, t: State, backend: string, n: string)
    requires t.secrets == s.secrets
    ensures StateOutputs(t, backend, n) == StateOutputs(s, backend, n)
  {
    hide FileOutputs;
  }

  // ----- an attempt that fails -----

  /** The secrets after a failing attempt: at most the variable secret was created. */
  ghost predicate SecretsAfter(s: State, t: State, n: string, c: Configuration, o: Oracle) {
    && t.secrets - {VariableSecret(n)} == s.secrets - {VariableSecret(n)}
    && s.secrets.Keys <= t.secrets.Keys
    && (VariableSecret(n) in s.secrets ==> t.secrets == s.secrets)
    && (VariableSecret(n) !in s.secrets && VariableSecret(n) in t.secrets ==>
          && Passes(s, c, o)
          && t.secrets[VariableSecret(n)] ==
               Secret(map[], AsSecretData(PrepareVariables(c.spec.variable, o.credentials.values).value)))
  }

  lemma FailedJobSecrets(s: State, c: Configuration, meta: Meta, o: Oracle)
    requires JobRuns(s, c) && !(s.configMap.Some? && o.terraform)
    ensures var t := ReconcileDestroy(s, c, meta, o).0;
      t.secrets == s.secrets && t.configMap == s.configMap && t.environment == s.environment
  {
    hide JobOf, IsDeletable, UpdateAvailable, CleanUp;
  }

  lemma PreCheckSecretsAfter(s: State, c: Configuration, o: Oracle)
    requires WellFormed(s) && Indexed(s, c.name) == Some(c)
    ensures SecretsAfter(s, PreCheck(s, c, o).0, c.name, c, o)
  {
    PreCheckSecrets(s, c, o);
    PreCheckOutcome(s, c, o);
    if Passes(s, c, o) && VariableSecret(c.name) !in s.secrets { VariableSecretCreated(s, c, o); }
    hide PreCheck, WellFormed, Preparable, Indexed, StatusSays, StatusKept, AsSecretData, PrepareVariables;
    SameWithout(s.secrets, PreCheck(s, c, o).0.secrets, VariableSecret(c.name));
  }

  lemma SameWithout(a: map<Ref, Secret>, b: map<Ref, Secret>, ref: Ref)
    ensures a == b ==> a - {ref} == b - {ref}
  {
  }

  /** The reconcile of a failing attempt, from the state the handler has taken the request in. */
  lemma FailingReconcile(s: State, n: string, o: Oracle)
    requires BeingDeleted(s, n) && n in s.configurations && JobWillFail(s, Indexed(s, n).value, o)
    ensures var (t, out) := Reconcile(s, n, o); var c := Indexed(s, n).value;
      && out == Done(REQUEUE, true)
      && Keeps(s, t, n) && WellFormed(t) && t.environment == s.environment
      && SecretsAfter(s, t, n, c, o)
      && (s.configMap.Some? ==> t.configMap.Some?)
  {
    var c := Indexed(s, n).value;
    IndexedName(s, n);
    DestroyStartKeeps(s, n, o);
    JobKnown(s, n, o);
    DestroyStartKnown(s, n, o);
    PreCheckSecretsAfter(s, c, o);
    var (s1, c1, meta) := DestroyStart(s, n, o);
    assert SecretsAfter(s, s1, n, c, o);
    hide DestroyStart, Reconcile, PreCheck, BeingDeleted, Passes, JobWillFail, JobWillRun, EnvironmentDiffers, IsDeletable,
      DeletableBefore, WellFormed, Alike, PrepareVariables, AsSecretData, JobOf;
    TerraformDestroyKeeps(s1, c1, meta, o);
    FailedJobSecrets(s1, c1, meta, o);
    hide TerraformDestroy;
    var s2 := TerraformDestroy(s1, c1, meta, o).0;
    KeepsWellFormed(s1, s2, n);
    KeepsTransitive(s, s1, s2, n);
    hide Keeps, SecretsAfter;
  }

  lemma SettledRecordKept(s: State, t: State, n: string, c: Configuration, d: Configuration, o: Oracle)
    requires SettledRecord(s, n, c) && Grows(c, d) && OthersKept(s, t, n) && t.environment == s.environment
    requires SecretsAfter(s, t, n, c, o)
    ensures SettledRecord(t, n, d)
  {
    AlikeInput(c.spec, d.spec);
    assert |DestroyJobName(n)| > |n|;
    OtherLookups(s, t, n, DestroyJobName(n));
    SameStateOutputs(s, t, BackendNamespace(s.environment), n);
    forall ref | ref in t.secrets && ref != VariableSecret(n) ensures ref in s.secrets {
      assert ref in t.secrets - {VariableSecret(n)};
    }
    hide Alike, StateOutputs, ConnectionSecret, GetProviderNamespacedName, BackendNamespace, Passes, PrepareVariables;
  }

  /** Answers that were favourable stay so. */
  lemma FavourableKept(s: State, t: State, n: string, c: Configuration, d: Configuration, o: Oracle, p: Oracle)
    requires c.name == n == d.name && n in s.configurations && Alike(c.spec, d.spec)
    requires t.providers == s.providers && SecretsAfter(s, t, n, c, o) && SameVariables(s, n, o, p)
    requires !EnvironmentDiffers(s, c, p)
    ensures !EnvironmentDiffers(t, d, p)
  {
    AlikeInput(c.spec, d.spec);
    if VariableSecret(n) !in s.secrets && EnvironmentDiffers(t, d, p) {
      CreatedFits(s, t, n, c, d, o, p);
    }
    hide PrepareVariables, EnvChanged, Alike, GetProviderNamespacedName, Passes, AsSecretData;
  }

  lemma CreatedFits(s: State, t: State, n: string, c: Configuration, d: Configuration, o: Oracle, p: Oracle)
    requires c.name == n == d.name && c.spec.variable == d.spec.variable
    requires SecretsAfter(s, t, n, c, o) && VariableSecret(n) !in s.secrets && o.credentials == p.credentials
    ensures !EnvironmentDiffers(t, d, p)
  {
    hide PrepareVariables, EnvChanged, GetProviderNamespacedName, Preparable, AsSecretData;
    if EnvironmentDiffers(t, d, p) {
      FreshSecretRecordsEnvironment(PrepareVariables(c.spec.variable, o.credentials.values).value);
      assert false;
    }
  }

  lemma SettledFails(s: State, n: string, o: Oracle)
    requires Settled(s, n) && ConfigurationRequest(n) in s.ready && !o.terraform
    ensures var s0 := Taken(s, ConfigurationRequest(n)); var c := Indexed(s, n).value;
      && c.name == n && n in s.configurations && BeingDeleted(s0, n) && Indexed(s0, n) == Indexed(s, n)
      && JobWillFail(s0, c, o)
  {
    hide BeingDeleted, DeletableBefore, EnvironmentDiffers, Indexed, Inv, ConnectionWillBeThere;
    SettledStart(s, n, o);
  }

  /** An attempt whose destroy fails is retried, and leaves everything as settled as it was. */
  lemma FailingAttempt(s: State, n: string, o: Oracle, p: Oracle)
    requires Settled(s, n) && ConfigurationRequest(n) in s.ready
    requires !o.terraform && Fits(s, n, p) && SameVariables(s, n, o, p)
    ensures HandleRequest(s, ConfigurationRequest(n), o).Next?
    ensures var t := HandleRequest(s, ConfigurationRequest(n), o).state;
      && ConfigurationRequest(n) in t.delayed && Settled(t, n) && Fits(t, n, p)
      && (VariableSecret(n) in s.secrets ==> VariableSecret(n) in t.secrets)
  {
    hide Reconcile, AttemptFails, BeingDeleted, DeletableBefore, JobWillRun, JobWillFail, EnvironmentDiffers, WellFormed,
      Alike, SecretsAfter, Indexed, Inv, NoConnection;
    var r := ConfigurationRequest(n);
    var s0 := Taken(s, r);
    SettledFails(s, n, o);
    FailingReconcile(s0, n, o);
    Attempt(s, n, o);
    StepKeepsInv(s, Handle(r, o));
    FailedAttemptKeeps(s, s0, Reconcile(s0, n, o).0, HandleRequest(s, r, o).state, n, o, p);
  }

  lemma FailedAttemptKeeps(s: State, s0: State, t0: State, u: State, n: string, o: Oracle, p: Oracle)
    requires s0 == Taken(s, ConfigurationRequest(n)) && n in s.configurations && Indexed(s, n).Some? && Indexed(s, n).value.name == n
    requires SettledRecord(s, n, Indexed(s, n).value) && Fits(s, n, p) && SameVariables(s, n, o, p)
    requires Keeps(s0, t0, n) && t0.environment == s0.environment
    requires SecretsAfter(s0, t0, n, Indexed(s, n).value, o)
    requires u.configurations == t0.configurations && u.indexed == t0.indexed && u.providers == t0.providers
    requires u.secrets == t0.secrets && u.environment == t0.environment
    requires u.indexedProviders == t0.indexedProviders
    ensures Indexed(u, n).Some? && (n in s.indexed ==> n in u.indexed)
    ensures SettledRecord(u, n, Indexed(u, n).value) && Fits(u, n, p)
    ensures u.providers == s.providers && u.indexedProviders == s.indexedProviders
    ensures VariableSecret(n) in s.secrets ==> VariableSecret(n) in u.secrets
  {
    var c := Indexed(s, n).value;
    assert Indexed(s0, n) == Indexed(s, n) && Indexed(u, n) == Indexed(t0, n);
    SameDecisions(s, s0, c, o);
    SameDecisions(s, s0, c, p);
    assert Keeps(s0, t0, n) && Indexed(t0, n).Some? && Grows(c, Indexed(t0, n).value) && OthersKept(s, u, n);
    var d := Indexed(u, n).value;
    hide Indexed, Keeps;
    assert SecretsAfter(s, u, n, c, o) by { hide PrepareVariables, AsSecretData, Passes; }
    SettledRecordKept(s, u, n, c, d, o);
    FavourableKept(s, u, n, c, d, o, p);
    AlikeInput(c.spec, d.spec);
    hide SettledRecord, EnvironmentDiffers, Alike, Passes, DeletableBefore, OthersKept;
  }

  /** The attempt whose destroy succeeds. */
  lemma SucceedingAttempt(s: State, n: string, o: Oracle)
    requires Settled(s, n) && ConfigurationRequest(n) in s.ready
    requires o.terraform && Fits(s, n, o) && InputThere(s, Indexed(s, n).value, o)
    ensures HandleRequest(s, ConfigurationRequest(n), o).Next?
    ensures Gone(HandleRequest(s, ConfigurationRequest(n), o).state, n)
  {
    var r := ConfigurationRequest(n);
    var s0 := Taken(s, r);
    SettledStart(s, n, o);
    hide DeletableBefore, EnvironmentDiffers, Reconcile, Inv, ConnectionWillBeThere, BeingDeleted, Indexed;
    DestroyOutcome(s0, n, o);
    Attempt(s, n, o);
  }

  // ----- what happens in between -----

  /** The secrets the deletion of n depends on. */
  function Watched(s: State, n: string): set<Ref>
    requires Indexed(s, n).Some? && GetProviderNamespacedName(Indexed(s, n).value.spec) in s.providers
  {
    var spec := Indexed(s, n).value.spec;
    DerivedSecrets(s, n) + Connection(spec) + {s.providers[GetProviderNamespacedName(spec)].secretRef}
  }

  /** The three secrets a reconcile of m may touch are not among them. */
  ghost predicate TouchesOthers(s: State, m: string, n: string)
    requires Indexed(s, n).Some? && GetProviderNamespacedName(Indexed(s, n).value.spec) in s.providers
  {
    Indexed(s, m).Some? ==> (DerivedSecrets(s, m) + Connection(Indexed(s, m).value.spec)) !! Watched(s, n)
  }

  /** An event that does not concern the deletion of n: any timer; a reconcile of another Configuration that
      does not share a secret with it, is not named like its destroy job, and has no credentials that move the
      backend namespace; a reconcile of any provider, its own if that finds credentials; REST calls on anything
      but its record, its provider and its secrets, and that create nothing named like its destroy job. */
  ghost predicate Quiet(s: State, e: Event, n: string)
    requires Indexed(s, n).Some? && GetProviderNamespacedName(Indexed(s, n).value.spec) in s.providers
  {
    var ref := GetProviderNamespacedName(Indexed(s, n).value.spec);
    match e
    case Fire(_) => true
    case Handle(ConfigurationRequest(m), o) =>
      && m != n && m != DestroyJobName(n) && TouchesOthers(s, m, n)
      && (o.credentials.Credentials? ==>
            NamespaceAfter(s.environment, o.credentials.values) == BackendNamespace(s.environment))
    case Handle(ProviderRequest(q), o) =>
      q == ref ==> !GetProviderCredentials(s, s.providers[ref], o.credentials).CredentialError?
    case CreateConfiguration(name, _, _) => name != n && name != DestroyJobName(n)
    case UpdateConfiguration(_, name, _, _) => name != n
    case DeleteConfiguration(url) => url != n
    case CreateProvider(q, _) => q != ref
    case UpdateProvider(_, q, _) => q != ref
    case DeleteProvider(q) => q != ref
    case CreateSecret(k, _) => k !in Watched(s, n)
    case UpdateSecret(_, k, _) => k !in Watched(s, n)
    case DeleteSecret(k) => k !in Watched(s, n)
  }

  /** All that the deletion of n depends on is the same in t. */
  ghost predicate SameView(s: State, t: State, n: string)
    requires Indexed(s, n).Some? && GetProviderNamespacedName(Indexed(s, n).value.spec) in s.providers
  {
    var ref := GetProviderNamespacedName(Indexed(s, n).value.spec);
    && Indexed(t, n) == Indexed(s, n) && (n in t.configurations <==> n in s.configurations)
    && (n in s.indexed ==> n in t.indexed)
    && (Shadowed(t, n) <==> Shadowed(s, n))
    && ref in t.providers && t.providers[ref].(state := s.providers[ref].state) == s.providers[ref]
    && (s.providers[ref].state != ProviderIsNotReady ==> t.providers[ref].state != ProviderIsNotReady)
    && (forall k <- Watched(s, n) :: Lookup(t.secrets, k) == Lookup(s.secrets, k))
    && BackendNamespace(t.environment) == BackendNamespace(s.environment)
  }

  lemma SameViewSettled(s: State, t: State, n: string)
    requires Indexed(s, n).Some? && SettledRecord(s, n, Indexed(s, n).value) && SameView(s, t, n)
    ensures SettledRecord(t, n, Indexed(t, n).value)
  {
    hide Indexed, BackendNamespace, GetProviderNamespacedName, FileOutputs, VariableSecret, Shadowed;
    var backend := BackendNamespace(s.environment);
    assert Lookup(t.secrets, BackendSecret(backend, n)) == Lookup(s.secrets, BackendSecret(backend, n));
    hide BackendSecret;
    assert StateOutputs(t, backend, n) == StateOutputs(s, backend, n);
    hide StateOutputs;
    var connection := ConnectionSecret(Indexed(s, n).value.spec);
    assert connection.Some? ==> Lookup(t.secrets, connection.value) == Lookup(s.secrets, connection.value);
    hide ConnectionSecret;
  }

  lemma SameViewFits(s: State, t: State, n: string, p: Oracle)
    requires Fits(s, n, p) && GetProviderNamespacedName(Indexed(s, n).value.spec) in s.providers && SameView(s, t, n)
    requires Indexed(s, n).value.name == n
    ensures Fits(t, n, p)
  {
    hide Indexed, BackendNamespace, GetProviderNamespacedName, BackendSecret, Shadowed, PrepareVariables, EnvChanged, Connection,
      ValidConfigurationObject;
    var provider := s.providers[GetProviderNamespacedName(Indexed(s, n).value.spec)];
    assert Lookup(t.secrets, provider.secretRef) == Lookup(s.secrets, provider.secretRef);
    assert Lookup(t.secrets, VariableSecret(n)) == Lookup(s.secrets, VariableSecret(n));
    hide VariableSecret;
  }

  lemma OtherReconcileQuiet(s: State, m: string, o: Oracle, n: string)
    requires Inv(s) && Indexed(s, n).Some? && GetProviderNamespacedName(Indexed(s, n).value.spec) in s.providers
    requires ConfigurationRequest(m) in s.ready && HandleRequest(s, ConfigurationRequest(m), o).Next?
    requires Quiet(s, Handle(ConfigurationRequest(m), o), n)
    ensures var t := HandleRequest(s, ConfigurationRequest(m), o).state;
      SameView(s, t, n) && (ProvidersAgree(s) ==> ProvidersAgree(t))
  {
    hide Inv, RecordInv, WellFormed, Reconcile, LogStep, Alike, BackendNamespace, GetProviderNamespacedName, NamespaceAfter,
      Connection, Live;
    TakenStart(s, m);
    var s0 := Taken(s, ConfigurationRequest(m));
    var t0 := Reconcile(s0, m, o).0;
    var gain := ReconcileEffect(s0, m, o);
    ReconcileApart(s0, m, o);
    assert OthersKept(s0, t0, m);
    assert Indexed(s0, m) == Indexed(s, m) && Indexed(s0, n) == Indexed(s, n);
    OtherLookups(s0, t0, m, n);
    OtherLookups(s0, t0, m, DestroyJobName(n));
    hide OthersKept;
    forall k <- Watched(s, n) ensures Lookup(t0.secrets, k) == Lookup(s.secrets, k) {
      ApartLookup(s0, t0, DerivedSecrets(s, m), Connection(Indexed(s, m).value.spec), k);
    }
    hide DerivedSecrets, Watched, Apart;
    assert Indexed(HandleRequest(s, ConfigurationRequest(m), o).state, n) == Indexed(t0, n);
    hide Indexed;
  }

  lemma ApartLookup(s: State, t: State, derived: set<Ref>, connection: set<Ref>, k: Ref)
    requires Apart(s, t, derived, connection) && k !in derived + connection
    ensures Lookup(t.secrets, k) == Lookup(s.secrets, k)
  {
    assert k in s.secrets <==> k in s.secrets - (derived + connection);
    assert k in t.secrets <==> k in t.secrets - (derived + connection);
  }

  lemma ProviderReconcileQuiet(s: State, q: Ref, o: Oracle, n: string)
    requires Indexed(s, n).Some? && GetProviderNamespacedName(Indexed(s, n).value.spec) in s.providers && ProvidersAgree(s)
    requires HandleRequest(s, ProviderRequest(q), o).Next? && Quiet(s, Handle(ProviderRequest(q), o), n)
    ensures var t := HandleRequest(s, ProviderRequest(q), o).state; SameView(s, t, n) && ProvidersAgree(t)
  {
    hide BackendNamespace, GetProviderNamespacedName, Watched, GetProviderCredentials, ProvidersAgree;
    ProviderReconcileAgrees(s, q, o);
    ProviderIndexed(s, q);
    if q in s.indexedProviders { SameCredentials(s, Taken(s, ProviderRequest(q)), s.indexedProviders[q], o.credentials); }
  }

  lemma ProviderIndexed(s: State, q: Ref)
    requires ProvidersAgree(s)
    ensures q in s.providers ==> q in s.indexedProviders && s.indexedProviders[q] == s.providers[q]
  {
  }

  lemma SameCredentials(s: State, t: State, p: Provider, decoded: Credentials)
    requires t.secrets == s.secrets
    ensures GetProviderCredentials(t, p, decoded) == GetProviderCredentials(s, p, decoded)
  {
  }

  lemma RestQuiet(s: State, e: Event, n: string)
    requires WellFormed(s) && n in s.indexed && !Shadowed(s, n)
    requires Indexed(s, n).Some? && GetProviderNamespacedName(Indexed(s, n).value.spec) in s.providers && ProvidersAgree(s)
    requires !e.Handle? && !e.Fire? && Quiet(s, e, n)
    ensures SameView(s, Rest(s, e), n) && ProvidersAgree(Rest(s, e))
  {
    hide BackendNamespace, GetProviderNamespacedName, Watched, Rest, WellFormed, Shadowed, ProvidersAgree;
    RestLeavesName(s, e, n);
    RestKeepsUnshadowed(s, e, n);
    assert Indexed(Rest(s, e), n) == Indexed(s, n);
    hide Indexed;
    if e.CreateConfiguration? || e.UpdateConfiguration? || e.DeleteConfiguration? {
      RecordCallsAlone(s, e);
      SameProviders(s, Rest(s, e));
    } else {
      OtherCalls(s, e, n);
    }
  }

  /** A REST call on a Configuration leaves everything else alone. */
  lemma RecordCallsAlone(s: State, e: Event)
    requires e.CreateConfiguration? || e.UpdateConfiguration? || e.DeleteConfiguration?
    ensures var t := Rest(s, e);
      && t.providers == s.providers && t.indexedProviders == s.indexedProviders
      && t.secrets == s.secrets && t.environment == s.environment
  {
    hide WriteConfiguration, CacheDelete;
    match e
    case CreateConfiguration(name, spec, status) => WriteAlone(s, Body(name, spec, status));
    case UpdateConfiguration(_, name, spec, status) => WriteAlone(s, Body(name, spec, status));
    case DeleteConfiguration(url) => if url in s.configurations { DeleteAlone(s, s.configurations[url]); }
  }

  lemma WriteAlone(s: State, c: Configuration)
    ensures var t := WriteConfiguration(s, c);
      && t.providers == s.providers && t.indexedProviders == s.indexedProviders
      && t.secrets == s.secrets && t.environment == s.environment
  {
  }

  lemma DeleteAlone(s: State, c: Configuration)
    ensures var t := CacheDelete(s, c);
      && t.providers == s.providers && t.indexedProviders == s.indexedProviders
      && t.secrets == s.secrets && t.environment == s.environment
  {
    hide Detached;
  }

  lemma SameProviders(s: State, t: State)
    requires t.providers == s.providers && t.indexedProviders == s.indexedProviders && ProvidersAgree(s)
    ensures ProvidersAgree(t)
  {
  }

  /** A quiet REST call on a provider or a secret. */
  lemma OtherCalls(s: State, e: Event, n: string)
    requires Indexed(s, n).Some? && GetProviderNamespacedName(Indexed(s, n).value.spec) in s.providers && ProvidersAgree(s)
    requires !e.Handle? && !e.Fire? && !e.CreateConfiguration? && !e.UpdateConfiguration? && !e.DeleteConfiguration?
    requires Quiet(s, e, n)
    ensures var t := Rest(s, e); var ref := GetProviderNamespacedName(Indexed(s, n).value.spec);
      && ref in t.providers && t.providers[ref] == s.providers[ref] && t.environment == s.environment
      && (forall k <- Watched(s, n) :: Lookup(t.secrets, k) == Lookup(s.secrets, k)) && ProvidersAgree(t)
  {
    hide GetProviderNamespacedName, Watched, Indexed, TouchesOthers, WriteConfiguration, CacheDelete, ProvidersAgree;
    OtherCallsAgree(s, e);
    assert e.UpdateProvider? && !(e.at in s.providers && e.at == e.ref) ==> Rest(s, e) == s;
  }

  lemma RestKeepsUnshadowed(s: State, e: Event, n: string)
    requires WellFormed(s) && !Shadowed(s, n) && !e.Handle? && !e.Fire?
    requires e.CreateConfiguration? ==> e.name != DestroyJobName(n)
    ensures !Shadowed(Rest(s, e), n)
  {
    hide Detached, DestroyJobName;
  }

  /** A quiet event changes nothing the deletion depends on. */
  lemma QuietKeepsSettled(s: State, e: Event, n: string, p: Oracle)
    requires Settled(s, n) && Fits(s, n, p) && Enabled(s, e) && Step(s, e).Next? && Quiet(s, e, n)
    ensures Settled(Step(s, e).state, n) && Fits(Step(s, e).state, n, p)
  {
    hide Inv, HandleRequest, Rest, SameView, EnvironmentDiffers, GetProviderNamespacedName, WellFormed;
    var t := Step(s, e).state;
    WellFormedOf(s);
    IndexedName(s, n);
    assert SameView(s, t, n) && ProvidersAgree(t) by {
      match e
      case Handle(ConfigurationRequest(m), o) => OtherReconcileQuiet(s, m, o, n);
      case Handle(ProviderRequest(q), o) => ProviderReconcileQuiet(s, q, o, n);
      case Fire(_) => FiredView(s, t, n);
      case _ => RestQuiet(s, e, n);
    }
    hide Quiet, Shadowed, Watched, NoConnection, ProvidersAgree;
    StepKeepsInv(s, e);
    StepKeepsIndexed(s, e, n);
    StepKeepsDoomed(s, e, n);
    SameViewSettled(s, t, n);
    SameViewFits(s, t, n, p);
    SameViewIndexed(s, t, n);
  }

  lemma SameViewIndexed(s: State, t: State, n: string)
    requires Indexed(s, n).Some? && GetProviderNamespacedName(Indexed(s, n).value.spec) in s.providers && SameView(s, t, n)
    ensures Indexed(t, n) == Indexed(s, n)
  {
    hide Indexed, GetProviderNamespacedName, Watched, Shadowed, BackendNamespace;
  }

  lemma FiredView(s: State, t: State, n: string)
    requires Indexed(s, n).Some? && GetProviderNamespacedName(Indexed(s, n).value.spec) in s.providers
    requires t.(ready := s.ready, delayed := s.delayed) == s
    ensures SameView(s, t, n) && (ProvidersAgree(s) ==> ProvidersAgree(t))
  {
    hide GetProviderNamespacedName, Watched, BackendNamespace;
  }

  // ----- the whole run -----

  /** Every attempt of the run has a destroy that fails, and everything else is quiet. */
  ghost predicate Undisturbed(s: State, run: seq<Event>, n: string, p: Oracle)
    decreases |run|
  {
    run == [] ||
    (var e := run[0];
     && Enabled(s, e) && Indexed(s, n).Some? && GetProviderNamespacedName(Indexed(s, n).value.spec) in s.providers
     && (if IsAttempt(e, n) then !e.oracle.terraform && SameVariables(s, n, e.oracle, p)
         else Quiet(s, e, n) && Step(s, e).Next?)
     && (Step(s, e).Next? ==> Undisturbed(Step(s, e).state, run[1..], n, p)))
  }

  /** One more attempt, after the timer when it is still waiting for it. */
  function FinalAttempt(s: State, n: string, p: Oracle): seq<Event> {
    var r := ConfigurationRequest(n);
    (if r in s.ready then [] else [Fire(r)]) + [Handle(r, p)]
  }

  lemma FinalAttemptEnds(s: State, n: string, p: Oracle)
    requires Settled(s, n) && Fits(s, n, p) && p.terraform && InputThere(s, Indexed(s, n).value, p)
    ensures Runs(s, FinalAttempt(s, n, p)) && Gone(End(s, FinalAttempt(s, n, p)), n)
  {
    hide Inv, SettledRecord, EnvironmentDiffers, InputThere, HandleRequest, Runs, End, Indexed, ProvidersAgree;
    var r := ConfigurationRequest(n);
    if r in s.ready {
      SucceedingAttempt(s, n, p);
      RunsOne(s, Handle(r, p));
      assert FinalAttempt(s, n, p) == [Handle(r, p)];
    } else {
      var t := Step(s, Fire(r)).state;
      assert Quiet(s, Fire(r), n) by { SettledProvider(s, n); }
      QuietKeepsSettled(s, Fire(r), n, p);
      assert Indexed(t, n) == Indexed(s, n) && InputThere(t, Indexed(t, n).value, p) by { FiredInput(s, t, n, p); }
      SucceedingAttempt(t, n, p);
      RunsOne(s, Fire(r));
      RunsOne(t, Handle(r, p));
      RunsOn(s, [Fire(r)], [Handle(r, p)]);
    }
  }

  lemma SettledProvider(s: State, n: string)
    requires Settled(s, n)
    ensures Indexed(s, n).Some? && GetProviderNamespacedName(Indexed(s, n).value.spec) in s.providers
  {
    hide Inv, NoConnection, Shadowed;
  }

  lemma FiredInput(s: State, t: State, n: string, p: Oracle)
    requires Indexed(s, n).Some? && InputThere(s, Indexed(s, n).value, p)
    requires t.(ready := s.ready, delayed := s.delayed) == s
    ensures Indexed(t, n) == Indexed(s, n) && InputThere(t, Indexed(t, n).value, p)
  {
    hide ValidConfigurationObject;
  }

  /** Take any run in which the destroys of n fail, interleaved with quiet events, as many of each as there
      may be. None of its attempts crashes, and at its end one more attempt, whose destroy succeeds, is
      possible and takes the record away with nothing left scheduled, if only there is an input for it. */
  lemma {:induction false} RetriesSucceed(s: State, run: seq<Event>, n: string, p: Oracle)
    requires Settled(s, n) && Fits(s, n, p) && p.terraform && Undisturbed(s, run, n, p)
    ensures Runs(s, run)
    ensures var t := End(s, run);
      && Indexed(t, n).Some?
      && (InputThere(t, Indexed(t, n).value, p) ==>
            Runs(t, FinalAttempt(t, n, p)) && Gone(End(t, FinalAttempt(t, n, p)), n))
    decreases |run|
  {
    hide Inv, SettledRecord, EnvironmentDiffers, InputThere, HandleRequest, Rest, Doomed, Quiet, FinalAttempt, ProvidersAgree;
    if run == [] {
      if InputThere(s, Indexed(s, n).value, p) { FinalAttemptEnds(s, n, p); }
    } else {
      var e := run[0];
      if IsAttempt(e, n) {
        FailingAttempt(s, n, e.oracle, p);
      } else {
        QuietKeepsSettled(s, e, n, p);
      }
      hide Settled, Fits, Indexed;
      RetriesSucceed(Step(s, e).state, run[1..], n, p);
    }
  }

  // ----- retries with nothing in between -----

  /** The attempts with these answers, one after the other, each retry's timer having fired. */
  function Rounds(n: string, os: seq<Oracle>): seq<Event> {
    if os == [] then [] else [Handle(ConfigurationRequest(n), os[0]), Fire(ConfigurationRequest(n))] + Rounds(n, os[1..])
  }

  /** Any number of failing attempts, one after the other, is such a run. */
  lemma {:induction false} RoundsAreUndisturbed(s: State, n: string, os: seq<Oracle>, p: Oracle)
    requires Settled(s, n) && Fits(s, n, p) && ConfigurationRequest(n) in s.ready
    requires forall o <- os :: !o.terraform && SameVariables(s, n, o, p)
    ensures Undisturbed(s, Rounds(n, os), n, p)
    decreases |os|
  {
    hide Inv, SettledRecord, EnvironmentDiffers, HandleRequest, Doomed, ProvidersAgree, Indexed;
    if os != [] {
      var r := ConfigurationRequest(n);
      var run := Rounds(n, os);
      assert os[0] in os && run[0] == Handle(r, os[0]);
      assert run[1..][0] == Fire(r) && run[1..][1..] == Rounds(n, os[1..]);
      SettledProvider(s, n);
      FailingAttempt(s, n, os[0], p);
      var t := HandleRequest(s, r, os[0]).state;
      SettledProvider(t, n);
      QuietKeepsSettled(t, Fire(r), n, p);
      RoundsAreUndisturbed(Step(t, Fire(r)).state, n, os[1..], p);
      hide Settled, Fits;
      assert Undisturbed(t, run[1..], n, p);
    }
  }

  // ----- the provider indexer -----

  lemma ProviderPut(s: State, t: State, q: Ref, p: Provider)
    requires ProvidersAgree(s)
    requires t.providers == s.providers[q := p] && t.indexedProviders == s.indexedProviders[q := p]
    ensures ProvidersAgree(t)
  {
  }

  lemma ProviderDropped(s: State, t: State, q: Ref)
    requires ProvidersAgree(s) && t.providers == s.providers - {q} && t.indexedProviders == s.indexedProviders
    ensures ProvidersAgree(t)
  {
  }

  lemma ProviderReconcilePuts(s: State, q: Ref, o: Oracle)
    ensures var t := ReconcileProvider(s, q, o).0;
      if q in s.indexedProviders then
        && q in t.providers && t.providers == s.providers[q := t.providers[q]]
        && t.indexedProviders == s.indexedProviders[q := t.providers[q]]
      else t == s
  {
    hide GetProviderCredentials;
  }

  lemma ProviderReconcileAgrees(s: State, q: Ref, o: Oracle)
    requires ProvidersAgree(s) && HandleRequest(s, ProviderRequest(q), o).Next?
    ensures ProvidersAgree(HandleRequest(s, ProviderRequest(q), o).state)
  {
    hide ReconcileProvider, ProvidersAgree;
    var s0 := Taken(s, ProviderRequest(q));
    var t := HandleRequest(s, ProviderRequest(q), o).state;
    ProviderReconcilePuts(s0, q, o);
    if q in s.indexedProviders {
      ProviderPut(s, t, q, t.providers[q]);
    } else {
      SameProviders(s, t);
    }
  }

  /** A REST call on a provider or a secret. */
  lemma OtherCallsAgree(s: State, e: Event)
    requires !e.CreateConfiguration? && !e.UpdateConfiguration? && !e.DeleteConfiguration? && ProvidersAgree(s)
    ensures ProvidersAgree(Rest(s, e))
  {
    hide ProvidersAgree, WriteConfiguration, CacheDelete;
    match e
    case CreateProvider(q, p) => ProviderPut(s, Rest(s, e), q, p);
    case UpdateProvider(at, q, p) =>
      if at in s.providers && at == q { ProviderPut(s, Rest(s, e), q, p); }
    case DeleteProvider(q) => ProviderDropped(s, Rest(s, e), q);
    case _ => SameProviders(s, Rest(s, e));
  }

  lemma RestAgrees(s: State, e: Event)
    requires ProvidersAgree(s)
    ensures ProvidersAgree(Rest(s, e))
  {
    hide Rest, ProvidersAgree;
    if e.CreateConfiguration? || e.UpdateConfiguration? || e.DeleteConfiguration? {
      RecordCallsAlone(s, e);
      SameProviders(s, Rest(s, e));
    } else {
      OtherCallsAgree(s, e);
    }
  }

  lemma StepKeepsProviders(s: State, e: Event)
    requires Inv(s) && ProvidersAgree(s) && Enabled(s, e) && Step(s, e).Next?
    ensures ProvidersAgree(Step(s, e).state)
  {
    hide Inv, Reconcile, ReconcileProvider, Rest, RecordInv, WellFormed, LogStep, Alike, ProvidersAgree;
    match e
    case Handle(ConfigurationRequest(m), o) =>
      TakenStart(s, m);
      var gain := ReconcileEffect(Taken(s, ConfigurationRequest(m)), m, o);
      SameProviders(s, Step(s, e).state);
    case Handle(ProviderRequest(q), o) => ProviderReconcileAgrees(s, q, o);
    case Fire(_) => SameProviders(s, Step(s, e).state);
    case _ => RestAgrees(s, e);
  }

  lemma {:induction false} RunKeepsProviders(s: State, run: seq<Event>)
    requires Inv(s) && ProvidersAgree(s) && Runs(s, run)
    ensures ProvidersAgree(End(s, run))
    decreases |run|
  {
    if run != [] {
      StepKeepsProviders(s, run[0]);
      StepKeepsInv(s, run[0]);
      hide Inv, Step, ProvidersAgree;
      RunKeepsProviders(Step(s, run[0]).state, run[1..]);
    }
  }

  /** In every reachable state the provider indexer holds what the store holds. */
  lemma ProvidersAlwaysAgree(environment: map<string, string>, run: seq<Event>)
    requires Runs(Initial(environment), run)
    ensures ProvidersAgree(End(Initial(environment), run))
  {
    InitialInv(environment);
    hide Inv;
    RunKeepsProviders(Initial(environment), run);
  }
}
