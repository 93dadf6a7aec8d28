/** When a Configuration passes the pre-check and is applied, and what its status says otherwise. */
module Checks {
  import opened Objects
  import opened Render
  import opened Variables
  import opened Lifecycle
  import opened Frames
  import opened Safety
  import opened History
  import opened Secrets

  /** The variables of the Configuration and the credentials of its provider can be put together. */
  ghost predicate Preparable(s: State, spec: Spec, o: Oracle) {
    && GetProviderNamespacedName(spec) in s.providers
    && (var found := GetProviderCredentials(s, s.providers[GetProviderNamespacedName(spec)], o.credentials);
        found.Credentials? && PrepareVariables(spec.variable, found.values).Some?)
  }

  /** The state of the apply status after preCheck, which had no outputs to report. */
  ghost predicate StatusSays(s: State, t: State, n: string, state: ConfigurationState) {
    n in s.configurations ==> n in t.configurations && t.configurations[n].status.apply == ApplyStatus(state, map[])
  }

  ghost predicate StatusKept(s: State, t: State, n: string) {
    n in s.configurations ==> n in t.configurations && t.configurations[n].status == s.configurations[n].status
  }

  lemma CheckEnvironmentStatus(s: State, n: string, credentials: map<string, string>, variables: map<string, string>)
    ensures var (t, meta) := CheckEnvironment(s, n, credentials, variables);
      if meta.envChanged then StatusSays(s, t, n, ConfigurationReloading) else StatusKept(s, t, n)
  {
    hide EnvChanged, AsSecretData, BackendNamespace;
  }

  lemma SetRegionStatus(s: State, n: string, p: Provider)
    requires WellFormed(s)
    ensures var (t, region) := SetRegion(s, n, p);
      (region.Some? <==> n in s.configurations) && (n in t.configurations <==> n in s.configurations) && StatusKept(s, t, n)
  {
  }

  lemma CheckProviderOutcome(s: State, n: string, spec: Spec, o: Oracle)
    requires WellFormed(s)
    ensures var (t, meta, ok) := CheckProvider(s, n, spec, o);
      && (ok <==> n in s.configurations && Preparable(s, spec, o))
      && (if GetProviderNamespacedName(spec) !in s.providers then StatusSays(s, t, n, Authorizing)
          else if meta.envChanged then StatusSays(s, t, n, ConfigurationReloading)
          else StatusKept(s, t, n))
  {
    hide WellFormed, PrepareVariables, CheckEnvironment, SetRegion, BackendNamespace, GetProviderNamespacedName;
    var ref := GetProviderNamespacedName(spec);
    if ref in s.providers {
      var p := s.providers[ref];
      SetRegionStatus(s, n, p);
      SetRegionKeeps(s, n, p);
      hide Keeps;
      var s1 := SetRegion(s, n, p).0;
      assert GetProviderCredentials(s1, p, o.credentials) == GetProviderCredentials(s, p, o.credentials);
      hide GetProviderCredentials;
      var found := GetProviderCredentials(s, p, o.credentials);
      if found.Credentials? && PrepareVariables(spec.variable, found.values).Some? {
        CheckEnvironmentStatus(s1, n, found.values, PrepareVariables(spec.variable, found.values).value);
      }
    }
  }

  /** preCheck succeeds exactly when the quantities parse, the spec is valid, the record is in the store, its
      provider is there and gives credentials, and these and the variables can be put together. Otherwise
      the status tells an invalid spec and a missing provider apart; a success that found the environment
      changed says so. */
  lemma PreCheckOutcome(s: State, c: Configuration, o: Oracle)
    requires WellFormed(s) && Indexed(s, c.name) == Some(c)
    ensures var (t, meta, ok) := PreCheck(s, c, o);
      && (ok <==> o.quantities && ValidConfigurationObject(c.spec).Some? && c.name in s.configurations && Preparable(s, c.spec, o))
      && (if !o.quantities then t == s
          else if ValidConfigurationObject(c.spec).None? then StatusSays(s, t, c.name, ConfigurationStaticCheckFailed)
          else if GetProviderNamespacedName(c.spec) !in s.providers then StatusSays(s, t, c.name, Authorizing)
          else if meta.envChanged then StatusSays(s, t, c.name, ConfigurationReloading)
          else StatusKept(s, t, c.name))
  {
    hide CheckProvider, PrepareVariables, WellFormed, BackendNamespace;
    if o.quantities && ValidConfigurationObject(c.spec).Some? {
      hide PreCheck;
      var s1 := PreCheckUnfolds(s, c, o);
      assert s1.providers == s.providers;
      hide Keeps;
      CheckProviderOutcome(s1, c.name, WithBackend(c.spec), o);
    }
  }

  /** A reconcile that is not a deletion returns without error exactly when preCheck would succeed, terraform
      apply succeeds and its state file can be read; and it asks for a retry after a delay exactly when it
      got as far as terraform. */
  lemma ApplySucceedsExactlyWhen(s: State, n: string, o: Oracle)
    requires WellFormed(s) && RecordInv(s, n) && n in s.indexed && !Indexed(s, n).value.deleting
    ensures var spec := Indexed(s, n).value.spec;
      var checks := o.quantities && ValidConfigurationObject(spec).Some? && Preparable(s, spec, o);
      Reconcile(s, n, o).1 ==
        if !checks then Done(0, true) else if o.terraform && o.stateFile.Some? then Done(0, false) else Done(REQUEUE, true)
  {
    var c := Indexed(s, n).value;
    IndexedName(s, n);
    EnsureFinalizerEffect(s, c);
    EnsureFinalizerProviders(s, c);
    hide PreCheck, EnsureFinalizer, ReconcileApply, WellFormed, RecordInv, Alike, Keeps, Checked;
    var s1 := EnsureFinalizer(s, c);
    var c1 := Finalized(c);
    SamePreparable(s, s1, c.spec, o);
    hide Preparable;
    PreCheckOutcome(s1, c1, o);
    PreCheckStoresInput(s1, c1, o);
    PreCheckKeeps(s1, c1, o);
    var (s2, meta, ok) := PreCheck(s1, c1, o);
    if ok {
      KeepsWellFormed(s1, s2, n);
      ApplyReturns(s2, Current(s2, c1), meta, o);
    }
    hide InputData;
  }

  lemma SamePreparable(s: State, t: State, spec: Spec, o: Oracle)
    requires t.providers == s.providers && t.secrets == s.secrets
    ensures Preparable(t, spec, o) == Preparable(s, spec, o)
  {
    hide PrepareVariables;
  }

  lemma ApplyReturns(s: State, c: Configuration, meta: Meta, o: Oracle)
    requires WellFormed(s) && s.configMap.Some?
    ensures ReconcileApply(s, c, meta, o).1 == if o.terraform && o.stateFile.Some? then Done(0, false) else Done(REQUEUE, true)
  {
    hide TerraformApply, Keeps, WellFormed, JobOf;
    TerraformApplyKeeps(s, c, meta, o);
  }

  lemma EnsureFinalizerProviders(s: State, c: Configuration)
    requires Indexed(s, c.name) == Some(c)
    ensures EnsureFinalizer(s, c).providers == s.providers && EnsureFinalizer(s, c).secrets == s.secrets
  {
    EnsureFinalizerWrites(s, c);
    hide EnsureFinalizer;
  }

  // ---------------------------------------------------------------- what terraformDestroy will find

  /** preCheck overwrites the status of the indexer's object: it shares that object with the store, and
      either rejects its spec or finds its environment changed, without having replaced it before by a copy
      with a region. This matters when the provider is there. */
  ghost predicate StatusOverwritten(s: State, c: Configuration, o: Oracle) {
    && c.name in s.indexed && s.indexed[c.name].Same? && o.quantities
    && (ValidConfigurationObject(c.spec).None? || (c.spec.region != "" && EnvironmentDiffers(s, c, o)))
  }

  /** IsDeletable as terraformDestroy will find it, from the state before preCheck. A status that is
      overwritten is no longer one of the two IsDeletable looks for. */
  ghost function DeletableBefore(s: State, c: Configuration, o: Oracle): Deletable {
    var ref := GetProviderNamespacedName(c.spec);
    if ref in s.providers && s.providers[ref].state != ProviderIsNotReady && StatusOverwritten(s, c, o) then AfterDestroy
    else IsDeletable(s, c)
  }

  /** The destroy job will find a ConfigMap. */
  predicate InputThere(s: State, c: Configuration, o: Oracle) {
    s.configMap.Some? || (o.quantities && ValidConfigurationObject(c.spec).Some?)
  }

  /** preCheck will succeed. */
  ghost predicate Passes(s: State, c: Configuration, o: Oracle) {
    && o.quantities && ValidConfigurationObject(c.spec).Some?
    && c.name in s.configurations && Preparable(s, c.spec, o)
  }

  lemma CheckEnvironmentIndexed(s: State, n: string, credentials: map<string, string>, variables: map<string, string>)
    requires WellFormed(s) && n in s.indexed
    ensures var (t, meta) := CheckEnvironment(s, n, credentials, variables);
      && Indexed(t, n).Some? && Indexed(s, n).Some?
      && Indexed(t, n).value.status.apply.state ==
           if meta.envChanged && !IsOwn(s, n) then ConfigurationReloading else Indexed(s, n).value.status.apply.state
  {
    hide EnvChanged, AsSecretData, BackendNamespace, WellFormed, UpdateApplyStatus;
    UpdateApplyStatusIndexed(s, n, ConfigurationReloading);
  }

  lemma UpdateApplyStatusIndexed(s: State, n: string, state: ConfigurationState)
    requires WellFormed(s) && n in s.indexed
    ensures var t := UpdateApplyStatus(s, n, state);
      && Indexed(t, n).Some? && Indexed(s, n).Some?
      && Indexed(t, n).value.status.apply.state == if !IsOwn(s, n) then state else Indexed(s, n).value.status.apply.state
  {
  }

  lemma SetRegionOwn(s: State, n: string, p: Provider)
    requires WellFormed(s) && n in s.indexed && Indexed(s, n).Some?
    ensures var (t, region) := SetRegion(s, n, p);
      && Indexed(t, n) == Indexed(s, n) && n in t.indexed
      && (!IsOwn(t, n) <==> !IsOwn(s, n) && Indexed(s, n).value.spec.region != "")
  {
  }

  /** The status of the indexer's object after preCheck, its provider being there. */
  lemma CheckProviderIndexed(s: State, n: string, spec: Spec, o: Oracle)
    requires WellFormed(s) && n in s.indexed && Indexed(s, n).Some? && Indexed(s, n).value.spec == spec
    requires GetProviderNamespacedName(spec) in s.providers
    ensures var (t, meta, ok) := CheckProvider(s, n, spec, o);
      && Indexed(t, n).Some?
      && Indexed(t, n).value.status.apply.state ==
           if meta.envChanged && !IsOwn(s, n) && spec.region != "" then ConfigurationReloading
           else Indexed(s, n).value.status.apply.state
  {
    hide WellFormed, PrepareVariables, CheckEnvironment, SetRegion, BackendNamespace, GetProviderNamespacedName,
      GetProviderCredentials, Indexed, IsOwn;
    var p := s.providers[GetProviderNamespacedName(spec)];
    SetRegionOwn(s, n, p);
    SetRegionKeeps(s, n, p);
    hide Keeps;
    var s1 := SetRegion(s, n, p).0;
    KeepsWellFormed(s, s1, n);
    var found := GetProviderCredentials(s1, p, o.credentials);
    if found.Credentials? && PrepareVariables(spec.variable, found.values).Some? {
      CheckEnvironmentIndexed(s1, n, found.values, PrepareVariables(spec.variable, found.values).value);
    }
  }

  lemma PreCheckIndexed(s: State, c: Configuration, o: Oracle)
    requires WellFormed(s) && Indexed(s, c.name) == Some(c) && GetProviderNamespacedName(c.spec) in s.providers
    ensures var t := PreCheck(s, c, o).0;
      && Indexed(t, c.name).Some?
      && (if StatusOverwritten(s, c, o) then
            Indexed(t, c.name).value.status.apply.state in {ConfigurationStaticCheckFailed, ConfigurationReloading}
          else Indexed(t, c.name).value.status.apply.state == c.status.apply.state)
  {
    if o.quantities && ValidConfigurationObject(c.spec).Some? {
      EnvChangedExactly(s, c, o);
      var s1 := PreCheckUnfolds(s, c, o);
      hide CheckProvider, PreCheck, EnvironmentDiffers, Keeps, WellFormed;
      assert s1.providers == s.providers && c.name in s1.indexed;
      CheckProviderIndexed(s1, c.name, WithBackend(c.spec), o);
    } else {
      hide BackendNamespace;
    }
  }

  /** IsDeletable after preCheck, decided before it. */
  lemma DeletableKnown(s: State, c: Configuration, o: Oracle)
    requires WellFormed(s) && Indexed(s, c.name) == Some(c)
    ensures var t := PreCheck(s, c, o).0; IsDeletable(t, Current(t, c)) == DeletableBefore(s, c, o)
  {
    PreCheckKeeps(s, c, o);
    var t := PreCheck(s, c, o).0;
    var ref := GetProviderNamespacedName(c.spec);
    assert Indexed(t, c.name).Some? && Alike(c.spec, Indexed(t, c.name).value.spec);
    AlikeInput(c.spec, Indexed(t, c.name).value.spec);
    if ref in s.providers { PreCheckIndexed(s, c, o); }
    hide PreCheck, Keeps, WellFormed, StatusOverwritten, Alike, Indexed, GetProviderNamespacedName;
    assert t.providers == s.providers by { KeepsProviders(s, t, c.name); }
  }

  lemma KeepsProviders(s: State, t: State, n: string)
    requires Keeps(s, t, n)
    ensures t.providers == s.providers
  {
    hide Alike;
  }

  /** The ConfigMap and the secrets after preCheck: it only ever adds the variable secret. */
  lemma InputKnown(s: State, c: Configuration, o: Oracle)
    requires WellFormed(s) && Indexed(s, c.name) == Some(c)
    ensures var t := PreCheck(s, c, o).0;
      && (t.configMap.Some? <==> InputThere(s, c, o))
      && t.secrets.Keys == s.secrets.Keys + (if Passes(s, c, o) then {VariableSecret(c.name)} else {})
      && t.secrets - {VariableSecret(c.name)} == s.secrets - {VariableSecret(c.name)}
  {
    PreCheckStoresInput(s, c, o);
    PreCheckSecrets(s, c, o);
    PreCheckOutcome(s, c, o);
    hide PreCheck, Checked, InputData, WellFormed, Preparable, Indexed, StatusSays, StatusKept;
    OneMoreSecret(s.secrets, PreCheck(s, c, o).0.secrets, VariableSecret(c.name));
  }

  lemma OneMoreSecret(a: map<Ref, Secret>, b: map<Ref, Secret>, ref: Ref)
    requires a.Keys <= b.Keys && a - {ref} == b - {ref}
    ensures b.Keys == a.Keys || b.Keys == a.Keys + {ref}
    ensures ref in b ==> b.Keys == a.Keys + {ref}
  {
    forall r <- b.Keys ensures r in a.Keys + {ref} {
      if r != ref { assert r in b - {ref}; }
    }
  }

  lemma CheckProviderCreates(s: State, n: string, spec: Spec, o: Oracle)
    requires WellFormed(s) && VariableSecret(n) !in s.secrets && n in s.configurations && Preparable(s, spec, o)
    ensures var t := CheckProvider(s, n, spec, o).0;
      && VariableSecret(n) in t.secrets
      && t.secrets[VariableSecret(n)] ==
           Secret(map[], AsSecretData(PrepareVariables(spec.variable, o.credentials.values).value))
  {
    hide WellFormed, PrepareVariables, CheckEnvironment, SetRegion, BackendNamespace, GetProviderNamespacedName, AsSecretData;
    var p := s.providers[GetProviderNamespacedName(spec)];
    SetRegionStatus(s, n, p);
    SetRegionKeeps(s, n, p);
    hide Keeps;
    var s1 := SetRegion(s, n, p).0;
    var found := GetProviderCredentials(s, p, o.credentials);
    assert GetProviderCredentials(s1, p, o.credentials) == found && found == o.credentials;
    hide GetProviderCredentials;
    CheckEnvironmentSecrets(s1, n, found.values, PrepareVariables(spec.variable, found.values).value);
  }

  /** A variable secret preCheck creates holds the merged variables. */
  lemma VariableSecretCreated(s: State, c: Configuration, o: Oracle)
    requires WellFormed(s) && Indexed(s, c.name) == Some(c)
    requires Passes(s, c, o) && VariableSecret(c.name) !in s.secrets
    ensures var t := PreCheck(s, c, o).0;
      && VariableSecret(c.name) in t.secrets
      && t.secrets[VariableSecret(c.name)] ==
           Secret(map[], AsSecretData(PrepareVariables(c.spec.variable, o.credentials.values).value))
  {
    hide CheckProvider, PrepareVariables, WellFormed, PreCheck, AsSecretData;
    var s1 := PreCheckUnfolds(s, c, o);
    assert s1.providers == s.providers;
    hide Keeps;
    CheckProviderCreates(s1, c.name, WithBackend(c.spec), o);
  }

  /** None of this looks at the queues. */
  lemma SameDecisions(s: State, t: State, c: Configuration, o: Oracle)
    requires t.providers == s.providers && t.secrets == s.secrets
    requires t.configurations == s.configurations && t.indexed == s.indexed
    ensures EnvironmentDiffers(t, c, o) == EnvironmentDiffers(s, c, o)
    ensures DeletableBefore(t, c, o) == DeletableBefore(s, c, o)
    ensures Passes(t, c, o) == Passes(s, c, o)
  {
    hide PrepareVariables, EnvChanged, GetProviderNamespacedName;
  }
}
