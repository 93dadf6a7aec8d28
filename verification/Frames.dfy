/** What the parts of a reconcile leave alone. Everything between the finalizer write and the removal
    of the record keeps the identity of the stored and of the indexed object and touches no other name. */
module Frames {
  import opened Objects
  import opened Render
  import opened Variables
  import opened Lifecycle

  /** Two specs differ at most in the region and in whether the default backend is written out. */
  predicate Alike(a: Spec, b: Spec) {
    && a.(backend := None, region := "") == b.(backend := None, region := "")
    && EffectivePath(a) == EffectivePath(b)
  }

  /** The two states IsDeletable looks for; no reconcile ever sets them. */
  predicate Special(state: ConfigurationState) {
    state == TerraformInitError || state == ConfigurationProvisioningAndChecking
  }

  /** c may become d inside a reconcile: the region is only ever filled in, and the destroy status is only ever
      set to ConfigurationDestroying. */
  predicate Grows(c: Configuration, d: Configuration) {
    && c.name == d.name && c.finalizer == d.finalizer && c.deleting == d.deleting
    && Alike(c.spec, d.spec)
    && (c.spec.region != "" ==> d.spec.region == c.spec.region)
    && (Special(d.status.apply.state) ==> d.status.apply.state == c.status.apply.state)
    && (d.status.destroy == c.status.destroy || d.status.destroy == ConfigurationDestroying)
  }

  predicate OptionGrows(c: Option<Configuration>, d: Option<Configuration>) {
    if c.Some? then d.Some? && Grows(c.value, d.value) else d.None?
  }

  function Stored(s: State, n: string): Option<Configuration> {
    Lookup(s.configurations, n)
  }

  predicate IsOwn(s: State, n: string) {
    n in s.indexed && s.indexed[n].Own?
  }

  /** Every object carries the name it is kept under, and an entry Same has an object to share. */
  ghost predicate WellFormed(s: State) {
    && (forall n <- s.configurations :: s.configurations[n].name == n)
    && (forall n <- s.indexed | s.indexed[n].Own? :: s.indexed[n].configuration.name == n)
    && (forall n <- s.indexed | s.indexed[n].Same? :: n in s.configurations)
  }

  /** Queues and counters are as before. */
  predicate SameQueues(s: State, t: State) {
    && t.ready == s.ready && t.delayed == s.delayed
    && t.injected == s.injected && t.retried == s.retried && t.handled == s.handled
  }

  /** Nothing is different under any other name than n. */
  ghost predicate OthersKept(s: State, t: State, n: string) {
    && t.configurations - {n} == s.configurations - {n}
    && t.indexed - {n} == s.indexed - {n}
    && t.providers == s.providers && t.indexedProviders == s.indexedProviders
  }

  ghost predicate Keeps(s: State, t: State, n: string) {
    && SameQueues(s, t)
    && OthersKept(s, t, n)
    && OptionGrows(Stored(s, n), Stored(t, n))
    && OptionGrows(Indexed(s, n), Indexed(t, n))
    && (IsOwn(s, n) ==> IsOwn(t, n))
    && (n in s.indexed <==> n in t.indexed)
  }

  lemma KeepsTransitive(s: State, t: State, u: State, n: string)
    requires Keeps(s, t, n) && Keeps(t, u, n)
    ensures Keeps(s, u, n)
  {
  }

  lemma KeepsWellFormed(s: State, t: State, n: string)
    requires WellFormed(s) && Keeps(s, t, n)
    ensures WellFormed(t)
  {
    forall m <- t.configurations ensures t.configurations[m].name == m {
      if m != n {
        assert m in (t.configurations - {n});
        assert (t.configurations - {n})[m] == (s.configurations - {n})[m];
      }
    }
    forall m <- t.indexed
      ensures t.indexed[m].Own? ==> t.indexed[m].configuration.name == m
      ensures t.indexed[m].Same? ==> m in t.configurations
    {
      if m != n {
        assert m in (t.indexed - {n});
        assert (t.indexed - {n})[m] == (s.indexed - {n})[m];
        if t.indexed[m].Same? {
          assert m in (s.configurations - {n});
        }
      }
    }
  }

  lemma KeepsReflexive(s: State, n: string)
    ensures Keeps(s, s, n)
  {
  }

  /** Keeps looks at the records, the indexers, the providers and the queues only. */
  predicate SameRecords(t: State, u: State) {
    && t.configurations == u.configurations && t.indexed == u.indexed
    && t.providers == u.providers && t.indexedProviders == u.indexedProviders
    && SameQueues(t, u)
  }

  lemma KeepsSideways(s: State, t: State, u: State, n: string)
    requires Keeps(s, t, n) && SameRecords(t, u)
    ensures Keeps(s, u, n)
  {
  }

  /** The parts outside the record and the secrets that a reconcile writes. */
  predicate SameSurroundings(s: State, t: State) {
    t.log == s.log && t.environment == s.environment && t.configMap == s.configMap
  }

  // ----- assignments through the two pointers -----

  lemma MutateStoredKeeps(s: State, n: string, d: Configuration)
    requires n in s.configurations && Grows(s.configurations[n], d)
    ensures Keeps(s, MutateStored(s, n, d), n)
  {
  }

  lemma MutateIndexedKeeps(s: State, n: string, d: Configuration)
    requires Indexed(s, n).Some? && Grows(Indexed(s, n).value, d)
    ensures Keeps(s, MutateIndexed(s, n, d), n)
    ensures Indexed(MutateIndexed(s, n, d), n) == Some(d)
    ensures IsOwn(MutateIndexed(s, n, d), n) <==> IsOwn(s, n)
    ensures Indexed(s, n).value.status == d.status && n in s.configurations ==>
              MutateIndexed(s, n, d).configurations[n].status == s.configurations[n].status
  {
    if IsOwn(s, n) {
      KeepsReflexive(s, n);
      hide Alike;
    } else {
      MutateStoredKeeps(s, n, d);
    }
  }

  lemma UpdateWithCopyKeeps(s: State, d: Configuration)
    requires d.name in s.configurations && Grows(s.configurations[d.name], d)
    ensures Keeps(s, UpdateWithCopy(s, d), d.name)
    ensures Indexed(UpdateWithCopy(s, d), d.name) == Indexed(s, d.name)
  {
  }

  lemma UpdateApplyStatusKeeps(s: State, n: string, state: ConfigurationState)
    requires WellFormed(s) && !Special(state)
    ensures Keeps(s, UpdateApplyStatus(s, n, state), n)
    ensures SameSurroundings(s, UpdateApplyStatus(s, n, state))
    ensures UpdateApplyStatus(s, n, state).secrets == s.secrets
  {
    if n in s.configurations {
      MutateStoredKeeps(s, n, WithApplyStatus(s.configurations[n], state, map[]));
    } else {
      KeepsReflexive(s, n);
    }
  }

  lemma WriteConnectionSecretKeeps(s: State, c: Configuration, outputs: map<string, string>)
    ensures SameRecords(s, WriteConnectionSecret(s, c, outputs).0)
    ensures SameSurroundings(s, WriteConnectionSecret(s, c, outputs).0)
  {
    hide AsSecretData, Foreign, ConnectionSecret;
  }

  lemma GetTFOutputsKeeps(s: State, backend: string, c: Configuration)
    ensures SameRecords(s, GetTFOutputs(s, backend, c).0)
    ensures SameSurroundings(s, GetTFOutputs(s, backend, c).0)
  {
    var outputs := StateOutputs(s, backend, c.name);
    hide StateOutputs, WriteConnectionSecret;
    if outputs.Some? {
      WriteConnectionSecretKeeps(s, c, outputs.value);
    }
  }

  lemma UpdateAvailableKeeps(s: State, backend: string, n: string)
    requires WellFormed(s)
    ensures Keeps(s, UpdateAvailable(s, backend, n), n)
    ensures SameSurroundings(s, UpdateAvailable(s, backend, n))
  {
    KeepsReflexive(s, n);
    if n in s.configurations {
      var c := s.configurations[n];
      GetTFOutputsKeeps(s, backend, c);
      var (s1, outputs) := GetTFOutputs(s, backend, c);
      hide GetTFOutputs;
      KeepsSideways(s, s, s1, n);
      var d := if outputs.Some? then WithApplyStatus(c, Available, outputs.value)
               else WithApplyStatus(c, GeneratingOutputs, map[]);
      MutateStoredKeeps(s1, n, d);
      KeepsTransitive(s, s1, MutateStored(s1, n, d), n);
    }
  }

  lemma UpdateDestroyStatusKeeps(s: State, n: string)
    requires WellFormed(s)
    ensures Keeps(s, UpdateDestroyStatus(s, n), n)
    ensures SameSurroundings(s, UpdateDestroyStatus(s, n))
    ensures UpdateDestroyStatus(s, n).secrets == s.secrets
  {
    KeepsReflexive(s, n);
    if n in s.configurations {
      var c := s.configurations[n];
      MutateStoredKeeps(s, n, c.(status := c.status.(destroy := ConfigurationDestroying)));
    }
  }

  // ----- preCheck -----

  lemma SetRegionKeeps(s: State, n: string, p: Provider)
    requires WellFormed(s)
    ensures Keeps(s, SetRegion(s, n, p).0, n)
    ensures Indexed(SetRegion(s, n, p).0, n) == Indexed(s, n)
    ensures SameSurroundings(s, SetRegion(s, n, p).0)
    ensures SetRegion(s, n, p).0.secrets == s.secrets
  {
    KeepsReflexive(s, n);
    if n in s.configurations {
      var c := s.configurations[n];
      if c.spec.region == "" {
        UpdateWithCopyKeeps(s, c.(spec := c.spec.(region := p.region)));
      }
    }
  }

  lemma CheckEnvironmentKeeps(s: State, n: string, credentials: map<string, string>, variables: map<string, string>)
    requires WellFormed(s)
    ensures Keeps(s, CheckEnvironment(s, n, credentials, variables).0, n)
    ensures SameSurroundings(s, CheckEnvironment(s, n, credentials, variables).0)
  {
    hide Keeps, WellFormed, UpdateApplyStatus, EnvChanged, AsSecretData, BackendNamespace;
    UpdateApplyStatusKeeps(s, n, ConfigurationReloading);
    KeepsReflexive(s, n);
    var t := CheckEnvironment(s, n, credentials, variables).0;
    if VariableSecret(n) in s.secrets && EnvChanged(variables, s.secrets[VariableSecret(n)].data) {
      KeepsSideways(s, UpdateApplyStatus(s, n, ConfigurationReloading), t, n);
    } else {
      KeepsSideways(s, s, t, n);
    }
  }

  lemma CheckProviderKeeps(s: State, n: string, spec: Spec, o: Oracle)
    requires WellFormed(s)
    ensures Keeps(s, CheckProvider(s, n, spec, o).0, n)
    ensures SameSurroundings(s, CheckProvider(s, n, spec, o).0)
  {
    UpdateApplyStatusKeeps(s, n, Authorizing);
    hide Keeps, UpdateApplyStatus, CheckEnvironment, SetRegion, GetProviderCredentials, PrepareVariables;
    var ref := GetProviderNamespacedName(spec);
    if ref in s.providers {
      SetRegionKeeps(s, n, s.providers[ref]);
      var s1 := SetRegion(s, n, s.providers[ref]).0;
      var credentials := GetProviderCredentials(s1, s.providers[ref], o.credentials);
      if credentials.Credentials? {
        var variables := PrepareVariables(spec.variable, credentials.values);
        if variables.Some? {
          KeepsWellFormed(s, s1, n);
          CheckEnvironmentKeeps(s1, n, credentials.values, variables.value);
          KeepsTransitive(s, s1, CheckEnvironment(s1, n, credentials.values, variables.value).0, n);
        }
      }
    }
  }

  lemma StoredInputUnchanged(s: State, spec: Spec, kind: ConfigurationType)
    ensures !ConfigurationChanged(StoreConfiguration(s, spec, kind), spec, kind)
  {
  }

  /** A valid Configuration is rendered into the ConfigMap, whatever that held before, and preCheck goes on
      with the provider: the branch for a changed text is never taken. */
  lemma PreCheckUnfolds(s: State, c: Configuration, o: Oracle) returns (s1: State)
    requires WellFormed(s) && Indexed(s, c.name) == Some(c)
    requires o.quantities && ValidConfigurationObject(c.spec).Some?
    ensures Keeps(s, s1, c.name) && WellFormed(s1)
    ensures Indexed(s1, c.name) == Some(c.(spec := WithBackend(c.spec)))
    ensures s1.secrets == s.secrets && s1.log == s.log && s1.environment == s.environment && s1.clusterRole == s.clusterRole
    ensures s1.configMap == Some(InputData(c.spec, ValidConfigurationObject(c.spec).value))
    ensures c.name in s1.configurations <==> c.name in s.configurations
    ensures c.name in s.configurations ==>
      && s1.configurations[c.name].status == s.configurations[c.name].status
      && s1.configurations[c.name].spec.region == s.configurations[c.name].spec.region
    ensures IsOwn(s1, c.name) <==> IsOwn(s, c.name)
    ensures PreCheck(s, c, o) == CheckProvider(s1, c.name, WithBackend(c.spec), o)
  {
    var kind := ValidConfigurationObject(c.spec).value;
    s1 := StoreRendered(s, c, kind);
    StoreRenderedKeeps(s, c, kind);
    RenderIsStable(c.spec, kind);
    StoredInputUnchanged(MutateIndexed(s, c.name, c.(spec := WithBackend(c.spec))), WithBackend(c.spec), kind);
    hide Keeps, WellFormed, Indexed, ConfigurationChanged, RenderConfiguration, MutateIndexed, CheckProvider;
  }

  lemma StoreRenderedKeeps(s: State, c: Configuration, kind: ConfigurationType)
    requires WellFormed(s) && Indexed(s, c.name) == Some(c)
    ensures var s1 := StoreRendered(s, c, kind);
      && Keeps(s, s1, c.name) && WellFormed(s1)
      && Indexed(s1, c.name) == Some(c.(spec := WithBackend(c.spec)))
      && s1.secrets == s.secrets && s1.log == s.log && s1.environment == s.environment && s1.clusterRole == s.clusterRole
      && s1.configMap == Some(InputData(WithBackend(c.spec), kind))
      && (c.name in s1.configurations <==> c.name in s.configurations)
      && (c.name in s.configurations ==> s1.configurations[c.name].status == s.configurations[c.name].status)
      && (IsOwn(s1, c.name) <==> IsOwn(s, c.name))
  {
    var d := c.(spec := WithBackend(c.spec));
    WithBackendGrows(c);
    MutateIndexedKeeps(s, c.name, d);
    MutateIndexedSides(s, c.name, d);
    hide MutateIndexed, InputData, WithBackend, Grows;
    var s0 := MutateIndexed(s, c.name, d);
    var s1 := StoreRendered(s, c, kind);
    KeepsSideways(s, s0, s1, c.name);
    KeepsWellFormed(s, s1, c.name);
    assert c.name in s1.configurations <==> c.name in s.configurations;
    assert Indexed(s1, c.name) == Indexed(s0, c.name);
    hide Keeps, WellFormed;
  }

  lemma WithBackendGrows(c: Configuration)
    ensures Grows(c, c.(spec := WithBackend(c.spec)))
  {
  }

  lemma MutateIndexedSides(s: State, n: string, d: Configuration)
    ensures var t := MutateIndexed(s, n, d);
      SameSurroundings(s, t) && t.secrets == s.secrets && t.clusterRole == s.clusterRole
  {
  }

  lemma PreCheckKeeps(s: State, c: Configuration, o: Oracle)
    requires WellFormed(s) && Indexed(s, c.name) == Some(c)
    ensures Keeps(s, PreCheck(s, c, o).0, c.name)
    ensures PreCheck(s, c, o).0.log == s.log && PreCheck(s, c, o).0.environment == s.environment
  {
    if o.quantities && ValidConfigurationObject(c.spec).Some? {
      var s1 := PreCheckUnfolds(s, c, o);
      hide PreCheck, CheckProvider;
      CheckProviderKeeps(s1, c.name, WithBackend(c.spec), o);
      KeepsTransitive(s, s1, CheckProvider(s1, c.name, WithBackend(c.spec), o).0, c.name);
      hide Keeps, WellFormed;
    } else {
      UpdateApplyStatusKeeps(s, c.name, ConfigurationStaticCheckFailed);
      KeepsReflexive(s, c.name);
      hide Keeps, UpdateApplyStatus;
    }
  }

  // ----- terraform runs -----

  lemma LoggedKeeps(s: State, e: LogEntry, n: string)
    ensures Keeps(s, Logged(s, e), n)
    ensures WellFormed(s) ==> WellFormed(Logged(s, e))
  {
    KeepsReflexive(s, n);
  }

  /** The state terraform apply runs in: the non-empty variables are in the process environment. */
  function Equipped(s: State, meta: Meta): State {
    s.(environment := s.environment + NonEmpty(meta.variables))
  }

  lemma RunApplyKeeps(s: State, c: Configuration, meta: Meta, o: Oracle)
    requires WellFormed(s)
    ensures var (t, ok) := RunApply(s, c, meta, o);
      && Keeps(s, t, c.name)
      && t.environment == s.environment
      && t.configMap == s.configMap
      && (if s.configMap.None? then t.log == s.log && !ok
          else
            && t.log == s.log + [Applied(c.name, JobOf(s, c, meta), o.terraform,
                                         if o.terraform then o.stateFile else None)]
            && ok == (o.terraform && o.stateFile.Some?))
  {
    KeepsReflexive(s, c.name);
    if s.configMap.Some? {
      var e := Applied(c.name, JobOf(s, c, meta), o.terraform, if o.terraform then o.stateFile else None);
      var s1 := Logged(s, e);
      LoggedKeeps(s, e, c.name);
      if o.terraform && o.stateFile.Some? {
        var ref := BackendSecret(meta.backend, c.name);
        var s2 := PutSecret(s1, ref, Secret(map[], map[STATE_KEY := Gzip(o.stateFile.value)]));
        KeepsSideways(s, s1, s2, c.name);
        KeepsWellFormed(s, s2, c.name);
        UpdateAvailableKeeps(s2, meta.backend, c.name);
        KeepsTransitive(s, s2, UpdateAvailable(s2, meta.backend, c.name), c.name) by { hide *; }
      }
      hide Keeps, WellFormed, UpdateAvailable, BackendNamespace;
    }
  }

  lemma TerraformApplyKeeps(s: State, c: Configuration, meta: Meta, o: Oracle)
    requires WellFormed(s)
    ensures var (t, ok) := TerraformApply(s, c, meta, o);
      && Keeps(s, t, c.name)
      && t.environment == Equipped(s, meta).environment
      && t.configMap == s.configMap
      && (if s.configMap.None? then t.log == s.log && !ok
          else
            && t.log == s.log + [Applied(c.name, JobOf(Equipped(s, meta), c, meta), o.terraform,
                                         if o.terraform then o.stateFile else None)]
            && ok == (o.terraform && o.stateFile.Some?))
  {
    var s0 := Equipped(s, meta);
    KeepsReflexive(s, c.name);
    KeepsSideways(s, s, s0, c.name);
    RunApplyKeeps(s0, c, meta, o);
    hide Keeps, WellFormed, RunApply, JobOf;
    KeepsTransitive(s, s0, RunApply(s0, c, meta, o).0, c.name);
  }

  lemma RunDestroyKeeps(s: State, c: Configuration, meta: Meta, o: Oracle)
    requires WellFormed(s)
    ensures var (t, ok) := RunDestroy(s, c, meta, o);
      && Keeps(s, t, c.name)
      && t.environment == s.environment && t.configMap == s.configMap
      && (if s.configMap.None? then t.log == s.log && !ok
          else t.log == s.log + [Destroyed(c.name, JobOf(s, c, meta), o.terraform)] && ok == o.terraform)
  {
    KeepsReflexive(s, c.name);
    if s.configMap.Some? {
      var s1 := Logged(s, Destroyed(c.name, JobOf(s, c, meta), o.terraform));
      KeepsSideways(s, s, s1, c.name);
      KeepsWellFormed(s, s1, c.name);
      UpdateAvailableKeeps(s1, meta.backend, c.name);
      KeepsTransitive(s, s1, UpdateAvailable(s1, meta.backend, c.name), c.name);
      hide Keeps, WellFormed, UpdateAvailable;
    }
  }

  lemma CleanUpKeeps(s: State, c: Configuration, meta: Meta, why: Option<Reason>)
    requires WellFormed(s)
    ensures var (t, result) := CleanUp(s, c, meta, why);
      && Keeps(s, t, c.name) && t.log == s.log && t.environment == s.environment
      && (result.DestroyPanic? || result == DestroyDone(why))
  {
    UpdateDestroyStatusKeeps(s, c.name);
    hide Keeps, WellFormed, UpdateDestroyStatus, ConnectionPanics, BackendNamespace;
    KeepsSideways(s, UpdateDestroyStatus(s, c.name), CleanUp(s, c, meta, why).0, c.name);
  }

  /** The destroy job of c is run: no Configuration named after the job is in its way, and c is in the store. */
  predicate JobRuns(s: State, c: Configuration) {
    IsDeletable(s, c).AfterDestroy? && DestroyJobName(c.name) !in s.configurations && c.name in s.configurations
  }

  lemma TerraformDestroyKeeps(s: State, c: Configuration, meta: Meta, o: Oracle)
    requires WellFormed(s)
    ensures var (t, result) := TerraformDestroy(s, c, meta, o);
      && Keeps(s, t, c.name)
      && t.environment == s.environment
      && t.log == (if JobRuns(s, c) && s.configMap.Some?
                   then s.log + [Destroyed(c.name, JobOf(s, c, meta), o.terraform)] else s.log)
      && (result.DestroyError? <==> || IsDeletable(s, c).NotYet?
                                    || (JobRuns(s, c) && (s.configMap.None? || !o.terraform)))
      && (result.DestroyDone? ==>
            result.why == match IsDeletable(s, c)
                          case Directly => Some(DirectDelete)
                          case _ => if JobRuns(s, c) then None else Some(JobShadowed))
  {
    hide Keeps, CleanUp, IsDeletable, RunDestroy, UpdateJobPanics, WellFormed, JobOf;
    KeepsReflexive(s, c.name);
    match IsDeletable(s, c)
    case NotYet =>
    case Directly => CleanUpKeeps(s, c, meta, Some(DirectDelete));
    case AfterDestroy =>
      var run := JobRuns(s, c);
      RunDestroyKeeps(s, c, meta, o);
      var (s1, ok) := if run then RunDestroy(s, c, meta, o) else (s, true);
      KeepsWellFormed(s, s1, c.name);
      var why := if run then None else Some(JobShadowed);
      CleanUpKeeps(s1, c, meta, why);
      KeepsTransitive(s, s1, CleanUp(s1, c, meta, why).0, c.name);
  }
}
