/** The visible effect of the calls from outside, and of a reconcile on what it shares with others: what a
    later read returns. */
module Effects {
  import opened Objects
  import opened Render
  import opened Variables
  import opened Lifecycle
  import opened Protocol
  import opened Frames
  import opened Safety
  import opened History
  import opened Checks
  import opened Deletion
  import opened Region

  // ---------------------------------------------------------------- REST calls

  /** All but the store and the indexer of providers, and their queue. */
  predicate SameButProviders(s: State, t: State) {
    t.(providers := s.providers, indexedProviders := s.indexedProviders, ready := s.ready, injected := s.injected) == s
  }

  predicate SameButSecrets(s: State, t: State) {
    t.(secrets := s.secrets) == s
  }

  predicate SameButConfigurations(s: State, t: State) {
    t.(configurations := s.configurations, indexed := s.indexed, ready := s.ready, injected := s.injected, log := s.log) == s
  }

  /** The value is under k, and everything else is as before. */
  ghost predicate Reads<K(!new), V>(before: map<K, V>, after: map<K, V>, k: K, v: Option<V>) {
    && Lookup(after, k) == v
    && forall j | j != k :: Lookup(after, j) == Lookup(before, j)
  }

  lemma PutReads<K(!new), V>(m: map<K, V>, k: K, v: V)
    ensures Reads(m, m[k := v], k, Some(v))
  {
  }

  lemma DropReads<K(!new), V>(m: map<K, V>, k: K)
    ensures Reads(m, m - {k}, k, None)
  {
  }

  /** A secret that was POSTed, or PUT over an existing one, is what a read returns, until it is DELETEd. */
  lemma SecretIsRead(s: State, at: Ref, ref: Ref, secret: Secret)
    ensures var t := Rest(s, CreateSecret(ref, secret));
      Reads(s.secrets, t.secrets, ref, Some(secret)) && SameButSecrets(s, t)
    ensures var t := Rest(s, UpdateSecret(at, ref, secret));
      if at in s.secrets && at == ref then Reads(s.secrets, t.secrets, ref, Some(secret)) && SameButSecrets(s, t) else t == s
    ensures var t := Rest(s, DeleteSecret(at)); Reads(s.secrets, t.secrets, at, None) && SameButSecrets(s, t)
  {
    hide Reads, WriteConfiguration, AddProvider, CacheDelete;
    PutReads(s.secrets, ref, secret);
    DropReads(s.secrets, at);
  }

  /** A provider that was POSTed, or PUT over an existing one, is what a read of the store and of the indexer
      returns, and its reconcile is scheduled. DELETE takes it out of the store only. */
  ghost predicate ProviderWritten(s: State, t: State, ref: Ref, p: Provider) {
    && Reads(s.providers, t.providers, ref, Some(p)) && Reads(s.indexedProviders, t.indexedProviders, ref, Some(p))
    && t.ready == s.ready + {ProviderRequest(ref)} && SameButProviders(s, t)
  }

  lemma ProviderIsRead(s: State, at: Ref, ref: Ref, p: Provider)
    ensures ProviderWritten(s, Rest(s, CreateProvider(ref, p)), ref, p)
    ensures var t := Rest(s, UpdateProvider(at, ref, p));
      if at in s.providers && at == ref then ProviderWritten(s, t, ref, p) else t == s
    ensures var t := Rest(s, DeleteProvider(at));
      && Reads(s.providers, t.providers, at, None)
      && t.indexedProviders == s.indexedProviders && t.ready == s.ready && SameButProviders(s, t)
  {
    hide Reads;
    PutReads(s.providers, ref, p);
    PutReads(s.indexedProviders, ref, p);
    DropReads(s.providers, at);
  }

  /** The record and the indexer's object of the name are the body, without finalizer and deletion mark, and its
      reconcile is scheduled. */
  ghost predicate ConfigurationWritten(s: State, t: State, name: string, spec: Spec, status: Status) {
    && Reads(s.configurations, t.configurations, name, Some(Configuration(name, spec, status, false, false)))
    && Indexed(t, name) == Some(Configuration(name, spec, status, false, false))
    && (forall m: string | m != name :: Lookup(t.indexed, m) == Lookup(s.indexed, m))
    && t.ready == s.ready + {ConfigurationRequest(name)} && SameButConfigurations(s, t)
  }

  /** A Configuration that was POSTed, or PUT over an existing one, is what a read returns. */
  lemma ConfigurationIsRead(s: State, url: string, name: string, spec: Spec, status: Status)
    ensures ConfigurationWritten(s, Rest(s, CreateConfiguration(name, spec, status)), name, spec, status)
    ensures var t := Rest(s, UpdateConfiguration(url, name, spec, status));
      if url in s.configurations && url == name then ConfigurationWritten(s, t, name, spec, status) else t == s
  {
  }

  /** DELETE of a Configuration with its finalizer marks the record, makes the indexer share it, and schedules
      its reconcile; without one the record goes and the indexer's object stays as it was. */
  lemma ConfigurationIsDeleted(s: State, url: string)
    requires WellFormed(s)
    ensures var t := Rest(s, DeleteConfiguration(url));
      if url !in s.configurations then t == s
      else if s.configurations[url].finalizer then
        && Reads(s.configurations, t.configurations, url, Some(s.configurations[url].(deleting := true)))
        && Reads(s.indexed, t.indexed, url, Some(Same))
        && t.ready == s.ready + {ConfigurationRequest(url)} && SameButConfigurations(s, t)
      else
        && Reads(s.configurations, t.configurations, url, None) && Indexed(t, url) == Indexed(s, url)
        && (forall m: string | m != url :: Lookup(t.indexed, m) == Lookup(s.indexed, m))
        && t.ready == s.ready && SameButConfigurations(s, t)
  {
    hide Reads, WellFormed;
    if url in s.configurations {
      StoredName(s, url);
      MarkedOrDropped(s, s.configurations[url]);
      hide CacheDelete;
    }
  }

  lemma MarkedOrDropped(s: State, c: Configuration)
    requires Lookup(s.configurations, c.name) == Some(c)
    ensures var t := CacheDelete(s, c);
      && SameButConfigurations(s, t)
      && (if c.finalizer then
            && Reads(s.configurations, t.configurations, c.name, Some(c.(deleting := true)))
            && Reads(s.indexed, t.indexed, c.name, Some(Same)) && t.ready == s.ready + {ConfigurationRequest(c.name)}
          else
            && Reads(s.configurations, t.configurations, c.name, None) && Indexed(t, c.name) == Indexed(s, c.name)
            && (forall m: string | m != c.name :: Lookup(t.indexed, m) == Lookup(s.indexed, m)) && t.ready == s.ready)
  {
    hide Reads;
    PutReads(s.configurations, c.name, c.(deleting := true));
    PutReads(s.indexed, c.name, Same);
    DropReads(s.configurations, c.name);
  }

  // ---------------------------------------------------------------- the text terraform runs

  /** The backend path a spec asks for, or the default one. */
  predicate AsksForPath(spec: Spec, path: string) {
    if spec.backend.Some? && spec.backend.value.path != "" then path == spec.backend.value.path
    else path == "/tmp/terraform.tfstate"
  }

  /** The backend block, line by line. */
  function BackendBlock(path: string): string {
    "\n" + "terraform {" + "\n" + "  backend \"local\" {" + "\n" + "    path     = \"" + path + "\"\n  }\n}\n"
  }

  /** The one file of a spec: its HCL with the backend block after it, or, for remote code, the backend block. */
  ghost predicate IsInput(data: map<string, string>, spec: Spec) {
    exists path: string | AsksForPath(spec, path) ::
      var backend := BackendBlock(path);
      if spec.hcl != "" then data == map["main.tf" := spec.hcl + "\n" + backend]
      else data == map["terraform-backend.tf" := backend]
  }

  lemma InputIsText(spec: Spec)
    requires ValidConfigurationObject(spec).Some?
    ensures IsInput(InputData(spec, ValidConfigurationObject(spec).value), spec)
  {
    var path := EffectivePath(spec);
    assert AsksForPath(spec, path);
    assert RenderTemplate(path) == BackendBlock(path);
    hide RenderTemplate, BackendBlock;
  }

  /** What terraform runs at every apply of every run is the text of its Configuration. */
  lemma TerraformRuns(environment: map<string, string>, run: seq<Event>, i: nat)
    requires Runs(Initial(environment), run) && i < |End(Initial(environment), run).log|
    ensures var e := End(Initial(environment), run).log[i];
      e.Applied? ==> e.job.stored.Some? && IsInput(e.job.input, e.job.stored.value.spec)
  {
    TerraformRunsOnlyWhenReady(environment, run, i);
    var e := End(Initial(environment), run).log[i];
    hide Runs, End, InputData, PrepareVariables, IsInput, InEnvironment;
    if e.Applied? { InputIsText(e.job.stored.value.spec); }
  }

  /** preCheck of a valid Configuration leaves that text in the ConfigMap, whatever was there. */
  lemma InputStored(s: State, c: Configuration, o: Oracle)
    requires WellFormed(s) && Indexed(s, c.name) == Some(c)
    requires o.quantities && ((c.spec.hcl != "" && c.spec.remote == "") || (c.spec.hcl == "" && c.spec.remote != ""))
    ensures var t := PreCheck(s, c, o).0; t.configMap.Some? && IsInput(t.configMap.value, c.spec)
  {
    hide PreCheck, InputData, IsInput, WellFormed, Indexed;
    PreCheckStoresInput(s, c, o);
    InputIsText(c.spec);
  }

  // ---------------------------------------------------------------- what else a reconcile leaves

  /** A preCheck that succeeds leaves the ClusterRole in the store. */
  lemma ClusterRoleStored(s: State, c: Configuration, o: Oracle)
    requires PreCheck(s, c, o).2 && !PreCheck(s, c, o).1.configurationChanged
    ensures PreCheck(s, c, o).0.clusterRole
  {
    hide StoreRendered, ConfigurationChanged, SetRegion, GetProviderCredentials, PrepareVariables, EnvChanged, AsSecretData,
      BackendNamespace, GetProviderNamespacedName, WithBackend;
  }

  /** preCheck of a valid Configuration whose provider is there stores the provider's region where there is none,
      whether or not the credentials are found. */
  lemma RegionStored(s: State, c: Configuration, o: Oracle, ref: Ref)
    requires WellFormed(s) && Indexed(s, c.name) == Some(c) && c.name in s.configurations
    requires o.quantities && ValidConfigurationObject(c.spec).Some?
    requires ref in s.providers && ref == (if c.spec.providerRef.Some? then c.spec.providerRef.value else Ref("default", "default"))
    ensures var t := PreCheck(s, c, o).0; var region := s.configurations[c.name].spec.region;
      && c.name in t.configurations
      && t.configurations[c.name].spec.region == (if region == "" then s.providers[ref].region else region)
  {
    hide PreCheck, CheckProvider, WellFormed, Indexed, Keeps;
    var s1 := PreCheckUnfolds(s, c, o);
    StoredAndProviders(s, s1, c);
    StoredName(s1, c.name);
    CheckProviderRegion(s1, c.name, WithBackend(c.spec), o);
  }

  lemma StoredAndProviders(s: State, t: State, c: Configuration)
    requires Keeps(s, t, c.name) && c.name in s.configurations
    ensures t.providers == s.providers && c.name in t.configurations
  {
    assert OptionGrows(Stored(s, c.name), Stored(t, c.name));
  }

  lemma CheckProviderRegion(s: State, n: string, spec: Spec, o: Oracle)
    requires WellFormed(s) && n in s.configurations && GetProviderNamespacedName(spec) in s.providers
    ensures var t := CheckProvider(s, n, spec, o).0; var region := s.configurations[n].spec.region;
      && n in t.configurations
      && t.configurations[n].spec.region ==
           (if region == "" then s.providers[GetProviderNamespacedName(spec)].region else region)
  {
    hide GetProviderCredentials, PrepareVariables, CheckEnvironment, SetRegion, BackendNamespace, GetProviderNamespacedName,
      WellFormed;
    var p := s.providers[GetProviderNamespacedName(spec)];
    SetRegionReturnsStored(s, n, p);
    var s1 := SetRegion(s, n, p).0;
    var found := GetProviderCredentials(s1, p, o.credentials);
    if found.Credentials? && PrepareVariables(spec.variable, found.values).Some? {
      EnvironmentLeavesSpec(s1, n, found.values, PrepareVariables(spec.variable, found.values).value);
    }
  }

  lemma EnvironmentLeavesSpec(s: State, n: string, credentials: map<string, string>, variables: map<string, string>)
    requires n in s.configurations
    ensures var t := CheckEnvironment(s, n, credentials, variables).0;
      n in t.configurations && t.configurations[n].spec == s.configurations[n].spec
  {
    hide EnvChanged, AsSecretData, BackendNamespace, UpdateApplyStatus;
    StatusLeavesSpec(s, n, ConfigurationReloading);
  }

  lemma StatusLeavesSpec(s: State, n: string, state: ConfigurationState)
    requires n in s.configurations
    ensures var t := UpdateApplyStatus(s, n, state);
      n in t.configurations && t.configurations[n].spec == s.configurations[n].spec
  {
  }

  /** A terraformDestroy that goes through leaves the record, which is about to go, with the status
      ConfigurationDestroying. */
  lemma DestroyReported(s: State, c: Configuration, meta: Meta, o: Oracle)
    requires WellFormed(s) && c.name in s.configurations
    ensures var (t, result) := TerraformDestroy(s, c, meta, o);
      result.DestroyDone? ==> c.name in t.configurations && t.configurations[c.name].status.destroy == ConfigurationDestroying
  {
    hide RunDestroy, IsDeletable, UpdateJobPanics, Keeps, WellFormed, JobOf, ConnectionSecret;
    var run := JobRuns(s, c);
    RunDestroyKeeps(s, c, meta, o);
    var s1 := if run then RunDestroy(s, c, meta, o).0 else s;
    assert c.name in s1.configurations by {
      if run { StaysStored(s, s1, c.name); }
    }
    CleanUpReports(s, c, meta, Some(DirectDelete));
    CleanUpReports(s1, c, meta, if run then None else Some(JobShadowed));
    hide CleanUp;
  }

  lemma StaysStored(s: State, t: State, n: string)
    requires Keeps(s, t, n) && n in s.configurations
    ensures n in t.configurations
  {
    assert Stored(t, n).Some?;
  }

  lemma CleanUpReports(s: State, c: Configuration, meta: Meta, why: Option<Reason>)
    requires c.name in s.configurations
    ensures var (t, result) := CleanUp(s, c, meta, why);
      && c.name in t.configurations && t.configurations[c.name].status.destroy == ConfigurationDestroying
      && t.configurations[c.name].spec == s.configurations[c.name].spec
      && t.configurations[c.name].status.apply == s.configurations[c.name].status.apply
  {
    hide ConnectionSecret, BackendSecret, VariableSecret;
  }

  /** A destroy reconcile logs a terraform run first if there is one, and nothing but a release otherwise. */
  lemma DestroyLogged(s: State, c: Configuration, meta: Meta, o: Oracle)
    requires WellFormed(s) && c.name in s.indexed
    ensures var t := ReconcileDestroy(s, c, meta, o).0;
      && s.log <= t.log
      && (if JobRuns(s, c) && s.configMap.Some? then |t.log| > |s.log| && t.log[|s.log|].Destroyed?
          else forall i | |s.log| <= i < |t.log| :: t.log[i].Released?)
  {
    hide TerraformDestroy, IsDeletable, JobOf, Keeps, WellFormed, RemoveRecord;
    TerraformDestroyKeeps(s, c, meta, o);
    var (s1, result) := TerraformDestroy(s, c, meta, o);
    KeepsWellFormed(s, s1, c.name);
    if result.DestroyDone? && c.name in s1.configurations {
      StoredName(s1, c.name);
      StaysIndexed(s, s1, c.name);
      RemoveRecordEffect(s1, s1.configurations[c.name], result.why);
    }
  }

  lemma StaysIndexed(s: State, t: State, n: string)
    requires Keeps(s, t, n) && n in s.indexed
    ensures n in t.indexed
  {
    hide OthersKept, SameQueues;
  }

  /** A destroy that is not to be done directly, and not to wait, runs terraform exactly when there is an input
      and no Configuration of the name with "-destroy" after it. */
  lemma JobRunsExactlyWhen(s: State, n: string, o: Oracle)
    requires BeingDeleted(s, n) && n in s.configurations
    requires DeletableBefore(s, Indexed(s, n).value, o).AfterDestroy?
    ensures var t := Reconcile(s, n, o).0;
      && s.log <= t.log
      && ((exists i :: |s.log| <= i < |t.log| && t.log[i].Destroyed?) <==>
            n + "-destroy" !in s.configurations && InputThere(s, Indexed(s, n).value, o))
  {
    assert Indexed(s, n).Some?;
    hide DestroyStart, Reconcile, BeingDeleted, DeletableBefore, InputThere, IsDeletable, JobOf, Alike, ReconcileDestroy, Indexed;
    DestroyStartKeeps(s, n, o);
    DestroyStartKnown(s, n, o);
    var (s1, c1, meta) := DestroyStart(s, n, o);
    ShadowKept(s, s1, n);
    assert n in s1.indexed by { KeepsWellFormed(s, s1, n); StillIndexed(s, s1, n); }
    hide Keeps, WellFormed;
    DestroyLogged(s1, c1, meta, o);
  }

  lemma StillIndexed(s: State, t: State, n: string)
    requires BeingDeleted(s, n) && Keeps(s, t, n)
    ensures n in t.indexed
  {
    hide RecordInv, WellFormed;
  }
}
