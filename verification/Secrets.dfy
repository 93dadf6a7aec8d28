/** Which Secrets the parts of a reconcile may write. */
module Secrets {
  import opened Objects
  import opened Render
  import opened Variables
  import opened Lifecycle
  import opened Frames

  /** No Secret disappears, and at most those of refs are different. */
  ghost predicate SecretsBut(s: State, t: State, refs: set<Ref>) {
    s.secrets.Keys <= t.secrets.Keys && t.secrets - refs == s.secrets - refs
  }

  lemma SecretsButTransitive(s: State, t: State, u: State, a: set<Ref>, b: set<Ref>)
    requires SecretsBut(s, t, a) && SecretsBut(t, u, b)
    ensures SecretsBut(s, u, a + b)
  {
    assert s.secrets - (a + b) == (s.secrets - a) - b;
    assert t.secrets - (a + b) == (t.secrets - a) - b == (t.secrets - b) - a;
    assert u.secrets - (a + b) == (u.secrets - b) - a;
  }

  /** The connection secret as a set: empty when the Configuration names none. */
  function Connection(spec: Spec): set<Ref> {
    if ConnectionSecret(spec).Some? then {ConnectionSecret(spec).value} else {}
  }

  lemma CheckEnvironmentSecrets(s: State, n: string, credentials: map<string, string>, variables: map<string, string>)
    ensures SecretsBut(s, CheckEnvironment(s, n, credentials, variables).0, {VariableSecret(n)})
    ensures var (t, meta) := CheckEnvironment(s, n, credentials, variables);
      && VariableSecret(n) in t.secrets
      && t.secrets[VariableSecret(n)] == (if VariableSecret(n) in s.secrets then s.secrets[VariableSecret(n)]
                                          else Secret(map[], AsSecretData(variables)))
      && (meta.envChanged <==> VariableSecret(n) in s.secrets && EnvChanged(variables, s.secrets[VariableSecret(n)].data))
  {
    hide EnvChanged, AsSecretData;
    if VariableSecret(n) in s.secrets && EnvChanged(variables, s.secrets[VariableSecret(n)].data) {
      assert UpdateApplyStatus(s, n, ConfigurationReloading).secrets == s.secrets;
      hide UpdateApplyStatus;
    }
  }

  lemma CheckProviderSecrets(s: State, n: string, spec: Spec, o: Oracle)
    requires WellFormed(s)
    ensures var (t, meta, ok) := CheckProvider(s, n, spec, o);
      && SecretsBut(s, t, {VariableSecret(n)})
      && (ok ==> VariableSecret(n) in t.secrets)
      && (!ok ==> t.secrets == s.secrets && !meta.envChanged)
      && (VariableSecret(n) in s.secrets ==> t.secrets == s.secrets)
  {
    hide UpdateApplyStatus, CheckEnvironment, SetRegion, GetProviderCredentials, PrepareVariables, WellFormed,
      BackendNamespace, Keeps;
    UpdateApplyStatusKeeps(s, n, Authorizing);
    var ref := GetProviderNamespacedName(spec);
    if ref in s.providers {
      SetRegionKeeps(s, n, s.providers[ref]);
      var s1 := SetRegion(s, n, s.providers[ref]).0;
      var credentials := GetProviderCredentials(s1, s.providers[ref], o.credentials);
      if credentials.Credentials? {
        var variables := PrepareVariables(spec.variable, credentials.values);
        if variables.Some? {
          CheckEnvironmentSecrets(s1, n, credentials.values, variables.value);
          OnlyThatSecret(s1, CheckEnvironment(s1, n, credentials.values, variables.value).0, VariableSecret(n));
        }
      }
    }
  }

  lemma OnlyThatSecret(s: State, t: State, ref: Ref)
    requires SecretsBut(s, t, {ref})
    ensures ref in s.secrets && t.secrets[ref] == s.secrets[ref] ==> t.secrets == s.secrets
  {
    if ref in s.secrets && t.secrets[ref] == s.secrets[ref] {
      assert t.secrets == (t.secrets - {ref})[ref := s.secrets[ref]];
      assert s.secrets == (s.secrets - {ref})[ref := s.secrets[ref]];
    }
  }

  /** preCheck creates the variable secret when it is missing and never changes a secret that is there,
      not even when it finds the environment changed. */
  lemma PreCheckSecrets(s: State, c: Configuration, o: Oracle)
    requires WellFormed(s) && Indexed(s, c.name) == Some(c)
    ensures var (t, meta, ok) := PreCheck(s, c, o);
      && SecretsBut(s, t, {VariableSecret(c.name)})
      && (ok ==> VariableSecret(c.name) in t.secrets)
      && (!ok ==> t.secrets == s.secrets && !meta.envChanged)
      && (VariableSecret(c.name) in s.secrets ==> t.secrets == s.secrets)
  {
    if o.quantities && ValidConfigurationObject(c.spec).Some? {
      var s1 := PreCheckUnfolds(s, c, o);
      hide PreCheck, CheckProvider, Keeps;
      CheckProviderSecrets(s1, c.name, WithBackend(c.spec), o);
    } else {
      UpdateApplyStatusKeeps(s, c.name, ConfigurationStaticCheckFailed);
      hide Keeps, UpdateApplyStatus;
    }
  }

  /** preCheck reaches the comparison of the merged variables with the variable secret, and they differ. */
  ghost predicate EnvironmentDiffers(s: State, c: Configuration, o: Oracle) {
    && o.quantities && ValidConfigurationObject(c.spec).Some?
    && c.name in s.configurations
    && ProviderEnvironmentDiffers(s, c.name, c.spec, o)
  }

  ghost predicate ProviderEnvironmentDiffers(s: State, n: string, spec: Spec, o: Oracle) {
    && GetProviderNamespacedName(spec) in s.providers
    && var credentials := GetProviderCredentials(s, s.providers[GetProviderNamespacedName(spec)], o.credentials);
    && credentials.Credentials?
    && var variables := PrepareVariables(spec.variable, credentials.values);
    && variables.Some?
    && VariableSecret(n) in s.secrets
    && EnvChanged(variables.value, s.secrets[VariableSecret(n)].data)
  }

  lemma CheckProviderEnvironment(s: State, n: string, spec: Spec, o: Oracle)
    requires WellFormed(s)
    ensures CheckProvider(s, n, spec, o).1.envChanged <==> n in s.configurations && ProviderEnvironmentDiffers(s, n, spec, o)
  {
    hide PrepareVariables, WellFormed, EnvChanged;
    var ref := GetProviderNamespacedName(spec);
    if ref in s.providers {
      SetRegionKeeps(s, n, s.providers[ref]);
      var (s1, region) := SetRegion(s, n, s.providers[ref]);
      assert region.Some? <==> n in s.configurations;
      hide SetRegion, Keeps, UpdateApplyStatus;
      assert GetProviderCredentials(s1, s.providers[ref], o.credentials)
          == GetProviderCredentials(s, s.providers[ref], o.credentials);
    }
  }

  /** The environment counts as changed exactly when the merged variables are not all recorded, up to
      case, in an existing variable secret. */
  lemma EnvChangedExactly(s: State, c: Configuration, o: Oracle)
    requires WellFormed(s) && Indexed(s, c.name) == Some(c)
    ensures PreCheck(s, c, o).1.envChanged <==> EnvironmentDiffers(s, c, o)
  {
    if o.quantities && ValidConfigurationObject(c.spec).Some? {
      var s1 := PreCheckUnfolds(s, c, o);
      assert s1.providers == s.providers;
      hide PreCheck, CheckProvider, Keeps, PrepareVariables, EnvChanged;
      CheckProviderEnvironment(s1, c.name, WithBackend(c.spec), o);
    }
  }

  lemma WriteConnectionSecretSecrets(s: State, c: Configuration, outputs: map<string, string>)
    ensures SecretsBut(s, WriteConnectionSecret(s, c, outputs).0, Connection(c.spec))
  {
    hide AsSecretData, Foreign, ConnectionSecret, OwnerLabels;
    if ConnectionSecret(c.spec).Some? {
      var ref := ConnectionSecret(c.spec).value;
      PutSecretBut(s, ref, Secret(OwnerLabels(c.name), AsSecretData(outputs)));
      if ref in s.secrets {
        PutSecretBut(s, ref, s.secrets[ref].(data := AsSecretData(outputs)));
      }
      hide SecretsBut, PutSecret;
    }
  }

  lemma PutSecretBut(s: State, ref: Ref, secret: Secret)
    ensures SecretsBut(s, PutSecret(s, ref, secret), {ref})
    ensures SecretsBut(s, s, {ref})
  {
  }

  lemma GetTFOutputsSecrets(s: State, backend: string, c: Configuration)
    ensures SecretsBut(s, GetTFOutputs(s, backend, c).0, Connection(c.spec))
  {
    var outputs := StateOutputs(s, backend, c.name);
    hide StateOutputs, WriteConnectionSecret;
    if outputs.Some? {
      WriteConnectionSecretSecrets(s, c, outputs.value);
    }
  }

  lemma UpdateAvailableSecrets(s: State, backend: string, n: string)
    requires WellFormed(s)
    ensures SecretsBut(s, UpdateAvailable(s, backend, n), if n in s.configurations then Connection(s.configurations[n].spec) else {})
  {
    if n in s.configurations {
      GetTFOutputsSecrets(s, backend, s.configurations[n]);
      hide GetTFOutputs;
    }
  }

  lemma RunDestroySecrets(s: State, c: Configuration, meta: Meta, o: Oracle)
    requires WellFormed(s) && c.name in s.configurations
    ensures SecretsBut(s, RunDestroy(s, c, meta, o).0, Connection(s.configurations[c.name].spec))
  {
    if s.configMap.Some? {
      var s1 := Logged(s, Destroyed(c.name, JobOf(s, c, meta), o.terraform));
      UpdateAvailableSecrets(s1, meta.backend, c.name);
      hide UpdateAvailable;
    }
  }

  lemma DestroyStatusSecrets(s: State, n: string)
    ensures UpdateDestroyStatus(s, n).secrets == s.secrets
  {
  }

  lemma CleanUpSecrets(s: State, c: Configuration, meta: Meta, why: Option<Reason>)
    ensures var (t, result) := CleanUp(s, c, meta, why);
      && t.configMap == None
      && (if result.DestroyDone? then
            && (forall r <- Connection(c.spec) :: r !in s.secrets)
            && t.secrets == s.secrets - {VariableSecret(c.name), BackendSecret(meta.backend, c.name)}
          else t.secrets == s.secrets)
  {
    hide UpdateDestroyStatus, ConnectionSecret;
    DestroyStatusSecrets(s, c.name);
    var v, b := VariableSecret(c.name), BackendSecret(meta.backend, c.name);
    assert s.secrets - {v, b} == (s.secrets - {v}) - {b};
  }

  /** The Secrets after a destroy that went through: those of before, less the variable secret and the
      backend secret. A connection secret cannot be involved: had it been there, or had the destroy job
      written it, the clean-up would have failed. */
  lemma TerraformDestroySecrets(s: State, c: Configuration, meta: Meta, o: Oracle)
    requires WellFormed(s)
    requires c.name in s.configurations ==> ConnectionSecret(s.configurations[c.name].spec) == ConnectionSecret(c.spec)
    ensures var (t, result) := TerraformDestroy(s, c, meta, o);
      result.DestroyDone? ==>
        && t.configMap == None
        && (forall r <- Connection(c.spec) :: r !in s.secrets)
        && t.secrets == s.secrets - {VariableSecret(c.name), BackendSecret(meta.backend, c.name)}
  {
    hide CleanUp, RunDestroy, UpdateJobPanics, WellFormed, Keeps, ConnectionSecret, BackendNamespace, IsDeletable, JobOf,
      BackendSecret, VariableSecret;
    CleanUpSecrets(s, c, meta, Some(DirectDelete));
    var run := JobRuns(s, c);
    var (s1, ok) := if run then RunDestroy(s, c, meta, o) else (s, true);
    assert SecretsBut(s, s1, Connection(c.spec)) by {
      if run { RunDestroySecrets(s, c, meta, o); }
    }
    hide JobRuns, SecretsBut;
    var why := if run then None else Some(JobShadowed);
    CleanUpSecrets(s1, c, meta, why);
    if CleanUp(s1, c, meta, why).1.DestroyDone? {
      NoConnectionLeft(s, s1, Connection(c.spec));
    }
  }

  lemma NoConnectionLeft(s: State, t: State, refs: set<Ref>)
    requires SecretsBut(s, t, refs) && forall r <- refs :: r !in t.secrets
    ensures t.secrets == s.secrets
  {
    assert t.secrets - refs == t.secrets;
    assert s.secrets - refs == s.secrets;
  }
}
