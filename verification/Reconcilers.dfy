/** The reconcilers as the program has them: meta data filled in step by step, fields of shared objects
    assigned, the store called. Every method is proved against its specification in Lifecycle. */
module Reconcilers {
  import opened Objects
  import opened Render
  import opened Variables
  import opened Lifecycle
  import opened KeyCodec
  import opened Store

  class TFConfigurationMeta {
    const name: string
    const providerReference: Ref
    var backend: string
    var configurationType: ConfigurationType
    var completeConfiguration: string
    var configurationChanged: bool
    var envChanged: bool
    var credentials: Option<map<string, string>>
    var variableSecretData: map<string, string>
    var envs: seq<string>

    /** initTFConfigurationMeta. */
    constructor (name: string, configuration: ConfigurationObject)
      ensures this.name == name && providerReference == GetProviderNamespacedName(configuration.spec)
      ensures !configurationChanged && !envChanged && credentials == None && variableSecretData == map[]
    {
      this.name := name;
      providerReference := GetProviderNamespacedName(configuration.spec);
      backend, configurationType, completeConfiguration := "", ConfigurationHCL, "";
      configurationChanged, envChanged, credentials, variableSecretData := false, false, None, map[];
      envs := [];
    }

    ghost function Value(): Meta
      reads this
    {
      Meta(backend, configurationChanged, envChanged, credentials, variableSecretData)
    }

    /** Converts the outputs of a state file; ok is false at the first one that does not convert. */
    static method ToProperties(values: map<string, Interface>) returns (outputs: map<string, string>, ok: bool)
      ensures ok <==> Convertible(values)
      ensures ok ==> outputs == Converted(values)
    {
      outputs := map[];
      var rest := values.Keys;
      while rest != {}
        invariant rest <= values.Keys && outputs.Keys == values.Keys - rest
        invariant forall k <- outputs :: Interface2String(values[k]) == Some(outputs[k])
        decreases |rest|
      {
        var k :| k in rest;
        rest := rest - {k};
        var value := Interface2String(values[k]);
        if value.None? { return outputs, false; }
        outputs := outputs[k := value.value];
      }
      ok := true;
    }

    /** getTFOutputs up to the conversion: the outputs in the backend secret. */
    method StateOutputs(client: Cache) returns (outputs: Option<map<string, string>>)
      requires client.Valid()
      ensures outputs == Lifecycle.StateOutputs(client.model, backend, name)
    {
      hide Cache.StoredValid, Cache.IndexedValid, Cache.ValuesValid, Cache.QueuesValid;
      var obj := client.GetByKey(SecretKey(BackendSecret(backend, name)));
      if obj.None? { return None; }
      var data := obj.value.secret.data;
      if STATE_KEY !in data || data[STATE_KEY].Text? || data[STATE_KEY].file.Unparsable? { return None; }
      var values, ok := ToProperties(data[STATE_KEY].file.outputs);
      outputs := if ok then Some(values) else None;
    }

    /** getTFOutputs from there on: the outputs are published in the connection secret. */
    method WriteConnectionSecret(client: Cache, configuration: ConfigurationObject, outputs: map<string, string>) returns (ok: bool)
      requires client.Valid() && configuration.name == name
      modifies client, client.cacheStorage, client.informerConfig, client.informerConfig.queue,
               client.informerProvider, client.informerProvider.queue
      ensures client.Valid() && client.SamePointers()
      ensures (client.model, ok) == Lifecycle.WriteConnectionSecret(old(client.model), configuration.Value(), outputs)
    {
      hide Cache.StoredValid, Cache.IndexedValid, Cache.ValuesValid, Cache.QueuesValid, Foreign, AsSecretData,
        OwnerLabels;
      var reference := configuration.spec.connection;
      if reference.None? || reference.value.name == "" { return true; }
      var ref := if reference.value.namespace == "" then Ref(DEFAULT_NAMESPACE, reference.value.name) else reference.value;
      var obj := client.GetByKey(SecretKey(ref));
      if obj.None? {
        client.Add(SecretValueOf(ref, Secret(OwnerLabels(name), AsSecretData(outputs))));
      } else {
        var gotSecret := obj.value.secret;
        if Foreign(gotSecret.labels, name) { return false; }
        client.Update(SecretValueOf(ref, gotSecret.(data := AsSecretData(outputs))), false);
      }
      ok := true;
    }

    /** getTFOutputs; None is its error return. */
    method GetTFOutputs(client: Cache, configuration: ConfigurationObject) returns (outputs: Option<map<string, string>>)
      requires client.Valid() && configuration.name == name
      modifies client, client.cacheStorage, client.informerConfig, client.informerConfig.queue,
               client.informerProvider, client.informerProvider.queue
      ensures client.Valid() && client.SamePointers()
      ensures (client.model, outputs) == Lifecycle.GetTFOutputs(old(client.model), backend, configuration.Value())
    {
      outputs := StateOutputs(client);
      if outputs.Some? {
        var ok := WriteConnectionSecret(client, configuration, outputs.value);
        if !ok { outputs := None; }
      }
    }

    /** updateApplyStatus for the state Available, from the outputs on. */
    method GenerateOutputs(client: Cache, configuration: ConfigurationObject)
      requires client.Valid() && client.Stores(configuration) && configuration.name == name
      modifies client, client.cacheStorage, client.informerConfig, client.informerConfig.queue,
               client.informerProvider, client.informerProvider.queue, configuration`status
      ensures client.Valid() && client.SamePointers() && client.Stores(configuration)
      ensures var (t, outputs) := Lifecycle.GetTFOutputs(old(client.model), backend, old(configuration.Value()));
        client.model == MutateStored(t, name, Reporting(old(configuration.Value()), outputs))
        && configuration.Value() == Reporting(old(configuration.Value()), outputs)
    {
      hide Cache.StoredValid, Cache.IndexedValid, Cache.ValuesValid, Cache.QueuesValid, Lifecycle.GetTFOutputs;
      var outputs := GetTFOutputs(client, configuration);
      assert client.Stores(configuration) by {
        assert Lookup(client.cacheStorage.items, ConfigurationKey(name)) == old(Lookup(client.cacheStorage.items, ConfigurationKey(name)));
      }
      client.SetStatus(configuration, configuration.status.(apply :=
        if outputs.Some? then ApplyStatus(Available, outputs.value) else ApplyStatus(GeneratingOutputs, map[])));
    }

    /** updateApplyStatus: the fields of the stored object are assigned, outputs generated in between. */
    method UpdateApplyStatus(client: Cache, state: ConfigurationState)
      requires client.Valid()
      modifies client, client.cacheStorage, client.informerConfig, client.informerConfig.queue,
               client.informerProvider, client.informerProvider.queue, client.objects`status
      ensures client.Valid() && client.SamePointers()
      ensures client.model == if state == Available then UpdateAvailable(old(client.model), backend, name)
                              else Lifecycle.UpdateApplyStatus(old(client.model), name, state)
    {
      hide Cache.StoredValid, Cache.IndexedValid, Cache.ValuesValid, Cache.QueuesValid;
      var obj := client.GetByKey(ConfigurationKey(name));
      if obj.Some? {
        client.Pointers(obj.value.o);
        AssignApplyStatus(client, obj.value.o, state);
      }
    }

    method AssignApplyStatus(client: Cache, configuration: ConfigurationObject, state: ConfigurationState)
      requires client.Valid() && client.Stores(configuration) && configuration.name == name
      requires Lookup(client.model.configurations, name) == Some(configuration.Value())
      modifies client, client.cacheStorage, client.informerConfig, client.informerConfig.queue,
               client.informerProvider, client.informerProvider.queue, configuration`status
      ensures client.Valid() && client.SamePointers()
      ensures client.model == if state == Available then UpdateAvailable(old(client.model), backend, name)
                              else Lifecycle.UpdateApplyStatus(old(client.model), name, state)
    {
      hide Cache.StoredValid, Cache.IndexedValid, Cache.ValuesValid, Cache.QueuesValid, Lifecycle.GetTFOutputs,
        UpdateAvailable;
      AvailableInSteps(client.model, backend, name);
      client.SetStatus(configuration, configuration.status.(apply := ApplyStatus(state, map[])));
      if state == Available {
        GenerateOutputs(client, configuration);
      }
      client.Update(ConfigurationPointer(configuration), false);
    }

    method UpdateDestroyStatus(client: Cache)
      requires client.Valid()
      modifies client, client.cacheStorage, client.informerConfig, client.informerConfig.queue,
               client.informerProvider, client.informerProvider.queue, client.objects`status
      ensures client.Valid() && client.SamePointers()
      ensures client.model == Lifecycle.UpdateDestroyStatus(old(client.model), name)
    {
      hide Cache.StoredValid, Cache.IndexedValid, Cache.ValuesValid, Cache.QueuesValid;
      var obj := client.GetByKey(ConfigurationKey(name));
      if obj.Some? {
        var configuration := obj.value.o;
        client.Pointers(configuration);
        client.SetStatus(configuration, configuration.status.(destroy := ConfigurationDestroying));
        client.Update(ConfigurationPointer(configuration), false);
      }
    }

    // ----- variables -----

    /** getTerraformJSONVariable. */
    static method GetTerraformJSONVariable(raw: RawExtension) returns (environments: Option<map<string, Interface>>)
      ensures environments ==
        if raw.Malformed? then None else Some(if raw.Decoded? then Prefixed(raw.values) else map[])
    {
      if raw.Malformed? { return None; }
      var r: map<string, Interface> := map[];
      if raw.Decoded? {
        var rest := raw.values.Keys;
        while rest != {}
          invariant rest <= raw.values.Keys
          invariant forall k | k in raw.values && k !in rest :: TF_VAR + k in r && r[TF_VAR + k] == raw.values[k]
          invariant forall e <- r :: |TF_VAR| <= |e| && e == TF_VAR + e[|TF_VAR|..] && e[|TF_VAR|..] in raw.values.Keys - rest
          decreases |rest|
        {
          var k :| k in rest;
          rest := rest - {k};
          r := r[TF_VAR + k := raw.values[k]];
          assert (TF_VAR + k)[|TF_VAR|..] == k;
        }
        assert r == Prefixed(raw.values);
      }
      environments := Some(r);
    }

    /** The first loop of prepareTFVariables: an environment entry and a converted value for every variable. */
    static method AddVariables(environments: map<string, Interface>)
      returns (envs: seq<string>, data: map<string, string>, ok: bool)
      ensures ok <==> Convertible(environments)
      ensures ok ==> data == Converted(environments) && multiset(envs) == multiset(environments.Keys)
    {
      hide Interface2String;
      envs, data := [], map[];
      var rest := environments.Keys;
      while rest != {}
        invariant rest <= environments.Keys && data.Keys == environments.Keys - rest
        invariant forall k <- data :: Interface2String(environments[k]) == Some(data[k])
        invariant multiset(envs) + multiset(rest) == multiset(environments.Keys)
        decreases |rest|
      {
        var k :| k in rest;
        OneMoreEntry(envs, rest, k, environments.Keys);
        rest := rest - {k};
        var value := Interface2String(environments[k]);
        if value.None? { return envs, data, false; }
        data := data[k := value.value];
        envs := envs + [k];
      }
      assert data == Converted(environments);
      ok := true;
    }

    /** The second loop: every credential gets an entry of its own, and overrides a variable of its name. */
    static method AddCredentials(variables: map<string, string>, credentials: map<string, string>)
      returns (envs: seq<string>, data: map<string, string>)
      ensures data == variables + credentials
      ensures multiset(envs) == multiset(credentials.Keys)
    {
      hide Overridden;
      envs, data := [], variables;
      var rest := credentials.Keys;
      NoneAdded(variables, credentials);
      while rest != {}
        invariant rest <= credentials.Keys && data == Overridden(variables, credentials, rest)
        invariant multiset(envs) + multiset(rest) == multiset(credentials.Keys)
        decreases |rest|
      {
        var k :| k in rest;
        OneMoreAdded(variables, credentials, rest, k);
        OneMoreEntry(envs, rest, k, credentials.Keys);
        rest := rest - {k};
        data := data[k := credentials[k]];
        envs := envs + [k];
      }
      AllAdded(variables, credentials);
    }

    /** prepareTFVariables. There is one environment entry for every variable and one for every credential,
        and the variable secret will have the key each of them refers to. */
    method PrepareTFVariables(configuration: ConfigurationObject) returns (ok: bool)
      modifies this`variableSecretData, this`envs
      ensures ok <==> credentials.Some? && PrepareVariables(configuration.spec.variable, credentials.value).Some?
      ensures ok ==> Some(variableSecretData) == PrepareVariables(configuration.spec.variable, credentials.value)
      ensures ok ==> multiset(envs) == multiset(Environments(configuration.spec.variable).Keys) + multiset(credentials.value.Keys)
      ensures ok ==> forall e <- envs :: e in variableSecretData
      ensures !ok ==> variableSecretData == old(variableSecretData)
    {
      var environments := GetTerraformJSONVariable(configuration.spec.variable);
      if credentials.Some? { Preparing(configuration.spec.variable, credentials.value); }
      hide PrepareVariables, Prefixed, Converted, Convertible, Interface2String;
      if environments.None? || credentials.None? { return false; }
      var entries, data, converted := AddVariables(environments.value);
      if !converted { return false; }
      var more;
      more, data := AddCredentials(data, credentials.value);
      entries := entries + more;
      EntriesBacked(entries, environments.value, credentials.value);
      if entries == [] { return false; }
      envs, variableSecretData := entries, data;
      ok := true;
    }

    /** The loop of preCheck over the variable secret. */
    static method VariablesDiffer(variables: map<string, string>, stored: map<string, SecretValue>) returns (differ: bool)
      ensures differ <==> EnvChanged(variables, stored)
    {
      var rest := variables.Keys;
      while rest != {}
        invariant rest <= variables.Keys
        invariant forall k | k in variables && k !in rest :: Recorded(k, variables[k], stored)
        decreases |rest|
      {
        var k :| k in rest;
        rest := rest - {k};
        if !Recorded(k, variables[k], stored) { return true; }
      }
      differ := false;
    }

    // ----- the input ConfigMap -----

    /** createOrUpdateConfigMap. */
    method CreateOrUpdateConfigMap(client: Cache, data: map<string, string>)
      requires client.Valid()
      modifies client, client.cacheStorage, client.informerConfig, client.informerConfig.queue,
               client.informerProvider, client.informerProvider.queue
      ensures client.Valid() && client.SamePointers()
      ensures client.model == old(client.model).(configMap := Some(data))
    {
      hide Cache.StoredValid, Cache.IndexedValid, Cache.ValuesValid, Cache.QueuesValid;
      var obj := client.GetByKey(ConfigMapKey);
      if obj.None? {
        client.Add(ConfigMapValue(data));
      } else if obj.value.data != data {
        client.Update(ConfigMapValue(data), false);
      }
    }

    /** storeTFConfiguration, for a Configuration that was rendered. */
    method StoreTFConfiguration(client: Cache, ghost spec: Spec)
      requires client.Valid() && completeConfiguration == Render.RenderConfiguration(spec, configurationType)
      modifies client, client.cacheStorage, client.informerConfig, client.informerConfig.queue,
               client.informerProvider, client.informerProvider.queue
      ensures client.Valid() && client.SamePointers()
      ensures client.model == StoreConfiguration(old(client.model), spec, configurationType)
    {
      hide Cache.StoredValid, Cache.IndexedValid, Cache.ValuesValid, Cache.QueuesValid, Render.RenderConfiguration;
      var dataName := if configurationType.ConfigurationHCL? then HCL_FILE else REMOTE_FILE;
      CreateOrUpdateConfigMap(client, map[dataName := completeConfiguration]);
    }

    /** CheckWhetherConfigurationChanges; without a ConfigMap it is an error. */
    method CheckWhetherConfigurationChanges(client: Cache, ghost spec: Spec) returns (ok: bool)
      requires client.Valid() && completeConfiguration == Render.RenderConfiguration(spec, configurationType)
      modifies this`configurationChanged
      ensures ok == client.model.configMap.Some?
      ensures configurationChanged ==
        if ok then ConfigurationChanged(client.model, spec, configurationType) else old(configurationChanged)
    {
      hide Cache.StoredValid, Cache.IndexedValid, Cache.ValuesValid, Cache.QueuesValid, Render.RenderConfiguration;
      var obj := client.GetByKey(ConfigMapKey);
      if obj.None? { return false; }
      if configurationType.ConfigurationHCL? {
        configurationChanged := Label(obj.value.data, HCL_FILE) != completeConfiguration;
      } else {
        configurationChanged := false;
      }
      ok := true;
    }

    /** The defaulting of the backend in RenderConfiguration, in the object that is rendered. */
    static method DefaultBackend(client: Cache, configuration: ConfigurationObject)
      requires client.Valid() && client.Indexes(configuration)
      modifies client`model, configuration`spec
      ensures client.Valid()
      ensures configuration.Value() == old(configuration.Value()).(spec := WithBackend(old(configuration.spec)))
      ensures client.model == MutateIndexed(old(client.model), configuration.name, configuration.Value())
    {
      hide Cache.StoredValid, Cache.IndexedValid, Cache.ValuesValid, Cache.QueuesValid;
      client.Pointers(configuration);
      var spec := configuration.spec;
      if spec.backend.Some? && spec.backend.value.path != "" {
        MutateNothing(client.model, configuration.Value());
      } else {
        client.SetSpec(configuration, spec.(backend := Some(Backend(DEFAULT_PATH))));
      }
      hide MutateIndexed;
    }

    /** RenderConfiguration. */
    static method RenderConfiguration(client: Cache, configuration: ConfigurationObject, kind: ConfigurationType)
      returns (text: string)
      requires client.Valid() && client.Indexes(configuration)
      modifies client`model, configuration`spec
      ensures client.Valid()
      ensures configuration.Value() == old(configuration.Value()).(spec := WithBackend(old(configuration.spec)))
      ensures client.model == MutateIndexed(old(client.model), configuration.name, configuration.Value())
      ensures text == Render.RenderConfiguration(configuration.spec, kind)
    {
      hide Cache.StoredValid, Cache.IndexedValid, Cache.ValuesValid, Cache.QueuesValid, MutateIndexed, RenderTemplate;
      DefaultBackend(client, configuration);
      text := RenderTemplate(configuration.spec.backend.value.path);
      if kind.ConfigurationHCL? {
        assert configuration.spec.hcl + ("\n" + text) == configuration.spec.hcl + "\n" + text;
        text := configuration.spec.hcl + ("\n" + text);
      }
    }

    // ----- preCheck -----

    method ReadBackendNamespace(client: Cache)
      requires client.Valid()
      modifies this`backend
      ensures client.Valid() && backend == BackendNamespace(client.model.environment)
    {
      hide Cache.StoredValid, Cache.IndexedValid, Cache.ValuesValid, Cache.QueuesValid;
      backend := client.Getenv(BACKEND_NAMESPACE_VARIABLE);
      if backend == "" { backend := "vela-system"; }
    }

    /** getCredentials. */
    method GetCredentials(client: Cache, p: Provider, o: Oracle) returns (ok: bool)
      requires client.Valid()
      modifies client, client.cacheStorage, client.informerConfig, client.informerConfig.queue,
               client.informerProvider, client.informerProvider.queue, this`credentials
      ensures client.Valid() && client.Kept() && client.model.environment == old(client.model.environment)
      ensures var (s1, region) := Lifecycle.SetRegion(old(client.model), name, p);
        var found := Lifecycle.GetProviderCredentials(s1, p, o.credentials);
        && client.model == s1
        && ok == (region.Some? && found.Credentials?)
        && credentials == if ok then Some(found.values) else old(credentials)
    {
      hide Cache.StoredValid, Cache.IndexedValid, Cache.ValuesValid, Cache.QueuesValid, Lifecycle.SetRegion,
        Lifecycle.GetProviderCredentials;
      var region := StoreRegion(client, name, p);
      if region.None? { return false; }
      var found := LookupCredentials(client, p, o.credentials);
      if !found.Credentials? { return false; }
      credentials := Some(found.values);
      ok := true;
    }

    /** preCheck from the variable secret on. */
    method CheckEnvironment(client: Cache)
      requires client.Valid() && credentials.Some? && !envChanged && !configurationChanged
      requires backend == BackendNamespace(client.model.environment)
      modifies client, client.cacheStorage, client.informerConfig, client.informerConfig.queue,
               client.informerProvider, client.informerProvider.queue, client.objects`status, this`envChanged
      ensures client.Valid() && client.SamePointers()
      ensures (client.model, Value()) == Lifecycle.CheckEnvironment(old(client.model), name, credentials.value, variableSecretData)
    {
      hide Cache.StoredValid, Cache.IndexedValid, Cache.ValuesValid, Cache.QueuesValid, EnvChanged,
        AsSecretData, BackendNamespace, Lifecycle.UpdateApplyStatus, UpdateAvailable;
      var obj := client.GetByKey(SecretKey(VariableSecret(name)));
      if obj.None? {
        client.Add(SecretValueOf(VariableSecret(name), Secret(map[], AsSecretData(variableSecretData))));
      } else {
        var differ := VariablesDiffer(variableSecretData, obj.value.secret.data);
        if differ {
          envChanged := true;
          UpdateApplyStatus(client, ConfigurationReloading);
        }
      }
      CreateTerraformExecutorClusterRole(client);
    }

    /** preCheck from the provider lookup on; the error is reported by ok. */
    method CheckProvider(client: Cache, configuration: ConfigurationObject, o: Oracle) returns (ok: bool)
      requires client.Valid() && Value() == NoMeta(client.model)
      requires client.Indexes(configuration) && providerReference == GetProviderNamespacedName(configuration.spec)
      modifies client, client.cacheStorage, client.informerConfig, client.informerConfig.queue,
               client.informerProvider, client.informerProvider.queue, client.objects`status, this
      ensures client.Valid() && client.Kept()
      ensures (client.model, Value(), ok) == Lifecycle.CheckProvider(old(client.model), name, old(configuration.spec), o)
    {
      hide Cache.StoredValid, Cache.IndexedValid, Cache.ValuesValid, Cache.QueuesValid, Lifecycle.SetRegion,
        Lifecycle.GetProviderCredentials, Lifecycle.UpdateApplyStatus, Lifecycle.CheckEnvironment,
        PrepareVariables, UpdateAvailable, BackendNamespace;
      var obj := client.GetByKey(ProviderKey(providerReference));
      if obj.None? {
        UpdateApplyStatus(client, Authorizing);
        return false;
      }
      ghost var (s1, region) := Lifecycle.SetRegion(client.model, name, obj.value.provider);
      ok := GetCredentials(client, obj.value.provider, o);
      assert client.model == s1;
      assert ok == (region.Some? && Lifecycle.GetProviderCredentials(s1, obj.value.provider, o.credentials).Credentials?);
      if !ok { return false; }
      ok := PrepareTFVariables(configuration);
      if !ok { return false; }
      CheckEnvironment(client);
    }

    // ----- terraform runs -----

    /** assembleAndTriggerJob. */
    method AssembleAndTriggerJob(client: Cache, ghost c: Configuration, apply: bool, o: Oracle) returns (ok: bool)
      requires client.Valid() && c.name == name
      modifies client, client.cacheStorage, client.informerConfig, client.informerConfig.queue,
               client.informerProvider, client.informerProvider.queue, client.objects`status
      ensures client.Valid() && client.SamePointers()
      ensures (client.model, ok) == if apply then RunApply(old(client.model), c, Value(), o)
                                    else RunDestroy(old(client.model), c, Value(), o)
    {
      hide Cache.StoredValid, Cache.IndexedValid, Cache.ValuesValid, Cache.QueuesValid, JobOf, UpdateAvailable;
      var obj := client.GetByKey(ConfigMapKey);
      if obj.None? { return false; }
      if apply {
        client.Note(Applied(name, JobOf(client.model, c, Value()), o.terraform, if o.terraform then o.stateFile else None));
        if !o.terraform || o.stateFile.None? { return false; }
        client.Add(SecretValueOf(BackendSecret(backend, name), Secret(map[], map[STATE_KEY := Gzip(o.stateFile.value)])));
      } else {
        client.Note(Destroyed(name, JobOf(client.model, c, Value()), o.terraform));
        if !o.terraform { return false; }
      }
      UpdateApplyStatus(client, Available);
      ok := true;
    }

    /** updateTerraformJobIfNeeded; the type assertion on the secret it finds fails. */
    method UpdateTerraformJobIfNeeded(client: Cache) returns (panicked: bool)
      requires client.Valid()
      ensures client.Valid() && panicked == UpdateJobPanics(client.model, name, Value())
    {
      hide Cache.StoredValid, Cache.IndexedValid, Cache.ValuesValid, Cache.QueuesValid;
      if envChanged || configurationChanged {
        var obj := client.GetByKey(SecretKey(VariableSecret(name)));
        return obj.Some?;
      }
      panicked := false;
    }

    /** deleteConfigMap. */
    method DeleteConfigMap(client: Cache)
      requires client.Valid()
      modifies client, client.cacheStorage, client.informerConfig, client.informerConfig.queue
      ensures client.Valid() && client.SamePointers() && client.model == old(client.model).(configMap := None)
    {
      hide Cache.StoredValid, Cache.IndexedValid, Cache.ValuesValid, Cache.QueuesValid;
      var obj := client.GetByKey(ConfigMapKey);
      if obj.Some? {
        client.Delete(ConfigMapValue(obj.value.data));
      }
    }

    /** The last two parts of terraformDestroy: the variable secret and the backend secret are deleted. */
    method DeleteSecrets(client: Cache)
      requires client.Valid()
      modifies client, client.cacheStorage, client.informerConfig, client.informerConfig.queue
      ensures client.Valid() && client.SamePointers()
      ensures client.model == Lifecycle.DeleteSecrets(old(client.model), backend, name)
    {
      hide Cache.StoredValid, Cache.IndexedValid, Cache.ValuesValid, Cache.QueuesValid;
      DeleteSecret(client, VariableSecret(name));
      DeleteSecret(client, BackendSecret(backend, name));
    }
  }

  method DeleteSecret(client: Cache, ref: Ref)
    requires client.Valid()
    modifies client, client.cacheStorage, client.informerConfig, client.informerConfig.queue
    ensures client.Valid() && client.SamePointers() && client.model == DropSecret(old(client.model), ref)
  {
    hide Cache.StoredValid, Cache.IndexedValid, Cache.ValuesValid, Cache.QueuesValid;
    var obj := client.GetByKey(SecretKey(ref));
    if obj.Some? {
      client.Delete(obj.value);
    } else {
      assert client.model.secrets - {ref} == client.model.secrets;
    }
  }

  /** deleteConnectionSecret; the type assertion on the secret it finds fails. */
  method DeleteConnectionSecret(client: Cache, spec: Spec) returns (panicked: bool)
    requires client.Valid()
    ensures client.Valid() && panicked == ConnectionPanics(client.model, spec)
  {
    hide Cache.StoredValid, Cache.IndexedValid, Cache.ValuesValid, Cache.QueuesValid;
    if spec.connection.None? || spec.connection.value.name == "" { return false; }
    var ns := if spec.connection.value.namespace == "" then DEFAULT_NAMESPACE else spec.connection.value.namespace;
    var obj := client.GetByKey(SecretKey(Ref(ns, spec.connection.value.name)));
    panicked := obj.Some?;
  }

  /** IsDeletable. */
  method CheckDeletable(client: Cache, configuration: ConfigurationObject) returns (deletable: Deletable)
    requires client.Valid()
    ensures client.Valid() && deletable == IsDeletable(client.model, configuration.Value())
  {
    hide Cache.StoredValid, Cache.IndexedValid, Cache.ValuesValid, Cache.QueuesValid;
    var obj := client.GetByKey(ProviderKey(GetProviderNamespacedName(configuration.spec)));
    if obj.None? || obj.value.provider.state == ProviderIsNotReady || configuration.status.apply.state == TerraformInitError {
      return Directly;
    }
    deletable := if configuration.status.apply.state == ConfigurationProvisioningAndChecking then NotYet else AfterDestroy;
  }

  class ConfigurationReconciler {
    const client: Cache

    constructor (client: Cache)
      ensures this.client == client
    {
      this.client := client;
    }

    /** preCheck from the rendering to the comparison with the ConfigMap. */
    method StoreRendered(configuration: ConfigurationObject, meta: TFConfigurationMeta, kind: ConfigurationType)
      requires client.Valid() && client.Indexes(configuration) && meta.name == configuration.name
      modifies client, client.cacheStorage, client.informerConfig, client.informerConfig.queue,
               client.informerProvider, client.informerProvider.queue, configuration`spec,
               meta`configurationType, meta`completeConfiguration, meta`configurationChanged
      ensures client.Valid() && client.SamePointers()
      ensures configuration.spec == WithBackend(old(configuration.spec)) && meta.configurationType == kind
      ensures meta.completeConfiguration == Render.RenderConfiguration(configuration.spec, kind)
      ensures client.model == Lifecycle.StoreRendered(old(client.model), old(configuration.Value()), kind)
      ensures meta.configurationChanged == ConfigurationChanged(client.model, configuration.spec, kind)
    {
      hide Cache.StoredValid, Cache.IndexedValid, Cache.ValuesValid, Cache.QueuesValid,
        Render.RenderConfiguration, MutateIndexed, ConfigurationChanged, InputData, WithBackend;
      meta.configurationType := kind;
      meta.completeConfiguration := TFConfigurationMeta.RenderConfiguration(client, configuration, kind);
      meta.StoreTFConfiguration(client, configuration.spec);
      var ok := meta.CheckWhetherConfigurationChanges(client, configuration.spec);
    }

    /** preCheck of a valid Configuration. */
    method PreCheckValid(configuration: ConfigurationObject, meta: TFConfigurationMeta, kind: ConfigurationType, o: Oracle)
      returns (ok: bool)
      requires client.Valid() && client.Indexes(configuration) && configuration in client.objects
      requires meta.name == configuration.name && meta.providerReference == GetProviderNamespacedName(configuration.spec)
      requires meta.Value() == NoMeta(client.model)
      requires o.quantities && ValidConfigurationObject(configuration.spec) == Some(kind)
      modifies client, client.cacheStorage, client.informerConfig, client.informerConfig.queue,
               client.informerProvider, client.informerProvider.queue, client.objects`status, configuration`spec, meta
      ensures client.Valid() && client.Kept()
      ensures (client.model, meta.Value(), ok) == Lifecycle.PreCheck(old(client.model), old(configuration.Value()), o)
    {
      hide Cache.StoredValid, Cache.IndexedValid, Cache.ValuesValid, Cache.QueuesValid,
        Lifecycle.CheckProvider, UpdateAvailable, ValidConfigurationObject, Lifecycle.UpdateApplyStatus,
        Render.RenderConfiguration, Lifecycle.StoreRendered, ConfigurationChanged, BackendNamespace;
      SameEnvironment(client.model, configuration.Value(), kind);
      StoreRendered(configuration, meta, kind);
      hide WithBackend, StoreConfiguration;
      ghost var spec := configuration.spec;
      if meta.configurationChanged {
        meta.UpdateApplyStatus(client, ConfigurationReloading);
        meta.StoreTFConfiguration(client, spec);
        ok := true;
      } else {
        ok := meta.CheckProvider(client, configuration, o);
      }
    }

    /** preCheck. */
    method PreCheck(configuration: ConfigurationObject, meta: TFConfigurationMeta, o: Oracle) returns (ok: bool)
      requires client.Valid() && client.Indexes(configuration)
      requires meta.name == configuration.name && meta.providerReference == GetProviderNamespacedName(configuration.spec)
      requires meta.Value().(backend := "") == Meta("", false, false, None, map[])
      modifies client, client.cacheStorage, client.informerConfig, client.informerConfig.queue,
               client.informerProvider, client.informerProvider.queue, client.objects`status, configuration`spec, meta
      ensures client.Valid() && client.Kept()
      ensures (client.model, meta.Value(), ok) == Lifecycle.PreCheck(old(client.model), old(configuration.Value()), o)
    {
      hide Cache.StoredValid, Cache.IndexedValid, Cache.ValuesValid, Cache.QueuesValid,
        Lifecycle.CheckProvider, UpdateAvailable, ValidConfigurationObject, Lifecycle.UpdateApplyStatus,
        Render.RenderConfiguration, Lifecycle.StoreRendered, ConfigurationChanged;
      client.Pointers(configuration);
      meta.ReadBackendNamespace(client);
      hide BackendNamespace;
      if !o.quantities { return false; }
      var kind := ValidConfigurationObject(configuration.spec);
      if kind.None? {
        meta.UpdateApplyStatus(client, ConfigurationStaticCheckFailed);
        return false;
      }
      ok := PreCheckValid(configuration, meta, kind.value, o);
    }

    /** The loop of terraformApply: the entries that are not empty go into the process environment. */
    method SetEnvironment(variables: map<string, string>)
      requires client.Valid()
      modifies client`model, client.process
      ensures client.Valid() && client.SamePointers()
      ensures client.model == old(client.model).(environment := old(client.model).environment + NonEmpty(variables))
    {
      hide Cache.StoredValid, Cache.IndexedValid, Cache.ValuesValid, Cache.QueuesValid, NonEmpty;
      var rest := variables.Keys;
      NothingSet(client.model.environment, variables);
      while rest != {}
        invariant client.Valid() && client.SamePointers() && rest <= variables.Keys
        invariant client.model ==
          old(client.model).(environment := old(client.model).environment + NonEmpty(variables - rest))
        decreases |rest|
      {
        var k :| k in rest;
        OneMoreSet(old(client.model).environment, variables, rest, k);
        rest := rest - {k};
        if variables[k] != "" { client.Setenv(k, variables[k]); }
      }
      assert variables - {} == variables;
    }

    /** terraformApply. */
    method TerraformApply(configuration: ConfigurationObject, meta: TFConfigurationMeta, o: Oracle) returns (ok: bool)
      requires client.Valid() && configuration.name == meta.name
      modifies client, client.cacheStorage, client.informerConfig, client.informerConfig.queue,
               client.informerProvider, client.informerProvider.queue, client.objects`status, client.process
      ensures client.Valid() && client.SamePointers()
      ensures (client.model, ok) == Lifecycle.TerraformApply(old(client.model), old(configuration.Value()), meta.Value(), o)
    {
      hide Cache.StoredValid, Cache.IndexedValid, Cache.ValuesValid, Cache.QueuesValid, NonEmpty, RunApply,
        RunDestroy;
      ghost var c := configuration.Value();
      SetEnvironment(meta.variableSecretData);
      ok := meta.AssembleAndTriggerJob(client, c, true, o);
    }

    /** terraformDestroy from the destroy status on. */
    method CleanUp(configuration: ConfigurationObject, meta: TFConfigurationMeta, why: Option<Reason>) returns (result: DestroyResult)
      requires client.Valid() && configuration.name == meta.name
      modifies client, client.cacheStorage, client.informerConfig, client.informerConfig.queue,
               client.informerProvider, client.informerProvider.queue, client.objects`status
      ensures client.Valid() && client.SamePointers()
      ensures forall c: Configuration | c.name == meta.name && c.spec == configuration.spec ::
                (client.model, result) == Lifecycle.CleanUp(old(client.model), c, meta.Value(), why)
    {
      hide Cache.StoredValid, Cache.IndexedValid, Cache.ValuesValid, Cache.QueuesValid,
        Lifecycle.UpdateDestroyStatus, Lifecycle.DeleteSecrets, ConnectionPanics;
      meta.UpdateDestroyStatus(client);
      meta.DeleteConfigMap(client);
      var panicked := DeleteConnectionSecret(client, configuration.spec);
      if panicked { return DestroyPanic; }
      meta.DeleteSecrets(client);
      result := DestroyDone(why);
    }

    /** terraformDestroy. */
    method TerraformDestroy(configuration: ConfigurationObject, meta: TFConfigurationMeta, o: Oracle) returns (result: DestroyResult)
      requires client.Valid() && configuration.name == meta.name
      modifies client, client.cacheStorage, client.informerConfig, client.informerConfig.queue,
               client.informerProvider, client.informerProvider.queue, client.objects`status
      ensures client.Valid() && client.SamePointers()
      ensures (client.model, result) == Lifecycle.TerraformDestroy(old(client.model), old(configuration.Value()), meta.Value(), o)
    {
      hide Cache.StoredValid, Cache.IndexedValid, Cache.ValuesValid, Cache.QueuesValid, IsDeletable, RunApply,
        RunDestroy, UpdateJobPanics, Lifecycle.CleanUp;
      ghost var c := configuration.Value();
      var deletable := CheckDeletable(client, configuration);
      if deletable.NotYet? { return DestroyError; }
      if deletable.Directly? {
        result := CleanUp(configuration, meta, Some(DirectDelete));
        return;
      }
      var ran := false;
      var obj := client.GetByKey(ConfigurationKey(DestroyJobName(meta.name)));
      if obj.None? {
        obj := client.GetByKey(ConfigurationKey(configuration.name));
        if obj.Some? {
          ran := meta.AssembleAndTriggerJob(client, c, false, o);
          if !ran { return DestroyError; }
        }
      }
      var panicked := meta.UpdateTerraformJobIfNeeded(client);
      if panicked { return DestroyPanic; }
      result := CleanUp(configuration, meta, if ran then None else Some(JobShadowed));
    }

    /** The finalizer is added to the indexer's object, which the store is made to hold. */
    method EnsureFinalizer(configuration: ConfigurationObject)
      requires client.Valid() && client.Indexes(configuration)
      modifies client, client.cacheStorage, client.informerConfig, client.informerConfig.queue,
               client.informerProvider, client.informerProvider.queue, configuration`finalizer
      ensures client.Valid() && client.Kept()
      ensures client.model == Lifecycle.EnsureFinalizer(old(client.model), old(configuration.Value()))
      ensures configuration.finalizer == (old(configuration.finalizer) || !configuration.deleting)
    {
      hide Cache.StoredValid, Cache.IndexedValid, Cache.ValuesValid, Cache.QueuesValid, UpdateFromIndexer,
        MutateIndexed, Added;
      client.Pointers(configuration);
      if !configuration.deleting && !configuration.finalizer {
        client.AddFinalizer(configuration);
        client.Update(ConfigurationPointer(configuration), false);
      }
    }

    /** The finalizer is removed from a copy of the stored object, and the record is deleted. */
    method RemoveRecord(stored: ConfigurationObject, ghost why: Option<Reason>)
      requires client.Valid() && client.Stores(stored)
      modifies client, client.cacheStorage, client.informerConfig, client.informerConfig.queue,
               client.informerProvider, client.informerProvider.queue
      ensures client.Valid() && client.Kept()
      ensures client.model == Lifecycle.RemoveRecord(old(client.model), old(stored.Value()), why)
    {
      hide Cache.StoredValid, Cache.IndexedValid, Cache.ValuesValid, Cache.QueuesValid, UpdateWithCopy, CacheDelete;
      ghost var c := stored.Value();
      if stored.finalizer {
        var configuration := UpdateCopy(client, stored.Value().(finalizer := false));
        client.Delete(ConfigurationPointer(configuration));
      } else {
        var configuration := new ConfigurationObject(stored.Value());
        client.Delete(ConfigurationPointer(configuration));
      }
      if why.Some? { client.Note(Released(c.name, why.value)); }
    }

    method ReconcileDestroy(configuration: ConfigurationObject, meta: TFConfigurationMeta, o: Oracle) returns (out: Outcome)
      requires client.Valid() && configuration.name == meta.name
      modifies client, client.cacheStorage, client.informerConfig, client.informerConfig.queue,
               client.informerProvider, client.informerProvider.queue, client.objects`status
      ensures client.Valid() && client.Kept()
      ensures (client.model, out) == Lifecycle.ReconcileDestroy(old(client.model), old(configuration.Value()), meta.Value(), o)
    {
      hide Cache.StoredValid, Cache.IndexedValid, Cache.ValuesValid, Cache.QueuesValid, Lifecycle.RemoveRecord,
        Lifecycle.TerraformDestroy;
      var result := TerraformDestroy(configuration, meta, o);
      match result
      case DestroyPanic => out := Panicked;
      case DestroyError => out := Done(REQUEUE, true);
      case DestroyDone(why) =>
        var obj := client.GetByKey(ConfigurationKey(meta.name));
        if obj.None? { return Done(0, true); }
        client.Pointers(obj.value.o);
        RemoveRecord(obj.value.o, why);
        out := Done(0, false);
    }

    method ReconcileApply(configuration: ConfigurationObject, meta: TFConfigurationMeta, o: Oracle) returns (out: Outcome)
      requires client.Valid() && configuration.name == meta.name
      modifies client, client.cacheStorage, client.informerConfig, client.informerConfig.queue,
               client.informerProvider, client.informerProvider.queue, client.objects`status, client.process
      ensures client.Valid() && client.Kept()
      ensures (client.model, out) == Lifecycle.ReconcileApply(old(client.model), old(configuration.Value()), meta.Value(), o)
    {
      hide Cache.StoredValid, Cache.IndexedValid, Cache.ValuesValid, Cache.QueuesValid, Lifecycle.TerraformApply;
      var ok := TerraformApply(configuration, meta, o);
      out := if ok then Done(0, false) else Done(REQUEUE, true);
    }

    /** Reconcile from preCheck on. */
    method CheckAndRun(configuration: ConfigurationObject, meta: TFConfigurationMeta, isDeleting: bool, o: Oracle)
      returns (out: Outcome)
      requires client.Valid() && client.Indexes(configuration)
      requires meta.name == configuration.name && meta.providerReference == GetProviderNamespacedName(configuration.spec)
      requires meta.Value().(backend := "") == Meta("", false, false, None, map[])
      modifies client, client.cacheStorage, client.informerConfig, client.informerConfig.queue,
               client.informerProvider, client.informerProvider.queue, client.objects`status, configuration`spec, client.process, meta
      ensures client.Valid() && client.Kept()
      ensures (client.model, out) == CheckedAndRun(old(client.model), old(configuration.Value()), isDeleting, o)
    {
      hide Cache.StoredValid, Cache.IndexedValid, Cache.ValuesValid, Cache.QueuesValid, Indexed,
        Lifecycle.PreCheck, Lifecycle.ReconcileDestroy, Lifecycle.ReconcileApply;
      var ok := PreCheck(configuration, meta, o);
      if !ok && !isDeleting { return Done(0, true); }
      client.Pointers(configuration);
      if isDeleting {
        out := ReconcileDestroy(configuration, meta, o);
      } else {
        out := ReconcileApply(configuration, meta, o);
      }
    }

    /** Reconcile, for the request default/<name>. */
    method Reconcile(name: string, o: Oracle) returns (out: Outcome)
      requires client.Valid()
      modifies client.Repr()
      ensures client.Valid() && client.Kept()
      ensures (client.model, out) == Lifecycle.Reconcile(old(client.model), name, o)
    {
      hide Cache.StoredValid, Cache.IndexedValid, Cache.ValuesValid, Cache.QueuesValid, Indexed,
        Lifecycle.EnsureFinalizer, Lifecycle.Reconcile, CheckedAndRun;
      var item := client.GetIndexed(name);
      ReconcileParts(client.model, name, o);
      if item.None? { return Done(0, false); }
      var configuration := item.value;
      var meta := new TFConfigurationMeta(name, configuration);
      var isDeleting := configuration.deleting;
      EnsureFinalizer(configuration);
      out := CheckAndRun(configuration, meta, isDeleting, o);
    }
  }

  class ProviderReconciler {
    const client: Cache

    constructor (client: Cache)
      ensures this.client == client
    {
      this.client := client;
    }

    /** Reconcile, for the request of the Provider ref. */
    method Reconcile(ref: Ref, o: Oracle) returns (out: Outcome)
      requires client.Valid()
      modifies client, client.cacheStorage, client.informerConfig, client.informerConfig.queue,
               client.informerProvider, client.informerProvider.queue
      ensures client.Valid() && client.SamePointers()
      ensures (client.model, out) == ReconcileProvider(old(client.model), ref, o)
    {
      hide Cache.StoredValid, Cache.IndexedValid, Cache.ValuesValid, Cache.QueuesValid, GetProviderCredentials;
      var item := client.GetIndexedProvider(ref);
      if item.None? { return Done(0, false); }
      var found := LookupCredentials(client, item.value, o.credentials);
      var p := item.value.(state := if found.CredentialError? then ProviderIsNotReady else ProviderIsReady);
      client.SetIndexedProvider(ref, p);
      client.Update(ProviderValue(ref, p), false);
      out := Done(0, found.CredentialError?);
    }
  }

  /** A reconcile from preCheck on, of the object c of the indexer. */
  ghost function CheckedAndRun(s: State, c: Configuration, isDeleting: bool, o: Oracle): (State, Outcome) {
    var (s2, checked, ok) := PreCheck(s, c, o);
    var c2 := Current(s2, c);
    if !ok && !isDeleting then (s2, Done(0, true))
    else if isDeleting then ReconcileDestroy(s2, c2, checked, o)
    else ReconcileApply(s2, c2, checked, o)
  }

  lemma ReconcileParts(s: State, name: string, o: Oracle)
    ensures Indexed(s, name).None? ==> Reconcile(s, name, o) == (s, Done(0, false))
    ensures Indexed(s, name).Some? ==>
      var c := Indexed(s, name).value;
      Reconcile(s, name, o) ==
        CheckedAndRun(EnsureFinalizer(s, c), if c.deleting then c else c.(finalizer := true), c.deleting, o)
  {
    hide EnsureFinalizer, PreCheck, ReconcileDestroy, ReconcileApply, Current;
  }

  lemma OneMoreEntry(envs: seq<string>, rest: set<string>, k: string, keys: set<string>)
    requires multiset(envs) + multiset(rest) == multiset(keys) && k in rest
    ensures multiset(envs + [k]) + multiset(rest - {k}) == multiset(keys)
  {
  }

  /** The variables overridden by the credentials but for those of rest. */
  ghost function Overridden(variables: map<string, string>, credentials: map<string, string>, rest: set<string>): map<string, string> {
    variables + (credentials - rest)
  }

  lemma NoneAdded(variables: map<string, string>, credentials: map<string, string>)
    ensures Overridden(variables, credentials, credentials.Keys) == variables
  {
  }

  lemma OneMoreAdded(variables: map<string, string>, credentials: map<string, string>, rest: set<string>, k: string)
    requires k in rest && k in credentials
    ensures Overridden(variables, credentials, rest - {k}) == Overridden(variables, credentials, rest)[k := credentials[k]]
  {
  }

  lemma AllAdded(variables: map<string, string>, credentials: map<string, string>)
    ensures Overridden(variables, credentials, {}) == variables + credentials
  {
    assert credentials - {} == credentials;
  }

  lemma NothingSet(environment: map<string, string>, variables: map<string, string>)
    ensures environment + NonEmpty(variables - variables.Keys) == environment
  {
  }

  lemma OneMoreSet(environment: map<string, string>, variables: map<string, string>, rest: set<string>, k: string)
    requires k in rest && k in variables
    ensures environment + NonEmpty(variables - (rest - {k})) ==
      if variables[k] != "" then (environment + NonEmpty(variables - rest))[k := variables[k]]
      else environment + NonEmpty(variables - rest)
  {
  }

  lemma SameEnvironment(s: State, c: Configuration, kind: ConfigurationType)
    ensures StoreRendered(s, c, kind).environment == s.environment
    ensures GetProviderNamespacedName(WithBackend(c.spec)) == GetProviderNamespacedName(c.spec)
  {
  }

  /** SetRegion: the region is written into a copy of the stored Configuration. */
  method StoreRegion(client: Cache, name: string, p: Provider) returns (region: Option<string>)
    requires client.Valid()
    modifies client, client.cacheStorage, client.informerConfig, client.informerConfig.queue,
             client.informerProvider, client.informerProvider.queue
    ensures client.Valid() && client.Kept() && client.model.environment == old(client.model.environment)
    ensures (client.model, region) == Lifecycle.SetRegion(old(client.model), name, p)
  {
    hide Cache.StoredValid, Cache.IndexedValid, Cache.ValuesValid, Cache.QueuesValid, UpdateWithCopy;
    var obj := client.GetByKey(ConfigurationKey(name));
    if obj.None? { return None; }
    client.Pointers(obj.value.o);
    var configuration := obj.value.o.Value();
    if configuration.spec.region != "" { return Some(configuration.spec.region); }
    var copy := UpdateCopy(client, configuration.(spec := configuration.spec.(region := p.region)));
    region := Some(p.region);
  }

  /** Client.Update(&configuration, false) of a local copy of a Configuration. */
  method UpdateCopy(client: Cache, c: Configuration) returns (configuration: ConfigurationObject)
    requires client.Valid()
    modifies client, client.cacheStorage, client.informerConfig, client.informerConfig.queue,
             client.informerProvider, client.informerProvider.queue
    ensures client.Valid() && client.Kept() && client.model == UpdateWithCopy(old(client.model), c)
    ensures client.model.environment == old(client.model.environment)
    ensures fresh(configuration) && configuration.Value() == c
  {
    hide Cache.StoredValid, Cache.IndexedValid, Cache.ValuesValid, Cache.QueuesValid, Detached;
    client.IndexedInUse();
    configuration := new ConfigurationObject(c);
    client.Update(ConfigurationPointer(configuration), false);
  }

  /** GetProviderCredentials; decoded is what the decoding of the secret gives. */
  method LookupCredentials(client: Cache, p: Provider, decoded: Credentials) returns (found: Credentials)
    requires client.Valid()
    ensures client.Valid() && found == Lifecycle.GetProviderCredentials(client.model, p, decoded)
  {
    hide Cache.StoredValid, Cache.IndexedValid, Cache.ValuesValid, Cache.QueuesValid;
    if p.source != "Secret" { return CredentialError; }
    var obj := client.GetByKey(SecretKey(p.secretRef));
    if obj.None? || p.secretKey !in obj.value.secret.data || p.cloud !in CLOUDS { return CredentialError; }
    found := decoded;
  }

  /** createTerraformExecutorClusterRole: the key it looks for is never there. */
  method CreateTerraformExecutorClusterRole(client: Cache)
    requires client.Valid()
    modifies client, client.cacheStorage, client.informerConfig, client.informerConfig.queue,
             client.informerProvider, client.informerProvider.queue
    ensures client.Valid() && client.SamePointers() && client.model == old(client.model).(clusterRole := true)
  {
    hide Cache.StoredValid, Cache.IndexedValid, Cache.ValuesValid, Cache.QueuesValid;
    client.Add(ClusterRoleValue);
  }

  lemma MutateNothing(s: State, c: Configuration)
    requires c.name in s.indexed && Indexed(s, c.name) == Some(c)
    ensures MutateIndexed(s, c.name, c) == s
  {
    if s.indexed[c.name].Own? {
      assert s.indexed[c.name := Own(c)] == s.indexed;
    } else {
      assert s.configurations[c.name := c] == s.configurations;
    }
  }

  function Environments(raw: RawExtension): map<string, Interface> {
    if raw.Decoded? then Prefixed(raw.values) else map[]
  }

  lemma Preparing(raw: RawExtension, credentials: map<string, string>)
    ensures PrepareVariables(raw, credentials) ==
      if raw.Malformed? || !Convertible(Environments(raw)) || (Environments(raw) == map[] && credentials == map[]) then None
      else Some(Converted(Environments(raw)) + credentials)
  {
    hide Prefixed, Converted, Interface2String;
  }

  lemma EntriesBacked(envs: seq<string>, environments: map<string, Interface>, credentials: map<string, string>)
    requires Convertible(environments)
    requires multiset(envs) == multiset(environments.Keys) + multiset(credentials.Keys)
    ensures envs == [] <==> environments == map[] && credentials == map[]
    ensures forall e <- envs :: e in Merged(environments, credentials)
  {
    assert |multiset(envs)| == |environments.Keys| + |credentials.Keys|;
    forall e <- envs ensures e in Merged(environments, credentials) {
      assert e in multiset(envs);
    }
  }

  /** The Configuration with the status updateApplyStatus gives it. */
  function Reporting(c: Configuration, outputs: Option<map<string, string>>): Configuration {
    if outputs.Some? then WithApplyStatus(c, Available, outputs.value) else WithApplyStatus(c, GeneratingOutputs, map[])
  }

  /** Assigning the status, generating the outputs and assigning it again is UpdateAvailable. */
  lemma AvailableInSteps(s: State, backend: string, n: string)
    requires n in s.configurations && s.configurations[n].name == n
    ensures var c1 := WithApplyStatus(s.configurations[n], Available, map[]);
      var (t, outputs) := GetTFOutputs(MutateStored(s, n, c1), backend, c1);
      MutateStored(t, n, Reporting(c1, outputs)) == UpdateAvailable(s, backend, n)
  {
    hide GetTFOutputs;
    OutputsFirst(s, backend, n);
  }

  /** The outputs do not depend on the status that is assigned before they are generated. */
  lemma OutputsFirst(s: State, backend: string, n: string)
    requires n in s.configurations && s.configurations[n].name == n
    ensures var c := s.configurations[n];
      var c1 := WithApplyStatus(c, Available, map[]);
      var (t, outputs) := GetTFOutputs(s, backend, c);
      GetTFOutputs(MutateStored(s, n, c1), backend, c1) == (MutateStored(t, n, c1), outputs)
  {
    var c1 := WithApplyStatus(s.configurations[n], Available, map[]);
    assert StateOutputs(MutateStored(s, n, c1), backend, n) == StateOutputs(s, backend, n);
    hide StateOutputs, FileOutputs, AsSecretData, Foreign, OwnerLabels, ConnectionSecret;
    if StateOutputs(s, backend, n).Some? {
      WriteFirst(s, s.configurations[n], StateOutputs(s, backend, n).value);
      hide WriteConnectionSecret;
    }
  }

  lemma WriteFirst(s: State, c: Configuration, outputs: map<string, string>)
    ensures var c1 := WithApplyStatus(c, Available, map[]);
      var (t, ok) := WriteConnectionSecret(s, c, outputs);
      WriteConnectionSecret(MutateStored(s, c.name, c1), c1, outputs) == (MutateStored(t, c.name, c1), ok)
  {
    assert ConnectionSecret(WithApplyStatus(c, Available, map[]).spec) == ConnectionSecret(c.spec);
    hide AsSecretData, Foreign, OwnerLabels, ConnectionSecret;
    var c1 := WithApplyStatus(c, Available, map[]);
    if ConnectionSecret(c.spec).Some? {
      var ref := ConnectionSecret(c.spec).value;
      PutSecretFirst(s, c1, ref, Secret(OwnerLabels(c.name), AsSecretData(outputs)));
      if ref in s.secrets { PutSecretFirst(s, c1, ref, s.secrets[ref].(data := AsSecretData(outputs))); }
    }
    hide PutSecret, MutateStored;
    assert MutateStored(s, c.name, c1).secrets == s.secrets by { StoredSecrets(s, c1); }
  }

  lemma StoredSecrets(s: State, c: Configuration)
    ensures MutateStored(s, c.name, c).secrets == s.secrets
  {
  }

  lemma PutSecretFirst(s: State, c: Configuration, ref: Ref, secret: Secret)
    ensures PutSecret(MutateStored(s, c.name, c), ref, secret) == MutateStored(PutSecret(s, ref, secret), c.name, c)
  {
  }
}
