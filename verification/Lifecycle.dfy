/** The state the store, the informers and the work queues hold together, and the specification of
    every operation of the controller as a function on it. */
module Lifecycle {
  import opened Objects
  import opened Render
  import opened Variables

  // ---------------------------------------------------------------- state

  /** What the configuration informer's indexer holds under a name: the very object the store holds,
      or an object of its own. */
  datatype Entry = Same | Own(configuration: Configuration)

  datatype Request = ConfigurationRequest(name: string) | ProviderRequest(ref: Ref)

  /** What a terraform run could see when it started. */
  datatype Job = Job(
    reconciled: Configuration,             // the object being reconciled
    stored: Option<Configuration>,         // the object in the store
    input: map<string, string>,            // data of the input ConfigMap
    provider: Option<Provider>,
    credentials: Option<map<string, string>>,
    variables: map<string, string>,
    environment: map<string, string>)      // process environment

  /** Why a record left the store without a destroy run. */
  datatype Reason = DirectDelete | JobShadowed

  datatype LogEntry =
    | Written(name: string)                                        // REST create or update
    | Applied(name: string, job: Job, ok: bool, file: Option<StateFile>)
    | Destroyed(name: string, job: Job, ok: bool)
    | Released(name: string, why: Reason)

  datatype State = State(
    configurations: map<string, Configuration>,   // keys Configuration/default/<name>
    providers: map<Ref, Provider>,                // keys Provider/<namespace>/<name>
    secrets: map<Ref, Secret>,                    // keys Secret/<namespace>/<name>
    configMap: Option<map<string, string>>,       // key ConfigMap/default/tf-Configuration
    clusterRole: bool,                            // key default-tf-executor-clusterrole
    indexed: map<string, Entry>,                  // indexer of the configuration informer
    indexedProviders: map<Ref, Provider>,         // indexer of the provider informer
    ready: set<Request>,                          // both work queues
    delayed: set<Request>,                        // AddRateLimited and AddAfter entries
    environment: map<string, string>,             // process environment
    log: seq<LogEntry>,
    injected: nat,                                // InjectWorkerQueue calls
    retried: nat,                                 // retries asked for by reconcileHandler
    handled: nat)                                 // reconcileHandler calls

  /** The start of a process with that environment: an empty store and empty queues. */
  function Initial(environment: map<string, string>): State {
    State(map[], map[], map[], None, false, map[], map[], {}, {}, environment, [], 0, 0, 0)
  }

  // ---------------------------------------------------------------- names

  function VariableSecretName(name: string): string { "variable-" + name }

  function BackendSecretName(name: string): string { "tfstate-default-" + name }

  function DestroyJobName(name: string): string { name + "-destroy" }

  function VariableSecret(name: string): Ref { Ref(DEFAULT_NAMESPACE, VariableSecretName(name)) }

  function BackendSecret(namespace: string, name: string): Ref { Ref(namespace, BackendSecretName(name)) }

  const BACKEND_NAMESPACE_VARIABLE := "TERRAFORM_BACKEND_NAMESPACE"
  const STATE_KEY := "tfstate"
  const HCL_FILE := "main.tf"
  const REMOTE_FILE := "terraform-backend.tf"
  const CREATED_BY := "terraform.core.oam.dev/created-by"
  const OWNED_BY := "terraform.core.oam.dev/owned-by"
  const OWNED_NAMESPACE := "terraform.core.oam.dev/owned-namespace"

  function BackendNamespace(environment: map<string, string>): string {
    if BACKEND_NAMESPACE_VARIABLE in environment && environment[BACKEND_NAMESPACE_VARIABLE] != ""
    then environment[BACKEND_NAMESPACE_VARIABLE]
    else "vela-system"
  }

  // ---------------------------------------------------------------- the store and the indexer

  /** The object the configuration indexer holds under a name. */
  function Indexed(s: State, name: string): Option<Configuration> {
    if name !in s.indexed then None
    else match s.indexed[name]
      case Own(c) => Some(c)
      case Same => if name in s.configurations then Some(s.configurations[name]) else None
  }

  /** Fields of the object in the store are assigned. */
  function MutateStored(s: State, name: string, c: Configuration): State {
    s.(configurations := s.configurations[name := c])
  }

  /** Fields of the object in the indexer are assigned; the store sees it when it holds that object. */
  function MutateIndexed(s: State, name: string, c: Configuration): State {
    if name in s.indexed && s.indexed[name].Own? then s.(indexed := s.indexed[name := Own(c)])
    else MutateStored(s, name, c)
  }

  /** The indexer keeps its object when the store takes another one, or none, under that name. */
  function Detached(s: State, name: string): map<string, Entry> {
    if name in s.indexed && s.indexed[name].Same? && name in s.configurations
    then s.indexed[name := Own(s.configurations[name])]
    else s.indexed
  }

  /** Cache.Update(object, false) with an object that is neither in the store nor in the indexer. */
  function UpdateWithCopy(s: State, c: Configuration): State {
    s.(configurations := s.configurations[c.name := c], indexed := Detached(s, c.name))
  }

  /** Cache.Update(object, false) with the indexer's own object. */
  function UpdateFromIndexer(s: State, name: string): State {
    match Indexed(s, name)
    case None => s
    case Some(c) => s.(configurations := s.configurations[name := c], indexed := s.indexed[name := Same])
  }

  /** InformerConfig.InjectWorkerQueue with the object the store holds. */
  function Inject(s: State, name: string): State {
    s.(indexed := s.indexed[name := Same],
       ready := s.ready + {ConfigurationRequest(name)},
       injected := s.injected + 1)
  }

  /** Cache.Add, and Cache.Update(object, true), with a new object. */
  function AddConfiguration(s: State, c: Configuration): State {
    Inject(s.(configurations := s.configurations[c.name := c]), c.name)
  }

  /** Cache.Delete with the object the store holds, or with a copy of it without finalizer. */
  function CacheDelete(s: State, c: Configuration): State {
    if c.finalizer then Inject(MutateStored(s, c.name, c.(deleting := true)), c.name)
    else s.(configurations := s.configurations - {c.name}, indexed := Detached(s, c.name))
  }

  /** Cache.Add, and Cache.Update(object, true), with a new Provider. */
  function AddProvider(s: State, ref: Ref, p: Provider): State {
    s.(providers := s.providers[ref := p],
       indexedProviders := s.indexedProviders[ref := p],
       ready := s.ready + {ProviderRequest(ref)},
       injected := s.injected + 1)
  }

  function PutSecret(s: State, ref: Ref, secret: Secret): State {
    s.(secrets := s.secrets[ref := secret])
  }

  function DropSecret(s: State, ref: Ref): State {
    s.(secrets := s.secrets - {ref})
  }

  // ---------------------------------------------------------------- outcomes of the outside world

  datatype Credentials = CredentialError | CredentialNil | Credentials(values: map<string, string>)

  /** What the outside world answers during one reconcile. */
  datatype Oracle = Oracle(
    quantities: bool,              // all RESOURCES_* variables parse
    credentials: Credentials,      // decoding and checking of the provider's secret
    terraform: bool,               // the terraform run succeeds
    stateFile: Option<StateFile>)  // reading the state file after an apply

  /** What Reconcile returns, or the panic that ends the process. */
  datatype Outcome = Done(requeueAfter: nat, failed: bool) | Panicked

  const REQUEUE := 3

  // ---------------------------------------------------------------- providers and credentials

  const CLOUDS := {"alibaba", "aws", "gcp", "tencent", "azure", "vsphere", "ec", "ucloud", "custom", "baidu", "hashicups"}

  /** GetProviderCredentials: the lookup skeleton around the decoding of one cloud's secret. */
  function GetProviderCredentials(s: State, p: Provider, decoded: Credentials): Credentials {
    if p.source != "Secret" then CredentialError
    else if p.secretRef !in s.secrets then CredentialError
    else if p.secretKey !in s.secrets[p.secretRef].data then CredentialError
    else if p.cloud !in CLOUDS then CredentialError
    else decoded
  }

  /** ProviderReconciler.Reconcile. */
  function ReconcileProvider(s: State, ref: Ref, o: Oracle): (State, Outcome) {
    if ref !in s.indexedProviders then (s, Done(0, false))
    else
      var p := s.indexedProviders[ref];
      var failed := GetProviderCredentials(s, p, o.credentials).CredentialError?;
      var q := p.(state := if failed then ProviderIsNotReady else ProviderIsReady);
      (s.(providers := s.providers[ref := q], indexedProviders := s.indexedProviders[ref := q]), Done(0, failed))
  }

  // ---------------------------------------------------------------- status and outputs

  function OwnerLabels(name: string): map<string, string> {
    map[CREATED_BY := "terraform-controller", OWNED_BY := name, OWNED_NAMESPACE := DEFAULT_NAMESPACE]
  }

  function Label(labels: map<string, string>, key: string): string {
    if key in labels then labels[key] else ""
  }

  /** The connection secret belongs to another Configuration. */
  predicate Foreign(labels: map<string, string>, name: string) {
    || (Label(labels, OWNED_BY) != "" && Label(labels, OWNED_BY) != name)
    || (Label(labels, OWNED_NAMESPACE) != "" && Label(labels, OWNED_NAMESPACE) != DEFAULT_NAMESPACE)
  }

  /** The connection secret a Configuration asks for, in its effective namespace. */
  function ConnectionSecret(spec: Spec): Option<Ref> {
    if spec.connection.None? || spec.connection.value.name == "" then None
    else if spec.connection.value.namespace == "" then Some(Ref(DEFAULT_NAMESPACE, spec.connection.value.name))
    else Some(spec.connection.value)
  }

  /** The outputs recorded in the backend secret, when it is there, decompresses, parses and converts. */
  function StateOutputs(s: State, backend: string, name: string): Option<map<string, string>> {
    var ref := BackendSecret(backend, name);
    if ref !in s.secrets then None
    else if STATE_KEY !in s.secrets[ref].data then None
    else FileOutputs(s.secrets[ref].data[STATE_KEY])
  }

  function FileOutputs(v: SecretValue): Option<map<string, string>> {
    if v.Gzip? && v.file.Parsed? && (forall k <- v.file.outputs :: Interface2String(v.file.outputs[k]).Some?)
    then Some(Converted(v.file.outputs))
    else None
  }

  /** getTFOutputs, the part that writes the connection secret. */
  function WriteConnectionSecret(s: State, c: Configuration, outputs: map<string, string>): (State, bool) {
    match ConnectionSecret(c.spec)
    case None => (s, true)
    case Some(ref) =>
      if ref !in s.secrets then
        (PutSecret(s, ref, Secret(OwnerLabels(c.name), AsSecretData(outputs))), true)
      else if Foreign(s.secrets[ref].labels, c.name) then
        (s, false)
      else
        (PutSecret(s, ref, s.secrets[ref].(data := AsSecretData(outputs))), true)
  }

  /** getTFOutputs. */
  function GetTFOutputs(s: State, backend: string, c: Configuration): (State, Option<map<string, string>>) {
    match StateOutputs(s, backend, c.name)
    case None => (s, None)
    case Some(outputs) =>
      var (s1, ok) := WriteConnectionSecret(s, c, outputs);
      (s1, if ok then Some(outputs) else None)
  }

  function WithApplyStatus(c: Configuration, state: ConfigurationState, outputs: map<string, string>): Configuration {
    c.(status := c.status.(apply := ApplyStatus(state, outputs)))
  }

  /** updateApplyStatus for a state other than Available. */
  function UpdateApplyStatus(s: State, name: string, state: ConfigurationState): State {
    if name !in s.configurations then s
    else MutateStored(s, name, WithApplyStatus(s.configurations[name], state, map[]))
  }

  /** updateApplyStatus for the state Available, which generates the outputs. */
  function UpdateAvailable(s: State, backend: string, name: string): State {
    if name !in s.configurations then s
    else
      var c := s.configurations[name];
      var (s1, outputs) := GetTFOutputs(s, backend, c);
      MutateStored(s1, name,
        if outputs.Some? then WithApplyStatus(c, Available, outputs.value)
        else WithApplyStatus(c, GeneratingOutputs, map[]))
  }

  function UpdateDestroyStatus(s: State, name: string): State {
    if name !in s.configurations then s
    else
      var c := s.configurations[name];
      MutateStored(s, name, c.(status := c.status.(destroy := ConfigurationDestroying)))
  }

  // ---------------------------------------------------------------- pre-check

  /** The fields of TFConfigurationMeta that preCheck fills in. */
  datatype Meta = Meta(
    backend: string,               // namespace of the backend secret
    configurationChanged: bool,
    envChanged: bool,
    credentials: Option<map<string, string>>,
    variables: map<string, string>)

  /** The meta data as preCheck starts: it reads the backend namespace from the process environment. */
  function NoMeta(s: State): Meta {
    Meta(BackendNamespace(s.environment), false, false, None, map[])
  }

  function InputData(spec: Spec, kind: ConfigurationType): map<string, string> {
    map[(if kind.ConfigurationHCL? then HCL_FILE else REMOTE_FILE) := RenderConfiguration(spec, kind)]
  }

  /** CheckWhetherConfigurationChanges. */
  predicate ConfigurationChanged(s: State, spec: Spec, kind: ConfigurationType) {
    && s.configMap.Some?
    && kind.ConfigurationHCL?
    && Label(s.configMap.value, HCL_FILE) != RenderConfiguration(spec, kind)
  }

  function StoreConfiguration(s: State, spec: Spec, kind: ConfigurationType): State {
    s.(configMap := Some(InputData(spec, kind)))
  }

  /** SetRegion: the region, and the state; None when the Configuration is not in the store. */
  function SetRegion(s: State, name: string, p: Provider): (State, Option<string>) {
    if name !in s.configurations then (s, None)
    else
      var c := s.configurations[name];
      if c.spec.region != "" then (s, Some(c.spec.region))
      else (UpdateWithCopy(s, c.(spec := c.spec.(region := p.region))), Some(p.region))
  }

  /** prepareTFVariables; None is its error return. */
  function PrepareVariables(raw: RawExtension, credentials: map<string, string>): Option<map<string, string>> {
    if raw.Malformed? then None
    else
      var environments := if raw.Decoded? then Prefixed(raw.values) else map[];
      if exists k <- environments :: Interface2String(environments[k]).None? then None
      else if environments == map[] && credentials == map[] then None
      else Some(Merged(environments, credentials))
  }

  /** preCheck from the check of the variable secret on. */
  function CheckEnvironment(s: State, name: string, credentials: map<string, string>, variables: map<string, string>):
    (State, Meta)
  {
    var ref := VariableSecret(name);
    var meta := NoMeta(s).(credentials := Some(credentials), variables := variables);
    if ref !in s.secrets then
      (PutSecret(s, ref, Secret(map[], AsSecretData(variables))).(clusterRole := true), meta)
    else if EnvChanged(variables, s.secrets[ref].data) then
      (UpdateApplyStatus(s, name, ConfigurationReloading).(clusterRole := true), meta.(envChanged := true))
    else
      (s.(clusterRole := true), meta)
  }

  /** preCheck from the provider lookup on; the boolean says that no error was returned. */
  function CheckProvider(s: State, name: string, spec: Spec, o: Oracle): (State, Meta, bool) {
    var ref := GetProviderNamespacedName(spec);
    if ref !in s.providers then (UpdateApplyStatus(s, name, Authorizing), NoMeta(s), false)
    else
      var (s1, region) := SetRegion(s, name, s.providers[ref]);
      if region.None? then (s1, NoMeta(s), false)
      else
        var credentials := GetProviderCredentials(s1, s.providers[ref], o.credentials);
        if !credentials.Credentials? then (s1, NoMeta(s), false)
        else
          var variables := PrepareVariables(spec.variable, credentials.values);
          if variables.None? then (s1, NoMeta(s).(credentials := Some(credentials.values)), false)
          else
            var (s2, meta) := CheckEnvironment(s1, name, credentials.values, variables.value);
            (s2, meta, true)
  }

  /** preCheck up to the storing of the rendered text: the default backend is written into the indexer's
      object, and the text into the ConfigMap. */
  function StoreRendered(s: State, c: Configuration, kind: ConfigurationType): State {
    var spec := WithBackend(c.spec);
    StoreConfiguration(MutateIndexed(s, c.name, c.(spec := spec)), spec, kind)
  }

  /** preCheck on the object c of the indexer. */
  function PreCheck(s: State, c: Configuration, o: Oracle): (State, Meta, bool) {
    if !o.quantities then (s, NoMeta(s), false)
    else
      var kind := ValidConfigurationObject(c.spec);
      if kind.None? then (UpdateApplyStatus(s, c.name, ConfigurationStaticCheckFailed), NoMeta(s), false)
      else
        var spec := WithBackend(c.spec);
        var s1 := StoreRendered(s, c, kind.value);
        if ConfigurationChanged(s1, spec, kind.value) then
          (StoreConfiguration(UpdateApplyStatus(s1, c.name, ConfigurationReloading), spec, kind.value),
           NoMeta(s).(configurationChanged := true), true)
        else CheckProvider(s1, c.name, spec, o)
  }

  // ---------------------------------------------------------------- terraform runs

  function Lookup<K, V>(m: map<K, V>, k: K): Option<V> {
    if k in m then Some(m[k]) else None
  }

  function JobOf(s: State, c: Configuration, meta: Meta): Job
    requires s.configMap.Some?
  {
    Job(c, Lookup(s.configurations, c.name), s.configMap.value,
        Lookup(s.providers, GetProviderNamespacedName(c.spec)), meta.credentials, meta.variables, s.environment)
  }

  function Logged(s: State, e: LogEntry): State {
    s.(log := s.log + [e])
  }

  /** assembleAndTriggerJob with "apply". */
  function RunApply(s: State, c: Configuration, meta: Meta, o: Oracle): (State, bool) {
    if s.configMap.None? then (s, false)
    else if !o.terraform then (Logged(s, Applied(c.name, JobOf(s, c, meta), false, None)), false)
    else
      var s1 := Logged(s, Applied(c.name, JobOf(s, c, meta), true, o.stateFile));
      if o.stateFile.None? then (s1, false)
      else
        var ref := BackendSecret(meta.backend, c.name);
        (UpdateAvailable(PutSecret(s1, ref, Secret(map[], map[STATE_KEY := Gzip(o.stateFile.value)])), meta.backend, c.name), true)
  }

  /** assembleAndTriggerJob with "destroy". */
  function RunDestroy(s: State, c: Configuration, meta: Meta, o: Oracle): (State, bool) {
    if s.configMap.None? then (s, false)
    else
      var s1 := Logged(s, Destroyed(c.name, JobOf(s, c, meta), o.terraform));
      if o.terraform then (UpdateAvailable(s1, meta.backend, c.name), true) else (s1, false)
  }

  /** terraformApply. */
  function TerraformApply(s: State, c: Configuration, meta: Meta, o: Oracle): (State, bool) {
    RunApply(s.(environment := s.environment + NonEmpty(meta.variables)), c, meta, o)
  }

  datatype Deletable = Directly | AfterDestroy | NotYet

  /** IsDeletable. */
  function IsDeletable(s: State, c: Configuration): Deletable {
    var ref := GetProviderNamespacedName(c.spec);
    if ref !in s.providers || s.providers[ref].state == ProviderIsNotReady || c.status.apply.state == TerraformInitError
    then Directly
    else if c.status.apply.state == ConfigurationProvisioningAndChecking then NotYet
    else AfterDestroy
  }

  datatype DestroyResult = DestroyError | DestroyPanic | DestroyDone(why: Option<Reason>)

  /** Deleting the connection secret would fail its type assertion. */
  predicate ConnectionPanics(s: State, spec: Spec) {
    ConnectionSecret(spec).Some? && ConnectionSecret(spec).value in s.secrets
  }

  /** The variable secret and the backend secret are deleted. */
  function DeleteSecrets(s: State, backend: string, name: string): State {
    DropSecret(DropSecret(s, VariableSecret(name)), BackendSecret(backend, name))
  }

  /** terraformDestroy after the destroy job: everything apply created is deleted. */
  function CleanUp(s: State, c: Configuration, meta: Meta, why: Option<Reason>): (State, DestroyResult) {
    var s1 := UpdateDestroyStatus(s, c.name).(configMap := None);
    if ConnectionPanics(s1, c.spec) then (s1, DestroyPanic)
    else (DeleteSecrets(s1, meta.backend, c.name), DestroyDone(why))
  }

  /** updateTerraformJobIfNeeded meets a variable secret, and its type assertion fails. */
  predicate UpdateJobPanics(s: State, name: string, meta: Meta) {
    (meta.envChanged || meta.configurationChanged) && VariableSecret(name) in s.secrets
  }

  /** terraformDestroy of the object c of the indexer; c is read after preCheck. */
  function TerraformDestroy(s: State, c: Configuration, meta: Meta, o: Oracle): (State, DestroyResult) {
    match IsDeletable(s, c)
    case NotYet => (s, DestroyError)
    case Directly => CleanUp(s, c, meta, Some(DirectDelete))
    case AfterDestroy =>
      var run := DestroyJobName(c.name) !in s.configurations && c.name in s.configurations;
      var (s1, ok) := if run then RunDestroy(s, c, meta, o) else (s, true);
      if !ok then (s1, DestroyError)
      else if UpdateJobPanics(s1, c.name, meta) then (s1, DestroyPanic)
      else CleanUp(s1, c, meta, if run then None else Some(JobShadowed))
  }

  // ---------------------------------------------------------------- Reconcile

  /** Reconcile adds the finalizer to an object that is not being deleted. */
  function EnsureFinalizer(s: State, c: Configuration): State {
    if c.deleting || c.finalizer then s
    else UpdateFromIndexer(MutateIndexed(s, c.name, c.(finalizer := true)), c.name)
  }

  /** The finalizer is removed from a copy of the stored object, and the record is deleted. */
  function RemoveRecord(s: State, c: Configuration, why: Option<Reason>): State {
    var s1 := if c.finalizer then UpdateWithCopy(s, c.(finalizer := false)) else s;
    var s2 := CacheDelete(s1, c.(finalizer := false));
    if why.Some? then Logged(s2, Released(c.name, why.value)) else s2
  }

  function ReconcileDestroy(s: State, c: Configuration, meta: Meta, o: Oracle): (State, Outcome) {
    var (s1, result) := TerraformDestroy(s, c, meta, o);
    match result
    case DestroyPanic => (s1, Panicked)
    case DestroyError => (s1, Done(REQUEUE, true))
    case DestroyDone(why) =>
      if c.name !in s1.configurations then (s1, Done(0, true))
      else (RemoveRecord(s1, s1.configurations[c.name], why), Done(0, false))
  }

  function ReconcileApply(s: State, c: Configuration, meta: Meta, o: Oracle): (State, Outcome) {
    var (s1, ok) := TerraformApply(s, c, meta, o);
    (s1, if ok then Done(0, false) else Done(REQUEUE, true))
  }

  /** ConfigurationReconciler.Reconcile for the request default/<name>. */
  function Reconcile(s: State, name: string, o: Oracle): (State, Outcome) {
    match Indexed(s, name)
    case None => (s, Done(0, false))
    case Some(c) =>
      var s1 := EnsureFinalizer(s, c);
      var c1 := if c.deleting then c else c.(finalizer := true);
      var (s2, meta, ok) := PreCheck(s1, c1, o);
      if !ok && !c.deleting then (s2, Done(0, true))
      else
        var c2 := Current(s2, c1);
        if c.deleting then ReconcileDestroy(s2, c2, meta, o) else ReconcileApply(s2, c2, meta, o)
  }

  /** The indexer's object after preCheck may have assigned to its fields; before says what it was. */
  function Current(s: State, before: Configuration): Configuration {
    match Indexed(s, before.name)
    case Some(c) => c
    case None => before
  }
}
