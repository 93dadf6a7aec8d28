/** The outputs a Configuration reports, and the Secret it publishes them in. */
module Outputs {
  import opened Objects
  import opened Render
  import opened Variables
  import opened Lifecycle
  import opened Frames
  import opened Safety
  import opened History
  import opened Checks
  import opened Secrets

  /** The Configuration may write the connection secret it asks for. */
  predicate MayPublish(secrets: map<Ref, Secret>, spec: Spec, n: string) {
    match ConnectionSecret(spec)
    case None => true
    case Some(ref) => ref in secrets ==> !Foreign(secrets[ref].labels, n)
  }

  /** The secrets after outputs were published: the data is replaced, the labels of an existing secret
      are kept, and a new secret is labelled with its owner. */
  function Published(secrets: map<Ref, Secret>, spec: Spec, n: string, outputs: map<string, string>): map<Ref, Secret> {
    match ConnectionSecret(spec)
    case None => secrets
    case Some(ref) =>
      secrets[ref := Secret(if ref in secrets then secrets[ref].labels else OwnerLabels(n), AsSecretData(outputs))]
  }

  lemma WriteConnectionSecretWrites(s: State, c: Configuration, outputs: map<string, string>)
    ensures var (t, ok) := WriteConnectionSecret(s, c, outputs);
      && t.configurations == s.configurations
      && (ok <==> MayPublish(s.secrets, c.spec, c.name))
      && t.secrets == (if ok then Published(s.secrets, c.spec, c.name, outputs) else s.secrets)
  {
    hide ConnectionSecret, Foreign, OwnerLabels, AsSecretData;
  }

  lemma GetTFOutputsWrites(s: State, backend: string, c: Configuration)
    ensures var (t, r) := GetTFOutputs(s, backend, c);
      var outputs := StateOutputs(s, backend, c.name);
      && t.configurations == s.configurations
      && (if outputs.Some? && MayPublish(s.secrets, c.spec, c.name) then
            r == outputs && t.secrets == Published(s.secrets, c.spec, c.name, outputs.value)
          else r.None? && t.secrets == s.secrets)
  {
    var outputs := StateOutputs(s, backend, c.name);
    hide StateOutputs, WriteConnectionSecret, MayPublish, Published;
    if outputs.Some? {
      WriteConnectionSecretWrites(s, c, outputs.value);
    }
  }

  lemma UpdateAvailableWrites(s: State, backend: string, n: string)
    requires n in s.configurations && s.configurations[n].name == n
    ensures var t := UpdateAvailable(s, backend, n);
      var spec := s.configurations[n].spec;
      var outputs := StateOutputs(s, backend, n);
      && n in t.configurations && t.configurations[n].spec == spec
      && (if outputs.Some? && MayPublish(s.secrets, spec, n) then
            && t.configurations[n].status.apply == ApplyStatus(Available, outputs.value)
            && t.secrets == Published(s.secrets, spec, n, outputs.value)
          else
            && t.configurations[n].status.apply == ApplyStatus(GeneratingOutputs, map[])
            && t.secrets == s.secrets)
  {
    hide StateOutputs, MayPublish, Published, GetTFOutputs;
    GetTFOutputsWrites(s, backend, s.configurations[n]);
  }

  /** The secrets right after the state file was stored. */
  function WithState(secrets: map<Ref, Secret>, ref: Ref, file: StateFile): map<Ref, Secret> {
    secrets[ref := Secret(map[], map[STATE_KEY := Gzip(file)])]
  }

  lemma RunApplyOutputs(s: State, c: Configuration, meta: Meta, o: Oracle)
    requires WellFormed(s) && c.name in s.configurations && RunApply(s, c, meta, o).1
    ensures o.terraform && o.stateFile.Some?
    ensures var t := RunApply(s, c, meta, o).0;
      var spec := s.configurations[c.name].spec;
      var outputs := FileOutputs(Gzip(o.stateFile.value));
      var secrets := WithState(s.secrets, BackendSecret(meta.backend, c.name), o.stateFile.value);
      && c.name in t.configurations && t.configurations[c.name].spec == spec
      && (if outputs.Some? && MayPublish(secrets, spec, c.name) then
            && t.configurations[c.name].status.apply == ApplyStatus(Available, outputs.value)
            && t.secrets == Published(secrets, spec, c.name, outputs.value)
          else
            && t.configurations[c.name].status.apply == ApplyStatus(GeneratingOutputs, map[])
            && t.secrets == secrets)
  {
    var n := c.name;
    hide JobOf, Converted, ConnectionSecret, MayPublish, Published;
    StoredName(s, n);
    hide WellFormed;
    var ref := BackendSecret(meta.backend, n);
    if s.configMap.Some? && o.terraform && o.stateFile.Some? {
      var s1 := Logged(s, Applied(n, JobOf(s, c, meta), true, o.stateFile));
      var s2 := PutSecret(s1, ref, Secret(map[], map[STATE_KEY := Gzip(o.stateFile.value)]));
      assert s2.secrets == WithState(s.secrets, ref, o.stateFile.value);
      assert StateOutputs(s2, meta.backend, n) == FileOutputs(Gzip(o.stateFile.value)) by { hide FileOutputs; }
      UpdateAvailableWrites(s2, meta.backend, n);
      hide UpdateAvailable, StateOutputs, FileOutputs, BackendNamespace;
    }
  }

  /** The secret is not one of those a reconcile derives from the name. */
  predicate Apart(ref: Ref, n: string) {
    ref.name != VariableSecretName(n) && ref.name != BackendSecretName(n)
  }

  predicate ConnectionApart(spec: Spec, n: string) {
    ConnectionSecret(spec).Some? ==> Apart(ConnectionSecret(spec).value, n)
  }

  /** The two stores agree on every secret a reconcile does not derive from the name. */
  ghost predicate SameApart(a: map<Ref, Secret>, b: map<Ref, Secret>, n: string) {
    forall ref: Ref | Apart(ref, n) :: Lookup(a, ref) == Lookup(b, ref)
  }

  lemma SameApartVariable(s: State, t: State, n: string)
    requires SecretsBut(s, t, {VariableSecret(n)})
    ensures SameApart(s.secrets, t.secrets, n)
  {
    forall ref: Ref | Apart(ref, n) ensures Lookup(s.secrets, ref) == Lookup(t.secrets, ref) {
      assert ref != VariableSecret(n);
      assert ref in s.secrets <==> ref in s.secrets - {VariableSecret(n)};
      assert ref in t.secrets <==> ref in t.secrets - {VariableSecret(n)};
    }
  }

  /** Publishing reads and writes the connection secret only, which is apart. */
  lemma PublishApart(a: map<Ref, Secret>, b: map<Ref, Secret>, x: Spec, y: Spec, n: string, outputs: map<string, string>)
    requires SameApart(a, b, n) && ConnectionApart(x, n) && ConnectionSecret(x) == ConnectionSecret(y)
    ensures MayPublish(a, x, n) == MayPublish(b, y, n)
    ensures SameApart(Published(a, x, n, outputs), Published(b, y, n, outputs), n)
    ensures forall ref | ref in b && !Apart(ref, n) ::
              ref in Published(b, y, n, outputs) && Published(b, y, n, outputs)[ref] == b[ref]
  {
    hide ConnectionSecret, Foreign, OwnerLabels, AsSecretData;
    if ConnectionSecret(x).Some? {
      assert Lookup(a, ConnectionSecret(x).value) == Lookup(b, ConnectionSecret(x).value);
    }
  }

  /** preCheck creates a missing variable secret from the variables it merged. */
  lemma PreCheckCreates(s: State, c: Configuration, o: Oracle)
    requires WellFormed(s) && Indexed(s, c.name) == Some(c)
    ensures var (t, meta, ok) := PreCheck(s, c, o);
      ok ==>
        && VariableSecret(c.name) in t.secrets
        && t.secrets[VariableSecret(c.name)] ==
             if VariableSecret(c.name) in s.secrets then s.secrets[VariableSecret(c.name)]
             else Secret(map[], AsSecretData(meta.variables))
  {
    hide PreCheck, WellFormed, InputData, Indexed, AsSecretData, PrepareVariables, Preparable, StatusSays, StatusKept;
    PreCheckSecrets(s, c, o);
    PreCheckOutcome(s, c, o);
    PreCheckStoresInput(s, c, o);
    if Passes(s, c, o) && VariableSecret(c.name) !in s.secrets { VariableSecretCreated(s, c, o); }
  }

  /** The stages of a successful apply: the state terraform ran in, and its object. */
  lemma ApplyStages(s: State, n: string, o: Oracle) returns (s3: State, c: Configuration, meta: Meta)
    requires WellFormed(s) && RecordInv(s, n) && n in s.indexed && !Indexed(s, n).value.deleting
    requires Reconcile(s, n, o).1 == Done(0, false)
    ensures WellFormed(s3) && c.name == n && n in s3.configurations
    ensures meta.backend == BackendNamespace(s.environment)
    ensures Alike(Indexed(s, n).value.spec, s3.configurations[n].spec)
    ensures SecretsBut(s, s3, {VariableSecret(n)})
    ensures VariableSecret(n) in s3.secrets
    ensures s3.secrets[VariableSecret(n)] ==
              if VariableSecret(n) in s.secrets then s.secrets[VariableSecret(n)] else Secret(map[], AsSecretData(meta.variables))
    ensures var kind := ValidConfigurationObject(Indexed(s, n).value.spec);
              kind.Some? && s3.configMap == Some(InputData(Indexed(s, n).value.spec, kind.value))
    ensures s3.environment == s.environment + NonEmpty(meta.variables) && o.credentials.Credentials?
    ensures PrepareVariables(Indexed(s, n).value.spec.variable, o.credentials.values) == Some(meta.variables)
    ensures RunApply(s3, c, meta, o) == (Reconcile(s, n, o).0, true)
  {
    var b := Indexed(s, n).value;
    IndexedName(s, n);
    EnsureFinalizerEffect(s, b);
    hide EnsureFinalizer, PreCheck, RunApply, RecordInv, WellFormed, PrepareVariables;
    var s1 := EnsureFinalizer(s, b);
    var c1 := Finalized(b);
    PreCheckKeeps(s1, c1, o);
    PreCheckSecrets(s1, c1, o);
    PreCheckStoresInput(s1, c1, o);
    PreCheckCreates(s1, c1, o);
    hide AsSecretData, InputData, Passes;
    var (s2, m, ok) := PreCheck(s1, c1, o);
    KeepsWellFormed(s1, s2, n);
    meta, c := m, Current(s2, c1);
    s3 := Equipped(s2, meta);
    KeepsSideways(s1, s2, s3, n);
    KeepsWellFormed(s1, s3, n);
    hide NonEmpty;
  }

  /** What an apply of the state file leaves of a Configuration with the given spec, secrets being those
      before the reconcile: the status is Available exactly when the file parses, all its outputs convert,
      and the connection secret asked for is absent, without an owner, or owned by this Configuration. Then
      the reported outputs are the converted outputs of the file, and the connection secret holds them;
      otherwise the state is GeneratingOutputs. No other secret changes but those derived from the name. */
  ghost predicate Reported(secrets: map<Ref, Secret>, t: State, spec: Spec, n: string, file: StateFile) {
    var outputs := FileOutputs(Gzip(file));
    && n in t.configurations
    && (if outputs.Some? && MayPublish(secrets, spec, n) then
          && t.configurations[n].status.apply == ApplyStatus(Available, outputs.value)
          && SameApart(Published(secrets, spec, n, outputs.value), t.secrets, n)
        else
          && t.configurations[n].status.apply == ApplyStatus(GeneratingOutputs, map[])
          && SameApart(secrets, t.secrets, n))
  }

  /** The secret holds exactly the state file. */
  ghost predicate StateKept(t: State, ref: Ref, file: StateFile) {
    ref in t.secrets && t.secrets[ref] == Secret(map[], map[STATE_KEY := Gzip(file)])
  }

  lemma RunApplyReports(secrets: map<Ref, Secret>, s: State, c: Configuration, meta: Meta, o: Oracle, spec: Spec)
    requires WellFormed(s) && c.name in s.configurations && RunApply(s, c, meta, o).1
    requires SameApart(secrets, s.secrets, c.name)
    requires ConnectionApart(spec, c.name) && ConnectionSecret(spec) == ConnectionSecret(s.configurations[c.name].spec)
    ensures o.terraform && o.stateFile.Some?
    ensures Reported(secrets, RunApply(s, c, meta, o).0, spec, c.name, o.stateFile.value)
    ensures StateKept(RunApply(s, c, meta, o).0, BackendSecret(meta.backend, c.name), o.stateFile.value)
  {
    var n := c.name;
    RunApplyOutputs(s, c, meta, o);
    hide WellFormed, RunApply, FileOutputs, ConnectionSecret, BackendNamespace;
    var ref := BackendSecret(meta.backend, n);
    var stored := WithState(s.secrets, ref, o.stateFile.value);
    assert SameApart(secrets, stored, n);
    var outputs := FileOutputs(Gzip(o.stateFile.value));
    PublishApart(secrets, stored, spec, s.configurations[n].spec, n, if outputs.Some? then outputs.value else map[]);
    assert stored[ref] == Secret(map[], map[STATE_KEY := Gzip(o.stateFile.value)]) && !Apart(ref, n);
    hide MayPublish, Published, SameApart;
    var t := RunApply(s, c, meta, o).0;
    assert ref in t.secrets && t.secrets[ref] == stored[ref];
  }

  /** After an apply reconcile that returns without error, terraform apply succeeded, its state file was
      read and is kept in the backend secret, and the status and the connection secret report it. */
  lemma SuccessfulApply(s: State, n: string, o: Oracle)
    requires WellFormed(s) && RecordInv(s, n) && n in s.indexed && !Indexed(s, n).value.deleting
    requires Reconcile(s, n, o).1 == Done(0, false)
    requires ConnectionApart(Indexed(s, n).value.spec, n)
    ensures o.terraform && o.stateFile.Some?
    ensures Reported(s.secrets, Reconcile(s, n, o).0, Indexed(s, n).value.spec, n, o.stateFile.value)
    ensures StateKept(Reconcile(s, n, o).0, BackendSecret(BackendNamespace(s.environment), n), o.stateFile.value)
  {
    var spec := Indexed(s, n).value.spec;
    var s3, c, meta := ApplyStages(s, n, o);
    hide Reconcile, RecordInv, RunApply, ConnectionSecret, BackendNamespace;
    AlikeInput(spec, s3.configurations[n].spec);
    SameApartVariable(s, s3, n);
    hide Alike, WellFormed, SameApart, SecretsBut;
    RunApplyReports(s.secrets, s3, c, meta, o, spec);
    hide Reported, StateKept;
  }
}
