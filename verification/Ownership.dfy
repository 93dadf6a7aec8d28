/** A connection secret belongs to the Configuration that created it, whatever the others do. */
module Ownership {
  import opened Objects
  import opened Variables
  import opened Lifecycle
  import opened Protocol
  import opened Frames
  import opened Safety
  import opened History
  import opened Secrets
  import opened Outputs

  /** The name is of the form reconciles derive for variable and backend secrets. */
  predicate Derived(name: string) {
    VariableSecretName("") <= name || BackendSecretName("") <= name
  }

  lemma DerivedNames(n: string)
    ensures Derived(VariableSecretName(n)) && Derived(BackendSecretName(n))
    ensures BackendSecretName("") <= BackendSecretName(n) && !(BackendSecretName("") <= VariableSecretName(n))
  {
    assert VariableSecretName(n)[0] != BackendSecretName("")[0];
  }

  lemma BackendNamesInjective(m: string, n: string)
    requires BackendSecretName(m) == BackendSecretName(n)
    ensures m == n
  {
    assert m == BackendSecretName(m)[16..] && n == BackendSecretName(n)[16..];
  }

  /** The state files REST has put into secrets named like backend secrets, by the name of the secret. */
  type Planted = set<(string, SecretValue)>

  // ---------------------------------------------------------------- what the log knows

  predicate IsApply(e: LogEntry, n: string, file: StateFile) {
    e.Applied? && e.name == n && e.ok && e.file == Some(file)
  }

  ghost predicate LogHas(log: seq<LogEntry>, n: string, file: StateFile) {
    exists i | 0 <= i < |log| :: IsApply(log[i], n, file)
  }

  lemma LogHasMore(log: seq<LogEntry>, more: seq<LogEntry>, n: string, file: StateFile)
    requires LogHas(log, n, file)
    ensures LogHas(log + more, n, file)
  {
    var i :| 0 <= i < |log| && IsApply(log[i], n, file);
    assert (log + more)[i] == log[i];
  }

  /** The value is the state file of some successful apply of n, or was planted as one. */
  ghost predicate Source(log: seq<LogEntry>, n: string, v: SecretValue, planted: Planted) {
    v.Gzip? && (LogHas(log, n, v.file) || (BackendSecretName(n), v) in planted)
  }

  lemma SourceMore(log: seq<LogEntry>, more: seq<LogEntry>, n: string, v: SecretValue, planted: Planted)
    requires Source(log, n, v, planted)
    ensures Source(log + more, n, v, planted)
  {
    if LogHas(log, n, v.file) { LogHasMore(log, more, n, v.file); }
  }

  /** The data are the outputs of such a state file. */
  ghost predicate FromApply(log: seq<LogEntry>, n: string, data: map<string, SecretValue>, planted: Planted) {
    exists v :: Source(log, n, v, planted) && FileOutputs(v).Some? && data == AsSecretData(FileOutputs(v).value)
  }

  lemma FromApplyMore(log: seq<LogEntry>, more: seq<LogEntry>, n: string, data: map<string, SecretValue>, planted: Planted)
    requires FromApply(log, n, data, planted)
    ensures FromApply(log + more, n, data, planted)
  {
    var v :| Source(log, n, v, planted) && FileOutputs(v).Some? && data == AsSecretData(FileOutputs(v).value);
    SourceMore(log, more, n, v, planted);
  }

  /** A state file in the backend secret of n has such a source. */
  ghost predicate BackendHolds(secrets: map<Ref, Secret>, log: seq<LogEntry>, ref: Ref, n: string, planted: Planted) {
    ref in secrets && STATE_KEY in secrets[ref].data && secrets[ref].data[STATE_KEY].Gzip? ==>
      Source(log, n, secrets[ref].data[STATE_KEY], planted)
  }

  ghost predicate BackendInv(secrets: map<Ref, Secret>, log: seq<LogEntry>, planted: Planted) {
    forall backend: string, n: string :: BackendHolds(secrets, log, BackendSecret(backend, n), n, planted)
  }

  /** The secret k is there, labelled with the owner n, and holds outputs of n. */
  ghost predicate OwnedBy(secrets: map<Ref, Secret>, log: seq<LogEntry>, k: Ref, n: string, planted: Planted) {
    k in secrets && n != "" && secrets[k].labels == OwnerLabels(n) && FromApply(log, n, secrets[k].data, planted)
  }

  ghost predicate KeyInv(s: State, k: Ref, planted: Planted) {
    k in s.secrets ==> exists n :: OwnedBy(s.secrets, s.log, k, n, planted)
  }

  // ---------------------------------------------------------------- one write of outputs

  /** The secret k is as before, or m has published outputs of its own in it. */
  ghost predicate KeyStep(before: map<Ref, Secret>, after: map<Ref, Secret>, log: seq<LogEntry>, k: Ref, m: string,
                          planted: Planted) {
    || Lookup(after, k) == Lookup(before, k)
    || (&& k in after && FromApply(log, m, after[k].data, planted)
        && (if k in before then after[k].labels == before[k].labels && !Foreign(before[k].labels, m)
            else after[k].labels == OwnerLabels(m)))
  }

  lemma KeyStepOwned(s: State, k: Ref, n: string, m: string, after: map<Ref, Secret>, more: seq<LogEntry>, planted: Planted)
    requires KeyStep(s.secrets, after, s.log + more, k, m, planted) && m != ""
    requires OwnedBy(s.secrets, s.log, k, n, planted)
    ensures OwnedBy(after, s.log + more, k, n, planted)
  {
    FromApplyMore(s.log, more, n, s.secrets[k].data, planted);
    if Lookup(after, k) != Lookup(s.secrets, k) {
      assert !Foreign(OwnerLabels(n), m);
      assert Label(OwnerLabels(n), OWNED_BY) == n;
    } else {
      assert Lookup(after, k) == Some(s.secrets[k]);
    }
  }

  lemma KeyStepNew(s: State, k: Ref, m: string, after: map<Ref, Secret>, more: seq<LogEntry>, planted: Planted)
    requires KeyStep(s.secrets, after, s.log + more, k, m, planted) && m != "" && k !in s.secrets && k in after
    ensures OwnedBy(after, s.log + more, k, m, planted)
  {
  }

  /** The outputs in a backend secret of an apply come from that apply. */
  lemma StateOutputsFromApply(s: State, backend: string, n: string, planted: Planted)
    requires BackendInv(s.secrets, s.log, planted) && StateOutputs(s, backend, n).Some?
    ensures FromApply(s.log, n, AsSecretData(StateOutputs(s, backend, n).value), planted)
  {
    var ref := BackendSecret(backend, n);
    assert BackendHolds(s.secrets, s.log, ref, n, planted);
    hide AsSecretData, Converted, BackendNamespace;
  }

  lemma UpdateAvailableSteps(s: State, backend: string, n: string, k: Ref, planted: Planted)
    requires BackendInv(s.secrets, s.log, planted) && !Derived(k.name)
    requires n in s.configurations && s.configurations[n].name == n
    ensures var t := UpdateAvailable(s, backend, n);
      KeyStep(s.secrets, t.secrets, s.log, k, n, planted) && BackendInv(t.secrets, s.log, planted)
  {
    UpdateAvailableWrites(s, backend, n);
    var spec := s.configurations[n].spec;
    var t := UpdateAvailable(s, backend, n);
    hide UpdateAvailable, FromApply, StateOutputs;
    if StateOutputs(s, backend, n).Some? && MayPublish(s.secrets, spec, n) {
      StateOutputsFromApply(s, backend, n, planted);
      PublishedSteps(s.secrets, s.log, spec, n, StateOutputs(s, backend, n).value, k, planted);
      hide Published;
    }
  }

  lemma PublishedSteps(secrets: map<Ref, Secret>, log: seq<LogEntry>, spec: Spec, n: string,
                       outputs: map<string, string>, k: Ref, planted: Planted)
    requires BackendInv(secrets, log, planted) && MayPublish(secrets, spec, n)
    requires FromApply(log, n, AsSecretData(outputs), planted)
    ensures KeyStep(secrets, Published(secrets, spec, n, outputs), log, k, n, planted)
    ensures BackendInv(Published(secrets, spec, n, outputs), log, planted)
  {
    hide ConnectionSecret, FromApply, Foreign, LogHas, OwnerLabels;
    var after := Published(secrets, spec, n, outputs);
    forall backend: string, m: string ensures BackendHolds(after, log, BackendSecret(backend, m), m, planted) {
      DerivedNames(m);
      assert BackendHolds(secrets, log, BackendSecret(backend, m), m, planted);
    }
  }

  // ---------------------------------------------------------------- one reconcile

  lemma BackendInvMore(secrets: map<Ref, Secret>, log: seq<LogEntry>, more: seq<LogEntry>, planted: Planted)
    requires BackendInv(secrets, log, planted)
    ensures BackendInv(secrets, log + more, planted)
  {
    forall backend: string, n: string ensures BackendHolds(secrets, log + more, BackendSecret(backend, n), n, planted) {
      assert BackendHolds(secrets, log, BackendSecret(backend, n), n, planted);
      var ref := BackendSecret(backend, n);
      if ref in secrets && STATE_KEY in secrets[ref].data && secrets[ref].data[STATE_KEY].Gzip? {
        SourceMore(log, more, n, secrets[ref].data[STATE_KEY], planted);
      }
    }
  }

  /** Writes and deletions of variable secrets, and deletions of backend secrets, concern neither k nor
      what the backend secrets hold. */
  lemma OtherSecretsStep(before: map<Ref, Secret>, after: map<Ref, Secret>, log: seq<LogEntry>, k: Ref, m: string,
                         planted: Planted)
    requires BackendInv(before, log, planted) && !Derived(k.name)
    requires forall ref | ref in after && ref.name != VariableSecretName(m) :: ref in before && after[ref] == before[ref]
    requires forall ref | ref in before && !Derived(ref.name) :: ref in after
    ensures Lookup(after, k) == Lookup(before, k) && BackendInv(after, log, planted)
  {
    DerivedNames(m);
    hide LogHas;
    forall backend: string, n: string ensures BackendHolds(after, log, BackendSecret(backend, n), n, planted) {
      DerivedNames(n);
      assert BackendHolds(before, log, BackendSecret(backend, n), n, planted);
    }
  }

  lemma VariableSecretStep(s: State, t: State, k: Ref, m: string, planted: Planted)
    requires SecretsBut(s, t, {VariableSecret(m)}) && BackendInv(s.secrets, s.log, planted) && !Derived(k.name)
    ensures Lookup(t.secrets, k) == Lookup(s.secrets, k) && BackendInv(t.secrets, s.log, planted)
  {
    forall ref | ref in t.secrets && ref.name != VariableSecretName(m)
      ensures ref in s.secrets && t.secrets[ref] == s.secrets[ref]
    {
      assert ref in t.secrets - {VariableSecret(m)};
    }
    OtherSecretsStep(s.secrets, t.secrets, s.log, k, m, planted);
  }

  lemma WithStateStep(secrets: map<Ref, Secret>, log: seq<LogEntry>, e: LogEntry, backend: string, m: string,
                      file: StateFile, k: Ref, planted: Planted)
    requires BackendInv(secrets, log, planted) && IsApply(e, m, file) && !Derived(k.name)
    ensures var after := WithState(secrets, BackendSecret(backend, m), file);
      Lookup(after, k) == Lookup(secrets, k) && BackendInv(after, log + [e], planted)
  {
    var after := WithState(secrets, BackendSecret(backend, m), file);
    BackendInvMore(secrets, log, [e], planted);
    DerivedNames(m);
    assert LogHas(log + [e], m, file) by { assert IsApply((log + [e])[|log|], m, file); }
    hide LogHas;
    forall b: string, n: string ensures BackendHolds(after, log + [e], BackendSecret(b, n), n, planted) {
      assert BackendHolds(secrets, log + [e], BackendSecret(b, n), n, planted);
      if BackendSecret(b, n) == BackendSecret(backend, m) {
        BackendNamesInjective(m, n);
      }
    }
  }

  /** What a step of m does to the secret k, and that the backend secrets still have a source. */
  ghost predicate SecretStep(s: State, t: State, k: Ref, m: string, planted: Planted) {
    KeyStep(s.secrets, t.secrets, t.log, k, m, planted) && BackendInv(t.secrets, t.log, planted)
  }

  lemma RunApplySteps(s: State, c: Configuration, meta: Meta, o: Oracle, k: Ref, planted: Planted)
    requires WellFormed(s) && BackendInv(s.secrets, s.log, planted) && !Derived(k.name)
    requires c.name in s.configurations
    ensures SecretStep(s, RunApply(s, c, meta, o).0, k, c.name, planted)
  {
    hide JobOf, FromApply, WellFormed, ConnectionSecret, BackendInv;
    var n := c.name;
    StoredName(s, n);
    if s.configMap.Some? {
      var e := Applied(n, JobOf(s, c, meta), o.terraform, if o.terraform then o.stateFile else None);
      var s1 := Logged(s, e);
      BackendInvMore(s.secrets, s.log, [e], planted);
      if o.terraform && o.stateFile.Some? {
        var backend := meta.backend;
        var s2 := PutSecret(s1, BackendSecret(backend, n), Secret(map[], map[STATE_KEY := Gzip(o.stateFile.value)]));
        WithStateStep(s.secrets, s.log, e, backend, n, o.stateFile.value, k, planted);
        assert s2.secrets == WithState(s.secrets, BackendSecret(backend, n), o.stateFile.value);
        UpdateAvailableSteps(s2, meta.backend, n, k, planted);
        LogOfUpdateAvailable(s2, meta.backend, n);
      }
      hide UpdateAvailable, BackendNamespace;
    }
  }

  lemma LogOfUpdateAvailable(s: State, backend: string, n: string)
    ensures UpdateAvailable(s, backend, n).log == s.log && UpdateAvailable(s, backend, n).environment == s.environment
  {
    if n in s.configurations {
      GetTFOutputsKeeps(s, backend, s.configurations[n]);
      hide GetTFOutputs;
    }
  }

  lemma RunDestroySteps(s: State, c: Configuration, meta: Meta, o: Oracle, k: Ref, planted: Planted)
    requires WellFormed(s) && BackendInv(s.secrets, s.log, planted) && !Derived(k.name)
    requires c.name in s.configurations
    ensures SecretStep(s, RunDestroy(s, c, meta, o).0, k, c.name, planted)
  {
    var n := c.name;
    StoredName(s, n);
    hide JobOf, FromApply, WellFormed, ConnectionSecret, BackendInv;
    if s.configMap.Some? {
      var e := Destroyed(n, JobOf(s, c, meta), o.terraform);
      BackendInvMore(s.secrets, s.log, [e], planted);
      UpdateAvailableSteps(Logged(s, e), meta.backend, n, k, planted);
      LogOfUpdateAvailable(Logged(s, e), meta.backend, n);
      hide UpdateAvailable;
    }
  }

  lemma CleanUpSteps(s: State, c: Configuration, meta: Meta, why: Option<Reason>, k: Ref, planted: Planted)
    requires WellFormed(s) && BackendInv(s.secrets, s.log, planted) && !Derived(k.name)
    ensures var t := CleanUp(s, c, meta, why).0;
      Lookup(t.secrets, k) == Lookup(s.secrets, k) && BackendInv(t.secrets, t.log, planted)
  {
    CleanUpSecrets(s, c, meta, why);
    CleanUpKeeps(s, c, meta, why);
    DerivedNames(c.name);
    hide CleanUp, WellFormed, Keeps, BackendInv;
    OtherSecretsStep(s.secrets, CleanUp(s, c, meta, why).0.secrets, s.log, k, c.name, planted);
  }

  lemma TerraformDestroySteps(s: State, c: Configuration, meta: Meta, o: Oracle, k: Ref, planted: Planted)
    requires WellFormed(s) && BackendInv(s.secrets, s.log, planted) && !Derived(k.name)
    ensures SecretStep(s, TerraformDestroy(s, c, meta, o).0, k, c.name, planted)
  {
    hide CleanUp, BackendInv, FromApply, IsDeletable, RunDestroy, WellFormed, Keeps, JobOf, UpdateJobPanics;
    CleanUpSteps(s, c, meta, Some(DirectDelete), k, planted);
    var run := JobRuns(s, c);
    var (s1, ok) := if run then RunDestroy(s, c, meta, o) else (s, true);
    if run {
      RunDestroySteps(s, c, meta, o, k, planted);
      RunDestroyKeeps(s, c, meta, o);
      KeepsWellFormed(s, s1, c.name);
    }
    var why := if run then None else Some(JobShadowed);
    CleanUpSteps(s1, c, meta, why, k, planted);
    CleanUpKeeps(s1, c, meta, why);
  }

  lemma SecretStepAfter(s: State, s1: State, t: State, k: Ref, m: string, planted: Planted)
    requires Lookup(s1.secrets, k) == Lookup(s.secrets, k)
    requires SecretStep(s1, t, k, m, planted)
    ensures SecretStep(s, t, k, m, planted)
  {
    hide FromApply, BackendInv, Foreign;
  }

  lemma SecretStepLogged(s: State, t: State, u: State, more: seq<LogEntry>, k: Ref, m: string, planted: Planted)
    requires SecretStep(s, t, k, m, planted) && u.secrets == t.secrets && u.log == t.log + more
    ensures SecretStep(s, u, k, m, planted)
  {
    BackendInvMore(t.secrets, t.log, more, planted);
    if k in t.secrets && FromApply(t.log, m, t.secrets[k].data, planted) {
      FromApplyMore(t.log, more, m, t.secrets[k].data, planted);
    }
    hide FromApply, BackendInv, Foreign;
  }

  lemma ReconcileDestroySteps(s: State, c: Configuration, meta: Meta, o: Oracle, k: Ref, planted: Planted)
    requires WellFormed(s) && BackendInv(s.secrets, s.log, planted) && !Derived(k.name) && c.name in s.indexed
    ensures SecretStep(s, ReconcileDestroy(s, c, meta, o).0, k, c.name, planted)
  {
    hide TerraformDestroy, RemoveRecord, KeyStep, BackendInv, JobOf, IsDeletable, SecretStep;
    TerraformDestroySteps(s, c, meta, o, k, planted);
    TerraformDestroyKeeps(s, c, meta, o);
    var (s1, result) := TerraformDestroy(s, c, meta, o);
    KeepsWellFormed(s, s1, c.name);
    if result.DestroyDone? && c.name in s1.configurations {
      StoredName(s1, c.name);
      RemoveRecordEffect(s1, s1.configurations[c.name], result.why);
      hide WellFormed, Keeps;
      SecretStepLogged(s, s1, RemoveRecord(s1, s1.configurations[c.name], result.why),
                       if result.why.Some? then [Released(c.name, result.why.value)] else [], k, c.name, planted);
    }
  }

  /** One reconcile of m, whatever comes of it, leaves the secret k to its owner. */
  lemma ReconcileSteps(s: State, m: string, o: Oracle, k: Ref, planted: Planted)
    requires WellFormed(s) && RecordInv(s, m) && m in s.indexed
    requires BackendInv(s.secrets, s.log, planted) && !Derived(k.name)
    ensures SecretStep(s, Reconcile(s, m, o).0, k, m, planted)
  {
    var c := Indexed(s, m).value;
    IndexedName(s, m);
    EnsureFinalizerEffect(s, c);
    hide PreCheck, EnsureFinalizer, ReconcileDestroy, RunApply, EntryInv, BackendInv, KeyStep;
    var s1 := EnsureFinalizer(s, c);
    var c1 := Finalized(c);
    PreCheckKeeps(s1, c1, o);
    PreCheckSecrets(s1, c1, o);
    var (s2, meta, ok) := PreCheck(s1, c1, o);
    VariableSecretStep(s1, s2, k, m, planted);
    KeepsWellFormed(s1, s2, m);
    var c2 := Current(s2, c1);
    hide RecordInv;
    if c.deleting {
      ReconcileDestroySteps(s2, c2, meta, o, k, planted);
      hide WellFormed, Keeps, SecretsBut, SecretStep, Alike;
      SecretStepAfter(s, s2, ReconcileDestroy(s2, c2, meta, o).0, k, m, planted);
    } else if ok {
      var s3 := Equipped(s2, meta);
      KeepsSideways(s1, s2, s3, m);
      KeepsWellFormed(s1, s3, m);
      hide NonEmpty;
      RunApplySteps(s3, c2, meta, o, k, planted);
      hide WellFormed, Keeps, SecretsBut, SecretStep, Alike, Equipped;
      SecretStepAfter(s, s3, RunApply(s3, c2, meta, o).0, k, m, planted);
    } else {
      hide WellFormed, Keeps, SecretsBut, Alike;
      SameSecretStep(s, s2, k, m, planted);
    }
  }

  lemma SameSecretStep(s: State, t: State, k: Ref, m: string, planted: Planted)
    requires Lookup(t.secrets, k) == Lookup(s.secrets, k) && BackendInv(t.secrets, t.log, planted)
    ensures SecretStep(s, t, k, m, planted)
  {
    hide BackendInv;
  }

  /** Whoever does not own the secret k changes nothing in it. */
  lemma OthersLeaveKey(s: State, m: string, o: Oracle, k: Ref, n: string, planted: Planted)
    requires WellFormed(s) && RecordInv(s, m) && m in s.indexed && m != "" && m != n
    requires BackendInv(s.secrets, s.log, planted) && !Derived(k.name)
    requires OwnedBy(s.secrets, s.log, k, n, planted)
    ensures Lookup(Reconcile(s, m, o).0.secrets, k) == Lookup(s.secrets, k)
  {
    ReconcileSteps(s, m, o, k, planted);
    assert Label(OwnerLabels(n), OWNED_BY) == n && Foreign(OwnerLabels(n), m);
    hide Reconcile, RecordInv, WellFormed, BackendInv, FromApply, Foreign, OwnerLabels;
  }

  // ---------------------------------------------------------------- runs

  /** Names are not empty. */
  ghost predicate NamesInv(s: State) {
    forall n <- s.indexed :: n != ""
  }

  ghost predicate OwnershipInv(s: State, k: Ref, planted: Planted) {
    BackendInv(s.secrets, s.log, planted) && KeyInv(s, k, planted) && NamesInv(s)
  }

  /** A state file in a secret named like a backend secret is among those planted. */
  predicate Declared(ref: Ref, secret: Secret, planted: Planted) {
    BackendSecretName("") <= ref.name && STATE_KEY in secret.data && secret.data[STATE_KEY].Gzip? ==>
      (ref.name, secret.data[STATE_KEY]) in planted
  }

  /** REST calls do not write the secret k, and plant no other state files; they may delete any secret. */
  predicate Permitted(e: Event, k: Ref, planted: Planted) {
    match e
    case CreateConfiguration(name, _, _) => name != ""
    case UpdateConfiguration(_, name, _, _) => name != ""
    case CreateSecret(ref, secret) => ref != k && Declared(ref, secret, planted)
    case UpdateSecret(_, ref, secret) => ref != k && Declared(ref, secret, planted)
    case _ => true
  }

  /** The owners of k are still its owners. */
  ghost predicate OwnersKept(s: State, t: State, k: Ref, planted: Planted) {
    forall n: string :: OwnedBy(s.secrets, s.log, k, n, planted) ==> OwnedBy(t.secrets, t.log, k, n, planted)
  }

  lemma ReconcileKeepsNames(s: State, m: string, o: Oracle)
    requires WellFormed(s) && RecordInv(s, m) && m in s.indexed && NamesInv(s)
    requires Reconcile(s, m, o).1.Done?
    ensures NamesInv(Reconcile(s, m, o).0)
  {
    hide Reconcile, LogStep, Live, Alike, RecordInv;
    var gain := ReconcileEffect(s, m, o);
    var t := Reconcile(s, m, o).0;
    forall n <- t.indexed ensures n != "" {
      if n != m { OtherLookups(s, t, m, n); }
    }
  }

  lemma SecretStepKeeps(s: State, t: State, k: Ref, m: string, gain: Option<LogEntry>, planted: Planted)
    requires SecretStep(s, t, k, m, planted) && LogStep(s, t, gain) && m != "" && KeyInv(s, k, planted)
    ensures BackendInv(t.secrets, t.log, planted) && KeyInv(t, k, planted) && OwnersKept(s, t, k, planted)
  {
    hide BackendInv, FromApply, Foreign, OwnerLabels;
    forall n: string | OwnedBy(s.secrets, s.log, k, n, planted) ensures OwnedBy(t.secrets, t.log, k, n, planted) {
      KeyStepOwned(s, k, n, m, t.secrets, Entries(gain), planted);
    }
    if k !in s.secrets && k in t.secrets {
      KeyStepNew(s, k, m, t.secrets, Entries(gain), planted);
    }
  }

  lemma HandleKeepsOwnership(s: State, m: string, o: Oracle, k: Ref, planted: Planted)
    requires Inv(s) && OwnershipInv(s, k, planted) && !Derived(k.name) && ConfigurationRequest(m) in s.ready
    requires HandleRequest(s, ConfigurationRequest(m), o).Next?
    ensures var t := HandleRequest(s, ConfigurationRequest(m), o).state;
      OwnershipInv(t, k, planted) && OwnersKept(s, t, k, planted)
  {
    hide Inv, RecordInv, Reconcile, BackendInv, KeyInv, WellFormed, NamesInv, SecretStep, OthersKept,
      OwnersKept;
    var s0 := Taken(s, ConfigurationRequest(m));
    TakenStart(s, m);
    SameNames(s, s0);
    assert m != "" by { IndexedNamed(s0, m); }
    var gain := ReconcileEffect(s0, m, o);
    ReconcileSteps(s0, m, o, k, planted);
    ReconcileKeepsNames(s0, m, o);
    assert KeyInv(s0, k, planted) by { SameKey(s, s0, k, planted); }
    SecretStepKeeps(s0, Reconcile(s0, m, o).0, k, m, gain, planted);
    var t := HandleRequest(s, ConfigurationRequest(m), o).state;
    SameKey(Reconcile(s0, m, o).0, t, k, planted);
    SameKey(s, s0, k, planted);
    SameNames(Reconcile(s0, m, o).0, t);
    OwnersKeptVia(s, s0, Reconcile(s0, m, o).0, t, k, planted);
  }

  lemma IndexedNamed(s: State, m: string)
    requires NamesInv(s) && m in s.indexed
    ensures m != ""
  {
  }

  lemma SameKey(s: State, t: State, k: Ref, planted: Planted)
    requires s.secrets == t.secrets && s.log == t.log
    ensures KeyInv(t, k, planted) <==> KeyInv(s, k, planted)
  {
    hide OwnedBy;
  }

  lemma SameNames(s: State, t: State)
    requires s.indexed == t.indexed
    ensures NamesInv(t) <==> NamesInv(s)
  {
  }

  lemma OwnersKeptVia(s: State, s0: State, t0: State, t: State, k: Ref, planted: Planted)
    requires s.secrets == s0.secrets && s.log == s0.log && t.secrets == t0.secrets && t.log == t0.log
    requires OwnersKept(s0, t0, k, planted)
    ensures OwnersKept(s, t, k, planted)
  {
    hide OwnedBy;
  }

  lemma OwnersKeptTransitive(s: State, t: State, u: State, k: Ref, planted: Planted)
    requires OwnersKept(s, t, k, planted) && OwnersKept(t, u, k, planted)
    ensures OwnersKept(s, u, k, planted)
  {
    hide OwnedBy;
  }

  /** A step that leaves the secret k, plants nothing new, and adds a harmless entry to the log. */
  lemma QuietStep(s: State, t: State, k: Ref, gain: Option<LogEntry>, planted: Planted)
    requires BackendInv(s.secrets, s.log, planted) && KeyInv(s, k, planted) && LogStep(s, t, gain)
    requires Lookup(t.secrets, k) == Lookup(s.secrets, k)
    requires BackendInv(t.secrets, s.log, planted)
    ensures BackendInv(t.secrets, t.log, planted) && KeyInv(t, k, planted) && OwnersKept(s, t, k, planted)
  {
    BackendInvMore(t.secrets, s.log, Entries(gain), planted);
    forall n: string | OwnedBy(s.secrets, s.log, k, n, planted) ensures OwnedBy(t.secrets, t.log, k, n, planted) {
      FromApplyMore(s.log, Entries(gain), n, s.secrets[k].data, planted);
    }
    hide FromApply, LogHas, BackendInv;
  }

  lemma RestLeavesSecrets(s: State, e: Event)
    requires !e.CreateSecret? && !e.UpdateSecret? && !e.DeleteSecret?
    ensures Rest(s, e).secrets == s.secrets
  {
    hide WriteConfiguration, CacheDelete;
    match e
    case CreateConfiguration(name, spec, status) => RecordWrites(s, Body(name, spec, status));
    case UpdateConfiguration(_, name, spec, status) => RecordWrites(s, Body(name, spec, status));
    case DeleteConfiguration(url) => if url in s.configurations { RecordWrites(s, s.configurations[url]); }
    case _ =>
  }

  lemma RecordWrites(s: State, c: Configuration)
    ensures WriteConfiguration(s, c).secrets == s.secrets && CacheDelete(s, c).secrets == s.secrets
  {
    hide Detached;
  }

  lemma RestSecrets(s: State, e: Event, k: Ref, planted: Planted)
    requires Permitted(e, k, planted) && e != DeleteSecret(k) && BackendInv(s.secrets, s.log, planted)
    ensures Lookup(Rest(s, e).secrets, k) == Lookup(s.secrets, k) && BackendInv(Rest(s, e).secrets, s.log, planted)
  {
    hide WriteConfiguration, AddProvider, CacheDelete, BackendInv;
    match e
    case CreateSecret(ref, secret) => SecretWritten(s.secrets, s.log, ref, secret, planted);
    case UpdateSecret(at, ref, secret) => SecretWritten(s.secrets, s.log, ref, secret, planted);
    case DeleteSecret(at) => SecretDeleted(s.secrets, s.log, at, planted);
    case _ => RestLeavesSecrets(s, e);
  }

  lemma SecretWritten(secrets: map<Ref, Secret>, log: seq<LogEntry>, ref: Ref, secret: Secret, planted: Planted)
    requires BackendInv(secrets, log, planted) && Declared(ref, secret, planted)
    ensures BackendInv(secrets[ref := secret], log, planted)
  {
    hide LogHas;
    var after := secrets[ref := secret];
    forall backend: string, n: string ensures BackendHolds(after, log, BackendSecret(backend, n), n, planted) {
      DerivedNames(n);
      assert BackendHolds(secrets, log, BackendSecret(backend, n), n, planted);
    }
  }

  lemma SecretDeleted(secrets: map<Ref, Secret>, log: seq<LogEntry>, ref: Ref, planted: Planted)
    requires BackendInv(secrets, log, planted)
    ensures BackendInv(secrets - {ref}, log, planted)
  {
    hide LogHas;
    forall backend: string, n: string ensures BackendHolds(secrets - {ref}, log, BackendSecret(backend, n), n, planted) {
      assert BackendHolds(secrets, log, BackendSecret(backend, n), n, planted);
    }
  }

  lemma RestKeepsNames(s: State, e: Event, k: Ref, planted: Planted)
    requires NamesInv(s) && Permitted(e, k, planted) && WellFormed(s) && forall n <- s.configurations :: n in s.indexed
    ensures NamesInv(Rest(s, e))
  {
  }

  lemma AllIndexed(s: State)
    requires Inv(s)
    ensures WellFormed(s) && forall n <- s.configurations :: n in s.indexed
  {
    forall n <- s.configurations ensures n in s.indexed {
      assert RecordInv(s, n);
    }
  }

  lemma StepKeepsOwnership(s: State, e: Event, k: Ref, planted: Planted)
    requires Inv(s) && OwnershipInv(s, k, planted) && !Derived(k.name) && Permitted(e, k, planted)
    requires Enabled(s, e) && Step(s, e).Next?
    ensures OwnershipInv(Step(s, e).state, k, planted)
    ensures e != DeleteSecret(k) ==> OwnersKept(s, Step(s, e).state, k, planted)
  {
    hide Inv, Rest, Reconcile, ReconcileProvider, BackendInv, KeyInv, NamesInv, OwnersKept;
    var t := Step(s, e).state;
    match e
    case Handle(ConfigurationRequest(m), o) =>
      HandleKeepsOwnership(s, m, o, k, planted);
      hide HandleRequest;
    case Handle(ProviderRequest(ref), o) =>
      ProviderStepIsUnrelated(s, ref, o);
      ProviderStepSecrets(s, ref, o);
      SameNames(s, t);
      assert LogStep(s, t, None);
      QuietStep(s, t, k, None, planted);
    case Fire(_) =>
      SameNames(s, t);
      assert LogStep(s, t, None);
      QuietStep(s, t, k, None, planted);
    case _ =>
      AllIndexed(s);
      RestKeepsNames(s, e, k, planted);
      if e == DeleteSecret(k) {
        DeletedStep(s, k, planted);
      } else {
        RestSecrets(s, e, k, planted);
        var gain := RestLogs(s, e);
        QuietStep(s, t, k, gain, planted);
      }
  }

  /** A connection secret that is deleted over REST has no owner any more. */
  lemma DeletedStep(s: State, k: Ref, planted: Planted)
    requires BackendInv(s.secrets, s.log, planted)
    ensures Rest(s, DeleteSecret(k)) == DropSecret(s, k) && DropSecret(s, k).log == s.log
    ensures BackendInv(DropSecret(s, k).secrets, s.log, planted) && KeyInv(DropSecret(s, k), k, planted)
  {
    SecretDeleted(s.secrets, s.log, k, planted);
  }

  lemma ProviderStepSecrets(s: State, ref: Ref, o: Oracle)
    ensures var r := ProviderRequest(ref); var (s1, out) := ReconcileProvider(Taken(s, r), ref, o);
      s1.secrets == s.secrets
  {
    hide GetProviderCredentials;
  }

  /** Over any run: what is there of the connection secret k keeps its owner and comes from its applies. */
  lemma {:induction false} RunKeepsOwnership(s: State, run: seq<Event>, k: Ref, planted: Planted)
    requires Inv(s) && OwnershipInv(s, k, planted) && !Derived(k.name)
    requires Runs(s, run) && forall e <- run :: Permitted(e, k, planted)
    ensures OwnershipInv(End(s, run), k, planted)
    ensures DeleteSecret(k) !in run ==> OwnersKept(s, End(s, run), k, planted)
    decreases |run|
  {
    if run != [] {
      assert run[0] in run;
      StepKeepsOwnership(s, run[0], k, planted);
      StepKeepsInv(s, run[0]);
      var t := Step(s, run[0]).state;
      hide Inv, Step, OwnershipInv, OwnersKept, Permitted;
      RunKeepsOwnership(t, run[1..], k, planted);
      if DeleteSecret(k) !in run {
        assert DeleteSecret(k) !in run[1..];
        OwnersKeptTransitive(s, t, End(t, run[1..]), k, planted);
      }
    }
  }

  lemma InitialOwnership(environment: map<string, string>, k: Ref, planted: Planted)
    ensures OwnershipInv(Initial(environment), k, planted)
  {
  }

  lemma KeptOwner(s: State, t: State, k: Ref, n: string, planted: Planted)
    requires OwnersKept(s, t, k, planted) && OwnedBy(s.secrets, s.log, k, n, planted)
    ensures OwnedBy(t.secrets, t.log, k, n, planted)
  {
    hide OwnedBy;
  }

  /** Over any run from the empty store in which REST does not write k: when k is there it is labelled with an
      owner, and its data are the outputs of a successful apply of that owner, or of a state file that REST has
      planted for it. */
  lemma ConnectionSecretsAreOwned(environment: map<string, string>, run: seq<Event>, k: Ref, planted: Planted)
    requires !Derived(k.name) && Runs(Initial(environment), run) && forall e <- run :: Permitted(e, k, planted)
    ensures var t := End(Initial(environment), run);
      k in t.secrets ==> exists n :: OwnedBy(t.secrets, t.log, k, n, planted)
  {
    InitialInv(environment);
    InitialOwnership(environment, k, planted);
    hide Inv, Runs, End;
    RunKeepsOwnership(Initial(environment), run, k, planted);
  }

  /** And once a secret has an owner, that owner is never replaced, unless REST deletes the secret. */
  lemma OwnerNeverChanges(environment: map<string, string>, first: seq<Event>, more: seq<Event>, k: Ref, n: string,
                          planted: Planted)
    requires !Derived(k.name) && Runs(Initial(environment), first) && Runs(End(Initial(environment), first), more)
    requires (forall e <- first + more :: Permitted(e, k, planted)) && DeleteSecret(k) !in more
    requires var s := End(Initial(environment), first); OwnedBy(s.secrets, s.log, k, n, planted)
    ensures var t := End(End(Initial(environment), first), more); OwnedBy(t.secrets, t.log, k, n, planted)
  {
    hide Inv, Runs, End, OwnedBy, BackendInv, NamesInv, KeyInv, Permitted, OwnersKept;
    InitialInv(environment);
    InitialOwnership(environment, k, planted);
    assert forall e <- first :: e in first + more;
    assert forall e <- more :: e in first + more;
    hide OwnershipInv;
    RunKeepsInv(Initial(environment), first);
    RunKeepsOwnership(Initial(environment), first, k, planted);
    RunKeepsOwnership(End(Initial(environment), first), more, k, planted);
    KeptOwner(End(Initial(environment), first), End(End(Initial(environment), first), more), k, n, planted);
  }
}
