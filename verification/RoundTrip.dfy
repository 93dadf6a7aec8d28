/** Deleting a Configuration undoes what applying it did to the store. */
module RoundTrip {
  import opened Objects
  import opened Render
  import opened Variables
  import opened Lifecycle
  import opened Protocol
  import opened Frames
  import opened Safety
  import opened History
  import opened Secrets
  import opened Deletion
  import opened Outputs

  /** The two secrets a reconcile of the name derives from it and from the process environment. */
  function DerivedSecrets(s: State, n: string): set<Ref> {
    {VariableSecret(n), BackendSecret(BackendNamespace(s.environment), n)}
  }

  lemma RunApplySecrets(s: State, c: Configuration, meta: Meta, o: Oracle)
    requires WellFormed(s) && c.name in s.configurations
    ensures SecretsBut(s, RunApply(s, c, meta, o).0,
                       {BackendSecret(meta.backend, c.name)} + Connection(s.configurations[c.name].spec))
  {
    hide JobOf, BackendNamespace, ConnectionSecret, SecretsBut, WellFormed, UpdateAvailable, Connection, BackendSecret;
    var ref := BackendSecret(meta.backend, c.name);
    var connection := Connection(s.configurations[c.name].spec);
    if s.configMap.Some? && o.terraform && o.stateFile.Some? {
      var secret := Secret(map[], map[STATE_KEY := Gzip(o.stateFile.value)]);
      var s1 := Logged(s, Applied(c.name, JobOf(s, c, meta), true, o.stateFile));
      SameRecordsWellFormed(s, s1);
      BackendWritten(s1, meta.backend, c.name, secret);
      SameSecretsBut(s, s1, UpdateAvailable(PutSecret(s1, ref, secret), meta.backend, c.name), {ref} + connection);
    } else {
      SecretsButReflexive(s, RunApply(s, c, meta, o).0, {ref} + connection);
    }
  }

  lemma BackendWritten(s: State, backend: string, n: string, secret: Secret)
    requires WellFormed(s) && n in s.configurations
    ensures SecretsBut(s, UpdateAvailable(PutSecret(s, BackendSecret(backend, n), secret), backend, n),
                       {BackendSecret(backend, n)} + Connection(s.configurations[n].spec))
  {
    hide SecretsBut, UpdateAvailable, Connection, BackendSecret;
    var ref := BackendSecret(backend, n);
    var t := PutSecret(s, ref, secret);
    PutSecretBut(s, ref, secret);
    SameRecordsWellFormed(s, t);
    hide WellFormed;
    UpdateAvailableSecrets(t, backend, n);
    SecretsButTransitive(s, t, UpdateAvailable(t, backend, n), {ref}, Connection(s.configurations[n].spec));
  }

  lemma SameRecordsWellFormed(s: State, t: State)
    requires WellFormed(s) && t.configurations == s.configurations && t.indexed == s.indexed
    ensures WellFormed(t)
  {
  }

  lemma SecretsButReflexive(s: State, t: State, refs: set<Ref>)
    requires t.secrets == s.secrets
    ensures SecretsBut(s, t, refs)
  {
  }

  lemma SameSecretsBut(s: State, s1: State, t: State, refs: set<Ref>)
    requires s1.secrets == s.secrets && SecretsBut(s1, t, refs)
    ensures SecretsBut(s, t, refs)
  {
  }

  lemma TwoStages(s: State, s3: State, t: State, v: Ref, b: Ref, others: set<Ref>)
    requires SecretsBut(s, s3, {v}) && SecretsBut(s3, t, {b} + others)
    ensures SecretsBut(s, t, {v, b} + others)
  {
    SecretsButTransitive(s, s3, t, {v}, {b} + others);
    assert {v} + ({b} + others) == {v, b} + others;
  }

  /** An apply reconcile that returns without error writes no other secret than its two derived ones and
      the connection secret it is asked for. */
  lemma ApplySecrets(s: State, n: string, o: Oracle)
    requires WellFormed(s) && RecordInv(s, n) && n in s.indexed && !Indexed(s, n).value.deleting
    requires Reconcile(s, n, o).1 == Done(0, false)
    ensures SecretsBut(s, Reconcile(s, n, o).0, DerivedSecrets(s, n) + Connection(Indexed(s, n).value.spec))
  {
    var spec := Indexed(s, n).value.spec;
    hide Reconcile, RunApply, WellFormed, RecordInv, SecretsBut, ConnectionSecret, BackendNamespace;
    var s3, c, meta := ApplyStages(s, n, o);
    AlikeInput(spec, s3.configurations[n].spec);
    hide Alike;
    RunApplySecrets(s3, c, meta, o);
    TwoStages(s, s3, Reconcile(s, n, o).0, VariableSecret(n), BackendSecret(meta.backend, n), Connection(spec));
  }

  /** The backend namespace after an apply with these credentials. */
  function NamespaceAfter(environment: map<string, string>, credentials: map<string, string>): string {
    if BACKEND_NAMESPACE_VARIABLE in credentials && credentials[BACKEND_NAMESPACE_VARIABLE] != ""
    then credentials[BACKEND_NAMESPACE_VARIABLE]
    else BackendNamespace(environment)
  }

  lemma PrefixedAvoidsNamespace(values: map<string, Interface>)
    ensures BACKEND_NAMESPACE_VARIABLE !in Prefixed(values)
  {
    assert BACKEND_NAMESPACE_VARIABLE[1] != TF_VAR[1];
    forall k <- values ensures TF_VAR + k != BACKEND_NAMESPACE_VARIABLE {
      assert (TF_VAR + k)[1] == TF_VAR[1];
    }
  }

  lemma NamespaceMerged(environment: map<string, string>, variables: map<string, string>)
    ensures BackendNamespace(environment + NonEmpty(variables)) == NamespaceAfter(environment, variables)
  {
  }

  /** No variable of a Configuration is the backend namespace: its name starts with TF_VAR_. */
  lemma VariablesLeaveNamespace(raw: RawExtension, credentials: map<string, string>, environment: map<string, string>)
    requires PrepareVariables(raw, credentials).Some?
    ensures BackendNamespace(environment + NonEmpty(PrepareVariables(raw, credentials).value))
         == NamespaceAfter(environment, credentials)
  {
    if raw.Decoded? { PrefixedAvoidsNamespace(raw.values); }
    NamespaceMerged(environment, PrepareVariables(raw, credentials).value);
    hide Prefixed, Interface2String, NonEmpty, BackendNamespace;
  }

  /** An apply moves the backend namespace to the one the credentials name, if they name one. */
  lemma ApplyMovesNamespace(s: State, n: string, o: Oracle)
    requires WellFormed(s) && RecordInv(s, n) && n in s.indexed && !Indexed(s, n).value.deleting
    requires Reconcile(s, n, o).1 == Done(0, false)
    ensures o.credentials.Credentials?
    ensures BackendNamespace(Reconcile(s, n, o).0.environment) == NamespaceAfter(s.environment, o.credentials.values)
  {
    var raw := Indexed(s, n).value.spec.variable;
    hide Reconcile, RunApply, WellFormed, RecordInv, SecretsBut, BackendNamespace, PrepareVariables, NonEmpty, Alike, Indexed;
    var s3, c, meta := ApplyStages(s, n, o);
    RunApplyKeeps(s3, c, meta, o);
    VariablesLeaveNamespace(raw, o.credentials.values, s.environment);
    hide Keeps, JobOf, NamespaceAfter;
  }

  /** What else an apply without error leaves: a record with its finalizer, not in a state IsDeletable looks for,
      the variable secret as it was or created from the merged variables, and the rendering in the ConfigMap. */
  lemma ApplyLeavesRecord(s: State, n: string, o: Oracle)
    requires WellFormed(s) && RecordInv(s, n) && n in s.indexed && !Indexed(s, n).value.deleting
    requires Reconcile(s, n, o).1 == Done(0, false) && ConnectionSecret(Indexed(s, n).value.spec).None?
    ensures o.credentials.Credentials?
    ensures PrepareVariables(Indexed(s, n).value.spec.variable, o.credentials.values).Some?
    ensures var t, spec := Reconcile(s, n, o).0, Indexed(s, n).value.spec;
      && VariableSecret(n) in t.secrets
      && t.secrets[VariableSecret(n)] ==
           (if VariableSecret(n) in s.secrets then s.secrets[VariableSecret(n)]
            else Secret(map[], AsSecretData(PrepareVariables(spec.variable, o.credentials.values).value)))
      && ValidConfigurationObject(spec).Some?
      && t.configMap == Some(InputData(spec, ValidConfigurationObject(spec).value))
  {
    var spec := Indexed(s, n).value.spec;
    hide Reconcile, RunApply, WellFormed, RecordInv, SecretsBut, ConnectionSecret, InputData, AsSecretData, PrepareVariables;
    var s3, c, meta := ApplyStages(s, n, o);
    AlikeInput(spec, s3.configurations[n].spec);
    hide Alike, Indexed;
    RunApplySecrets(s3, c, meta, o);
    RunApplyKeeps(s3, c, meta, o);
    hide Keeps, JobOf;
    OtherSecretKept(s3, RunApply(s3, c, meta, o).0, BackendSecret(meta.backend, n), VariableSecret(n));
  }

  lemma OtherSecretKept(s: State, t: State, b: Ref, v: Ref)
    requires SecretsBut(s, t, {b} + {}) && v != b && v in s.secrets
    ensures v in t.secrets && t.secrets[v] == s.secrets[v]
  {
    assert v in s.secrets - ({b} + {});
    assert v in t.secrets - ({b} + {});
  }

  /** Apply, DELETE, destroy. The record and the input ConfigMap are gone and every other record and the
      providers are as they were; provided no connection secret is asked for and the derived secrets were
      not there before, the secrets are as they were too, exactly when the credentials do not name a backend
      namespace other than the current one: the destroy looks for the state file in the namespace the
      process environment names by then, and the apply has written the credentials into that environment. */
  lemma ApplyThenDeleteRestores(s: State, n: string, o: Oracle, p: Oracle)
    requires Inv(s) && n in s.indexed && !Indexed(s, n).value.deleting && ConfigurationRequest(n) in s.ready
    requires ConnectionSecret(Indexed(s, n).value.spec).None? && DerivedSecrets(s, n) !! s.secrets.Keys
    requires Reconcile(Taken(s, ConfigurationRequest(n)), n, o).1 == Done(0, false)
    requires var a := HandleRequest(s, ConfigurationRequest(n), o).state;
      && n in a.configurations
      && Reconcile(Taken(CacheDelete(a, a.configurations[n]), ConfigurationRequest(n)), n, p).1 == Done(0, false)
    ensures o.credentials.Credentials?
    ensures var a := HandleRequest(s, ConfigurationRequest(n), o).state;
      var t := HandleRequest(CacheDelete(a, a.configurations[n]), ConfigurationRequest(n), p).state;
      && t.configurations == s.configurations - {n}
      && t.configMap == None
      && t.providers == s.providers
      && t.environment == a.environment
      && (t.secrets == s.secrets <==>
            NamespaceAfter(s.environment, o.credentials.values) == BackendNamespace(s.environment))
      && (NamespaceAfter(s.environment, o.credentials.values) != BackendNamespace(s.environment) ==>
            BackendSecret(BackendNamespace(s.environment), n) in t.secrets)
  {
    var r := ConfigurationRequest(n);
    ApplyHandled(s, n, o);
    var a := HandleRequest(s, r, o).state;
    hide HandleRequest, Reconcile, Inv, BackendNamespace, ConnectionSecret, NamespaceAfter;
    DeleteHandled(a, n, p);
    hide CacheDelete;
    NothingLeft(s.secrets, a.secrets, VariableSecret(n), BackendSecret(BackendNamespace(s.environment), n),
                BackendSecret(BackendNamespace(a.environment), n));
  }

  /** v and b were written; v and c are dropped. */
  lemma NothingLeft(before: map<Ref, Secret>, after: map<Ref, Secret>, v: Ref, b: Ref, c: Ref)
    requires after - {v, b} == before - {v, b} && v !in before && b !in before && b in after && v != b
    ensures after - {v, c} == before <==> b == c
    ensures b != c ==> b in after - {v, c}
  {
    assert before - {v, b} == before;
    if b != c {
      assert b in after - {v, c};
    }
  }

  lemma ApplyHandled(s: State, n: string, o: Oracle)
    requires Inv(s) && n in s.indexed && !Indexed(s, n).value.deleting && ConfigurationRequest(n) in s.ready
    requires ConnectionSecret(Indexed(s, n).value.spec).None?
    requires Reconcile(Taken(s, ConfigurationRequest(n)), n, o).1 == Done(0, false)
    ensures HandleRequest(s, ConfigurationRequest(n), o).Next?
    ensures var a := HandleRequest(s, ConfigurationRequest(n), o).state;
      && Inv(a) && n in a.configurations && a.configurations[n].finalizer
      && a.configurations - {n} == s.configurations - {n}
      && a.secrets - DerivedSecrets(s, n) == s.secrets - DerivedSecrets(s, n)
      && BackendSecret(BackendNamespace(s.environment), n) in a.secrets
      && a.providers == s.providers
      && o.credentials.Credentials?
      && BackendNamespace(a.environment) == NamespaceAfter(s.environment, o.credentials.values)
  {
    hide Reconcile, RecordInv, QueueInv, SecretsBut, BackendNamespace, ConnectionSecret;
    var r := ConfigurationRequest(n);
    var s0 := Taken(s, r);
    assert RecordInv(s, n) && QueueInv(s, n);
    TakenKeepsRecord(s, n);
    assert WellFormed(s0);
    StepKeepsInv(s, Handle(r, o));
    hide Inv, WellFormed, Alike;
    assert Indexed(s0, n) == Indexed(s, n) && DerivedSecrets(s0, n) == DerivedSecrets(s, n);
    hide Indexed;
    ApplySecrets(s0, n, o);
    SuccessfulApply(s0, n, o);
    ApplyMovesNamespace(s0, n, o);
    hide Reported, NamespaceAfter;
    ApplyRecords(s0, n, o);
    SecretsUnfold(s0, Reconcile(s0, n, o).0, DerivedSecrets(s0, n));
  }

  lemma ApplyRecords(s: State, n: string, o: Oracle)
    requires WellFormed(s) && RecordInv(s, n) && n in s.indexed && !Indexed(s, n).value.deleting
    requires Reconcile(s, n, o).1 == Done(0, false)
    ensures var t := Reconcile(s, n, o).0;
      && OthersKept(s, t, n) && n in t.configurations && t.configurations[n].finalizer
  {
    var gain := ReconcileEffect(s, n, o);
    hide Reconcile, RecordInv, WellFormed, OthersKept, Alike, Indexed;
  }

  lemma DeleteHandled(a: State, n: string, p: Oracle)
    requires Inv(a) && n in a.configurations && a.configurations[n].finalizer
    requires Reconcile(Taken(CacheDelete(a, a.configurations[n]), ConfigurationRequest(n)), n, p).1 == Done(0, false)
    ensures var t := HandleRequest(CacheDelete(a, a.configurations[n]), ConfigurationRequest(n), p).state;
      && t.configurations == a.configurations - {n}
      && t.secrets == a.secrets - DerivedSecrets(a, n)
      && t.configMap == None && t.providers == a.providers && t.environment == a.environment
  {
    var r := ConfigurationRequest(n);
    WellFormedOf(a);
    StoredName(a, n);
    DeleteKeepsInv(a, n);
    DeleteMarks(a, n);
    var b := CacheDelete(a, a.configurations[n]);
    hide CacheDelete, Reconcile, BackendNamespace;
    MarkedIsBeingDeleted(b, n);
    CleanUpIsComplete(Taken(b, r), n, p);
    hide Inv, BeingDeleted;
  }

  lemma SecretsUnfold(s: State, t: State, refs: set<Ref>)
    requires SecretsBut(s, t, refs + {})
    ensures t.secrets - refs == s.secrets - refs
  {
    assert refs + {} == refs;
  }

  lemma DeleteMarks(s: State, n: string)
    requires n in s.configurations && s.configurations[n].name == n && s.configurations[n].finalizer
    ensures var t := CacheDelete(s, s.configurations[n]);
      && n in t.configurations && t.configurations[n].deleting
      && ConfigurationRequest(n) in t.ready
      && t.configurations - {n} == s.configurations - {n}
      && t.secrets == s.secrets && t.environment == s.environment && t.providers == s.providers
  {
  }

  lemma AppliedSpec(s: State, n: string, o: Oracle)
    requires WellFormed(s) && RecordInv(s, n) && n in s.indexed && !Indexed(s, n).value.deleting
    requires Reconcile(s, n, o).1 == Done(0, false)
    ensures n in Reconcile(s, n, o).0.configurations
    ensures var spec := Reconcile(s, n, o).0.configurations[n].spec;
      && ValidConfigurationObject(spec) == ValidConfigurationObject(Indexed(s, n).value.spec)
      && ConnectionSecret(spec) == ConnectionSecret(Indexed(s, n).value.spec)
      && GetProviderNamespacedName(spec) == GetProviderNamespacedName(Indexed(s, n).value.spec)
      && spec.variable == Indexed(s, n).value.spec.variable
    ensures SameQueues(s, Reconcile(s, n, o).0)
  {
    var gain := ReconcileEffect(s, n, o);
    var t := Reconcile(s, n, o).0;
    hide Reconcile, RecordInv, WellFormed, OthersKept, LogStep;
    AlikeInput(Indexed(s, n).value.spec, Indexed(t, n).value.spec);
    AlikeInput(Indexed(t, n).value.spec, t.configurations[n].spec);
    hide Alike, ValidConfigurationObject, ConnectionSecret, GetProviderNamespacedName;
  }

  /** Everything later results use of a state in which n was just applied without error. */
  lemma AppliedAfterwards(s: State, n: string, o: Oracle)
    requires Inv(s) && n in s.indexed && Indexed(s, n).Some? && !Indexed(s, n).value.deleting && ConfigurationRequest(n) in s.ready
    requires ConnectionSecret(Indexed(s, n).value.spec).None?
    requires Reconcile(Taken(s, ConfigurationRequest(n)), n, o).1 == Done(0, false)
    ensures HandleRequest(s, ConfigurationRequest(n), o).Next?
    ensures o.credentials.Credentials?
    ensures var a := HandleRequest(s, ConfigurationRequest(n), o).state; var spec := Indexed(s, n).value.spec;
      && Inv(a) && n in a.configurations && a.configurations[n].finalizer && a.configurations[n].name == n
      && a.configurations - {n} == s.configurations - {n} && a.providers == s.providers
      && a.secrets - DerivedSecrets(s, n) == s.secrets - DerivedSecrets(s, n)
      && (var d := a.configurations[n];
          && !Special(d.status.apply.state) && d.spec.variable == spec.variable
          && ValidConfigurationObject(d.spec) == ValidConfigurationObject(spec)
          && ConnectionSecret(d.spec).None? && GetProviderNamespacedName(d.spec) == GetProviderNamespacedName(spec))
      && VariableSecret(n) in a.secrets && PrepareVariables(spec.variable, o.credentials.values).Some?
      && a.secrets[VariableSecret(n)] ==
           (if VariableSecret(n) in s.secrets then s.secrets[VariableSecret(n)]
            else Secret(map[], AsSecretData(PrepareVariables(spec.variable, o.credentials.values).value)))
      && ValidConfigurationObject(spec).Some?
      && a.configMap == Some(InputData(spec, ValidConfigurationObject(spec).value))
      && a.ready == s.ready - {ConfigurationRequest(n)} && a.delayed == s.delayed
      && Live(a.log, n) && a.environment == Reconcile(Taken(s, ConfigurationRequest(n)), n, o).0.environment
  {
    hide Inv, RecordInv, WellFormed, Reconcile, Alike, SameApart, OthersKept, PrepareVariables, Indexed, AsSecretData, InputData,
      Published, MayPublish, ValidConfigurationObject, ConnectionSecret, GetProviderNamespacedName, BackendNamespace,
      NamespaceAfter, DerivedSecrets, StateKept;
    var r := ConfigurationRequest(n);
    var s0 := Taken(s, r);
    TakenStart(s, n);
    assert Indexed(s0, n) == Indexed(s, n) by { TakenIndexed(s, r, n); }
    ApplyHandled(s, n, o);
    ApplyLeavesRecord(s0, n, o);
    AppliedSpec(s0, n, o);
    AppliedLive(s0, n, o);
    hide Live;
    SuccessfulApply(s0, n, o);
    var a := HandleRequest(s, r, o).state;
    WellFormedOf(a);
    StoredName(a, n);
  }

  lemma AppliedLive(s: State, n: string, o: Oracle)
    requires WellFormed(s) && RecordInv(s, n) && n in s.indexed && !Indexed(s, n).value.deleting
    requires Reconcile(s, n, o).1 == Done(0, false)
    ensures Live(Reconcile(s, n, o).0.log, n)
  {
    var gain := ReconcileEffect(s, n, o);
    hide Reconcile, RecordInv, WellFormed, OthersKept, Alike, Live;
    LiveAfter(s.log, gain.value, n);
  }

  lemma TakenIndexed(s: State, r: Request, n: string)
    ensures Indexed(Taken(s, r), n) == Indexed(s, n)
  {
  }
}
