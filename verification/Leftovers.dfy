/** What an apply leaves behind when credentials move the backend namespace: a backend secret that no
    reconcile deletes any more. */
module Leftovers {
  import opened Objects
  import opened Variables
  import opened Lifecycle
  import opened Protocol
  import opened Frames
  import opened Safety
  import opened History
  import opened Secrets
  import opened RoundTrip

  /** A backend secret in a namespace that is not the current one. */
  ghost predicate LeftBehind(s: State, namespace: string, n: string) {
    BackendSecret(namespace, n) in s.secrets && BackendNamespace(s.environment) != namespace
  }

  /** No credentials move the backend namespace back, and REST does not delete the secret. */
  predicate Avoids(e: Event, namespace: string, n: string) {
    match e
    case Handle(_, o) =>
      o.credentials.Credentials? && BACKEND_NAMESPACE_VARIABLE in o.credentials.values ==>
        o.credentials.values[BACKEND_NAMESPACE_VARIABLE] != namespace
    case DeleteSecret(at) => at != BackendSecret(namespace, n)
    case _ => true
  }

  lemma NotDerived(namespace: string, n: string, backend: string, m: string)
    requires backend != namespace
    ensures BackendSecret(namespace, n) != VariableSecret(m) && BackendSecret(namespace, n) != BackendSecret(backend, m)
  {
    assert BackendSecretName(n)[0] != VariableSecretName(m)[0];
  }

  // ---------------------------------------------------------------- the secrets a reconcile may touch

  /** Of the secrets, at most derived ones are gone, and at most derived ones and those of connection are
      different or new. */
  ghost predicate Apart(s: State, t: State, derived: set<Ref>, connection: set<Ref>) {
    && t.secrets - (derived + connection) == s.secrets - (derived + connection)
    && s.secrets.Keys - derived <= t.secrets.Keys
  }

  lemma ApartTransitive(s: State, t: State, u: State, derived: set<Ref>, connection: set<Ref>)
    requires Apart(s, t, derived, connection) && Apart(t, u, derived, connection)
    ensures Apart(s, u, derived, connection)
  {
  }

  lemma SecretsButApart(s: State, t: State, some: set<Ref>, derived: set<Ref>, connection: set<Ref>)
    requires SecretsBut(s, t, some) && some <= derived + connection
    ensures Apart(s, t, derived, connection)
  {
    assert s.secrets - (derived + connection) == (s.secrets - some) - (derived + connection);
    assert t.secrets - (derived + connection) == (t.secrets - some) - (derived + connection);
  }

  lemma DroppedApart(s: State, t: State, derived: set<Ref>, connection: set<Ref>)
    requires t.secrets == s.secrets || t.secrets == s.secrets - derived
    ensures Apart(s, t, derived, connection)
  {
    assert s.secrets - (derived + connection) == (s.secrets - derived) - (derived + connection);
  }

  /** The variable secret and the backend secret of the Configuration. */
  function DerivedBy(c: Configuration, meta: Meta): set<Ref> {
    {VariableSecret(c.name), BackendSecret(meta.backend, c.name)}
  }

  lemma TerraformDestroyApart(s: State, c: Configuration, meta: Meta, o: Oracle, connection: set<Ref>)
    requires WellFormed(s)
    requires c.name in s.configurations ==> Connection(s.configurations[c.name].spec) <= connection
    ensures Apart(s, TerraformDestroy(s, c, meta, o).0, DerivedBy(c, meta), connection)
  {
    hide Keeps, JobOf, ConnectionSecret, RunDestroy, SecretsBut, Connection, UpdateJobPanics, CleanUp, IsDeletable, WellFormed,
      BackendSecret, VariableSecret, Apart;
    var derived := DerivedBy(c, meta);
    var run := JobRuns(s, c);
    var (s1, ok) := if run then RunDestroy(s, c, meta, o) else (s, true);
    DroppedApart(s, s, derived, connection);
    if run {
      RunDestroySecrets(s, c, meta, o);
      SecretsButApart(s, s1, Connection(s.configurations[c.name].spec), derived, connection);
    }
    hide JobRuns;
    CleanUpSecrets(s, c, meta, Some(DirectDelete));
    DroppedApart(s, CleanUp(s, c, meta, Some(DirectDelete)).0, derived, connection);
    var why := if run then None else Some(JobShadowed);
    CleanUpSecrets(s1, c, meta, why);
    DroppedApart(s1, CleanUp(s1, c, meta, why).0, derived, connection);
    ApartTransitive(s, s1, CleanUp(s1, c, meta, why).0, derived, connection);
  }

  lemma ReconcileDestroyApart(s: State, c: Configuration, meta: Meta, o: Oracle, connection: set<Ref>)
    requires WellFormed(s) && c.name in s.indexed
    requires c.name in s.configurations ==> Connection(s.configurations[c.name].spec) <= connection
    ensures var t := ReconcileDestroy(s, c, meta, o).0;
      Apart(s, t, DerivedBy(c, meta), connection) && t.environment == s.environment
  {
    hide TerraformDestroy, RemoveRecord, JobOf, IsDeletable, Keeps, WellFormed, DerivedBy, Connection;
    TerraformDestroyApart(s, c, meta, o, connection);
    TerraformDestroyKeeps(s, c, meta, o);
    var (s1, result) := TerraformDestroy(s, c, meta, o);
    KeepsWellFormed(s, s1, c.name);
    if result.DestroyDone? && c.name in s1.configurations {
      StoredName(s1, c.name);
      IndexedKept(s, s1, c.name);
      RemoveRecordEffect(s1, s1.configurations[c.name], result.why);
    }
  }

  lemma IndexedKept(s: State, t: State, n: string)
    requires Keeps(s, t, n) && n in s.indexed
    ensures n in t.indexed
  {
    hide OthersKept, SameQueues;
  }

  lemma ReconcileApplyApart(s: State, c: Configuration, meta: Meta, o: Oracle, connection: set<Ref>)
    requires WellFormed(s) && c.name in s.configurations
    requires Connection(s.configurations[c.name].spec) <= connection
    ensures var t := ReconcileApply(s, c, meta, o).0;
      Apart(s, t, DerivedBy(c, meta), connection) && t.environment == s.environment + NonEmpty(meta.variables)
  {
    hide RunApply, Keeps, JobOf, Connection, WellFormed, SecretsBut, NonEmpty, BackendSecret;
    var s1 := Equipped(s, meta);
    SameRecordsWellFormed(s, s1);
    RunApplySecrets(s1, c, meta, o);
    RunApplyKeeps(s1, c, meta, o);
    SecretsButApart(s1, RunApply(s1, c, meta, o).0,
                    {BackendSecret(meta.backend, c.name)} + Connection(s1.configurations[c.name].spec), DerivedBy(c, meta), connection);
  }

  /** preCheck, for the rest of a reconcile. */
  lemma PreCheckApart(s: State, c: Configuration, o: Oracle, connection: set<Ref>)
    requires WellFormed(s) && Indexed(s, c.name) == Some(c)
    requires c.name in s.configurations ==> Connection(s.configurations[c.name].spec) <= connection
    ensures var (t, meta, ok) := PreCheck(s, c, o); var d := Current(t, c);
      && WellFormed(t) && Apart(s, t, DerivedBy(d, meta), connection) && t.environment == s.environment
      && meta.backend == BackendNamespace(s.environment) && c.name in t.indexed && d.name == c.name
      && (c.name in t.configurations ==> Connection(t.configurations[c.name].spec) <= connection)
      && (ok ==> c.name in t.configurations && o.credentials.Credentials?
                 && PrepareVariables(c.spec.variable, o.credentials.values) == Some(meta.variables))
  {
    hide PreCheck, PrepareVariables, InputData, BackendNamespace, SecretsBut, WellFormed, VariableSecret, BackendSecret;
    PreCheckKeeps(s, c, o);
    PreCheckSecrets(s, c, o);
    PreCheckStoresInput(s, c, o);
    var (t, meta, ok) := PreCheck(s, c, o);
    KeepsWellFormed(s, t, c.name);
    IndexedName(t, c.name);
    SecretsButApart(s, t, {VariableSecret(c.name)}, DerivedBy(Current(t, c), meta), connection);
    if c.name in s.configurations {
      AlikeInput(s.configurations[c.name].spec, t.configurations[c.name].spec);
    }
    hide Alike, ConnectionSecret, Apart;
  }

  /** A reconcile in its stages. */
  lemma ReconcileUnfolds(s: State, m: string, o: Oracle)
    requires Indexed(s, m).Some?
    ensures var c := Indexed(s, m).value;
      var (s2, meta, ok) := PreCheck(EnsureFinalizer(s, c), Finalized(c), o);
      Reconcile(s, m, o).0 ==
        if c.deleting then ReconcileDestroy(s2, Current(s2, Finalized(c)), meta, o).0
        else if ok then ReconcileApply(s2, Current(s2, Finalized(c)), meta, o).0
        else s2
  {
    hide PreCheck, EnsureFinalizer, ReconcileDestroy, ReconcileApply, Current;
  }

  /** With the finalizer on, the record asks for the connection secret the indexer's object asks for. */
  lemma FinalizedConnection(s: State, c: Configuration)
    requires WellFormed(s) && RecordInv(s, c.name) && Indexed(s, c.name) == Some(c)
    ensures var t := EnsureFinalizer(s, c);
      c.name in t.configurations ==> Connection(t.configurations[c.name].spec) == Connection(c.spec)
  {
    hide EnsureFinalizer, OthersKept, WellFormed, Alike, Live, ConnectionSecret;
    EnsureFinalizerEffect(s, c);
    var t := EnsureFinalizer(s, c);
    if c.name in t.configurations {
      assert Alike(c.spec, t.configurations[c.name].spec);
      AlikeInput(c.spec, t.configurations[c.name].spec);
    }
  }

  /** Whatever its outcome, a reconcile changes, adds or removes no secret but its three, does not remove the
      connection secret, and leaves the process environment as it was or the backend namespace as its
      credentials say. */
  lemma ReconcileApart(s: State, n: string, o: Oracle)
    requires WellFormed(s) && RecordInv(s, n) && n in s.indexed && Indexed(s, n).Some?
    ensures var t := Reconcile(s, n, o).0;
      && Apart(s, t, DerivedSecrets(s, n), Connection(Indexed(s, n).value.spec))
      && (|| t.environment == s.environment
          || (o.credentials.Credentials?
              && BackendNamespace(t.environment) == NamespaceAfter(s.environment, o.credentials.values)))
  {
    hide PreCheck, EnsureFinalizer, ReconcileDestroy, ReconcileApply, WellFormed, RecordInv, BackendNamespace, PrepareVariables,
      NonEmpty, OthersKept, Alike, Current, Reconcile, BackendSecret, VariableSecret, Connection, NamespaceAfter, Indexed, Apart;
    var c := Indexed(s, n).value;
    ReconcileUnfolds(s, n, o);
    IndexedName(s, n);
    EnsureFinalizerEffect(s, c);
    FinalizedConnection(s, c);
    var s1, c1, connection := EnsureFinalizer(s, c), Finalized(c), Connection(c.spec);
    PreCheckApart(s1, c1, o, connection);
    var (s2, meta, ok) := PreCheck(s1, c1, o);
    var c2 := Current(s2, c1);
    DroppedApart(s, s1, DerivedSecrets(s, n), connection);
    ApartTransitive(s, s1, s2, DerivedSecrets(s, n), connection);
    if c.deleting {
      ReconcileDestroyApart(s2, c2, meta, o, connection);
      ApartTransitive(s, s2, ReconcileDestroy(s2, c2, meta, o).0, DerivedSecrets(s, n), connection);
    } else if ok {
      ReconcileApplyApart(s2, c2, meta, o, connection);
      ApartTransitive(s, s2, ReconcileApply(s2, c2, meta, o).0, DerivedSecrets(s, n), connection);
      VariablesLeaveNamespace(c1.spec.variable, o.credentials.values, s.environment);
    }
  }

  // ---------------------------------------------------------------- over runs

  lemma ReconcileLeaves(s: State, m: string, o: Oracle, namespace: string, n: string)
    requires WellFormed(s) && RecordInv(s, m) && m in s.indexed && Indexed(s, m).Some?
    requires LeftBehind(s, namespace, n) && Avoids(Handle(ConfigurationRequest(m), o), namespace, n)
    ensures LeftBehind(Reconcile(s, m, o).0, namespace, n)
  {
    hide WellFormed, RecordInv, BackendNamespace, Indexed, Reconcile, BackendSecret, VariableSecret, Connection;
    NotDerived(namespace, n, BackendNamespace(s.environment), m);
    ReconcileApart(s, m, o);
  }

  lemma StepLeaves(s: State, e: Event, namespace: string, n: string)
    requires Inv(s) && Enabled(s, e) && Step(s, e).Next?
    requires LeftBehind(s, namespace, n) && Avoids(e, namespace, n)
    ensures LeftBehind(Step(s, e).state, namespace, n)
  {
    hide Inv, Reconcile, GetProviderCredentials, BackendNamespace, CacheDelete;
    match e
    case Handle(ConfigurationRequest(m), o) =>
      TakenStart(s, m);
      ReconcileLeaves(Taken(s, ConfigurationRequest(m)), m, o, namespace, n);
    case DeleteConfiguration(url) =>
      if url in s.configurations { DeleteLeaves(s, s.configurations[url]); }
    case _ =>
  }

  lemma DeleteLeaves(s: State, c: Configuration)
    ensures CacheDelete(s, c).secrets == s.secrets && CacheDelete(s, c).environment == s.environment
  {
  }

  /** Over any run in which no credentials name that namespace again and REST does not delete the secret, the
      secret stays: no reconcile deletes it, not even one that deletes its Configuration. */
  lemma {:induction false} LeftBehindForever(s: State, run: seq<Event>, namespace: string, n: string)
    requires Inv(s) && Runs(s, run) && LeftBehind(s, namespace, n)
    requires forall e <- run :: Avoids(e, namespace, n)
    ensures LeftBehind(End(s, run), namespace, n)
    decreases |run|
  {
    if run != [] {
      assert run[0] in run;
      StepLeaves(s, run[0], namespace, n);
      StepKeepsInv(s, run[0]);
      hide Inv, Step, LeftBehind, Avoids;
      LeftBehindForever(Step(s, run[0]).state, run[1..], namespace, n);
    }
  }
}
