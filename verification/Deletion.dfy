/** Deleting a Configuration: when its record goes, what goes with it, and what can still happen under
    its name afterwards. */
module Deletion {
  import opened Objects
  import opened Lifecycle
  import opened Protocol
  import opened Frames
  import opened Safety
  import opened History
  import opened Checks
  import opened Secrets

  // ---------------------------------------------------------------- one reconcile of an object being deleted

  /** terraformDestroy starts here: the state preCheck has left, and the indexer's object in it. */
  function DestroyStart(s: State, n: string, o: Oracle): (State, Configuration, Meta)
    requires Indexed(s, n).Some?
  {
    var c := Indexed(s, n).value;
    var (t, meta, _) := PreCheck(s, c, o);
    (t, Current(t, c), meta)
  }

  ghost predicate BeingDeleted(s: State, n: string) {
    WellFormed(s) && RecordInv(s, n) && n in s.indexed && Indexed(s, n).value.deleting
  }

  lemma MarkedIsBeingDeleted(s: State, n: string)
    requires Inv(s) && n in s.configurations && s.configurations[n].deleting && ConfigurationRequest(n) in s.ready
    ensures BeingDeleted(Taken(s, ConfigurationRequest(n)), n)
  {
    assert RecordInv(s, n) && QueueInv(s, n);
    TakenKeepsRecord(s, n);
    hide Live, Alike;
  }

  /** What preCheck has not changed when terraformDestroy starts. */
  lemma DestroyStartKeeps(s: State, n: string, o: Oracle)
    requires BeingDeleted(s, n)
    ensures var (s1, c1, meta) := DestroyStart(s, n, o);
      && Keeps(s, s1, n) && WellFormed(s1) && s1.log == s.log && s1.environment == s.environment
      && Indexed(s1, n) == Some(c1) && c1.name == n && c1.deleting
      && !meta.configurationChanged && meta.backend == BackendNamespace(s.environment)
      && Reconcile(s, n, o) == ReconcileDestroy(s1, c1, meta, o)
      && (n in s1.configurations <==> n in s.configurations)
      && (n in s.configurations ==> Alike(c1.spec, s1.configurations[n].spec))
  {
    var c := Indexed(s, n).value;
    IndexedName(s, n);
    PreCheckKeeps(s, c, o);
    PreCheckStoresInput(s, c, o);
    hide PreCheck, WellFormed, ReconcileDestroy, Live, Checked, InputData;
    KeepsWellFormed(s, PreCheck(s, c, o).0, n);
  }

  /** The destroy job is skipped because a Configuration named like the job is in the store. */
  predicate Shadowed(s: State, n: string) {
    DestroyJobName(n) in s.configurations
  }

  /** A destroy reconcile that returns to its caller takes the record out of the store exactly when the
      Configuration may be deleted directly, or its destroy job is shadowed, or there is an input for it and
      terraform destroy succeeds; and the log tells the three apart. All of it is decided before the call. */
  lemma RecordLeavesExactlyWhen(s: State, n: string, o: Oracle)
    requires BeingDeleted(s, n) && n in s.configurations
    requires Reconcile(s, n, o).1.Done?
    ensures var c := Indexed(s, n).value;
      var deletable := DeletableBefore(s, c, o);
      var (t, out) := Reconcile(s, n, o);
      var (s1, c1, meta) := DestroyStart(s, n, o);
      && (n !in t.configurations <==>
            || deletable.Directly?
            || (deletable.AfterDestroy? && Shadowed(s, n))
            || (deletable.AfterDestroy? && InputThere(s, c, o) && o.terraform))
      && (n !in t.configurations <==> out == Done(0, false))
      && (n !in t.configurations && (deletable.Directly? || Shadowed(s, n)) ==>
            t.log == s.log + [Released(n, if deletable.Directly? then DirectDelete else JobShadowed)])
      && (n !in t.configurations && !deletable.Directly? && !Shadowed(s, n) ==>
            s1.configMap.Some? && t.log == s.log + [Destroyed(n, JobOf(s1, c1, meta), true)])
  {
    DestroyStartKeeps(s, n, o);
    DestroyStartKnown(s, n, o);
    var (s1, c1, meta) := DestroyStart(s, n, o);
    hide DestroyStart, Reconcile, BeingDeleted, DeletableBefore, InputThere;
    ShadowKept(s, s1, n);
    TerraformDestroyKeeps(s1, c1, meta, o);
    var (s2, result) := TerraformDestroy(s1, c1, meta, o);
    hide TerraformDestroy, IsDeletable, JobOf, Alike;
    KeepsWellFormed(s1, s2, n);
    if result.DestroyDone? {
      StoredName(s2, n);
      hide WellFormed;
      RemoveRecordEffect(s2, s2.configurations[n], result.why);
      hide RemoveRecord;
    }
  }

  /** What terraformDestroy decides by, known before preCheck. */
  lemma DestroyStartKnown(s: State, n: string, o: Oracle)
    requires BeingDeleted(s, n)
    ensures var (s1, c1, _) := DestroyStart(s, n, o); var c := Indexed(s, n).value;
      && IsDeletable(s1, c1) == DeletableBefore(s, c, o)
      && (s1.configMap.Some? <==> InputThere(s, c, o))
      && s1.secrets.Keys == s.secrets.Keys + (if Passes(s, c, o) then {VariableSecret(n)} else {})
      && s1.secrets - {VariableSecret(n)} == s.secrets - {VariableSecret(n)}
  {
    IndexedName(s, n);
    DeletableKnown(s, Indexed(s, n).value, o);
    InputKnown(s, Indexed(s, n).value, o);
    hide PreCheck, DeletableBefore, InputThere, Passes, IsDeletable, RecordInv, WellFormed;
  }

  lemma ShadowKept(s: State, t: State, n: string)
    requires Keeps(s, t, n)
    ensures Shadowed(t, n) <==> Shadowed(s, n)
  {
    assert |DestroyJobName(n)| > |n|;
    OtherLookups(s, t, n, DestroyJobName(n));
  }

  /** Without such a Configuration the record leaves only after a successful terraform destroy, or when
      the provider is gone or unready, or terraform never got past its initialization. */
  lemma RecordLeavesOnlyAfterDestroy(s: State, n: string, o: Oracle)
    requires BeingDeleted(s, n) && n in s.configurations && !Shadowed(s, n)
    requires Reconcile(s, n, o).1.Done? && n !in Reconcile(s, n, o).0.configurations
    ensures var (s1, c1, meta) := DestroyStart(s, n, o);
      var t, c := Reconcile(s, n, o).0, Indexed(s, n).value;
      || (s1.configMap.Some? && t.log == s.log + [Destroyed(n, JobOf(s1, c1, meta), true)])
      || (var ref := GetProviderNamespacedName(c.spec);
          ref !in s.providers || s.providers[ref].state == ProviderIsNotReady || c.status.apply.state == TerraformInitError)
  {
    RecordLeavesExactlyWhen(s, n, o);
    hide Reconcile, DestroyStart, JobOf, BeingDeleted, StatusOverwritten;
  }

  /** Why a record may be released without a destroy run. */
  ghost predicate Justified(s: State, n: string, why: Reason) {
    match why
    case DirectDelete =>
      && n in s.indexed && Indexed(s, n).Some?
      && (var c := Indexed(s, n).value; var ref := GetProviderNamespacedName(c.spec);
          ref !in s.providers || s.providers[ref].state == ProviderIsNotReady || c.status.apply.state == TerraformInitError)
    case JobShadowed => Shadowed(s, n)
  }

  lemma ReleasingReconcile(s: State, m: string, o: Oracle, n: string, why: Reason)
    requires WellFormed(s) && RecordInv(s, m) && m in s.indexed && Indexed(s, m).Some?
    requires Reconcile(s, m, o).1.Done? && Reconcile(s, m, o).0.log == s.log + [Released(n, why)]
    ensures m == n && Justified(s, n, why)
  {
    hide Reconcile, WellFormed, OthersKept, Alike, RecordInv, JobOf, StatusOverwritten, DestroyStart, InputThere;
    var gain := ReconcileEffect(s, m, o);
    SameAppend(s.log, Released(n, why), gain);
    RecordLeavesExactlyWhen(s, m, o);
    if DeletableBefore(s, Indexed(s, m).value, o).Directly? || Shadowed(s, m) {
      SameAppend(s.log, Released(m, if DeletableBefore(s, Indexed(s, m).value, o).Directly? then DirectDelete else JobShadowed),
                 Some(Released(n, why)));
    } else {
      var (s1, c1, meta) := DestroyStart(s, m, o);
      SameAppend(s.log, Destroyed(m, JobOf(s1, c1, meta), true), Some(Released(n, why)));
    }
  }

  /** In any run: a record is released without a destroy run only when its provider is absent or unready or
      its status is TerraformInitError, or when a Configuration named like its destroy job is in the store. */
  lemma ReleasesAreJustified(environment: map<string, string>, run: seq<Event>, e: Event, n: string, why: Reason)
    requires Runs(Initial(environment), run)
    requires var s := End(Initial(environment), run);
      Enabled(s, e) && Step(s, e).Next? && Step(s, e).state.log == s.log + [Released(n, why)]
    ensures e.Handle? && e.request == ConfigurationRequest(n) && Justified(End(Initial(environment), run), n, why)
  {
    InitialInv(environment);
    RunKeepsInv(Initial(environment), run);
    var s := End(Initial(environment), run);
    hide Inv, Runs, End, Rest, Reconcile, ReconcileProvider, RecordInv, Justified;
    match e
    case Handle(ConfigurationRequest(m), o) =>
      TakenStart(s, m);
      ReleasingReconcile(Taken(s, ConfigurationRequest(m)), m, o, n, why);
      SameJustified(s, Taken(s, ConfigurationRequest(m)), n, why);
    case Handle(ProviderRequest(ref), o) =>
      ProviderStepIsUnrelated(s, ref, o);
      NotLonger(s.log, Released(n, why));
    case Fire(_) => NotLonger(s.log, Released(n, why));
    case _ =>
      var gain := RestLogs(s, e);
      SameAppend(s.log, Released(n, why), gain);
  }

  lemma SameJustified(s: State, t: State, n: string, why: Reason)
    requires t.configurations == s.configurations && t.indexed == s.indexed && t.providers == s.providers
    ensures Justified(t, n, why) == Justified(s, n, why)
  {
    hide GetProviderNamespacedName;
  }

  lemma NotLonger(log: seq<LogEntry>, e: LogEntry)
    ensures log != log + [e]
  {
    assert |log + [e]| == |log| + 1;
  }

  /** What is left of the secrets and the records when the record of n has gone. */
  ghost predicate CleanedUp(s: State, t: State, n: string) {
    && t.configurations == s.configurations - {n}
    && t.secrets == s.secrets - {VariableSecret(n), BackendSecret(BackendNamespace(s.environment), n)}
    && t.configMap == None
    && t.providers == s.providers && t.indexedProviders == s.indexedProviders
    && t.indexed.Keys == s.indexed.Keys && t.indexed - {n} == s.indexed - {n}
    && t.environment == s.environment
    && SameQueues(s, t)
  }

  lemma ReconcileDestroyCleansUp(s: State, c: Configuration, meta: Meta, o: Oracle)
    requires WellFormed(s) && c.name in s.indexed
    requires c.name in s.configurations ==> Alike(c.spec, s.configurations[c.name].spec)
    requires ReconcileDestroy(s, c, meta, o).1 == Done(0, false)
    requires meta.backend == BackendNamespace(s.environment)
    ensures CleanedUp(s, ReconcileDestroy(s, c, meta, o).0, c.name)
  {
    var n := c.name;
    if n in s.configurations {
      AlikeInput(c.spec, s.configurations[n].spec);
    }
    hide Alike, IsDeletable, JobOf, BackendNamespace, ConnectionSecret, TerraformDestroy, RemoveRecord;
    TerraformDestroyKeeps(s, c, meta, o);
    TerraformDestroySecrets(s, c, meta, o);
    var (s2, result) := TerraformDestroy(s, c, meta, o);
    KeepsWellFormed(s, s2, n);
    StoredName(s2, n);
    hide WellFormed;
    RemoveRecordEffect(s2, s2.configurations[n], result.why);
    RecordsWithout(s, s2, ReconcileDestroy(s, c, meta, o).0, n);
    hide Keeps, OthersKept;
  }

  lemma RecordsWithout(s: State, s2: State, t: State, n: string)
    requires OthersKept(s, s2, n) && OthersKept(s2, t, n)
    requires n !in t.configurations && n in t.indexed && n in s.indexed
    ensures t.configurations == s.configurations - {n}
    ensures t.indexed.Keys == s.indexed.Keys && t.indexed - {n} == s.indexed - {n}
    ensures t.providers == s.providers && t.indexedProviders == s.indexedProviders
  {
    assert t.configurations == t.configurations - {n};
    SameKeys(s.indexed, t.indexed, n);
  }

  lemma SameKeys(a: map<string, Entry>, b: map<string, Entry>, n: string)
    requires a - {n} == b - {n} && n in a && n in b
    ensures a.Keys == b.Keys
  {
    assert a.Keys == (a - {n}).Keys + {n};
    assert b.Keys == (b - {n}).Keys + {n};
  }

  /** A successful destroy reconcile removes the record, its variable secret, its backend secret and the
      input ConfigMap, and nothing else; only the ClusterRole may have been added by preCheck. */
  lemma CleanUpIsComplete(s: State, n: string, o: Oracle)
    requires BeingDeleted(s, n) && n in s.configurations
    requires Reconcile(s, n, o).1 == Done(0, false)
    ensures CleanedUp(s, Reconcile(s, n, o).0, n)
  {
    var c := Indexed(s, n).value;
    IndexedName(s, n);
    DestroyStartKeeps(s, n, o);
    PreCheckSecrets(s, c, o);
    var (s1, c1, meta) := DestroyStart(s, n, o);
    assert SecretsBut(s, s1, {VariableSecret(n)});
    hide DestroyStart, Reconcile, BeingDeleted, PreCheck, Alike, WellFormed;
    ReconcileDestroyCleansUp(s1, c1, meta, o);
    hide ReconcileDestroy, BackendNamespace;
    DropBoth(s.secrets, s1.secrets, VariableSecret(n), BackendSecret(BackendNamespace(s.environment), n));
    SameKeys(s.indexed, s1.indexed, n);
  }

  lemma DropBoth(a: map<Ref, Secret>, b: map<Ref, Secret>, v: Ref, r: Ref)
    requires a - {v} == b - {v}
    ensures a - {v, r} == b - {v, r}
  {
    assert a - {v, r} == (a - {v}) - {r};
    assert b - {v, r} == (b - {v}) - {r};
  }
}
