/** What held at every terraform run of a run of the system. */
module History {
  import opened Objects
  import opened Render
  import opened Variables
  import opened Lifecycle
  import opened Protocol
  import opened Frames
  import opened Safety

  /** What preCheck has established when it returns no error: the shared ConfigMap holds the rendering of
      the object being reconciled, whatever it held before; the provider is there; the credentials were
      fetched; and the variables are the merge of the two. */
  ghost predicate Checked(s: State, c: Configuration, meta: Meta) {
    && ValidConfigurationObject(c.spec).Some?
    && s.configMap == Some(InputData(c.spec, ValidConfigurationObject(c.spec).value))
    && GetProviderNamespacedName(c.spec) in s.providers
    && meta.credentials.Some?
    && PrepareVariables(c.spec.variable, meta.credentials.value) == Some(meta.variables)
    && !meta.configurationChanged
  }

  lemma SetRegionNeedsRecord(s: State, n: string, p: Provider)
    ensures SetRegion(s, n, p).1.Some? ==> n in s.configurations
  {
  }

  lemma CheckEnvironmentMeta(s: State, n: string, credentials: map<string, string>, variables: map<string, string>)
    ensures var meta := CheckEnvironment(s, n, credentials, variables).1;
      && !meta.configurationChanged && meta.backend == BackendNamespace(s.environment)
      && meta.credentials == Some(credentials) && meta.variables == variables
  {
    hide EnvChanged, BackendNamespace;
  }

  lemma CheckProviderChecks(s: State, n: string, spec: Spec, o: Oracle)
    requires WellFormed(s)
    ensures var (t, meta, ok) := CheckProvider(s, n, spec, o);
      && !meta.configurationChanged && meta.backend == BackendNamespace(s.environment)
      && (ok ==> n in s.configurations && GetProviderNamespacedName(spec) in t.providers && meta.credentials.Some?
                 && PrepareVariables(spec.variable, meta.credentials.value) == Some(meta.variables)
                 && o.credentials == Credentials(meta.credentials.value))
  {
    hide WellFormed, UpdateApplyStatus, PrepareVariables, CheckEnvironment, SetRegion,
      BackendNamespace;
    CheckProviderKeeps(s, n, spec, o);
    var ref := GetProviderNamespacedName(spec);
    if ref in s.providers {
      SetRegionKeeps(s, n, s.providers[ref]);
      var s1 := SetRegion(s, n, s.providers[ref]).0;
      assert SetRegion(s, n, s.providers[ref]).1.Some? ==> n in s.configurations by { SetRegionNeedsRecord(s, n, s.providers[ref]); }
      var credentials := GetProviderCredentials(s1, s.providers[ref], o.credentials);
      if credentials.Credentials? && PrepareVariables(spec.variable, credentials.values).Some? {
        CheckEnvironmentMeta(s1, n, credentials.values, PrepareVariables(spec.variable, credentials.values).value);
      }
    }
    hide Keeps;
  }

  /** Storing the text before comparing it makes the change flag false for every input, and the text in
      the ConfigMap the one just rendered; whenever preCheck gets past the validation. */
  lemma PreCheckStoresInput(s: State, c: Configuration, o: Oracle)
    requires WellFormed(s) && Indexed(s, c.name) == Some(c)
    ensures var (t, meta, ok) := PreCheck(s, c, o);
      && !meta.configurationChanged && meta.backend == BackendNamespace(s.environment)
      && (o.quantities && ValidConfigurationObject(c.spec).Some? ==>
            t.configMap == Some(InputData(c.spec, ValidConfigurationObject(c.spec).value)))
      && (!(o.quantities && ValidConfigurationObject(c.spec).Some?) ==> !ok && t.configMap == s.configMap)
      && (ok ==> Checked(t, c, meta) && c.name in s.configurations && o.credentials == Credentials(meta.credentials.value))
  {
    if o.quantities && ValidConfigurationObject(c.spec).Some? {
      var s1 := PreCheckUnfolds(s, c, o);
      hide PreCheck, CheckProvider, PrepareVariables;
      CheckProviderKeeps(s1, c.name, WithBackend(c.spec), o);
      CheckProviderChecks(s1, c.name, WithBackend(c.spec), o);
      hide Keeps, WellFormed, InputData;
    } else {
      UpdateApplyStatusKeeps(s, c.name, ConfigurationStaticCheckFailed);
      hide Keeps, UpdateApplyStatus;
    }
  }

  /** Objects that differ in region and default backend only are the same to terraform. */
  lemma AlikeChecked(s: State, c: Configuration, d: Configuration, meta: Meta)
    requires Alike(c.spec, d.spec) && Checked(s, c, meta)
    ensures Checked(s, d, meta)
  {
    AlikeInput(c.spec, d.spec);
    hide PrepareVariables, InputData;
  }

  lemma AlikeInput(a: Spec, b: Spec)
    requires Alike(a, b)
    ensures ValidConfigurationObject(a) == ValidConfigurationObject(b)
    ensures ValidConfigurationObject(a).Some? ==>
              InputData(a, ValidConfigurationObject(a).value) == InputData(b, ValidConfigurationObject(b).value)
    ensures GetProviderNamespacedName(a) == GetProviderNamespacedName(b)
    ensures ConnectionSecret(a) == ConnectionSecret(b)
    ensures a.variable == b.variable
  {
    assert a.(backend := None, region := "").hcl == b.(backend := None, region := "").hcl;
  }

  // ---------------------------------------------------------------- every entry of the log

  ghost predicate InEnvironment(variables: map<string, string>, environment: map<string, string>) {
    forall k <- variables | variables[k] != "" :: k in environment && environment[k] == variables[k]
  }

  /** terraform apply for the stored Configuration: it carries the finalizer and is not being deleted, the
      ConfigMap is its rendering, its provider exists, its credentials were fetched, and every non-empty
      merged variable is in the process environment. */
  ghost predicate ApplyReady(name: string, job: Job) {
    && job.stored.Some? && job.stored.value.name == name
    && job.stored.value.finalizer && !job.stored.value.deleting
    && (var spec := job.stored.value.spec;
        && ValidConfigurationObject(spec).Some?
        && job.input == InputData(spec, ValidConfigurationObject(spec).value)
        && job.credentials.Some?
        && PrepareVariables(spec.variable, job.credentials.value) == Some(job.variables))
    && job.provider.Some?
    && InEnvironment(job.variables, job.environment)
  }

  /** terraform destroy for the stored Configuration: it carries the finalizer and is being deleted, and
      its provider exists and has not been found unready. */
  ghost predicate DestroyReady(name: string, job: Job) {
    && job.stored.Some? && job.stored.value.name == name
    && job.stored.value.finalizer && job.stored.value.deleting
    && job.provider.Some? && job.provider.value.state != ProviderIsNotReady
  }

  ghost predicate Ready(e: LogEntry) {
    match e
    case Applied(name, job, _, _) => ApplyReady(name, job)
    case Destroyed(name, job, _) => DestroyReady(name, job)
    case _ => true
  }

  lemma EquippedEnvironment(s: State, meta: Meta)
    ensures InEnvironment(meta.variables, Equipped(s, meta).environment)
  {
  }

  lemma ApplyEntryReady(s1: State, s2: State, c2: Configuration, meta: Meta, ok: bool, file: Option<StateFile>)
    requires WellFormed(s2) && Indexed(s2, c2.name) == Some(c2) && Checked(s2, c2, meta)
    requires c2.name in s2.configurations
    requires var d := s2.configurations[c2.name]; d.finalizer && !d.deleting && Alike(c2.spec, d.spec)
    ensures Ready(Applied(c2.name, JobOf(Equipped(s2, meta), c2, meta), ok, file))
  {
    AlikeInput(c2.spec, s2.configurations[c2.name].spec);
    EquippedEnvironment(s2, meta);
    hide PrepareVariables, InputData, InEnvironment, NonEmpty, Alike;
  }

  lemma ReconcileApplyReady(s: State, n: string, o: Oracle, gain: Option<LogEntry>)
    requires WellFormed(s) && RecordInv(s, n) && n in s.indexed && !Indexed(s, n).value.deleting
    requires LogStep(s, Reconcile(s, n, o).0, gain)
    ensures gain.Some? ==> Ready(gain.value)
  {
    var c := Indexed(s, n).value;
    IndexedName(s, n);
    EnsureFinalizerEffect(s, c);
    hide PreCheck, EnsureFinalizer, ReconcileApply, WellFormed, EntryInv, Checked, Ready, PrepareVariables;
    var s1 := EnsureFinalizer(s, c);
    var c1 := Finalized(c);
    PreCheckKeeps(s1, c1, o);
    PreCheckStoresInput(s1, c1, o);
    var (s2, meta, ok) := PreCheck(s1, c1, o);
    if ok {
      KeepsWellFormed(s1, s2, n);
      var c2 := Current(s2, c1);
      AlikeChecked(s2, c1, c2, meta);
      ApplyEntryReady(s1, s2, c2, meta, o.terraform, if o.terraform then o.stateFile else None);
      ApplyGain(s2, c2, meta, o, gain);
    } else {
      NoGain(s2.log, gain);
    }
  }

  lemma NoGain(log: seq<LogEntry>, gain: Option<LogEntry>)
    requires log == log + Entries(gain)
    ensures gain.None?
  {
    assert |log + Entries(gain)| == |log| + |Entries(gain)|;
  }

  lemma ApplyGain(s: State, c: Configuration, meta: Meta, o: Oracle, gain: Option<LogEntry>)
    requires WellFormed(s) && s.configMap.Some?
    requires LogStep(s, ReconcileApply(s, c, meta, o).0, gain)
    ensures gain == Some(Applied(c.name, JobOf(Equipped(s, meta), c, meta), o.terraform,
                                 if o.terraform then o.stateFile else None))
  {
    TerraformApplyKeeps(s, c, meta, o);
    hide TerraformApply, WellFormed, JobOf;
    var e := Applied(c.name, JobOf(Equipped(s, meta), c, meta), o.terraform, if o.terraform then o.stateFile else None);
    SameAppend(s.log, e, gain);
  }

  lemma SameAppend(log: seq<LogEntry>, e: LogEntry, gain: Option<LogEntry>)
    requires log + [e] == log + Entries(gain)
    ensures gain == Some(e)
  {
    assert |log + [e]| == |log| + 1 && |log + Entries(gain)| == |log| + |Entries(gain)|;
    assert (log + [e])[|log|] == (log + Entries(gain))[|log|];
  }

  lemma ReconcileDestroyReady(s: State, n: string, o: Oracle, gain: Option<LogEntry>)
    requires WellFormed(s) && RecordInv(s, n) && n in s.indexed && Indexed(s, n).value.deleting
    requires LogStep(s, Reconcile(s, n, o).0, gain)
    ensures gain.Some? ==> Ready(gain.value)
  {
    var c := Indexed(s, n).value;
    IndexedName(s, n);
    EnsureFinalizerEffect(s, c);
    hide PreCheck, EnsureFinalizer, ReconcileDestroy, WellFormed, EntryInv, DestroyReady;
    PreCheckKeeps(s, c, o);
    var (s2, meta, ok) := PreCheck(s, c, o);
    KeepsWellFormed(s, s2, n);
    var c2 := Current(s2, c);
    DestroyGain(s2, c2, meta, o, gain);
    if gain.Some? && gain.value.Destroyed? {
      DestroyEntryReady(s, s2, c2, meta);
    }
  }

  lemma DestroyGain(s: State, c: Configuration, meta: Meta, o: Oracle, gain: Option<LogEntry>)
    requires WellFormed(s)
    requires LogStep(s, ReconcileDestroy(s, c, meta, o).0, gain)
    ensures gain.Some? && gain.value.Destroyed? ==>
              JobRuns(s, c) && s.configMap.Some? && gain.value.name == c.name && gain.value.job == JobOf(s, c, meta)
    ensures gain.Some? ==> !gain.value.Applied?
  {
    hide TerraformDestroy, IsDeletable, JobOf, WellFormed, Keeps, UpdateWithCopy, CacheDelete;
    TerraformDestroyKeeps(s, c, meta, o);
    var (s1, result) := TerraformDestroy(s, c, meta, o);
    if s1.log == s.log {
      if result.DestroyDone? && c.name in s1.configurations {
        RemoveRecordLog(s1, s1.configurations[c.name], result.why);
        if result.why.Some? {
          SameAppend(s.log, Released(s1.configurations[c.name].name, result.why.value), gain);
        } else {
          NoGain(s.log, gain);
        }
      } else {
        NoGain(s.log, gain);
      }
    } else {
      if result.DestroyDone? && c.name in s1.configurations {
        RemoveRecordLog(s1, s1.configurations[c.name], result.why);
      }
      SameAppend(s.log, Destroyed(c.name, JobOf(s, c, meta), o.terraform), gain);
    }
  }

  lemma RemoveRecordLog(s: State, c: Configuration, why: Option<Reason>)
    ensures RemoveRecord(s, c, why).log == (if why.Some? then s.log + [Released(c.name, why.value)] else s.log)
  {
  }

  lemma DestroyEntryReady(s: State, s2: State, c2: Configuration, meta: Meta)
    requires WellFormed(s2) && RecordInv(s, c2.name) && c2.name in s.indexed && Indexed(s, c2.name).value.deleting
    requires Keeps(s, s2, c2.name) && s2.configMap.Some? && JobRuns(s2, c2)
    ensures DestroyReady(c2.name, JobOf(s2, c2, meta))
  {
    hide Live, Alike;
  }

  lemma ReconcileLogs(s: State, n: string, o: Oracle) returns (gain: Option<LogEntry>)
    requires WellFormed(s) && RecordInv(s, n) && n in s.indexed
    ensures LogStep(s, Reconcile(s, n, o).0, gain)
    ensures gain.Some? ==> Ready(gain.value) && gain.value.name == n && !gain.value.Written?
  {
    gain := ReconcileEffect(s, n, o);
    hide Reconcile, RecordInv, Ready, WellFormed, Kept, Removed;
    if Indexed(s, n).value.deleting {
      ReconcileDestroyReady(s, n, o, gain);
    } else {
      ReconcileApplyReady(s, n, o, gain);
    }
  }

  /** REST calls log the writes of Configurations only. */
  lemma RestLogs(s: State, e: Event) returns (gain: Option<LogEntry>)
    ensures LogStep(s, Rest(s, e), gain)
    ensures gain.Some? ==> gain.value.Written?
    ensures gain.Some? ==> e.CreateConfiguration? || gain.value.name in s.configurations
    ensures e.CreateConfiguration? ==> gain == Some(Written(e.name))
  {
    gain := None;
    assert s.log + Entries(None) == s.log;
    match e
    case CreateConfiguration(name, _, _) => gain := Some(Written(name));
    case UpdateConfiguration(url, name, _, _) =>
      if url in s.configurations && url == name { gain := Some(Written(name)); }
    case _ =>
  }

  /** The log grows by at most one entry a step, and terraform runs only when ready. */
  lemma StepLogs(s: State, e: Event) returns (gain: Option<LogEntry>)
    requires Inv(s) && Enabled(s, e) && Step(s, e).Next?
    ensures LogStep(s, Step(s, e).state, gain)
    ensures gain.Some? ==> Ready(gain.value)
  {
    hide Rest, Reconcile, ReconcileProvider, RecordInv, QueueInv;
    match e
    case Handle(ConfigurationRequest(n), o) =>
      assert RecordInv(s, n) && QueueInv(s, n);
      TakenKeepsRecord(s, n);
      gain := ReconcileLogs(Taken(s, ConfigurationRequest(n)), n, o);
      hide Ready;
    case Handle(ProviderRequest(ref), o) =>
      ProviderStepIsUnrelated(s, ref, o);
      gain := None;
    case Fire(_) => gain := None;
    case _ => gain := RestLogs(s, e);
  }

  /** Every terraform run of every run of the system was ready. */
  lemma {:induction false} RunLogsReady(s: State, run: seq<Event>, i: nat)
    requires Inv(s) && Runs(s, run)
    requires forall j | 0 <= j < |s.log| :: Ready(s.log[j])
    ensures i < |End(s, run).log| ==> Ready(End(s, run).log[i])
    decreases |run|
  {
    if run != [] {
      var gain := StepLogs(s, run[0]);
      StepKeepsInv(s, run[0]);
      hide Step, Inv, Ready;
      RunLogsReady(Step(s, run[0]).state, run[1..], i);
    }
  }

  lemma TerraformRunsOnlyWhenReady(environment: map<string, string>, run: seq<Event>, i: nat)
    requires Runs(Initial(environment), run) && i < |End(Initial(environment), run).log|
    ensures Ready(End(Initial(environment), run).log[i])
  {
    InitialInv(environment);
    RunLogsReady(Initial(environment), run, i);
  }
}
