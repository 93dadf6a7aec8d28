/** Where the program does not keep what one would expect of it: exact conditions, and runs from the empty
    store that show it. */
module Findings {
  import opened Objects
  import opened Render
  import opened Variables
  import opened Lifecycle
  import opened Protocol
  import opened Frames
  import opened Safety
  import opened History
  import opened Checks
  import opened Secrets
  import opened Deletion
  import opened Aftermath
  import opened Convergence
  import opened Crash
  import opened Retries
  import opened RoundTrip
  import opened Leftovers
  import opened Lifetime

  /** What a destroy run reads. A reconcile of an object being deleted goes on when preCheck fails: the
      input is the rendering of the Configuration exactly when the environment's quantities parse and the
      spec is valid (or the ConfigMap happened to hold that text); otherwise it is whatever the shared
      ConfigMap held, and without one there is no run. */
  lemma DestroyInput(s: State, n: string, o: Oracle)
    requires BeingDeleted(s, n)
    ensures var (s1, c1, meta) := DestroyStart(s, n, o);
      var kind := ValidConfigurationObject(Indexed(s, n).value.spec);
      if o.quantities && kind.Some? then
        s1.configMap.Some? && JobOf(s1, c1, meta).input == InputData(Indexed(s, n).value.spec, kind.value)
      else
        s1.configMap == s.configMap && (s1.configMap.Some? ==> JobOf(s1, c1, meta).input == s.configMap.value)
  {
    var c := Indexed(s, n).value;
    IndexedName(s, n);
    PreCheckStoresInput(s, c, o);
    hide PreCheck, InputData, RecordInv, WellFormed;
  }

  /** DELETE of a Configuration that has not got its finalizer yet takes the record out of the store, but its
      request is still queued, and the reconcile puts the record back, with a finalizer. */
  lemma DeletedTooEarlyComesBack(s: State, n: string, o: Oracle)
    requires Inv(s) && n in s.configurations && !s.configurations[n].finalizer
    ensures var t := CacheDelete(s, s.configurations[n]);
      && n !in t.configurations && Scheduled(t, n)
      && (ConfigurationRequest(n) in t.ready ==>
            && HandleRequest(t, ConfigurationRequest(n), o).Next?
            && (var u := HandleRequest(t, ConfigurationRequest(n), o).state;
                n in u.configurations && u.configurations[n].finalizer && !u.configurations[n].deleting))
  {
    var r := ConfigurationRequest(n);
    assert RecordInv(s, n) && QueueInv(s, n);
    DeleteKeepsInv(s, n);
    var t := CacheDelete(s, s.configurations[n]);
    assert n in t.indexed && Indexed(t, n) == Some(s.configurations[n]);
    assert !s.configurations[n].deleting;
    if r in t.ready {
      assert RecordInv(t, n) && QueueInv(t, n);
      TakenKeepsRecord(t, n);
      hide CacheDelete, Reconcile, RecordInv, QueueInv;
      var gain := ReconcileEffect(Taken(t, r), n, o);
      hide Inv, Alike, WellFormed, OthersKept;
    }
  }

  /** DELETE while a retry is waiting schedules the name a second time. When the first of the two entries
      takes the record away, the other stays behind, and from then on it is retried forever. */
  lemma SecondDeleteIsRetriedForever(s: State, n: string, o: Oracle, run: seq<Event>)
    requires Inv(s) && n in s.configurations && s.configurations[n].finalizer && ConfigurationRequest(n) in s.delayed
    requires Reconcile(Taken(CacheDelete(s, s.configurations[n]), ConfigurationRequest(n)), n, o).1 == Done(0, false)
    requires var t := HandleRequest(CacheDelete(s, s.configurations[n]), ConfigurationRequest(n), o);
      t.Next? && Runs(t.state, run)
    requires forall e <- run :: !CreatesName(e, n)
    ensures var t := HandleRequest(CacheDelete(s, s.configurations[n]), ConfigurationRequest(n), o).state;
      && n !in t.configurations && n !in End(t, run).configurations && Scheduled(End(t, run), n)
  {
    hide CacheDelete, Reconcile, Inv, WellFormed, Runs, End, HandleRequest;
    WellFormedOf(s);
    StoredName(s, n);
    DeleteKeepsInv(s, n);
    DeleteMarks(s, n);
    DeleteKeepsDelayed(s, n);
    var b := CacheDelete(s, s.configurations[n]);
    RecordTaken(b, n, o);
    EmptyRun(HandleRequest(b, ConfigurationRequest(n), o).state);
    StaysScheduledExactlyWhen(b, n, o, []);
    StaysScheduledExactlyWhen(b, n, o, run);
  }

  lemma DeleteKeepsDelayed(s: State, n: string)
    requires n in s.configurations && s.configurations[n].finalizer
    ensures CacheDelete(s, s.configurations[n]).delayed == s.delayed
  {
  }

  // ---------------------------------------------------------------- invalid Configurations

  /** Every invalid Configuration being deleted, with nothing else in the way, is destroyed with the text the
      ConfigMap happens to hold. */
  lemma InvalidDestroy(s: State, n: string, o: Oracle)
    requires BeingDeleted(s, n) && n in s.configurations && !Shadowed(s, n)
    requires var c := Indexed(s, n).value;
      && ValidConfigurationObject(c.spec).None? && DeletableBefore(s, c, o).AfterDestroy?
      && !ConnectionWillBeThere(s, c, o)
    requires s.configMap.Some? && o.terraform
    ensures Reconcile(s, n, o).1 == Done(0, false)
    ensures var (s1, c1, meta) := DestroyStart(s, n, o);
      && s1.configMap == s.configMap && JobOf(s1, c1, meta).input == s.configMap.value
      && Reconcile(s, n, o).0.log == s.log + [Destroyed(n, JobOf(s1, c1, meta), true)]
  {
    IndexedName(s, n);
    assert !EnvironmentDiffers(s, Indexed(s, n).value, o);
    hide Reconcile, DestroyStart, BeingDeleted, EnvironmentDiffers, DeletableBefore, ConnectionWillBeThere,
      ValidConfigurationObject, WellFormed, RecordInv;
    DestroyOutcome(s, n, o);
    RecordLeavesExactlyWhen(s, n, o);
    DestroyInput(s, n, o);
  }

  /** An invalid Configuration that is not being deleted gets its finalizer and a status, and that is all. */
  lemma InvalidApply(s: State, n: string, o: Oracle)
    requires WellFormed(s) && RecordInv(s, n) && n in s.indexed && !Indexed(s, n).value.deleting
    requires ValidConfigurationObject(Indexed(s, n).value.spec).None? && o.quantities
    ensures var (t, out) := Reconcile(s, n, o);
      && out == Done(0, true) && t.configMap == s.configMap && t.log == s.log && t.providers == s.providers
      && n in t.configurations && t.configurations[n].finalizer
      && t.configurations[n].status.apply == ApplyStatus(ConfigurationStaticCheckFailed, map[])
      && Alike(Indexed(s, n).value.spec, t.configurations[n].spec)
      && SameQueues(s, t) && OthersKept(s, t, n)
  {
    var c := Indexed(s, n).value;
    IndexedName(s, n);
    EnsureFinalizerEffect(s, c);
    EnsureFinalizerProviders(s, c);
    hide PreCheck, EnsureFinalizer, ReconcileApply, WellFormed, RecordInv, Checked;
    var s1 := EnsureFinalizer(s, c);
    var c1 := Finalized(c);
    PreCheckOutcome(s1, c1, o);
    PreCheckStoresInput(s1, c1, o);
    PreCheckKeeps(s1, c1, o);
    hide InputData, Preparable, Indexed;
  }

  /** A deletable invalid record. */
  ghost predicate Broken(a: State, n: string) {
    && Inv(a) && n in a.configurations && a.configurations[n].finalizer && a.configurations[n].name == n
    && !Shadowed(a, n) && a.configMap.Some?
    && (var d := a.configurations[n]; var ref := GetProviderNamespacedName(d.spec);
        && ref in a.providers && a.providers[ref].state != ProviderIsNotReady
        && !Special(d.status.apply.state) && ValidConfigurationObject(d.spec).None? && ConnectionSecret(d.spec).None?)
  }

  lemma BrokenDestroyed(a: State, n: string, p: Oracle)
    requires Broken(a, n) && p.terraform
    ensures var b := CacheDelete(a, a.configurations[n]); var out := HandleRequest(b, ConfigurationRequest(n), p);
      && ConfigurationRequest(n) in b.ready && out.Next?
      && |out.state.log| == |a.log| + 1
      && (var e := out.state.log[|a.log|];
          e.Destroyed? && e.name == n && e.ok && e.job.input == a.configMap.value)
  {
    hide Inv, CacheDelete, BeingDeleted, ConnectionSecret, StatusOverwritten, Reconcile, DestroyStart, JobOf,
      ValidConfigurationObject, GetProviderNamespacedName;
    var r := ConfigurationRequest(n);
    var b := CacheDelete(a, a.configurations[n]);
    DeleteKeepsInv(a, n);
    MarkedRecord(a, n);
    MarkedIsBeingDeleted(b, n);
    var s := Taken(b, r);
    assert Indexed(s, n) == Some(b.configurations[n]) && n in s.configurations;
    assert |DestroyJobName(n)| > |n|;
    assert Shadowed(s, n) <==> DestroyJobName(n) in a.configurations - {n} by {
      assert DestroyJobName(n) in b.configurations - {n} <==> DestroyJobName(n) in b.configurations;
    }
    hide Indexed;
    InvalidDestroy(s, n, p);
  }

  /** Creating any invalid Configuration and deleting it again runs terraform destroy with whatever text is in
      the ConfigMap, if its provider is there and not unready and no Configuration shadows its destroy job. */
  lemma InvalidLife(s: State, n: string, spec: Spec, status: Status, o: Oracle, p: Oracle)
    requires Inv(s) && ValidConfigurationObject(spec).None? && ConnectionSecret(spec).None?
    requires var ref := GetProviderNamespacedName(spec); ref in s.providers && s.providers[ref].state != ProviderIsNotReady
    requires !Shadowed(s, n) && s.configMap.Some? && o.quantities && p.terraform
    ensures var w := WriteConfiguration(s, Body(n, spec, status));
      && ConfigurationRequest(n) in w.ready && HandleRequest(w, ConfigurationRequest(n), o).Next?
      && (var a := HandleRequest(w, ConfigurationRequest(n), o).state;
          && n in a.configurations
          && (var b := CacheDelete(a, a.configurations[n]); var out := HandleRequest(b, ConfigurationRequest(n), p);
              && ConfigurationRequest(n) in b.ready && out.Next?
              && |out.state.log| == |s.log| + 2
              && (var e := out.state.log[|s.log| + 1];
                  e.Destroyed? && e.name == n && e.ok && e.job.input == s.configMap.value)))
  {
    InvalidCreated(s, n, spec, status, o);
    var w := WriteConfiguration(s, Body(n, spec, status));
    var a := HandleRequest(w, ConfigurationRequest(n), o).state;
    hide WriteConfiguration, HandleRequest, Broken, Inv, CacheDelete;
    BrokenDestroyed(a, n, p);
  }

  lemma InvalidCreated(s: State, n: string, spec: Spec, status: Status, o: Oracle)
    requires Inv(s) && ValidConfigurationObject(spec).None? && ConnectionSecret(spec).None?
    requires var ref := GetProviderNamespacedName(spec); ref in s.providers && s.providers[ref].state != ProviderIsNotReady
    requires !Shadowed(s, n) && s.configMap.Some? && o.quantities
    ensures var w := WriteConfiguration(s, Body(n, spec, status));
      && ConfigurationRequest(n) in w.ready && HandleRequest(w, ConfigurationRequest(n), o).Next?
      && (var a := HandleRequest(w, ConfigurationRequest(n), o).state;
          Broken(a, n) && a.configMap == s.configMap && a.log == s.log + [Written(n)])
  {
    hide Inv, WriteConfiguration, RecordInv, WellFormed, Reconcile, Alike, Indexed, ValidConfigurationObject,
      ConnectionSecret, GetProviderNamespacedName;
    var r := ConfigurationRequest(n);
    var w := WriteConfiguration(s, Body(n, spec, status));
    WriteKeepsInv(s, Body(n, spec, status));
    WrittenState(s, Body(n, spec, status));
    assert |DestroyJobName(n)| > |n|;
    TakenStart(w, n);
    var w0 := Taken(w, r);
    assert Indexed(w0, n) == Indexed(w, n) by { SameIndexed(w, w0, n); }
    InvalidApply(w0, n, o);
    var t := Reconcile(w0, n, o).0;
    AlikeInput(spec, t.configurations[n].spec);
    OtherLookups(w0, t, n, DestroyJobName(n));
    hide OthersKept;
    StepKeepsInv(w, Handle(r, o));
    var a := HandleRequest(w, r, o).state;
    WellFormedOf(a);
    StoredName(a, n);
  }

  lemma SameIndexed(s: State, t: State, n: string)
    requires t.configurations == s.configurations && t.indexed == s.indexed
    ensures Indexed(t, n) == Indexed(s, n)
  {
  }

  lemma WrittenState(s: State, c: Configuration)
    ensures var w := WriteConfiguration(s, c);
      && ConfigurationRequest(c.name) in w.ready && c.name in w.indexed && Indexed(w, c.name) == Some(c)
      && w.configurations == s.configurations[c.name := c]
      && w.configMap == s.configMap && w.providers == s.providers && w.secrets == s.secrets
      && w.environment == s.environment && w.delayed == s.delayed && w.log == s.log + [Written(c.name)]
  {
  }

  // ---------------------------------------------------------------- changed variables

  /** A record with its finalizer that was applied with one environment and has another one now. */
  ghost predicate OutOfDate(a: State, n: string, p: Oracle) {
    && Inv(a) && n in a.configurations && a.configurations[n].finalizer && a.configurations[n].name == n
    && !Shadowed(a, n)
    && (var d := a.configurations[n]; var ref := GetProviderNamespacedName(d.spec);
        && ref in a.providers && a.providers[ref].state != ProviderIsNotReady && !Special(d.status.apply.state)
        && EnvironmentDiffers(a, d, p))
  }

  lemma OutOfDateCrashes(a: State, n: string, p: Oracle)
    requires OutOfDate(a, n, p) && p.terraform
    ensures var b := CacheDelete(a, a.configurations[n]);
      ConfigurationRequest(n) in b.ready && HandleRequest(b, ConfigurationRequest(n), p).Crashed?
  {
    var r := ConfigurationRequest(n);
    var b := CacheDelete(a, a.configurations[n]);
    DeleteKeepsInv(a, n);
    MarkedRecord(a, n);
    MarkedIsBeingDeleted(b, n);
    var s := Taken(b, r);
    assert Indexed(s, n) == Some(b.configurations[n]) && n in s.configurations;
    assert |DestroyJobName(n)| > |n|;
    assert Shadowed(s, n) <==> DestroyJobName(n) in a.configurations - {n} by {
      assert DestroyJobName(n) in b.configurations - {n} <==> DestroyJobName(n) in b.configurations;
    }
    hide Inv, CacheDelete, BeingDeleted, Indexed, Reconcile, GetProviderNamespacedName;
    SameDiffers(a, s, a.configurations[n], b.configurations[n], p);
    hide EnvironmentDiffers;
    ChangedEnvironmentPanics(s, n, p);
  }

  lemma SameDiffers(s: State, t: State, c: Configuration, d: Configuration, p: Oracle)
    requires t.providers == s.providers && t.secrets == s.secrets && c.name == d.name && c.spec == d.spec
    requires c.name in s.configurations <==> d.name in t.configurations
    ensures EnvironmentDiffers(t, d, p) == EnvironmentDiffers(s, c, p)
  {
    hide PrepareVariables, EnvChanged;
  }

  /** The answers p give an environment that the variable secret of n does not record. */
  ghost predicate GivesOther(s: State, n: string, spec: Spec, p: Oracle) {
    var ref := GetProviderNamespacedName(spec);
    && p.quantities && ref in s.providers
    && s.providers[ref].secretRef !in DerivedSecrets(s, n)
    && GetProviderCredentials(s, s.providers[ref], p.credentials).Credentials?
    && PrepareVariables(spec.variable, p.credentials.values).Some?
    && VariableSecret(n) in s.secrets
    && EnvChanged(PrepareVariables(spec.variable, p.credentials.values).value, s.secrets[VariableSecret(n)].data)
  }

  lemma StillOther(s: State, a: State, n: string, spec: Spec, d: Configuration, p: Oracle)
    requires GivesOther(s, n, spec, p) && a.providers == s.providers
    requires a.secrets - DerivedSecrets(s, n) == s.secrets - DerivedSecrets(s, n)
    requires VariableSecret(n) in a.secrets && a.secrets[VariableSecret(n)] == s.secrets[VariableSecret(n)]
    requires d.name == n && n in a.configurations && ValidConfigurationObject(d.spec).Some?
    requires GetProviderNamespacedName(d.spec) == GetProviderNamespacedName(spec) && d.spec.variable == spec.variable
    ensures EnvironmentDiffers(a, d, p)
  {
    var k := s.providers[GetProviderNamespacedName(spec)].secretRef;
    assert k in s.secrets - DerivedSecrets(s, n) && k in a.secrets - DerivedSecrets(s, n);
    hide PrepareVariables, EnvChanged, DerivedSecrets, GetProviderNamespacedName, ValidConfigurationObject;
  }

  /** A PUT that an apply has brought into effect. */
  lemma PutApplied(s: State, n: string, spec: Spec, status: Status, o: Oracle, p: Oracle)
    requires Inv(s) && ConnectionSecret(spec).None? && !Shadowed(s, n) && GivesOther(s, n, spec, p)
    requires s.providers[GetProviderNamespacedName(spec)].state != ProviderIsNotReady
    requires Reconcile(Taken(WriteConfiguration(s, Body(n, spec, status)), ConfigurationRequest(n)), n, o).1 == Done(0, false)
    ensures var w := WriteConfiguration(s, Body(n, spec, status));
      && ConfigurationRequest(n) in w.ready && HandleRequest(w, ConfigurationRequest(n), o).Next?
      && OutOfDate(HandleRequest(w, ConfigurationRequest(n), o).state, n, p)
  {
    hide Inv, WriteConfiguration, Reconcile, Indexed, ValidConfigurationObject, ConnectionSecret, GetProviderNamespacedName,
      PrepareVariables, AsSecretData, InputData, BackendNamespace, GivesOther;
    var r := ConfigurationRequest(n);
    var w := WriteConfiguration(s, Body(n, spec, status));
    WriteKeepsInv(s, Body(n, spec, status));
    WrittenState(s, Body(n, spec, status));
    assert |DestroyJobName(n)| > |n|;
    assert DerivedSecrets(w, n) == DerivedSecrets(s, n);
    hide DerivedSecrets;
    assert VariableSecret(n) in s.secrets by { HasSecret(s, n, spec, p); }
    AppliedAfterwards(w, n, o);
    var a := HandleRequest(w, r, o).state;
    StillOther(s, a, n, spec, a.configurations[n], p);
    assert !Shadowed(a, n) by {
      assert DestroyJobName(n) in a.configurations <==> DestroyJobName(n) in a.configurations - {n};
      assert DestroyJobName(n) in w.configurations <==> DestroyJobName(n) in w.configurations - {n};
    }
    hide EnvironmentDiffers;
  }

  lemma HasSecret(s: State, n: string, spec: Spec, p: Oracle)
    requires GivesOther(s, n, spec, p)
    ensures VariableSecret(n) in s.secrets
  {
    hide PrepareVariables, EnvChanged;
  }

  /** A PUT of other variables, its apply and a DELETE end in the panic as soon as terraform destroy succeeds:
      the apply does not bring the variable secret up to date. */
  lemma PutThenDeleteCrashes(s: State, n: string, spec: Spec, status: Status, o: Oracle, p: Oracle)
    requires Inv(s) && ConnectionSecret(spec).None? && !Shadowed(s, n) && GivesOther(s, n, spec, p) && p.terraform
    requires s.providers[GetProviderNamespacedName(spec)].state != ProviderIsNotReady
    requires Reconcile(Taken(WriteConfiguration(s, Body(n, spec, status)), ConfigurationRequest(n)), n, o).1 == Done(0, false)
    ensures var w := WriteConfiguration(s, Body(n, spec, status));
      && ConfigurationRequest(n) in w.ready && HandleRequest(w, ConfigurationRequest(n), o).Next?
      && (var a := HandleRequest(w, ConfigurationRequest(n), o).state;
          && n in a.configurations
          && ConfigurationRequest(n) in CacheDelete(a, a.configurations[n]).ready
          && HandleRequest(CacheDelete(a, a.configurations[n]), ConfigurationRequest(n), p).Crashed?)
  {
    PutApplied(s, n, spec, status, o, p);
    hide WriteConfiguration, Reconcile, HandleRequest, Inv, GivesOther, CacheDelete, EnvironmentDiffers;
    OutOfDateCrashes(HandleRequest(WriteConfiguration(s, Body(n, spec, status)), ConfigurationRequest(n), o).state, n, p);
  }

  // ---------------------------------------------------------------- runs from the empty store

  lemma Chain(s: State, e: Event, run: seq<Event>)
    requires Enabled(s, e) && Step(s, e).Next? && Runs(Step(s, e).state, run)
    ensures Runs(s, [e] + run) && End(s, [e] + run) == End(Step(s, e).state, run)
  {
    hide Enabled, Step;
    assert ([e] + run)[1..] == run;
  }

  /** A REST call, a reconcile, and a DELETE. */
  function Three(e: Event, r: Request, o: Oracle, n: string): seq<Event> {
    [e] + ([Handle(r, o)] + [DeleteConfiguration(n)])
  }

  lemma ThreeRun(s: State, e: Event, w: State, r: Request, o: Oracle, a: State, n: string)
    requires !e.Handle? && !e.Fire? && Rest(s, e) == w
    requires r in w.ready && HandleRequest(w, r, o) == Next(a) && n in a.configurations
    ensures Runs(s, Three(e, r, o, n)) && End(s, Three(e, r, o, n)) == CacheDelete(a, a.configurations[n])
  {
    hide HandleRequest, WriteConfiguration, CacheDelete, Runs, End;
    assert Step(s, e) == Next(w) && Enabled(s, e);
    assert Step(a, DeleteConfiguration(n)) == Next(CacheDelete(a, a.configurations[n]));
    hide Rest;
    RunsOne(a, DeleteConfiguration(n));
    Chain(w, Handle(r, o), [DeleteConfiguration(n)]);
    Chain(s, e, [Handle(r, o)] + [DeleteConfiguration(n)]);
  }

  const BAD := "bad"
  const BAD_REQUEST := ConfigurationRequest(BAD)
  const BAD_SPEC := SPEC.(hcl := "")

  /** A Configuration that never is valid is created next to the applied one, and deleted. */
  function BadLife(x: Setup): seq<Event> {
    Three(CreateConfiguration(BAD, BAD_SPEC, STATUS), BAD_REQUEST, x.Answers(), BAD) + [Handle(BAD_REQUEST, x.Answers())]
  }

  /** The last thing the log tells is a destroy run of BAD with the text of SPEC. */
  predicate ForeignTextLast(log: seq<LogEntry>) {
    |log| > 0 && (var e := log[|log| - 1];
      e.Destroyed? && e.name == BAD && e.ok && e.job.input == InputData(SPEC, ConfigurationHCL))
  }

  lemma BadLifeRuns(a: State, x: Setup)
    requires IsNow(a, x)
    ensures Runs(a, BadLife(x)) && ForeignTextLast(End(a, BadLife(x)).log)
  {
    hide HandleRequest, WriteConfiguration, CacheDelete, Runs, End, IsNow, Inv, Live, Three, Decode, Yaml;
    var o := x.Answers();
    BadLifeSteps(a, x);
    var w := WriteConfiguration(a, Body(BAD, BAD_SPEC, STATUS));
    var a1 := HandleRequest(w, BAD_REQUEST, o).state;
    var b := CacheDelete(a1, a1.configurations[BAD]);
    ThreeRun(a, CreateConfiguration(BAD, BAD_SPEC, STATUS), w, BAD_REQUEST, o, a1, BAD);
    RunsOne(b, Handle(BAD_REQUEST, o));
    RunsOn(a, Three(CreateConfiguration(BAD, BAD_SPEC, STATUS), BAD_REQUEST, o, BAD), [Handle(BAD_REQUEST, o)]);
  }

  lemma BadLifeSteps(a: State, x: Setup)
    requires IsNow(a, x)
    ensures var w := WriteConfiguration(a, Body(BAD, BAD_SPEC, STATUS)); var o := x.Answers();
      && BAD_REQUEST in w.ready && HandleRequest(w, BAD_REQUEST, o).Next?
      && (var a1 := HandleRequest(w, BAD_REQUEST, o).state;
          && BAD in a1.configurations
          && (var b := CacheDelete(a1, a1.configurations[BAD]); var out := HandleRequest(b, BAD_REQUEST, o);
              BAD_REQUEST in b.ready && out.Next? && ForeignTextLast(out.state.log)))
  {
    hide Inv, InputData, AsSecretData, SettledSpec, HandleRequest, WriteConfiguration, CacheDelete, Live, Decode, Yaml;
    assert DestroyJobName(BAD) != NAME by { assert |DestroyJobName(BAD)| == 11; }
    assert ValidConfigurationObject(BAD_SPEC).None? && GetProviderNamespacedName(BAD_SPEC) == DEFAULT_REF;
    InvalidLife(a, BAD, BAD_SPEC, STATUS, x.Answers(), x.Answers());
  }

  /** Deleting a Configuration that was never valid runs terraform destroy with the text of another one. */
  lemma ForeignTextDestroyed(environment: map<string, string>)
    ensures var x := Plain(environment); var run := x.Beginning() + BadLife(x);
      && ValidConfigurationObject(BAD_SPEC).None?
      && Runs(x.Start(), run) && ForeignTextLast(End(x.Start(), run).log)
  {
    hide Runs, End, Setup.Beginning, BadLife, IsNow, HandleRequest, Setup.Started, ForeignTextLast, Decode, Yaml;
    var x := Plain(environment);
    PlainCredentials(environment);
    IsApplied(x);
    BeginningRuns(x);
    BadLifeRuns(AfterApply(x), x);
    RunsOn(x.Start(), x.Beginning(), BadLife(x));
  }

  // ----- a variable is added -----

  const RESIZED := SPEC.(variable := Decoded(map["size" := StringValue("2")]))

  /** The variables are changed by a PUT, applied, and the Configuration is deleted. */
  function Resize(x: Setup): seq<Event> {
    Three(UpdateConfiguration(NAME, NAME, RESIZED, STATUS), REQUEST, x.Answers(), NAME)
  }

  lemma ResizedVariables(credentials: map<string, string>)
    requires TF_VAR + "size" !in credentials
    ensures PrepareVariables(RESIZED.variable, credentials).Some?
    ensures EnvChanged(PrepareVariables(RESIZED.variable, credentials).value, AsSecretData(credentials))
  {
    var raw := map["size" := StringValue("2")];
    assert "size" in raw;
    var environments := Prefixed(raw);
    assert forall e <- environments :: Interface2String(environments[e]).Some?;
    var variables := PrepareVariables(RESIZED.variable, credentials).value;
    assert !Recorded(TF_VAR + "size", variables[TF_VAR + "size"], AsSecretData(credentials));
  }

  lemma NoSize(environment: map<string, string>)
    ensures TF_VAR + "size" !in Plain(environment).Credentials()
  {
    PlainCredentials(environment);
    assert |TF_VAR + "size"| > |"KEY"|;
  }

  lemma ResizeSteps(a: State, x: Setup)
    requires IsNow(a, x) && TF_VAR + "size" !in x.Credentials()
    ensures GivesOther(a, NAME, RESIZED, x.Answers()) && ConnectionSecret(RESIZED).None? && !Shadowed(a, NAME)
    ensures a.providers[GetProviderNamespacedName(RESIZED)].state != ProviderIsNotReady
  {
    hide Inv, InputData, SettledSpec, Live, PrepareVariables, EnvChanged, AsSecretData, Decode, Yaml;
    ResizedVariables(x.Credentials());
    assert |DestroyJobName(NAME)| > |NAME|;
    assert CREDENTIALS.name[0] != VariableSecretName(NAME)[0] && CREDENTIALS.name[0] != BackendSecretName(NAME)[0];
  }

  lemma ResizeApplies(a: State, x: Setup)
    requires IsNow(a, x) && TF_VAR + "size" !in x.Credentials()
    ensures var w := WriteConfiguration(a, Body(NAME, RESIZED, STATUS));
      Reconcile(Taken(w, REQUEST), NAME, x.Answers()).1 == Done(0, false)
  {
    hide Reconcile, Inv, InputData, SettledSpec, Live, PrepareVariables, AsSecretData, EnvChanged, WriteConfiguration, WellFormed,
      RecordInv, Indexed, Decode, Yaml;
    ResizedVariables(x.Credentials());
    var w := WriteConfiguration(a, Body(NAME, RESIZED, STATUS));
    WriteKeepsInv(a, Body(NAME, RESIZED, STATUS));
    WrittenState(a, Body(NAME, RESIZED, STATUS));
    TakenStart(w, NAME);
    var s := Taken(w, REQUEST);
    SameIndexed(w, s, NAME);
    assert Preparable(s, RESIZED, x.Answers());
    hide Preparable;
    ApplySucceedsExactlyWhen(s, NAME, x.Answers());
  }

  /** The program ends in a panic: variables are changed, applied, and the Configuration is deleted. */
  lemma ChangedVariablesCrash(environment: map<string, string>)
    ensures var x := Plain(environment); var run := x.Beginning() + Resize(x);
      && Runs(x.Start(), run)
      && Enabled(End(x.Start(), run), Handle(REQUEST, x.Answers()))
      && Step(End(x.Start(), run), Handle(REQUEST, x.Answers())) == Crashed
  {
    hide Runs, End, Setup.Beginning, IsNow, HandleRequest, Setup.Started, Inv, GivesOther, Reconcile, CacheDelete, Three,
      Shadowed, ConnectionSecret, GetProviderNamespacedName, Decode, Yaml, WriteConfiguration;
    var x := Plain(environment);
    var o := x.Answers();
    PlainCredentials(environment);
    NoSize(environment);
    IsApplied(x);
    BeginningRuns(x);
    var a := AfterApply(x);
    ResizeSteps(a, x);
    ResizeApplies(a, x);
    IsThere(a, x);
    PutThenDeleteCrashes(a, NAME, RESIZED, STATUS, o, o);
    var w := WriteConfiguration(a, Body(NAME, RESIZED, STATUS));
    var a1 := HandleRequest(w, REQUEST, o).state;
    ThreeRun(a, UpdateConfiguration(NAME, NAME, RESIZED, STATUS), w, REQUEST, o, a1, NAME);
    RunsOn(x.Start(), x.Beginning(), Resize(x));
  }

  lemma IsThere(a: State, x: Setup)
    requires IsNow(a, x)
    ensures NAME in a.configurations && Inv(a) && Live(a.log, NAME) && Settles(a, x)
  {
    hide Inv, SettledSpec, Live, InputData, AsSecretData, Decode, Yaml;
  }

  // ----- the destroy job is shadowed -----

  /** A Configuration named like the destroy job is created, and the applied one is deleted. */
  function Shadow(x: Setup): seq<Event> {
    [CreateConfiguration(DestroyJobName(NAME), SPEC, STATUS)] + x.Death()
  }

  lemma ShadowStep(a: State, x: Setup)
    requires IsNow(a, x)
    ensures var w := WriteConfiguration(a, Body(DestroyJobName(NAME), SPEC, STATUS));
      Settles(w, x) && Shadowed(w, NAME) && w.log == a.log + [Written(DestroyJobName(NAME))]
  {
    hide SettledSpec, Live, InputData, AsSecretData, Inv, WriteConfiguration, Decode, Yaml;
    assert |DestroyJobName(NAME)| > |NAME|;
    WriteKeepsInv(a, Body(DestroyJobName(NAME), SPEC, STATUS));
    WrittenState(a, Body(DestroyJobName(NAME), SPEC, STATUS));
  }

  lemma ShadowReleases(w: State, x: Setup)
    requires Settles(w, x) && Shadowed(w, NAME)
    ensures var out := HandleRequest(CacheDelete(w, w.configurations[NAME]), REQUEST, x.Answers());
      && out.Next? && NAME !in out.state.configurations
      && out.state.log == w.log + [Released(NAME, JobShadowed)]
  {
    hide Inv, CacheDelete, Reconcile, BeingDeleted, DeletableBefore, EnvironmentDiffers, ConnectionWillBeThere, InputThere,
      Indexed, JobOf, DestroyStart, SettledSpec, AsSecretData, Decode, Yaml;
    Dies(w, x);
    Marked(w, x, x.Answers());
    var b := CacheDelete(w, w.configurations[NAME]);
    assert |DestroyJobName(NAME)| > |NAME|;
    assert Shadowed(b, NAME) by {
      assert DestroyJobName(NAME) in w.configurations - {NAME};
      assert DestroyJobName(NAME) in b.configurations - {NAME};
    }
    RecordLeavesExactlyWhen(Taken(b, REQUEST), NAME, x.Answers());
  }

  /** Terraform has applied the Configuration and never destroys it: its record is released, because another
      Configuration is named like its destroy job. */
  lemma ShadowedJobReleases(environment: map<string, string>)
    ensures var x := Plain(environment); var start, run := x.Beginning(), x.Beginning() + Shadow(x);
      && Runs(x.Start(), start) && Runs(x.Start(), run)
      && Live(End(x.Start(), start).log, NAME)
      && NAME !in End(x.Start(), run).configurations
      && End(x.Start(), run).log ==
           End(x.Start(), start).log + [Written(DestroyJobName(NAME)), Released(NAME, JobShadowed)]
  {
    hide Runs, End, Setup.Beginning, HandleRequest, Setup.Started, Inv, Reconcile, CacheDelete, Settles, IsNow, Live, Shadowed,
      Setup.Death, Decode, Yaml, WriteConfiguration;
    var x := Plain(environment);
    PlainCredentials(environment);
    IsApplied(x);
    BeginningRuns(x);
    var a := AfterApply(x);
    IsThere(a, x);
    ShadowStep(a, x);
    var w := WriteConfiguration(a, Body(DestroyJobName(NAME), SPEC, STATUS));
    ShadowReleases(w, x);
    DeathRuns(w, x);
    Chain(a, CreateConfiguration(DestroyJobName(NAME), SPEC, STATUS), x.Death());
    RunsOn(x.Start(), x.Beginning(), Shadow(x));
  }

  // ----- the provider is deleted -----

  /** The provider of the applied Configuration is deleted, and then the Configuration. */
  function Orphan(x: Setup): seq<Event> {
    [DeleteProvider(DEFAULT_REF)] + x.Death()
  }

  /** Without its provider a marked Configuration is released at once. */
  lemma OrphanReleases(a: State, x: Setup)
    requires IsNow(a, x)
    ensures var w := Rest(a, DeleteProvider(DEFAULT_REF)); var b := CacheDelete(w, w.configurations[NAME]);
      && REQUEST in b.ready && HandleRequest(b, REQUEST, x.Answers()).Next?
      && (var t := HandleRequest(b, REQUEST, x.Answers()).state;
          NAME !in t.configurations && t.log == a.log + [Released(NAME, DirectDelete)])
  {
    hide Inv, CacheDelete, Reconcile, BeingDeleted, EnvironmentDiffers, InputThere, Indexed, JobOf, DestroyStart, Live, InputData,
      AsSecretData, Decode, Yaml, ConnectionSecret, GetProviderNamespacedName, ValidConfigurationObject, StatusOverwritten;
    var w := Rest(a, DeleteProvider(DEFAULT_REF));
    var b := CacheDelete(w, w.configurations[NAME]);
    StepKeepsInv(a, DeleteProvider(DEFAULT_REF));
    DeleteKeepsInv(w, NAME);
    MarkedRecord(w, NAME);
    MarkedIsBeingDeleted(b, NAME);
    var s := Taken(b, REQUEST);
    SameIndexed(b, s, NAME);
    assert DeletableBefore(s, b.configurations[NAME], x.Answers()).Directly?;
    DestroyOutcome(s, NAME, x.Answers());
    hide DeletableBefore, WillPanic;
    RecordLeavesExactlyWhen(s, NAME, x.Answers());
  }

  /** Terraform has applied the Configuration and never destroys it: its provider is gone, and the record may
      be deleted directly. */
  lemma DeletedProviderReleases(environment: map<string, string>)
    ensures var x := Plain(environment); var start, run := x.Beginning(), x.Beginning() + Orphan(x);
      && Runs(x.Start(), start) && Runs(x.Start(), run)
      && Live(End(x.Start(), start).log, NAME)
      && NAME !in End(x.Start(), run).configurations
      && End(x.Start(), run).log == End(x.Start(), start).log + [Released(NAME, DirectDelete)]
  {
    hide Runs, End, Setup.Beginning, HandleRequest, Setup.Started, Inv, Reconcile, CacheDelete, Settles, IsNow, Live,
      Decode, Yaml;
    var x := Plain(environment);
    PlainCredentials(environment);
    IsApplied(x);
    BeginningRuns(x);
    var a := AfterApply(x);
    IsThere(a, x);
    OrphanReleases(a, x);
    var w := Rest(a, DeleteProvider(DEFAULT_REF));
    var b := CacheDelete(w, w.configurations[NAME]);
    assert NAME in w.configurations by { hide Settles; SettlesThere(a, x); }
    RunsOne(b, Handle(REQUEST, x.Answers()));
    assert Step(w, DeleteConfiguration(NAME)) == Next(b);
    Chain(w, DeleteConfiguration(NAME), [Handle(REQUEST, x.Answers())]);
    Chain(a, DeleteProvider(DEFAULT_REF), x.Death());
    RunsOn(x.Start(), x.Beginning(), Orphan(x));
  }

  lemma SettlesThere(a: State, x: Setup)
    requires Settles(a, x)
    ensures NAME in a.configurations
  {
    hide Inv, SettledSpec, Decode, AsSecretData;
  }

  // ----- the second DELETE -----

  /** A DELETE whose destroy fails, and a second one whose destroy succeeds while the retry waits. */
  function Twice(x: Setup): seq<Event> {
    [DeleteConfiguration(NAME)] + ([Handle(REQUEST, x.Failing())] + x.Death())
  }

  /** A failing destroy leaves a settled record settled. */
  lemma FailsSettled(a: State, x: Setup)
    requires Settles(a, x) && !Shadowed(a, NAME)
    ensures var out := HandleRequest(CacheDelete(a, a.configurations[NAME]), REQUEST, x.Failing());
      out.Next? && Settles(out.state, x) && REQUEST in out.state.delayed
  {
    hide Inv, CacheDelete, Reconcile, BeingDeleted, DeletableBefore, EnvironmentDiffers, ConnectionWillBeThere, InputThere,
      Indexed, WellFormed, Decode, Yaml, AsSecretData, PrepareVariables, Passes;
    Marked(a, x, x.Failing());
    var b := CacheDelete(a, a.configurations[NAME]);
    var s := Taken(b, REQUEST);
    assert |DestroyJobName(NAME)| > |NAME|;
    assert !Shadowed(s, NAME) by {
      assert DestroyJobName(NAME) !in a.configurations - {NAME};
      assert DestroyJobName(NAME) !in b.configurations - {NAME};
    }
    FailingReconcile(s, NAME, x.Failing());
    StepKeepsInv(b, Handle(REQUEST, x.Failing()));
    var t := Reconcile(s, NAME, x.Failing()).0;
    KeptSettled(s, t);
    StoredName(t, NAME);
    hide SettledSpec, Keeps;
  }

  lemma KeptSettled(s: State, t: State)
    requires Keeps(s, t, NAME) && NAME in s.configurations && s.configurations[NAME].finalizer
    requires SettledSpec(s.configurations[NAME])
    ensures NAME in t.configurations && t.configurations[NAME].finalizer && SettledSpec(t.configurations[NAME])
    ensures t.providers == s.providers
  {
    assert Grows(s.configurations[NAME], t.configurations[NAME]);
    AlikeInput(s.configurations[NAME].spec, t.configurations[NAME].spec);
    hide Alike, ValidConfigurationObject, ConnectionSecret, GetProviderNamespacedName;
  }

  lemma NotShadowed(a: State, x: Setup)
    requires IsNow(a, x)
    ensures Settles(a, x) && !Shadowed(a, NAME)
  {
    hide Settles, Live, InputData, Decode, Yaml;
    assert |DestroyJobName(NAME)| > |NAME|;
  }

  lemma TwiceRuns(a: State, x: Setup)
    requires Settles(a, x) && !Shadowed(a, NAME)
    ensures Runs(a, Twice(x))
    ensures var t := End(a, Twice(x)); NAME !in t.configurations && Scheduled(t, NAME)
    ensures forall more: seq<Event> | Runs(End(a, Twice(x)), more) && forall e <- more :: !CreatesName(e, NAME) ::
              NAME !in End(End(a, Twice(x)), more).configurations && Scheduled(End(End(a, Twice(x)), more), NAME)
  {
    hide Inv, CacheDelete, Reconcile, HandleRequest, Runs, End, Setup.Death, BeingDeleted, DeletableBefore, EnvironmentDiffers,
      ConnectionWillBeThere, InputThere, Indexed, SettledSpec, Decode, Yaml, AsSecretData, Shadowed;
    FailsSettled(a, x);
    Marked(a, x, x.Failing());
    var b := CacheDelete(a, a.configurations[NAME]);
    var t := HandleRequest(b, REQUEST, x.Failing()).state;
    DeathRuns(t, x);
    Dies(t, x);
    assert Step(a, DeleteConfiguration(NAME)) == Next(b);
    Chain(b, Handle(REQUEST, x.Failing()), x.Death());
    Chain(a, DeleteConfiguration(NAME), [Handle(REQUEST, x.Failing())] + x.Death());
    var u := HandleRequest(CacheDelete(t, t.configurations[NAME]), REQUEST, x.Answers()).state;
    assert Runs(u, []) && End(u, []) == u by { EmptyRun(u); }
    SecondDeleteIsRetriedForever(t, NAME, x.Answers(), []);
    forall more: seq<Event> | Runs(u, more) && forall e <- more :: !CreatesName(e, NAME)
      ensures NAME !in End(u, more).configurations && Scheduled(End(u, more), NAME)
    {
      SecondDeleteIsRetriedForever(t, NAME, x.Answers(), more);
    }
  }

  lemma EmptyRun(s: State)
    ensures Runs(s, []) && End(s, []) == s
  {
  }

  /** Two DELETEs, the second while the retry of the first waits, leave a request that every further run
      without a create of the name keeps scheduled. */
  lemma TwoDeletesNeverEnd(environment: map<string, string>)
    ensures var x := Plain(environment); var run := x.Beginning() + Twice(x);
      && Runs(x.Start(), run)
      && NAME !in End(x.Start(), run).configurations && Scheduled(End(x.Start(), run), NAME)
      && forall more: seq<Event> | Runs(End(x.Start(), run), more) && forall e <- more :: !CreatesName(e, NAME) ::
           Scheduled(End(End(x.Start(), run), more), NAME)
  {
    hide Runs, End, Setup.Beginning, HandleRequest, Setup.Started, IsNow, Twice, Settles, Shadowed, Scheduled, Decode, Yaml;
    var x := Plain(environment);
    PlainCredentials(environment);
    IsApplied(x);
    BeginningRuns(x);
    NotShadowed(AfterApply(x), x);
    TwiceRuns(AfterApply(x), x);
    RunsOn(x.Start(), x.Beginning(), Twice(x));
  }

  // ----- credentials that move the backend namespace -----

  function Moving(environment: map<string, string>): Setup {
    Setup(environment, [("KEY", "secret"), (BACKEND_NAMESPACE_VARIABLE, "elsewhere")])
  }

  lemma MovingCredentials(environment: map<string, string>)
    ensures var credentials := Moving(environment).Credentials();
      && credentials == map["KEY" := "secret", BACKEND_NAMESPACE_VARIABLE := "elsewhere"] && credentials != map[]
      && NamespaceAfter(environment, credentials) == "elsewhere"
  {
    var entries := [("KEY", "secret"), (BACKEND_NAMESPACE_VARIABLE, "elsewhere")];
    assert entries[1..] == [(BACKEND_NAMESPACE_VARIABLE, "elsewhere")] && entries[1..][1..] == [];
    assert Decode(entries[1..]) == map[BACKEND_NAMESPACE_VARIABLE := "elsewhere"];
    assert "KEY" in Decode(entries);
  }

  /** An apply whose credentials name another backend namespace than the process started with, and its
      deletion with the same credentials: the state file stays. */
  lemma MovedNamespaceLeavesState(environment: map<string, string>)
    requires BackendNamespace(environment) != "elsewhere"
    ensures var x := Moving(environment); var run := x.Beginning() + x.Death();
      && Runs(x.Start(), run)
      && NAME !in End(x.Start(), run).configurations
      && LeftBehind(End(x.Start(), run), BackendNamespace(environment), NAME)
  {
    hide Inv, Reconcile, Setup.Started, CacheDelete, BackendNamespace, Runs, End, Setup.Beginning, Settles, HandleRequest,
      NamespaceAfter, Setup.Death, RecordInv, WellFormed, DerivedSecrets, Indexed, InputData, AsSecretData, Live, Decode, Yaml,
      ConnectionSecret;
    var x := Moving(environment);
    MovingCredentials(environment);
    StartedInv(x);
    StartedFacts(x);
    NoConnectionSecret();
    Applies(x);
    IsApplied(x);
    BeginningRuns(x);
    var a := AfterApply(x);
    Dies(a, x);
    DeathRuns(a, x);
    SameNamed(x);
    ApplyHandled(x.Started(), NAME, x.Answers());
    ApplyThenDeleteRestores(x.Started(), NAME, x.Answers(), x.Answers());
    RunsOn(x.Start(), x.Beginning(), x.Death());
  }
}
