/** The two type assertions of the destroy path that cannot hold, and exactly when a reconcile meets one. */
module Crash {
  import opened Objects
  import opened Variables
  import opened Lifecycle
  import opened Frames
  import opened Safety
  import opened History
  import opened Checks
  import opened Secrets
  import opened Deletion

  /** The destroy job fails, so that terraformDestroy returns before any of the two assertions. */
  predicate JobFails(s: State, c: Configuration, o: Oracle) {
    JobRuns(s, c) && (s.configMap.None? || !o.terraform)
  }

  /** The connection secret is there, or the destroy job itself will write it. */
  predicate ConnectionThere(s: State, backend: string, c: Configuration) {
    ConnectionSecret(c.spec).Some? &&
    (ConnectionSecret(c.spec).value in s.secrets || (JobRuns(s, c) && StateOutputs(s, backend, c.name).Some?))
  }

  /** Where terraformDestroy panics, from the state and the object it starts with. */
  predicate DestroyPanics(s: State, c: Configuration, meta: Meta, o: Oracle) {
    match IsDeletable(s, c)
    case NotYet => false
    case Directly => ConnectionPanics(s, c.spec)
    case AfterDestroy => !JobFails(s, c, o) && (meta.envChanged || ConnectionThere(s, meta.backend, c))
  }

  lemma RunDestroyConnection(s: State, c: Configuration, meta: Meta, o: Oracle)
    requires WellFormed(s) && c.name in s.configurations && s.configurations[c.name].name == c.name
    requires ConnectionSecret(s.configurations[c.name].spec) == ConnectionSecret(c.spec)
    requires s.configMap.Some? && o.terraform
    ensures ConnectionPanics(RunDestroy(s, c, meta, o).0, c.spec) <==>
              ConnectionSecret(c.spec).Some? && (ConnectionSecret(c.spec).value in s.secrets || StateOutputs(s, meta.backend, c.name).Some?)
  {
    var s1 := Logged(s, Destroyed(c.name, JobOf(s, c, meta), o.terraform));
    assert StateOutputs(s1, meta.backend, c.name) == StateOutputs(s, meta.backend, c.name);
    hide StateOutputs, JobOf, ConnectionSecret, Foreign, OwnerLabels, AsSecretData, WellFormed;
    UpdateAvailableConnection(s1, meta.backend, c.name);
    hide UpdateAvailable;
  }

  lemma UpdateAvailableConnection(s: State, backend: string, n: string)
    requires n in s.configurations && s.configurations[n].name == n
    ensures ConnectionPanics(UpdateAvailable(s, backend, n), s.configurations[n].spec) <==>
              ConnectionSecret(s.configurations[n].spec).Some?
              && (ConnectionSecret(s.configurations[n].spec).value in s.secrets || StateOutputs(s, backend, n).Some?)
  {
    hide StateOutputs, ConnectionSecret, Foreign, OwnerLabels, AsSecretData;
  }

  lemma DirectPanics(s: State, c: Configuration, meta: Meta, why: Option<Reason>)
    ensures CleanUp(s, c, meta, why).1.DestroyPanic? <==> ConnectionPanics(s, c.spec)
  {
    hide ConnectionSecret, DropSecret;
  }

  lemma TerraformDestroyPanics(s: State, c: Configuration, meta: Meta, o: Oracle)
    requires WellFormed(s)
    requires c.name in s.configurations ==> ConnectionSecret(s.configurations[c.name].spec) == ConnectionSecret(c.spec)
    requires !meta.configurationChanged && (meta.envChanged ==> VariableSecret(c.name) in s.secrets)
    ensures TerraformDestroy(s, c, meta, o).1.DestroyPanic? <==> DestroyPanics(s, c, meta, o)
  {
    DirectPanics(s, c, meta, Some(DirectDelete));
    if JobRuns(s, c) {
      StoredName(s, c.name);
      RunDestroyKeeps(s, c, meta, o);
      RunDestroySecrets(s, c, meta, o);
      var (s1, ok) := RunDestroy(s, c, meta, o);
      assert meta.envChanged ==> VariableSecret(c.name) in s1.secrets;
      if ok {
        RunDestroyConnection(s, c, meta, o);
      }
      DirectPanics(s1, c, meta, None);
      hide RunDestroy;
    } else {
      DirectPanics(s, c, meta, Some(JobShadowed));
    }
    hide IsDeletable, CleanUp, StateOutputs, ConnectionSecret, WellFormed, Keeps, SecretsBut, JobOf;
  }

  // ---------------------------------------------------------------- before the call

  /** A reconcile of the object c, which is being deleted, will run the destroy job. */
  ghost predicate JobWillRun(s: State, c: Configuration, o: Oracle) {
    DeletableBefore(s, c, o).AfterDestroy? && !Shadowed(s, c.name) && c.name in s.configurations
  }

  ghost predicate JobWillFail(s: State, c: Configuration, o: Oracle) {
    JobWillRun(s, c, o) && !(InputThere(s, c, o) && o.terraform)
  }

  /** The connection secret is there, or preCheck will create it as the variable secret, or the destroy job
      will write it. */
  ghost predicate ConnectionWillBeThere(s: State, c: Configuration, o: Oracle) {
    ConnectionSecret(c.spec).Some? &&
    (var ref := ConnectionSecret(c.spec).value;
     || ref in s.secrets
     || (ref == VariableSecret(c.name) && Passes(s, c, o))
     || (JobWillRun(s, c, o) && StateOutputs(s, BackendNamespace(s.environment), c.name).Some?))
  }

  ghost predicate WillPanic(s: State, c: Configuration, o: Oracle) {
    match DeletableBefore(s, c, o)
    case NotYet => false
    case Directly => ConnectionWillBeThere(s, c, o)
    case AfterDestroy => !JobWillFail(s, c, o) && (EnvironmentDiffers(s, c, o) || ConnectionWillBeThere(s, c, o))
  }

  /** preCheck does not touch the backend secret. */
  lemma SameStateOutputs(s: State, t: State, backend: string, n: string)
    requires t.secrets - {VariableSecret(n)} == s.secrets - {VariableSecret(n)}
    ensures StateOutputs(t, backend, n) == StateOutputs(s, backend, n)
  {
    assert BackendSecretName(n)[0] != VariableSecretName(n)[0];
    var ref := BackendSecret(backend, n);
    assert ref in t.secrets <==> ref in t.secrets - {VariableSecret(n)};
    assert ref in s.secrets <==> ref in s.secrets - {VariableSecret(n)};
    hide FileOutputs, BackendSecretName, VariableSecretName;
  }

  lemma JobKnown(s: State, n: string, o: Oracle)
    requires BeingDeleted(s, n)
    ensures var (s1, c1, meta) := DestroyStart(s, n, o); var c := Indexed(s, n).value;
      && c.name == n
      && (JobRuns(s1, c1) <==> JobWillRun(s, c, o))
      && (JobFails(s1, c1, o) <==> JobWillFail(s, c, o))
      && (meta.envChanged <==> EnvironmentDiffers(s, c, o))
  {
    IndexedName(s, n);
    DestroyStartKeeps(s, n, o);
    DestroyStartKnown(s, n, o);
    EnvChangedExactly(s, Indexed(s, n).value, o);
    var (s1, c1, meta) := DestroyStart(s, n, o);
    assert meta.envChanged <==> EnvironmentDiffers(s, Indexed(s, n).value, o);
    hide DestroyStart, PreCheck, Reconcile, BeingDeleted, DeletableBefore, InputThere, EnvironmentDiffers, Passes, IsDeletable;
    ShadowKept(s, s1, n);
  }

  lemma ConnectionKnown(s: State, n: string, o: Oracle)
    requires BeingDeleted(s, n)
    ensures var (s1, c1, meta) := DestroyStart(s, n, o);
      && ConnectionSecret(c1.spec) == ConnectionSecret(Indexed(s, n).value.spec)
      && (ConnectionThere(s1, meta.backend, c1) <==> ConnectionWillBeThere(s, Indexed(s, n).value, o))
      && (!JobRuns(s1, c1) ==> (ConnectionPanics(s1, c1.spec) <==> ConnectionWillBeThere(s, Indexed(s, n).value, o)))
  {
    hide DestroyStart, Reconcile, DeletableBefore, InputThere, Passes, IsDeletable, StateOutputs,
      ConnectionSecret, BackendNamespace, Keeps, Alike, JobRuns, JobWillRun;
    DestroyStartKeeps(s, n, o);
    DestroyStartKnown(s, n, o);
    JobKnown(s, n, o);
    var (s1, c1, meta) := DestroyStart(s, n, o);
    SameConnection(s, s1, n, c1);
    SameStateOutputs(s, s1, meta.backend, n);
  }

  lemma SameConnection(s: State, t: State, n: string, d: Configuration)
    requires Keeps(s, t, n) && Indexed(s, n).Some? && Indexed(t, n) == Some(d)
    ensures ConnectionSecret(d.spec) == ConnectionSecret(Indexed(s, n).value.spec)
  {
    AlikeInput(Indexed(s, n).value.spec, d.spec);
    hide Alike, ConnectionSecret;
  }

  lemma DestroyPanicsKnown(s: State, n: string, o: Oracle)
    requires BeingDeleted(s, n)
    ensures var (s1, c1, meta) := DestroyStart(s, n, o);
      DestroyPanics(s1, c1, meta, o) <==> WillPanic(s, Indexed(s, n).value, o)
  {
    DestroyStartKnown(s, n, o);
    JobKnown(s, n, o);
    ConnectionKnown(s, n, o);
    hide DestroyStart, BeingDeleted, DeletableBefore, InputThere, Passes, IsDeletable, ConnectionThere, ConnectionPanics,
      ConnectionWillBeThere, JobFails, JobWillFail, EnvironmentDiffers;
  }

  /** A reconcile panics exactly when the object is being deleted and either it may be deleted directly and
      its connection secret is or will be there, or its destroy job will not fail and its merged variables are
      no longer those of the variable secret or its connection secret is or will be there. */
  lemma ReconcilePanicsExactlyWhen(s: State, n: string, o: Oracle)
    requires WellFormed(s) && RecordInv(s, n) && n in s.indexed
    ensures Reconcile(s, n, o).1.Panicked? <==>
              Indexed(s, n).value.deleting && WillPanic(s, Indexed(s, n).value, o)
  {
    var c := Indexed(s, n).value;
    IndexedName(s, n);
    if c.deleting {
      DestroyStartKeeps(s, n, o);
      DestroyPanicsKnown(s, n, o);
      JobKnown(s, n, o);
      PreCheckSecrets(s, c, o);
      var (s1, c1, meta) := DestroyStart(s, n, o);
      assert meta.envChanged ==> VariableSecret(n) in s1.secrets;
      hide DestroyStart, PreCheck, Reconcile, RecordInv, SecretsBut, EnvironmentDiffers, WillPanic;
      if n in s1.configurations {
        AlikeInput(c1.spec, s1.configurations[n].spec);
      }
      hide Keeps, Alike, WellFormed;
      TerraformDestroyPanics(s1, c1, meta, o);
      hide TerraformDestroy, DestroyPanics;
    } else {
      var gain := ReconcileEffect(s, n, o);
      hide Reconcile;
    }
  }

  /** How a reconcile of an object being deleted ends, decided before it. */
  lemma DestroyOutcome(s: State, n: string, o: Oracle)
    requires BeingDeleted(s, n)
    ensures var c := Indexed(s, n).value;
      Reconcile(s, n, o).1 ==
        if WillPanic(s, c, o) then Panicked
        else if DeletableBefore(s, c, o).NotYet? || JobWillFail(s, c, o) then Done(REQUEUE, true)
        else if n in s.configurations then Done(0, false)
        else Done(0, true)
  {
    var c := Indexed(s, n).value;
    IndexedName(s, n);
    ReconcilePanicsExactlyWhen(s, n, o);
    DestroyStartKeeps(s, n, o);
    DestroyStartKnown(s, n, o);
    JobKnown(s, n, o);
    var (s1, c1, meta) := DestroyStart(s, n, o);
    hide DestroyStart, Reconcile, BeingDeleted, DeletableBefore, InputThere, Passes, WillPanic, JobWillFail, JobWillRun,
      EnvironmentDiffers, TerraformDestroy, IsDeletable, Alike, JobOf, RemoveRecord;
    TerraformDestroyKeeps(s1, c1, meta, o);
    var (s2, result) := TerraformDestroy(s1, c1, meta, o);
    assert n in s2.configurations <==> n in s.configurations;
    hide Keeps, WellFormed;
  }

  /** No Configuration with an existing connection secret can be deleted: marked, with its provider at hand,
      not shadowed, in no special state, and valid or after any ConfigMap was written, its reconcile panics as
      soon as terraform destroy succeeds. */
  lemma ConnectionSecretPanics(s: State, n: string, o: Oracle)
    requires BeingDeleted(s, n) && n in s.configurations && !Shadowed(s, n)
    requires var c := Indexed(s, n).value; var ref := GetProviderNamespacedName(c.spec);
      && ref in s.providers && s.providers[ref].state != ProviderIsNotReady && !Special(c.status.apply.state)
      && InputThere(s, c, o)
      && ConnectionSecret(c.spec).Some? && ConnectionSecret(c.spec).value in s.secrets
    requires o.terraform
    ensures Reconcile(s, n, o).1.Panicked?
  {
    IndexedName(s, n);
    ReconcilePanicsExactlyWhen(s, n, o);
    hide Reconcile, EnvironmentDiffers, RecordInv, WellFormed, ConnectionSecret, StatusOverwritten, InputThere, Passes;
  }

  /** Nor can one whose variables are no longer those of its variable secret. */
  lemma ChangedEnvironmentPanics(s: State, n: string, o: Oracle)
    requires BeingDeleted(s, n) && n in s.configurations && !Shadowed(s, n)
    requires var c := Indexed(s, n).value; var ref := GetProviderNamespacedName(c.spec);
      && ref in s.providers && s.providers[ref].state != ProviderIsNotReady && !Special(c.status.apply.state)
      && EnvironmentDiffers(s, c, o)
    requires o.terraform
    ensures Reconcile(s, n, o).1.Panicked?
  {
    IndexedName(s, n);
    ReconcilePanicsExactlyWhen(s, n, o);
    assert InputThere(s, Indexed(s, n).value, o);
    hide Reconcile, EnvironmentDiffers, RecordInv, WellFormed, ConnectionSecret, StatusOverwritten, InputThere, Passes;
  }
}
