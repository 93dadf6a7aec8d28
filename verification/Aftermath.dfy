/** What can still happen under a name once its record has gone. */
module Aftermath {
  import opened Objects
  import opened Render
  import opened Lifecycle
  import opened Protocol
  import opened Frames
  import opened Safety
  import opened History
  import opened Secrets
  import opened Deletion

  /** The record is gone, and the indexer still holds the object that was being deleted. */
  ghost predicate Stale(s: State, n: string) {
    n in s.indexed && Indexed(s, n).Some? && Indexed(s, n).value.deleting && n !in s.configurations
  }

  /** A stale reconcile runs no terraform, brings no record back, and writes nothing but the shared
      ConfigMap and, at most, the deletion of its own two secrets; unless it panics it fails, so its
      request is retried. */
  lemma StaleReconcile(s: State, n: string, o: Oracle)
    requires WellFormed(s) && RecordInv(s, n) && Stale(s, n)
    ensures var (t, out) := Reconcile(s, n, o);
      && t.log == s.log && t.configurations == s.configurations && t.providers == s.providers
      && t.indexedProviders == s.indexedProviders && t.environment == s.environment
      && t.clusterRole == s.clusterRole && SameQueues(s, t)
      && (t.secrets == s.secrets
          || t.secrets == s.secrets - {VariableSecret(n), BackendSecret(BackendNamespace(s.environment), n)})
      && t.indexed - {n} == s.indexed - {n}
      && (out.Done? ==> out.failed && Stale(t, n))
  {
    var c := Indexed(s, n).value;
    IndexedName(s, n);
    DestroyStartKeeps(s, n, o);
    PreCheckSecrets(s, c, o);
    PreCheckStoresInput(s, c, o);
    PreCheckLeavesRole(s, c, o);
    var (s1, c1, meta) := DestroyStart(s, n, o);
    assert s1.secrets == s.secrets && s1.clusterRole == s.clusterRole && !meta.envChanged;
    hide DestroyStart, Reconcile, PreCheck, Alike, WellFormed, RecordInv;
    StaleDestroy(s1, c1, meta, o);
    hide ReconcileDestroy, BackendNamespace;
    SameRecordsWithout(s, s1, n);
    SameRecordsWithout(s1, ReconcileDestroy(s1, c1, meta, o).0, n);
  }

  lemma SameRecordsWithout(s: State, t: State, n: string)
    requires OthersKept(s, t, n) && n !in s.configurations && n !in t.configurations
    ensures t.configurations == s.configurations
  {
    assert t.configurations == t.configurations - {n};
    assert s.configurations == s.configurations - {n};
  }

  lemma PreCheckLeavesRole(s: State, c: Configuration, o: Oracle)
    requires WellFormed(s) && Indexed(s, c.name) == Some(c) && c.name !in s.configurations
    ensures PreCheck(s, c, o).0.clusterRole == s.clusterRole
  {
    if o.quantities && ValidConfigurationObject(c.spec).Some? {
      var s1 := PreCheckUnfolds(s, c, o);
      hide PreCheck, GetProviderCredentials, PrepareVariables, CheckEnvironment, Keeps, WellFormed;
    }
  }

  lemma StaleDestroy(s: State, c: Configuration, meta: Meta, o: Oracle)
    requires WellFormed(s) && c.name !in s.configurations && Indexed(s, c.name) == Some(c) && c.deleting
    requires !meta.envChanged && !meta.configurationChanged
    ensures var (t, out) := ReconcileDestroy(s, c, meta, o);
      && Keeps(s, t, c.name)
      && t.log == s.log && t.environment == s.environment && t.clusterRole == s.clusterRole
      && (t.secrets == s.secrets
          || t.secrets == s.secrets - {VariableSecret(c.name), BackendSecret(meta.backend, c.name)})
      && (out.Done? ==> out.failed && Stale(t, c.name))
  {
    hide WellFormed, JobOf, IsDeletable, ConnectionPanics, BackendNamespace;
    TerraformDestroyKeeps(s, c, meta, o);
    TerraformDestroySecrets(s, c, meta, o);
    var (s1, result) := TerraformDestroy(s, c, meta, o);
    assert s1.clusterRole == s.clusterRole && (!result.DestroyDone? ==> s1.secrets == s.secrets);
    hide TerraformDestroy;
  }

  // ---------------------------------------------------------------- runs

  predicate CreatesName(e: Event, n: string) {
    e.CreateConfiguration? && e.name == n
  }

  /** The entries of the log about one name. */
  function EntriesOf(log: seq<LogEntry>, n: string): seq<LogEntry> {
    if log == [] then []
    else
      var e := log[|log| - 1];
      EntriesOf(log[..|log| - 1], n) + (if e.name == n then [e] else [])
  }

  lemma EntriesOfStep(s: State, t: State, gain: Option<LogEntry>, n: string)
    requires LogStep(s, t, gain)
    ensures EntriesOf(t.log, n) == EntriesOf(s.log, n) + (if gain.Some? && gain.value.name == n then [gain.value] else [])
  {
    if gain.Some? {
      assert (s.log + [gain.value])[..|s.log|] == s.log;
    } else {
      assert s.log + [] == s.log;
    }
  }

  lemma RestKeepsStale(s: State, e: Event, n: string)
    requires WellFormed(s) && Stale(s, n) && !CreatesName(e, n)
    ensures Stale(Rest(s, e), n)
    ensures Scheduled(s, n) ==> Scheduled(Rest(s, e), n)
  {
    hide Detached, CacheDelete, WellFormed;
    match e
    case DeleteConfiguration(url) =>
      if url in s.configurations {
        StoredName(s, url);
        DeleteKeepsIndexed(s, url, n);
      }
    case _ =>
  }

  lemma DeleteKeepsIndexed(s: State, m: string, n: string)
    requires m in s.configurations && s.configurations[m].name == m != n && n in s.indexed
    ensures var t := CacheDelete(s, s.configurations[m]);
      && n in t.indexed && t.indexed[n] == s.indexed[n]
      && (n in t.configurations <==> n in s.configurations)
      && (n in s.configurations ==> t.configurations[n] == s.configurations[n])
      && (Scheduled(s, n) ==> Scheduled(t, n))
  {
  }

  lemma RestEntries(s: State, e: Event, n: string)
    requires n !in s.configurations && !CreatesName(e, n)
    ensures EntriesOf(Rest(s, e).log, n) == EntriesOf(s.log, n)
  {
    var gain := RestLogs(s, e);
    hide Rest, EntriesOf;
    EntriesOfStep(s, Rest(s, e), gain, n);
    assert EntriesOf(s.log, n) + [] == EntriesOf(s.log, n);
    if gain.Some? {
      assert gain == Some(Written(gain.value.name));
    }
  }

  lemma HandleOtherKeepsStale(s: State, m: string, o: Oracle, n: string)
    requires Inv(s) && Stale(s, n) && m != n && ConfigurationRequest(m) in s.ready
    requires HandleRequest(s, ConfigurationRequest(m), o).Next?
    ensures var t := HandleRequest(s, ConfigurationRequest(m), o).state;
      Stale(t, n) && EntriesOf(t.log, n) == EntriesOf(s.log, n) && (Scheduled(s, n) ==> Scheduled(t, n))
  {
    hide Inv, RecordInv, Reconcile, EntriesOf, WellFormed, Alike;
    var r := ConfigurationRequest(m);
    var s0 := Taken(s, r);
    TakenStart(s, m);
    var gain := ReconcileEffect(s0, m, o);
    var (s1, out) := Reconcile(s0, m, o);
    EntriesOfStep(s0, s1, gain, n);
    hide LogStep;
    OtherLookups(s0, s1, m, n);
  }

  lemma HandleStale(s: State, n: string, o: Oracle)
    requires Inv(s) && Stale(s, n) && ConfigurationRequest(n) in s.ready
    requires HandleRequest(s, ConfigurationRequest(n), o).Next?
    ensures var t := HandleRequest(s, ConfigurationRequest(n), o).state;
      Stale(t, n) && t.log == s.log && ConfigurationRequest(n) in t.delayed
      && t.configurations == s.configurations
  {
    assert RecordInv(s, n) && QueueInv(s, n);
    TakenKeepsRecord(s, n);
    hide RecordInv, QueueInv, Reconcile, BackendNamespace;
    StaleReconcile(Taken(s, ConfigurationRequest(n)), n, o);
  }

  lemma StepKeepsStale(s: State, e: Event, n: string)
    requires Inv(s) && Stale(s, n) && Enabled(s, e) && Step(s, e).Next? && !CreatesName(e, n)
    ensures var t := Step(s, e).state;
      Stale(t, n) && EntriesOf(t.log, n) == EntriesOf(s.log, n) && (Scheduled(s, n) ==> Scheduled(t, n))
  {
    hide Inv, Rest, Reconcile, ReconcileProvider, EntriesOf;
    match e
    case Handle(ConfigurationRequest(m), o) =>
      if m == n { HandleStale(s, n, o); } else { HandleOtherKeepsStale(s, m, o, n); }
      hide Stale;
    case Handle(ProviderRequest(ref), o) => ProviderStepIsUnrelated(s, ref, o);
    case Fire(_) =>
    case _ =>
      WellFormedOf(s);
      RestKeepsStale(s, e, n);
      RestEntries(s, e, n);
  }

  /** From then on, as long as nobody creates a Configuration of that name: no terraform action on it, no
      record of it; and its request, if there is one, is retried forever. */
  lemma {:induction false} StaleForever(s: State, run: seq<Event>, n: string)
    requires Inv(s) && Stale(s, n) && Runs(s, run)
    requires forall e <- run :: !CreatesName(e, n)
    ensures var t := End(s, run);
      && n !in t.configurations
      && EntriesOf(t.log, n) == EntriesOf(s.log, n)
      && (Scheduled(s, n) ==> Scheduled(t, n))
    decreases |run|
  {
    if run != [] {
      StepKeepsStale(s, run[0], n);
      StepKeepsInv(s, run[0]);
      hide Step, Inv, EntriesOf;
      StaleForever(Step(s, run[0]).state, run[1..], n);
    }
  }

  // ---------------------------------------------------------------- at most one destroy

  /** The record has gone since the last REST write of the name. */
  predicate GoneSinceWrite(log: seq<LogEntry>, n: string) {
    log != [] &&
    var e := log[|log| - 1];
    var before := GoneSinceWrite(log[..|log| - 1], n);
    if e.name != n then before
    else match e
      case Written(_) => false
      case Applied(_, _, _, _) => before
      case Destroyed(_, _, ok) => ok || before
      case Released(_, _) => true
  }

  lemma GoneAfter(log: seq<LogEntry>, e: LogEntry, n: string)
    ensures GoneSinceWrite(log + [e], n) ==
      if e.name != n then GoneSinceWrite(log, n)
      else match e
        case Written(_) => false
        case Applied(_, _, _, _) => GoneSinceWrite(log, n)
        case Destroyed(_, _, ok) => ok || GoneSinceWrite(log, n)
        case Released(_, _) => true
  {
    assert (log + [e])[..|log|] == log;
  }

  predicate Acts(e: LogEntry, n: string) {
    e.name == n && (e.Applied? || e.Destroyed?)
  }

  /** A step on a name whose record has gone does not act; a step that makes the record go leaves it stale. */
  lemma StepRespectsGone(s: State, e: Event, n: string) returns (gain: Option<LogEntry>)
    requires Inv(s) && Enabled(s, e) && Step(s, e).Next?
    requires GoneSinceWrite(s.log, n) ==> Stale(s, n)
    ensures var t := Step(s, e).state;
      && LogStep(s, t, gain)
      && (gain.Some? && GoneSinceWrite(s.log, n) ==> !Acts(gain.value, n))
      && (GoneSinceWrite(t.log, n) ==> Stale(t, n))
  {
    gain := StepLogs(s, e);
    var t := Step(s, e).state;
    if Stale(s, n) && !CreatesName(e, n) {
      StepKeepsStale(s, e, n);
      hide Step, Inv, Stale;
      EntriesOfStep(s, t, gain, n);
      NoEntryOf(s.log, gain, n);
      hide EntriesOf;
      GoneStep(s, t, gain, n);
    } else {
      GainOfOther(s, e, gain, n);
      hide Step, Inv, Stale;
      GoneStep(s, t, gain, n);
    }
  }

  lemma NoEntryOf(log: seq<LogEntry>, gain: Option<LogEntry>, n: string)
    requires EntriesOf(log, n) == EntriesOf(log, n) + (if gain.Some? && gain.value.name == n then [gain.value] else [])
    ensures gain.Some? ==> gain.value.name != n
  {
    var added := if gain.Some? && gain.value.name == n then [gain.value] else [];
    assert |EntriesOf(log, n) + added| == |EntriesOf(log, n)| + |added|;
  }

  lemma GoneStep(s: State, t: State, gain: Option<LogEntry>, n: string)
    requires LogStep(s, t, gain)
    ensures GoneSinceWrite(t.log, n) ==
      if gain.None? || gain.value.name != n then GoneSinceWrite(s.log, n)
      else match gain.value
        case Written(_) => false
        case Applied(_, _, _, _) => GoneSinceWrite(s.log, n)
        case Destroyed(_, _, ok) => ok || GoneSinceWrite(s.log, n)
        case Released(_, _) => true
  {
    if gain.Some? {
      GoneAfter(s.log, gain.value, n);
    } else {
      assert s.log + [] == s.log;
    }
  }

  /** A name that is not stale: only its own removal makes it gone, and creating it writes it. */
  lemma GainOfOther(s: State, e: Event, gain: Option<LogEntry>, n: string)
    requires Inv(s) && Enabled(s, e) && Step(s, e).Next?
    requires LogStep(s, Step(s, e).state, gain)
    ensures CreatesName(e, n) ==> gain == Some(Written(n))
    ensures (gain.Some? && gain.value.name == n && (gain.value.Released? || (gain.value.Destroyed? && gain.value.ok)))
            ==> Stale(Step(s, e).state, n)
  {
    hide Reconcile, ReconcileProvider, RecordInv, QueueInv;
    match e
    case Handle(ConfigurationRequest(m), o) =>
      var s0 := Taken(s, ConfigurationRequest(m));
      assert RecordInv(s, m) && QueueInv(s, m);
      TakenKeepsRecord(s, m);
      var own := ReconcileEffect(s0, m, o);
      hide Inv, WellFormed, OthersKept, Alike;
      SameGain(s0.log, own, gain);
    case Handle(ProviderRequest(ref), o) =>
      ProviderStepIsUnrelated(s, ref, o);
      hide Inv, Step;
      NoGain(s.log, gain);
    case Fire(_) =>
      hide Inv;
      NoGain(s.log, gain);
    case _ =>
      hide Inv;
      var own := RestLogs(s, e);
      SameGain(s.log, own, gain);
  }

  lemma SameGain(log: seq<LogEntry>, a: Option<LogEntry>, b: Option<LogEntry>)
    requires log + Entries(a) == log + Entries(b)
    ensures a == b
  {
    assert |log + Entries(a)| == |log| + |Entries(a)| && |log + Entries(b)| == |log| + |Entries(b)|;
    if a.Some? && b.Some? {
      assert (log + Entries(a))[|log|] == (log + Entries(b))[|log|];
    }
  }

  /** No terraform action on a name is logged between the moment its record went and the next write. */
  ghost predicate RespectsGone(log: seq<LogEntry>, n: string) {
    forall j | 0 <= j < |log| :: Acts(log[j], n) ==> !GoneSinceWrite(log[..j], n)
  }

  lemma RespectsGoneStep(s: State, t: State, gain: Option<LogEntry>, n: string)
    requires LogStep(s, t, gain) && RespectsGone(s.log, n)
    requires gain.Some? && GoneSinceWrite(s.log, n) ==> !Acts(gain.value, n)
    ensures RespectsGone(t.log, n)
  {
    hide GoneSinceWrite;
    forall j | 0 <= j < |t.log| && Acts(t.log[j], n) ensures !GoneSinceWrite(t.log[..j], n) {
      assert t.log[..j] == s.log[..j];
    }
  }

  lemma {:induction false} RunRespectsGone(s: State, run: seq<Event>, n: string)
    requires Inv(s) && Runs(s, run)
    requires GoneSinceWrite(s.log, n) ==> Stale(s, n)
    requires RespectsGone(s.log, n)
    ensures RespectsGone(End(s, run).log, n)
    decreases |run|
  {
    if run != [] {
      var gain := StepRespectsGone(s, run[0], n);
      StepKeepsInv(s, run[0]);
      hide Step, Inv, Stale, GoneSinceWrite;
      RespectsGoneStep(s, Step(s, run[0]).state, gain, n);
      hide RespectsGone;
      RunRespectsGone(Step(s, run[0]).state, run[1..], n);
    }
  }

  /** The entry e makes the record of its name go. */
  predicate Ends(e: LogEntry) {
    e.Released? || (e.Destroyed? && e.ok)
  }

  lemma {:induction false} GoneUntilWritten(log: seq<LogEntry>, i: nat, n: string)
    requires i < |log| && Ends(log[i]) && log[i].name == n
    requires forall k | i < k < |log| :: log[k] != Written(n)
    ensures GoneSinceWrite(log, n)
    decreases |log|
  {
    if i < |log| - 1 {
      GoneUntilWritten(log[..|log| - 1], i, n);
    }
  }

  /** In any run: after a successful terraform destroy of a Configuration, and after a release of its record
      without one, no terraform run for that name comes before the next REST write of it. So one deletion
      destroys at most once. */
  lemma AtMostOneDestroy(environment: map<string, string>, run: seq<Event>, i: nat, j: nat)
    requires Runs(Initial(environment), run)
    requires var log := End(Initial(environment), run).log;
      i < j < |log| && Ends(log[i]) && Acts(log[j], log[i].name)
    ensures var log := End(Initial(environment), run).log;
      exists k :: i < k < j && log[k] == Written(log[i].name)
  {
    var log := End(Initial(environment), run).log;
    var n := log[i].name;
    InitialInv(environment);
    hide Inv, Stale;
    RunRespectsGone(Initial(environment), run, n);
    hide Runs, End;
    if forall k | i < k < j :: log[k] != Written(n) {
      GoneUntilWritten(log[..j], i, n);
      assert false;
    }
  }
}
