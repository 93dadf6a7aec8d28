/** Safety over every interleaving of REST calls, timers and reconciles: terraform resources that may
    exist are never forgotten. */
module Safety {
  import opened Objects
  import opened Lifecycle
  import opened Protocol
  import opened Frames

  /** Cloud resources of the Configuration may exist: terraform apply ran for it, successfully or not,
      since its last successful destroy and since its record was last released without one. */
  predicate Live(log: seq<LogEntry>, name: string) {
    log != [] &&
    var e := log[|log| - 1];
    var before := Live(log[..|log| - 1], name);
    if e.name != name then before
    else match e
      case Applied(_, _, _, _) => true
      case Destroyed(_, _, ok) => !ok && before
      case Released(_, _) => false
      case Written(_) => before
  }

  lemma LiveAfter(log: seq<LogEntry>, e: LogEntry, n: string)
    ensures Live(log + [e], n) ==
      if e.name != n then Live(log, n)
      else match e
        case Applied(_, _, _, _) => true
        case Destroyed(_, _, ok) => !ok && Live(log, n)
        case Released(_, _) => false
        case Written(_) => Live(log, n)
  {
    assert (log + [e])[..|log + [e]| - 1] == log;
  }

  predicate Scheduled(s: State, n: string) {
    ConfigurationRequest(n) in s.ready || ConfigurationRequest(n) in s.delayed
  }

  /** How the object c the indexer holds relates to the store. */
  ghost predicate EntryInv(s: State, n: string, c: Configuration) {
    && (c.deleting ==> c.finalizer)
    && (!c.finalizer ==> (IsOwn(s, n) ==> n !in s.configurations))
    && (c.finalizer && !c.deleting ==> n in s.configurations)
    && (c.deleting && Live(s.log, n) ==> n in s.configurations)
    && (n in s.configurations ==>
          var d := s.configurations[n];
          d.finalizer == c.finalizer && d.deleting == c.deleting && Alike(c.spec, d.spec))
  }

  ghost predicate RecordInv(s: State, n: string) {
    && (n in s.configurations || Live(s.log, n) ==> n in s.indexed)
    && (n in s.indexed ==> Indexed(s, n).Some? && EntryInv(s, n, Indexed(s, n).value))
  }

  /** A request has an indexer entry, and an object that still lacks its finalizer has a request. */
  ghost predicate QueueInv(s: State, n: string) {
    && (Scheduled(s, n) ==> n in s.indexed)
    && (n in s.indexed && Indexed(s, n).Some? && !Indexed(s, n).value.finalizer ==> Scheduled(s, n))
  }

  ghost predicate Inv(s: State) {
    WellFormed(s) && forall n: string :: RecordInv(s, n) && QueueInv(s, n)
  }

  /** The promise: resources that may exist belong to a record that is in the store with its finalizer,
      or to one whose request is scheduled. */
  ghost predicate Remembered(s: State, n: string) {
    (n in s.configurations && s.configurations[n].finalizer) || Scheduled(s, n)
  }

  lemma InvImpliesRemembered(s: State, n: string)
    requires RecordInv(s, n) && QueueInv(s, n) && Live(s.log, n)
    ensures Remembered(s, n)
  {
  }

  lemma InitialInv(environment: map<string, string>)
    ensures Inv(Initial(environment))
  {
  }

  // ---------------------------------------------------------------- what a reconcile does to its own name

  /** The record of n is gone; the indexer keeps an object of its own. */
  ghost predicate Removed(s: State, t: State, n: string) {
    && n !in t.configurations
    && OptionGrows(Indexed(s, n), Indexed(t, n))
    && IsOwn(t, n)
  }

  /** The object Reconcile works with once the finalizer is on it. */
  function Finalized(c: Configuration): Configuration {
    if c.deleting then c else c.(finalizer := true)
  }

  lemma EnsureFinalizerWrites(s: State, c: Configuration)
    requires Indexed(s, c.name) == Some(c)
    ensures EnsureFinalizer(s, c) ==
      if c.deleting || c.finalizer then s
      else s.(configurations := s.configurations[c.name := Finalized(c)], indexed := s.indexed[c.name := Same])
  {
    var s1 := MutateIndexed(s, c.name, Finalized(c));
    if IsOwn(s, c.name) {
      assert s1.indexed[c.name := Same] == s.indexed[c.name := Same];
    } else {
      assert s1.configurations[c.name := Finalized(c)] == s.configurations[c.name := Finalized(c)];
    }
  }

  lemma EnsureFinalizerEffect(s: State, c: Configuration)
    requires WellFormed(s) && RecordInv(s, c.name) && Indexed(s, c.name) == Some(c)
    ensures var t := EnsureFinalizer(s, c);
      && WellFormed(t) && SameQueues(s, t) && OthersKept(s, t, c.name)
      && t.log == s.log && t.environment == s.environment && t.secrets == s.secrets && t.configMap == s.configMap
      && Indexed(t, c.name) == Some(Finalized(c))
      && (c.deleting ==> t == s)
      && (c.name in s.configurations ==>
            c.name in t.configurations && t.configurations[c.name].spec == s.configurations[c.name].spec)
      && (c.name !in s.configurations && !c.deleting ==>
            c.name in t.configurations && t.configurations[c.name].spec == c.spec)
      && (!c.deleting ==>
            && c.name in t.configurations
            && t.configurations[c.name].finalizer && !t.configurations[c.name].deleting
            && Alike(Finalized(c).spec, t.configurations[c.name].spec))
  {
    EnsureFinalizerWrites(s, c);
    hide EnsureFinalizer;
    if !c.deleting && !c.finalizer {
      assert EnsureFinalizer(s, c).configurations - {c.name} == s.configurations - {c.name};
      assert EnsureFinalizer(s, c).indexed - {c.name} == s.indexed - {c.name};
    }
  }

  // ---------------------------------------------------------------- one reconcile

  lemma RemoveRecordEffect(s: State, c: Configuration, why: Option<Reason>)
    requires WellFormed(s) && c.name in s.configurations && s.configurations[c.name] == c
    requires c.name in s.indexed
    ensures var t := RemoveRecord(s, c, why);
      && WellFormed(t) && SameQueues(s, t) && OthersKept(s, t, c.name)
      && c.name !in t.configurations && IsOwn(t, c.name) && Indexed(t, c.name) == Indexed(s, c.name)
      && t.log == (if why.Some? then s.log + [Released(c.name, why.value)] else s.log)
      && t.environment == s.environment && t.secrets == s.secrets && t.configMap == s.configMap
  {
  }

  function Entries(gain: Option<LogEntry>): seq<LogEntry> {
    if gain.Some? then [gain.value] else []
  }

  /** The entry a step added to the log, which grows by one entry at most. */
  ghost predicate LogStep(s: State, t: State, gain: Option<LogEntry>) {
    t.log == s.log + Entries(gain)
  }

  /** Nothing but the record of n has changed, and that record has kept its identity. */
  ghost predicate Kept(s: State, t: State, n: string) {
    && WellFormed(t) && SameQueues(s, t) && OthersKept(s, t, n)
    && OptionGrows(Stored(s, n), Stored(t, n))
    && OptionGrows(Indexed(s, n), Indexed(t, n))
    && (IsOwn(s, n) ==> IsOwn(t, n))
  }

  /** A reconcile of an object being deleted. */
  ghost predicate DestroyEffect(s: State, t: State, n: string, out: Outcome, gain: Option<LogEntry>) {
    && LogStep(s, t, gain)
    && (gain.Some? ==> gain.value.name == n && (gain.value.Destroyed? || gain.value.Released?))
    && (if out == Done(0, false) then
          && WellFormed(t) && SameQueues(s, t) && OthersKept(s, t, n)
          && n in s.configurations && Removed(s, t, n)
          && gain.Some? && (gain.value.Destroyed? ==> gain.value.ok)
        else
          && Kept(s, t, n)
          && (gain.Some? ==> gain.value.Destroyed? && (gain.value.ok ==> out.Panicked?)))
    && (out.Done? && out != Done(0, false) ==> out.failed)
  }

  /** A reconcile of an object that is not being deleted. */
  ghost predicate ApplyEffect(s: State, t: State, n: string, c: Configuration, out: Outcome, gain: Option<LogEntry>) {
    && LogStep(s, t, gain)
    && (gain.Some? ==> gain.value.name == n && gain.value.Applied?)
    && WellFormed(t) && SameQueues(s, t) && OthersKept(s, t, n)
    && Indexed(t, n).Some? && Grows(Finalized(c), Indexed(t, n).value)
    && n in t.configurations
    && (var d := t.configurations[n];
        && d.finalizer && !d.deleting && Alike(Indexed(t, n).value.spec, d.spec)
        && (var b := if n in s.configurations then s.configurations[n] else c;
            b.spec.region != "" ==> d.spec.region == b.spec.region))
    && out.Done?
    && (out == Done(0, false) ==> gain.Some?)
    && (out == Done(0, false) || out.failed)
  }

  lemma ReconcileDestroyEffect(s: State, c: Configuration, meta: Meta, o: Oracle) returns (gain: Option<LogEntry>)
    requires WellFormed(s) && c.name in s.indexed
    ensures var (t, out) := ReconcileDestroy(s, c, meta, o); DestroyEffect(s, t, c.name, out, gain)
  {
    hide TerraformDestroy, RemoveRecord, IsDeletable, JobOf, WellFormed, Alike;
    var n := c.name;
    TerraformDestroyKeeps(s, c, meta, o);
    var (s1, result) := TerraformDestroy(s, c, meta, o);
    KeepsWellFormed(s, s1, n);
    gain := if JobRuns(s, c) && s.configMap.Some? then Some(Destroyed(n, JobOf(s, c, meta), o.terraform)) else None;
    if result.DestroyDone? && n in s1.configurations {
      StoredName(s1, n);
      RemoveRecordEffect(s1, s1.configurations[n], result.why);
      if result.why.Some? {
        gain := Some(Released(n, result.why.value));
        assert DestroyEffect(s, ReconcileDestroy(s, c, meta, o).0, n, Done(0, false), gain);
      } else {
        assert DestroyEffect(s, ReconcileDestroy(s, c, meta, o).0, n, Done(0, false), gain);
      }
    } else {
    }
  }

  lemma StoredName(s: State, n: string)
    requires WellFormed(s) && n in s.configurations
    ensures s.configurations[n].name == n
  {
  }

  lemma ReconcileApplyEffect(s: State, c: Configuration, meta: Meta, o: Oracle) returns (gain: Option<LogEntry>)
    requires WellFormed(s)
    ensures var (t, out) := ReconcileApply(s, c, meta, o);
      && Keeps(s, t, c.name)
      && LogStep(s, t, gain)
      && (gain.Some? ==> gain.value.name == c.name && gain.value.Applied?)
      && (out == Done(0, false) || out == Done(REQUEUE, true))
      && (out == Done(0, false) ==> gain.Some?)
  {
    hide TerraformApply, JobOf, Keeps;
    TerraformApplyKeeps(s, c, meta, o);
    gain := if s.configMap.Some?
            then Some(Applied(c.name, JobOf(Equipped(s, meta), c, meta), o.terraform,
                              if o.terraform then o.stateFile else None))
            else None;
  }

  lemma DestroyEffectFrom(s: State, s1: State, t: State, n: string, out: Outcome, gain: Option<LogEntry>)
    requires Keeps(s, s1, n) && s1.log == s.log
    requires DestroyEffect(s1, t, n, out, gain)
    ensures DestroyEffect(s, t, n, out, gain)
  {
    hide WellFormed;
  }

  lemma ApplyEffectFrom(s: State, s1: State, t: State, c: Configuration, out: Outcome, gain: Option<LogEntry>)
    requires WellFormed(s) && RecordInv(s, c.name) && Indexed(s, c.name) == Some(c) && !c.deleting
    requires s1 == EnsureFinalizer(s, c)
    requires Keeps(s1, t, c.name) && WellFormed(t)
    requires LogStep(s, t, gain) && (gain.Some? ==> gain.value.name == c.name && gain.value.Applied?)
    requires out == Done(0, false) || (out.Done? && out.failed)
    requires out == Done(0, false) ==> gain.Some?
    ensures ApplyEffect(s, t, c.name, c, out, gain)
  {
    EnsureFinalizerEffect(s, c);
    hide WellFormed, EnsureFinalizer, EntryInv;
  }

  lemma ReconcileEffect(s: State, n: string, o: Oracle) returns (gain: Option<LogEntry>)
    requires WellFormed(s) && RecordInv(s, n) && n in s.indexed
    ensures var c := Indexed(s, n).value;
            var (t, out) := Reconcile(s, n, o);
            if c.deleting then DestroyEffect(s, t, n, out, gain) else ApplyEffect(s, t, n, c, out, gain)
  {
    hide PreCheck, EnsureFinalizer, ReconcileDestroy, ReconcileApply, WellFormed, EntryInv, DestroyEffect,
      ApplyEffect;
    var c := Indexed(s, n).value;
    IndexedName(s, n);
    EnsureFinalizerEffect(s, c);
    var s1 := EnsureFinalizer(s, c);
    var c1 := Finalized(c);
    PreCheckKeeps(s1, c1, o);
    var (s2, meta, ok) := PreCheck(s1, c1, o);
    KeepsWellFormed(s1, s2, n);
    var c2 := Current(s2, c1);
    gain := None;
    if c.deleting {
      gain := ReconcileDestroyEffect(s2, c2, meta, o);
      var (t, out) := ReconcileDestroy(s2, c2, meta, o);
      DestroyEffectFrom(s, s2, t, n, out, gain);
    } else if ok {
      gain := ReconcileApplyEffect(s2, c2, meta, o);
      var (t, out) := ReconcileApply(s2, c2, meta, o);
      KeepsTransitive(s1, s2, t, n);
      KeepsWellFormed(s1, t, n);
      ApplyEffectFrom(s, s1, t, c, out, gain);
    } else {
      ApplyEffectFrom(s, s1, s2, c, Done(0, true), gain);
    }
  }

  lemma IndexedName(s: State, n: string)
    requires WellFormed(s) && Indexed(s, n).Some?
    ensures Indexed(s, n).value.name == n
  {
  }

  // ---------------------------------------------------------------- every step keeps the invariant

  lemma LiveGain(s: State, t: State, gain: Option<LogEntry>, n: string)
    requires LogStep(s, t, gain)
    ensures gain.None? || gain.value.name != n ==> Live(t.log, n) == Live(s.log, n)
    ensures gain.Some? && gain.value.name == n && (gain.value.Released? || (gain.value.Destroyed? && gain.value.ok)) ==> !Live(t.log, n)
    ensures gain.Some? && gain.value.name == n && gain.value.Destroyed? && !gain.value.ok ==> Live(t.log, n) == Live(s.log, n)
  {
    if gain.Some? {
      LiveAfter(s.log, gain.value, n);
    } else {
      assert s.log + [] == s.log;
    }
  }

  /** The reconciled name itself. */
  lemma ReconcileKeepsOwn(s: State, n: string, o: Oracle)
    requires WellFormed(s) && RecordInv(s, n) && n in s.indexed
    requires !Reconcile(s, n, o).1.Panicked?
    ensures var t := Reconcile(s, n, o).0;
      WellFormed(t) && RecordInv(t, n) && n in t.indexed && Indexed(t, n).value.finalizer
  {
    var gain := ReconcileEffect(s, n, o);
    hide Reconcile, WellFormed, Alike, Live;
    LiveGain(s, Reconcile(s, n, o).0, gain, n);
  }

  /** Every other name. */
  lemma ReconcileKeepsOther(s: State, m: string, n: string, o: Oracle)
    requires WellFormed(s) && RecordInv(s, m) && m in s.indexed && m != n
    requires RecordInv(s, n) && QueueInv(s, n)
    requires !Reconcile(s, m, o).1.Panicked?
    ensures var t := Reconcile(s, m, o).0; RecordInv(t, n) && QueueInv(t, n)
  {
    hide Reconcile, Live, Alike;
    var gain := ReconcileEffect(s, m, o);
    var t := Reconcile(s, m, o).0;
    LiveGain(s, t, gain, n);
    OtherLookups(s, t, m, n);
  }

  lemma OtherLookups(s: State, t: State, m: string, n: string)
    requires OthersKept(s, t, m) && m != n
    ensures n in t.configurations <==> n in s.configurations
    ensures n in s.configurations ==> t.configurations[n] == s.configurations[n]
    ensures n in t.indexed <==> n in s.indexed
    ensures n in s.indexed ==> t.indexed[n] == s.indexed[n]
    ensures Indexed(t, n) == Indexed(s, n)
  {
    assert n in s.configurations <==> n in s.configurations - {m};
    assert n in t.configurations <==> n in t.configurations - {m};
    assert n in s.indexed <==> n in s.indexed - {m};
    assert n in t.indexed <==> n in t.indexed - {m};
  }

  lemma RequeuedKeeps(s: State, r: Request, out: Outcome, n: string)
    requires RecordInv(s, n)
    requires if r == ConfigurationRequest(n) then n in s.indexed && Indexed(s, n).value.finalizer else QueueInv(s, n)
    ensures RecordInv(Requeued(s, r, out), n) && QueueInv(Requeued(s, r, out), n)
  {
    hide Live, Alike;
  }

  lemma HandleConfigurationKeepsInv(s: State, m: string, o: Oracle)
    requires Inv(s) && ConfigurationRequest(m) in s.ready
    requires !Reconcile(Taken(s, ConfigurationRequest(m)), m, o).1.Panicked?
    ensures var (s1, out) := Reconcile(Taken(s, ConfigurationRequest(m)), m, o);
            Inv(Requeued(s1, ConfigurationRequest(m), out))
  {
    var r := ConfigurationRequest(m);
    var s0 := Taken(s, r);
    assert RecordInv(s, m) && QueueInv(s, m);
    assert RecordInv(s0, m);
    ReconcileKeepsOwn(s0, m, o);
    hide Reconcile, RecordInv, QueueInv, Requeued;
    var (s1, out) := Reconcile(s0, m, o);
    forall n: string ensures RecordInv(Requeued(s1, r, out), n) && QueueInv(Requeued(s1, r, out), n) {
      if n != m {
        TakenKeepsOther(s, m, n);
        ReconcileKeepsOther(s0, m, n, o);
      }
      RequeuedKeeps(s1, r, out, n);
    }
    RequeuedWellFormed(s1, r, out);
    assert Inv(Requeued(s1, r, out));
  }

  lemma RequeuedWellFormed(s: State, r: Request, out: Outcome)
    requires WellFormed(s)
    ensures WellFormed(Requeued(s, r, out))
  {
  }

  lemma TakenKeepsOther(s: State, m: string, n: string)
    requires RecordInv(s, n) && QueueInv(s, n) && m != n
    ensures RecordInv(Taken(s, ConfigurationRequest(m)), n) && QueueInv(Taken(s, ConfigurationRequest(m)), n)
  {
    hide Live, Alike;
  }

  lemma TakenKeepsRecord(s: State, n: string)
    requires RecordInv(s, n) && QueueInv(s, n) && ConfigurationRequest(n) in s.ready
    ensures RecordInv(Taken(s, ConfigurationRequest(n)), n) && n in s.indexed
  {
    hide Live, Alike;
  }

  /** Where the reconcile of a request that is ready starts. */
  lemma TakenStart(s: State, n: string)
    requires Inv(s) && ConfigurationRequest(n) in s.ready
    ensures var t := Taken(s, ConfigurationRequest(n)); WellFormed(t) && RecordInv(t, n) && n in t.indexed && Indexed(t, n).Some?
  {
    assert RecordInv(s, n) && QueueInv(s, n);
    TakenKeepsRecord(s, n);
    hide RecordInv, QueueInv;
  }

  lemma WellFormedOf(s: State)
    requires Inv(s)
    ensures WellFormed(s)
  {
  }

  /** Steps that touch no Configuration, no request for one and no log entry. */
  lemma UnrelatedKeepsInv(s: State, t: State)
    requires Inv(s)
    requires t.configurations == s.configurations && t.indexed == s.indexed && t.log == s.log
    requires forall n: string :: Scheduled(t, n) <==> Scheduled(s, n)
    ensures Inv(t)
  {
    hide Live, Alike;
    forall n: string ensures RecordInv(t, n) && QueueInv(t, n) {
      assert RecordInv(s, n) && QueueInv(s, n);
      assert Scheduled(t, n) <==> Scheduled(s, n);
    }
  }

  lemma WriteKeepsInv(s: State, c: Configuration)
    requires Inv(s) && !c.finalizer && !c.deleting
    ensures Inv(WriteConfiguration(s, c))
  {
    var t := WriteConfiguration(s, c);
    hide Live;
    forall n: string ensures RecordInv(t, n) && QueueInv(t, n) {
      assert RecordInv(s, n) && QueueInv(s, n);
      LiveAfter(s.log, Written(c.name), n);
    }
  }

  /** DELETE of a Configuration with finalizer marks it and schedules it. */
  lemma MarkKeepsInv(s: State, n: string)
    requires Inv(s) && n in s.configurations && s.configurations[n].finalizer
    ensures Inv(Inject(MutateStored(s, n, s.configurations[n].(deleting := true)), n))
  {
    hide Live;
    assert RecordInv(s, n) && QueueInv(s, n);
    var t := Inject(MutateStored(s, n, s.configurations[n].(deleting := true)), n);
    forall m: string ensures RecordInv(t, m) && QueueInv(t, m) {
      assert RecordInv(s, m) && QueueInv(s, m);
    }
  }

  /** DELETE of a Configuration without finalizer takes it out of the store. */
  lemma PlainDeleteKeepsInv(s: State, n: string)
    requires Inv(s) && n in s.configurations && !s.configurations[n].finalizer
    ensures Inv(s.(configurations := s.configurations - {n}, indexed := Detached(s, n)))
  {
    hide Live, Alike;
    assert RecordInv(s, n) && QueueInv(s, n);
    var t := s.(configurations := s.configurations - {n}, indexed := Detached(s, n));
    assert Indexed(t, n) == Indexed(s, n);
    forall m: string ensures RecordInv(t, m) && QueueInv(t, m) {
      assert RecordInv(s, m) && QueueInv(s, m);
    }
  }

  lemma DeleteKeepsInv(s: State, n: string)
    requires Inv(s) && n in s.configurations
    ensures Inv(CacheDelete(s, s.configurations[n]))
  {
    if s.configurations[n].finalizer {
      MarkKeepsInv(s, n);
    } else {
      PlainDeleteKeepsInv(s, n);
    }
    assert s.configurations[n].name == n;
    hide Inv;
  }

  /** One step, whatever it is, keeps the invariant. */
  lemma StepKeepsInv(s: State, e: Event)
    requires Inv(s) && Enabled(s, e) && Step(s, e).Next?
    ensures Inv(Step(s, e).state)
  {
    hide Inv, Reconcile, ReconcileProvider, WriteConfiguration;
    var t := Step(s, e).state;
    match e
    case CreateConfiguration(name, spec, status) => WriteKeepsInv(s, Body(name, spec, status));
    case UpdateConfiguration(url, name, spec, status) => WriteKeepsInv(s, Body(name, spec, status));
    case DeleteConfiguration(url) => if url in s.configurations { DeleteKeepsInv(s, url); }
    case Handle(ConfigurationRequest(m), o) => HandleConfigurationKeepsInv(s, m, o);
    case Handle(ProviderRequest(ref), o) =>
      ProviderStepIsUnrelated(s, ref, o);
      UnrelatedKeepsInv(s, t);
    case _ => UnrelatedKeepsInv(s, t);
  }

  lemma ProviderStepIsUnrelated(s: State, ref: Ref, o: Oracle)
    ensures var r := ProviderRequest(ref);
      var (s1, out) := ReconcileProvider(Taken(s, r), ref, o);
      var t := Requeued(s1, r, out);
      && t.configurations == s.configurations && t.indexed == s.indexed && t.log == s.log
      && forall n: string :: Scheduled(t, n) <==> Scheduled(s, n)
  {
    hide GetProviderCredentials;
  }

  /** Over whole runs, from the empty store: at every moment, resources that may exist belong to a record
      with its finalizer or to a scheduled request. */
  lemma {:induction false} RunKeepsInv(s: State, run: seq<Event>)
    requires Inv(s) && Runs(s, run)
    ensures Inv(End(s, run))
    decreases |run|
  {
    if run != [] {
      StepKeepsInv(s, run[0]);
      RunKeepsInv(Step(s, run[0]).state, run[1..]);
    }
  }

  lemma NothingIsForgotten(environment: map<string, string>, run: seq<Event>, n: string)
    requires Runs(Initial(environment), run)
    ensures Live(End(Initial(environment), run).log, n) ==> Remembered(End(Initial(environment), run), n)
  {
    InitialInv(environment);
    RunKeepsInv(Initial(environment), run);
    var s := End(Initial(environment), run);
    assert RecordInv(s, n) && QueueInv(s, n);
    if Live(s.log, n) {
      InvImpliesRemembered(s, n);
    }
  }
}
