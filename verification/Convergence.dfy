/** A Configuration marked for deletion goes after exactly as many reconciles as its destroy takes. */
module Convergence {
  import opened Objects
  import opened Lifecycle
  import opened Protocol
  import opened Frames
  import opened Safety
  import opened Checks
  import opened Deletion
  import opened Aftermath

  /** Exactly one entry of the work queue, ready or delayed, is for the name. */
  predicate OneEntry(s: State, n: string) {
    (ConfigurationRequest(n) in s.ready) != (ConfigurationRequest(n) in s.delayed)
  }

  /** Marked for deletion, with one outstanding entry. */
  predicate Doomed(s: State, n: string) {
    n in s.configurations && s.configurations[n].deleting && OneEntry(s, n)
  }

  /** The record is gone, and nothing is scheduled for it. */
  predicate Gone(s: State, n: string) {
    n !in s.configurations && !Scheduled(s, n)
  }

  predicate RestOn(e: Event, n: string) {
    match e
    case CreateConfiguration(name, _, _) => name == n
    case UpdateConfiguration(url, name, _, _) => url == n && name == n
    case DeleteConfiguration(url) => url == n
    case _ => false
  }

  predicate IsAttempt(e: Event, n: string) {
    e.Handle? && e.request == ConfigurationRequest(n)
  }

  /** The destroy attempt fails: the Configuration must first be provisioned, or terraform has no input or
      reports an error. */
  ghost predicate AttemptFails(s: State, n: string, o: Oracle)
    requires Indexed(s, n).Some?
  {
    var c := Indexed(s, n).value;
    match DeletableBefore(s, c, o)
    case Directly => false
    case NotYet => true
    case AfterDestroy => !Shadowed(s, n) && !(InputThere(s, c, o) && o.terraform)
  }

  function Attempts(run: seq<Event>, n: string): nat {
    if run == [] then 0 else (if IsAttempt(run[0], n) then 1 else 0) + Attempts(run[1..], n)
  }

  /** How many attempts of the run fail. */
  ghost function Failures(s: State, run: seq<Event>, n: string): nat
    requires Runs(s, run)
    decreases |run|
  {
    if run == [] then 0
    else
      (if IsAttempt(run[0], n) && Indexed(s, n).Some? && AttemptFails(s, n, run[0].oracle)
       then 1 else 0) + Failures(Step(s, run[0]).state, run[1..], n)
  }

  /** One attempt: it either fails and is retried, with one outstanding entry again, or it ends in the
      absence of the record with nothing scheduled. */
  lemma Attempt(s: State, n: string, o: Oracle)
    requires Inv(s) && Doomed(s, n) && ConfigurationRequest(n) in s.ready
    requires HandleRequest(s, ConfigurationRequest(n), o).Next?
    ensures Indexed(s, n).Some?
    ensures var t := HandleRequest(s, ConfigurationRequest(n), o).state;
      if AttemptFails(s, n, o) then Doomed(t, n) && ConfigurationRequest(n) in t.delayed else Gone(t, n)
  {
    var s0 := Taken(s, ConfigurationRequest(n));
    MarkedIsBeingDeleted(s, n);
    hide Inv;
    assert Indexed(s0, n).Some? && n in s0.configurations && (Shadowed(s0, n) <==> Shadowed(s, n));
    assert Indexed(s0, n) == Indexed(s, n);
    var c := Indexed(s, n).value;
    SameDecisions(s, s0, c, o);
    RecordLeavesExactlyWhen(s0, n, o);
    hide DestroyStart, DeletableBefore, JobOf, Shadowed, Indexed;
    var gain := ReconcileEffect(s0, n, o);
    hide BeingDeleted, Reconcile, WellFormed, Alike, RecordInv;
  }

  /** A REST call on something else leaves the record of n and its requests alone. */
  lemma RestLeavesName(s: State, e: Event, n: string)
    requires WellFormed(s) && !RestOn(e, n) && n in s.indexed
    ensures var t := Rest(s, e); var r := ConfigurationRequest(n);
      && Stored(t, n) == Stored(s, n) && n in t.indexed && t.indexed[n] == s.indexed[n]
      && (r in t.ready <==> r in s.ready) && (r in t.delayed <==> r in s.delayed)
  {
    match e
    case DeleteConfiguration(url) =>
      if url in s.configurations {
        assert s.configurations[url].name == url != n;
        DeleteKeepsQueues(s, url, n);
        DeleteKeepsIndexed(s, url, n);
        hide CacheDelete, WellFormed;
      }
    case CreateConfiguration(name, spec, status) =>
      hide WellFormed;
      WriteLeavesName(s, Body(name, spec, status), n);
      hide WriteConfiguration;
    case UpdateConfiguration(url, name, spec, status) =>
      hide WellFormed;
      if name != n { WriteLeavesName(s, Body(name, spec, status), n); }
      hide WriteConfiguration;
    case _ => hide WellFormed;
  }

  lemma WriteLeavesName(s: State, c: Configuration, n: string)
    requires c.name != n
    ensures var t := WriteConfiguration(s, c); var r := ConfigurationRequest(n);
      && Stored(t, n) == Stored(s, n) && (n in s.indexed ==> n in t.indexed && t.indexed[n] == s.indexed[n])
      && (r in t.ready <==> r in s.ready) && (r in t.delayed <==> r in s.delayed)
  {
  }

  lemma RestKeepsDoomed(s: State, e: Event, n: string)
    requires WellFormed(s) && !RestOn(e, n) && n in s.indexed
    requires Doomed(s, n) || Gone(s, n)
    ensures Doomed(s, n) ==> Doomed(Rest(s, e), n)
    ensures Gone(s, n) ==> Gone(Rest(s, e), n)
  {
    hide Rest, WellFormed;
    RestLeavesName(s, e, n);
    assert n in s.configurations <==> Stored(s, n).Some?;
    assert n in Rest(s, e).configurations <==> Stored(Rest(s, e), n).Some?;
  }

  lemma DeleteKeepsQueues(s: State, m: string, n: string)
    requires m in s.configurations && s.configurations[m].name == m != n
    ensures var t := CacheDelete(s, s.configurations[m]); var r := ConfigurationRequest(n);
      (r in t.ready <==> r in s.ready) && (r in t.delayed <==> r in s.delayed)
  {
  }

  lemma HandleOtherKeepsDoomed(s: State, m: string, o: Oracle, n: string)
    requires Inv(s) && m != n && ConfigurationRequest(m) in s.ready
    requires HandleRequest(s, ConfigurationRequest(m), o).Next?
    ensures var t := HandleRequest(s, ConfigurationRequest(m), o).state;
      (Doomed(s, n) ==> Doomed(t, n)) && (Gone(s, n) ==> Gone(t, n))
  {
    hide Inv, RecordInv, Reconcile, LogStep, WellFormed, Alike;
    var s0 := Taken(s, ConfigurationRequest(m));
    TakenStart(s, m);
    var gain := ReconcileEffect(s0, m, o);
    OtherLookups(s0, Reconcile(s0, m, o).0, m, n);
  }

  lemma ProviderKeepsDoomed(s: State, ref: Ref, o: Oracle, n: string)
    requires HandleRequest(s, ProviderRequest(ref), o).Next?
    ensures var t := HandleRequest(s, ProviderRequest(ref), o).state;
      (Doomed(s, n) ==> Doomed(t, n)) && (Gone(s, n) ==> Gone(t, n))
  {
    hide GetProviderCredentials;
  }

  /** Every step that is not an attempt leaves a doomed record doomed and a gone one gone. */
  lemma StepKeepsDoomed(s: State, e: Event, n: string)
    requires Inv(s) && Enabled(s, e) && Step(s, e).Next? && !RestOn(e, n) && !IsAttempt(e, n)
    requires n in s.indexed && (Doomed(s, n) || Gone(s, n))
    ensures Doomed(s, n) ==> Doomed(Step(s, e).state, n)
    ensures Gone(s, n) ==> Gone(Step(s, e).state, n)
  {
    hide Inv, Rest, HandleRequest;
    match e
    case Handle(ConfigurationRequest(m), o) => HandleOtherKeepsDoomed(s, m, o, n);
    case Handle(ProviderRequest(ref), o) => ProviderKeepsDoomed(s, ref, o, n);
    case Fire(_) =>
    case _ =>
      WellFormedOf(s);
      RestKeepsDoomed(s, e, n);
  }

  /** The indexer never forgets a name. */
  lemma StepKeepsIndexed(s: State, e: Event, n: string)
    requires Inv(s) && Enabled(s, e) && Step(s, e).Next? && n in s.indexed
    ensures n in Step(s, e).state.indexed
  {
    hide Inv, Reconcile, ReconcileProvider, RecordInv, LogStep, WellFormed, Alike;
    match e
    case Handle(ConfigurationRequest(m), o) =>
      var s0 := Taken(s, ConfigurationRequest(m));
      TakenStart(s, m);
      var gain := ReconcileEffect(s0, m, o);
      if m != n { OtherLookups(s0, Reconcile(s0, m, o).0, m, n); }
    case Handle(ProviderRequest(ref), o) =>
      ProviderStepIsUnrelated(s, ref, o);
    case _ =>
  }

  /** Convergence. Take a run without REST calls on the name, interleaved as it may be with everything
      else. As long as the record is there, every attempt so far has failed and its request is outstanding;
      once it is gone there has been exactly one attempt more than failures, and nothing is scheduled. */
  lemma {:induction false} Convergence(s: State, run: seq<Event>, n: string)
    requires Inv(s) && Runs(s, run) && forall e <- run :: !RestOn(e, n)
    requires n in s.indexed
    ensures Doomed(s, n) ==>
      var t := End(s, run);
      || (Doomed(t, n) && Attempts(run, n) == Failures(s, run, n))
      || (Gone(t, n) && Attempts(run, n) == Failures(s, run, n) + 1)
    ensures Gone(s, n) ==> Gone(End(s, run), n) && Attempts(run, n) == 0 == Failures(s, run, n)
    decreases |run|
  {
    if run != [] && (Doomed(s, n) || Gone(s, n)) {
      var e, t := run[0], Step(s, run[0]).state;
      StepKeepsInv(s, e);
      StepKeepsIndexed(s, e, n);
      if IsAttempt(e, n) {
        Attempt(s, n, e.oracle);
      } else {
        StepKeepsDoomed(s, e, n);
      }
      hide Inv, HandleRequest, Rest, AttemptFails, Doomed, Gone;
      Convergence(t, run[1..], n);
    }
  }

  // ---------------------------------------------------------------- after the end

  /** A REST call that does not create the name leaves it gone. */
  lemma RestLeavesGone(s: State, e: Event, n: string)
    requires WellFormed(s) && Gone(s, n) && n in s.indexed && !CreatesName(e, n)
    ensures Gone(Rest(s, e), n)
  {
    if RestOn(e, n) {
      assert Rest(s, e) == s;
    } else {
      RestKeepsDoomed(s, e, n);
    }
  }

  lemma StepLeavesGone(s: State, e: Event, n: string)
    requires Inv(s) && Enabled(s, e) && Step(s, e).Next? && Gone(s, n) && n in s.indexed && !CreatesName(e, n)
    ensures Gone(Step(s, e).state, n)
  {
    hide Inv, Rest, HandleRequest, WellFormed;
    match e
    case Handle(ConfigurationRequest(m), o) => HandleOtherKeepsDoomed(s, m, o, n);
    case Handle(ProviderRequest(ref), o) => ProviderKeepsDoomed(s, ref, o, n);
    case Fire(_) =>
    case _ =>
      WellFormedOf(s);
      RestLeavesGone(s, e, n);
  }

  lemma {:induction false} GoneForever(s: State, run: seq<Event>, n: string)
    requires Inv(s) && Runs(s, run) && forall e <- run :: !CreatesName(e, n)
    requires Gone(s, n) && n in s.indexed
    ensures Gone(End(s, run), n)
    decreases |run|
  {
    if run != [] {
      assert run[0] in run;
      StepLeavesGone(s, run[0], n);
      StepKeepsInv(s, run[0]);
      StepKeepsIndexed(s, run[0], n);
      hide Inv, Step, Gone;
      GoneForever(Step(s, run[0]).state, run[1..], n);
    }
  }

  /** The queue entries of n after the reconcile that takes its record away: the one that was delayed stays. */
  lemma RecordTaken(s: State, n: string, o: Oracle)
    requires Inv(s) && n in s.configurations && s.configurations[n].deleting && ConfigurationRequest(n) in s.ready
    requires Reconcile(Taken(s, ConfigurationRequest(n)), n, o).1 == Done(0, false)
    ensures HandleRequest(s, ConfigurationRequest(n), o).Next?
    ensures var t := HandleRequest(s, ConfigurationRequest(n), o).state;
      && Inv(t) && Stale(t, n) && (if ConfigurationRequest(n) in s.delayed then Scheduled(t, n) else Gone(t, n))
  {
    hide Inv, Reconcile, RecordInv, WellFormed, Alike, OthersKept, Live;
    var r := ConfigurationRequest(n);
    TakenStart(s, n);
    MarkedIsBeingDeleted(s, n);
    assert Indexed(Taken(s, r), n) == Indexed(s, n);
    var gain := ReconcileEffect(Taken(s, r), n, o);
    StepKeepsInv(s, Handle(r, o));
  }

  /** The reconcile that takes a record away leaves its request scheduled exactly when it was delayed as well
      as ready, and so it stays, one way or the other, until somebody creates the name again. */
  lemma StaysScheduledExactlyWhen(s: State, n: string, o: Oracle, run: seq<Event>)
    requires Inv(s) && n in s.configurations && s.configurations[n].deleting && ConfigurationRequest(n) in s.ready
    requires Reconcile(Taken(s, ConfigurationRequest(n)), n, o).1 == Done(0, false)
    requires var t := HandleRequest(s, ConfigurationRequest(n), o); t.Next? && Runs(t.state, run)
    requires forall e <- run :: !CreatesName(e, n)
    ensures var t := End(HandleRequest(s, ConfigurationRequest(n), o).state, run);
      n !in t.configurations && (Scheduled(t, n) <==> ConfigurationRequest(n) in s.delayed)
  {
    RecordTaken(s, n, o);
    var t := HandleRequest(s, ConfigurationRequest(n), o).state;
    if ConfigurationRequest(n) in s.delayed {
      hide Inv, Runs, End, HandleRequest, Reconcile, Scheduled;
      StaleForever(t, run, n);
    } else {
      assert n in t.indexed;
      hide Inv, Runs, End, HandleRequest, Reconcile;
      GoneForever(t, run, n);
    }
  }
}
