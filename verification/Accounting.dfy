/** No reconcile triggers another one: the work done and outstanding is bounded by what REST calls
    injected and what the handlers asked to retry. */
module Accounting {
  import opened Objects
  import opened Lifecycle
  import opened Protocol
  import opened Frames
  import opened Safety

  /** The writes of a reconcile, of either controller, reach neither work queue. */
  lemma ReconcileNeverInjects(s: State, r: Request, o: Oracle)
    requires WellFormed(s)
    requires r.ConfigurationRequest? ==> RecordInv(s, r.name) && r.name in s.indexed
    ensures SameQueues(s, ReconcileRequest(s, r, o).0)
  {
    match r
    case ProviderRequest(ref) => hide GetProviderCredentials;
    case ConfigurationRequest(n) =>
      var gain := ReconcileEffect(s, n, o);
      hide Reconcile, WellFormed, RecordInv, OthersKept;
  }

  ghost predicate WorkBounded(s: State) {
    s.handled + |s.ready| + |s.delayed| <= s.injected + s.retried
  }

  lemma HandleKeepsWork(s: State, r: Request, o: Oracle)
    requires Inv(s) && WorkBounded(s) && r in s.ready && HandleRequest(s, r, o).Next?
    ensures WorkBounded(HandleRequest(s, r, o).state)
    ensures HandleRequest(s, r, o).state.injected == s.injected
  {
    hide Inv, ReconcileRequest, RecordInv, WellFormed;
    var s0 := Taken(s, r);
    WellFormedOf(s);
    if r.ConfigurationRequest? {
      TakenStart(s, r.name);
    } else {
      TakenWellFormed(s, r);
    }
    ReconcileNeverInjects(s0, r, o);
  }

  lemma TakenWellFormed(s: State, r: Request)
    requires WellFormed(s)
    ensures WellFormed(Taken(s, r))
  {
  }

  lemma RestKeepsWork(s: State, e: Event)
    requires WorkBounded(s)
    ensures WorkBounded(Rest(s, e))
  {
    hide Detached;
    InjectCost(s);
    match e
    case DeleteConfiguration(url) => if url in s.configurations { DeleteCost(s, s.configurations[url]); hide CacheDelete; }
    case _ =>
  }

  lemma InjectCost(s: State)
    ensures forall r: Request :: |s.ready + {r}| <= |s.ready| + 1
  {
    forall r: Request ensures |s.ready + {r}| <= |s.ready| + 1 {
      if r in s.ready {
        assert s.ready + {r} == s.ready;
      }
    }
  }

  lemma DeleteCost(s: State, c: Configuration)
    requires WorkBounded(s)
    ensures WorkBounded(CacheDelete(s, c))
  {
    InjectCost(s);
    hide Detached;
  }

  lemma StepKeepsWork(s: State, e: Event)
    requires Inv(s) && WorkBounded(s) && Enabled(s, e) && Step(s, e).Next?
    ensures WorkBounded(Step(s, e).state)
    ensures e.Handle? || e.Fire? ==> Step(s, e).state.injected == s.injected
  {
    hide Inv, Rest, HandleRequest;
    match e
    case Handle(r, o) => HandleKeepsWork(s, r, o);
    case Fire(r) => InjectCost(s);
    case _ => RestKeepsWork(s, e);
  }

  /** Over any run: handler calls made plus entries outstanding never exceed the injections by REST calls
      plus the retries asked for. */
  lemma {:induction false} WorkAccounting(s: State, run: seq<Event>)
    requires Inv(s) && WorkBounded(s) && Runs(s, run)
    ensures WorkBounded(End(s, run))
    decreases |run|
  {
    if run != [] {
      StepKeepsWork(s, run[0]);
      StepKeepsInv(s, run[0]);
      hide Inv, Step, WorkBounded;
      WorkAccounting(Step(s, run[0]).state, run[1..]);
    }
  }

  predicate IsRest(e: Event) {
    !e.Handle? && !e.Fire?
  }

  /** Without REST calls the handlers run only for what was outstanding and for what they retry, and they
      inject nothing. */
  lemma {:induction false} NoSelfTriggering(s: State, run: seq<Event>)
    requires Inv(s) && WorkBounded(s) && Runs(s, run) && forall e <- run :: !IsRest(e)
    ensures End(s, run).injected == s.injected
    decreases |run|
  {
    if run != [] {
      assert run[0] in run;
      StepKeepsWork(s, run[0]);
      StepKeepsInv(s, run[0]);
      hide Inv, Step, WorkBounded;
      NoSelfTriggering(Step(s, run[0]).state, run[1..]);
    }
  }
}
