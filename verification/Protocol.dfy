/** The controller as a transition system. One step is one REST call, one timer of a work queue, or
    one call of reconcileHandler: each controller has a single worker, and REST calls are taken not
    to interleave with a reconcile. */
module Protocol {
  import opened Objects
  import opened Lifecycle

  datatype Event =
    | CreateConfiguration(name: string, spec: Spec, status: Status)
    | UpdateConfiguration(url: string, name: string, spec: Spec, status: Status)
    | DeleteConfiguration(url: string)
    | CreateProvider(ref: Ref, provider: Provider)
    | UpdateProvider(at: Ref, ref: Ref, provider: Provider)
    | DeleteProvider(at: Ref)
    | CreateSecret(ref: Ref, secret: Secret)
    | UpdateSecret(at: Ref, ref: Ref, secret: Secret)
    | DeleteSecret(at: Ref)
    | Fire(request: Request)                   // a delayed entry becomes ready
    | Handle(request: Request, oracle: Oracle) // reconcileHandler

  datatype StepResult = Next(state: State) | Crashed

  /** A request body carries no finalizer and no deletion timestamp. */
  function Body(name: string, spec: Spec, status: Status): Configuration {
    Configuration(name, spec, status, false, false)
  }

  predicate Enabled(s: State, e: Event) {
    match e
    case Fire(r) => r in s.delayed
    case Handle(r, _) => r in s.ready
    case _ => true
  }

  function WriteConfiguration(s: State, c: Configuration): State {
    Logged(AddConfiguration(s, c), Written(c.name))
  }

  /** The effect of the REST handlers; a request for an unknown object or with a body of another name
      changes nothing. */
  function Rest(s: State, e: Event): State {
    match e
    case CreateConfiguration(name, spec, status) => WriteConfiguration(s, Body(name, spec, status))
    case UpdateConfiguration(url, name, spec, status) =>
      if url in s.configurations && url == name then WriteConfiguration(s, Body(name, spec, status)) else s
    case DeleteConfiguration(url) =>
      if url in s.configurations then CacheDelete(s, s.configurations[url]) else s
    case CreateProvider(ref, p) => AddProvider(s, ref, p)
    case UpdateProvider(at, ref, p) =>
      if at in s.providers && at == ref then AddProvider(s, ref, p) else s
    case DeleteProvider(at) => s.(providers := s.providers - {at})
    case CreateSecret(ref, secret) => PutSecret(s, ref, secret)
    case UpdateSecret(at, ref, secret) =>
      if at in s.secrets && at == ref then PutSecret(s, ref, secret) else s
    case DeleteSecret(at) => DropSecret(s, at)
    case _ => s
  }

  function ReconcileRequest(s: State, r: Request, o: Oracle): (State, Outcome) {
    match r
    case ConfigurationRequest(name) => Reconcile(s, name, o)
    case ProviderRequest(ref) => ReconcileProvider(s, ref, o)
  }

  /** reconcileHandler's decision: forget the request, or ask for a retry. */
  predicate Retries(out: Outcome) {
    out.Done? && (out.failed || out.requeueAfter > 0)
  }

  /** The queue after reconcileHandler, from the state after Reconcile. */
  function Requeued(s: State, r: Request, out: Outcome): State {
    if Retries(out) then s.(delayed := s.delayed + {r}, retried := s.retried + 1) else s
  }

  function Taken(s: State, r: Request): State {
    s.(ready := s.ready - {r}, handled := s.handled + 1)
  }

  function HandleRequest(s: State, r: Request, o: Oracle): StepResult {
    var (s1, out) := ReconcileRequest(Taken(s, r), r, o);
    if out.Panicked? then Crashed else Next(Requeued(s1, r, out))
  }

  function Step(s: State, e: Event): StepResult {
    match e
    case Fire(r) => Next(s.(delayed := s.delayed - {r}, ready := s.ready + {r}))
    case Handle(r, o) => HandleRequest(s, r, o)
    case _ => Next(Rest(s, e))
  }

  /** The run of events from s is possible and does not crash; it ends in End(s, run). */
  predicate Runs(s: State, run: seq<Event>)
    decreases |run|
  {
    run == [] ||
    (Enabled(s, run[0]) && Step(s, run[0]).Next? && Runs(Step(s, run[0]).state, run[1..]))
  }

  function End(s: State, run: seq<Event>): State
    requires Runs(s, run)
    decreases |run|
  {
    if run == [] then s else End(Step(s, run[0]).state, run[1..])
  }

  /** Runs can be put one after the other. */
  lemma {:induction false} RunsOn(s: State, first: seq<Event>, more: seq<Event>)
    requires Runs(s, first) && Runs(End(s, first), more)
    ensures Runs(s, first + more) && End(s, first + more) == End(End(s, first), more)
    decreases |first|
  {
    if first == [] {
      assert first + more == more;
    } else {
      var run := first + more;
      assert run[0] == first[0] && run[1..] == first[1..] + more;
      RunsOn(Step(s, first[0]).state, first[1..], more);
      hide Step, Enabled;
    }
  }

  lemma RunsOne(s: State, e: Event)
    requires Enabled(s, e) && Step(s, e).Next?
    ensures Runs(s, [e]) && End(s, [e]) == Step(s, e).state
  {
    hide Step, Enabled;
    assert Runs(Step(s, e).state, []);
    assert [e][1..] == [];
  }
}
