/** The controllers' worker and the REST handlers: every call is one step of the protocol. */
module Server {
  import opened Objects
  import opened Lifecycle
  import opened Protocol
  import opened Safety
  import opened KeyCodec
  import opened Store
  import opened Reconcilers

  class Controller {
    const client: Cache
    const configurations: ConfigurationReconciler
    const providers: ProviderReconciler

    constructor (client: Cache)
      ensures this.client == client && configurations.client == client && providers.client == client
    {
      this.client := client;
      configurations := new ConfigurationReconciler(client);
      providers := new ProviderReconciler(client);
    }

    ghost predicate Wired() {
      configurations.client == client && providers.client == client
    }

    /** processNextWorkItem and reconcileHandler, for the item the queue hands out. */
    method ProcessNextWorkItem(r: Request, o: Oracle) returns (panicked: bool)
      requires Wired() && client.Valid() && r in client.model.ready
      modifies client.Repr()
      ensures client.Valid() && client.Kept()
      ensures HandleRequest(old(client.model), r, o) == if panicked then Crashed else Next(client.model)
    {
      hide Cache.StoredValid, Cache.IndexedValid, Cache.ValuesValid, Cache.QueuesValid, Reconcile, ReconcileProvider;
      client.Take(r);
      var out: Outcome;
      match r {
        case ConfigurationRequest(name) => out := configurations.Reconcile(name, o);
        case ProviderRequest(ref) => out := providers.Reconcile(ref, o);
      }
      panicked := out.Panicked?;
      if !panicked {
        if out.failed {
          client.Retry(r);
        } else if out.requeueAfter > 0 {
          client.Retry(r);
        }
      }
    }
  }

  const OK := 200
  const BAD_REQUEST := 400
  const NOT_FOUND := 404

  method CreateConfiguration(client: Cache, name: string, spec: Spec, status: Status)
    requires client.Valid()
    modifies client.Repr()
    ensures client.Valid() && fresh(client.objects - old(client.objects))
    ensures client.model == Rest(old(client.model), Event.CreateConfiguration(name, spec, status))
  {
    hide Cache.StoredValid, Cache.IndexedValid, Cache.ValuesValid, Cache.QueuesValid, AddConfiguration;
    var configuration := new ConfigurationObject(Body(name, spec, status));
    client.Add(ConfigurationPointer(configuration));
    client.Note(Written(name));
  }

  method UpdateConfiguration(client: Cache, url: string, name: string, spec: Spec, status: Status) returns (code: nat)
    requires client.Valid()
    modifies client.Repr()
    ensures client.Valid() && fresh(client.objects - old(client.objects))
    ensures client.model == Rest(old(client.model), Event.UpdateConfiguration(url, name, spec, status))
    ensures code == if url !in old(client.model).configurations then NOT_FOUND else if url == name then OK else BAD_REQUEST
  {
    hide Cache.StoredValid, Cache.IndexedValid, Cache.ValuesValid, Cache.QueuesValid, AddConfiguration;
    var obj := client.GetByKey(ConfigurationKey(url));
    if obj.None? { return NOT_FOUND; }
    if url != name { return BAD_REQUEST; }
    var configuration := new ConfigurationObject(Body(name, spec, status));
    client.Update(ConfigurationPointer(configuration), true);
    client.Note(Written(name));
    code := OK;
  }

  method DeleteConfiguration(client: Cache, url: string) returns (code: nat)
    requires client.Valid()
    modifies client.Repr()
    ensures client.Valid() && fresh(client.objects - old(client.objects))
    ensures client.model == Rest(old(client.model), Event.DeleteConfiguration(url))
    ensures code == if url !in old(client.model).configurations then NOT_FOUND else OK
  {
    hide Cache.StoredValid, Cache.IndexedValid, Cache.ValuesValid, Cache.QueuesValid, CacheDelete;
    var obj := client.GetByKey(ConfigurationKey(url));
    if obj.None? { return NOT_FOUND; }
    client.Pointers(obj.value.o);
    client.Delete(obj.value);
    code := OK;
  }

  method CreateProvider(client: Cache, ref: Ref, p: Provider)
    requires client.Valid()
    modifies client, client.cacheStorage, client.informerConfig, client.informerConfig.queue,
             client.informerProvider, client.informerProvider.queue
    ensures client.Valid() && client.SamePointers()
    ensures client.model == Rest(old(client.model), Event.CreateProvider(ref, p))
  {
    hide Cache.StoredValid, Cache.IndexedValid, Cache.ValuesValid, Cache.QueuesValid;
    client.Add(ProviderValue(ref, p));
  }

  method UpdateProvider(client: Cache, at: Ref, ref: Ref, p: Provider) returns (code: nat)
    requires client.Valid()
    modifies client, client.cacheStorage, client.informerConfig, client.informerConfig.queue,
             client.informerProvider, client.informerProvider.queue
    ensures client.Valid() && client.SamePointers()
    ensures client.model == Rest(old(client.model), Event.UpdateProvider(at, ref, p))
    ensures code == if at !in old(client.model).providers then NOT_FOUND else if at == ref then OK else BAD_REQUEST
  {
    hide Cache.StoredValid, Cache.IndexedValid, Cache.ValuesValid, Cache.QueuesValid;
    var obj := client.GetByKey(ProviderKey(at));
    if obj.None? { return NOT_FOUND; }
    if at != ref { return BAD_REQUEST; }
    client.Update(ProviderValue(ref, p), true);
    code := OK;
  }

  method DeleteProvider(client: Cache, at: Ref) returns (code: nat)
    requires client.Valid()
    modifies client, client.cacheStorage, client.informerConfig, client.informerConfig.queue,
             client.informerProvider, client.informerProvider.queue
    ensures client.Valid() && client.SamePointers()
    ensures client.model == Rest(old(client.model), Event.DeleteProvider(at))
    ensures code == if at !in old(client.model).providers then NOT_FOUND else OK
  {
    hide Cache.StoredValid, Cache.IndexedValid, Cache.ValuesValid, Cache.QueuesValid;
    var obj := client.GetByKey(ProviderKey(at));
    if obj.None? {
      assert client.model.providers - {at} == client.model.providers;
      return NOT_FOUND;
    }
    client.Delete(obj.value);
    code := OK;
  }

  method CreateSecret(client: Cache, ref: Ref, secret: Secret)
    requires client.Valid()
    modifies client, client.cacheStorage, client.informerConfig, client.informerConfig.queue,
             client.informerProvider, client.informerProvider.queue
    ensures client.Valid() && client.SamePointers()
    ensures client.model == Rest(old(client.model), Event.CreateSecret(ref, secret))
  {
    hide Cache.StoredValid, Cache.IndexedValid, Cache.ValuesValid, Cache.QueuesValid;
    client.Add(SecretValueOf(ref, secret));
  }

  method UpdateSecret(client: Cache, at: Ref, ref: Ref, secret: Secret) returns (code: nat)
    requires client.Valid()
    modifies client, client.cacheStorage, client.informerConfig, client.informerConfig.queue,
             client.informerProvider, client.informerProvider.queue
    ensures client.Valid() && client.SamePointers()
    ensures client.model == Rest(old(client.model), Event.UpdateSecret(at, ref, secret))
    ensures code == if at !in old(client.model).secrets then NOT_FOUND else if at == ref then OK else BAD_REQUEST
  {
    hide Cache.StoredValid, Cache.IndexedValid, Cache.ValuesValid, Cache.QueuesValid;
    var obj := client.GetByKey(SecretKey(at));
    if obj.None? { return NOT_FOUND; }
    if at != ref { return BAD_REQUEST; }
    client.Update(SecretValueOf(ref, secret), false);
    code := OK;
  }

  method DeleteSecretAt(client: Cache, at: Ref) returns (code: nat)
    requires client.Valid()
    modifies client, client.cacheStorage, client.informerConfig, client.informerConfig.queue,
             client.informerProvider, client.informerProvider.queue
    ensures client.Valid() && client.SamePointers()
    ensures client.model == Rest(old(client.model), Event.DeleteSecret(at))
    ensures code == if at !in old(client.model).secrets then NOT_FOUND else OK
  {
    hide Cache.StoredValid, Cache.IndexedValid, Cache.ValuesValid, Cache.QueuesValid;
    var obj := client.GetByKey(SecretKey(at));
    if obj.None? {
      assert client.model.secrets - {at} == client.model.secrets;
      return NOT_FOUND;
    }
    client.Delete(obj.value);
    code := OK;
  }

  // ---------------------------------------------------------------- the whole program

  /** A REST request is routed to its handler. */
  method Serve(client: Cache, e: Event)
    requires client.Valid() && !e.Handle? && !e.Fire?
    modifies client.Repr()
    ensures client.Valid() && fresh(client.objects - old(client.objects))
    ensures client.model == Rest(old(client.model), e)
  {
    hide Cache.StoredValid, Cache.IndexedValid, Cache.ValuesValid, Cache.QueuesValid, Rest;
    var code := OK;
    match e
    case CreateConfiguration(name, spec, status) => CreateConfiguration(client, name, spec, status);
    case UpdateConfiguration(url, name, spec, status) => code := UpdateConfiguration(client, url, name, spec, status);
    case DeleteConfiguration(url) => code := DeleteConfiguration(client, url);
    case CreateProvider(ref, p) => CreateProvider(client, ref, p);
    case UpdateProvider(at, ref, p) => code := UpdateProvider(client, at, ref, p);
    case DeleteProvider(at) => code := DeleteProvider(client, at);
    case CreateSecret(ref, secret) => CreateSecret(client, ref, secret);
    case UpdateSecret(at, ref, secret) => code := UpdateSecret(client, at, ref, secret);
    case DeleteSecret(at) => code := DeleteSecretAt(client, at);
  }

  /** One step of the program, whichever part of it runs, is the step of the protocol. */
  method Advance(controller: Controller, e: Event) returns (panicked: bool)
    requires controller.Wired() && controller.client.Valid() && Enabled(controller.client.model, e)
    modifies controller.client.Repr()
    ensures controller.client.Valid() && fresh(controller.client.objects - old(controller.client.objects))
    ensures Step(old(controller.client.model), e) == if panicked then Crashed else Next(controller.client.model)
  {
    hide Cache.StoredValid, Cache.IndexedValid, Cache.ValuesValid, Cache.QueuesValid, Rest, HandleRequest;
    panicked := false;
    match e
    case Handle(r, o) => panicked := controller.ProcessNextWorkItem(r, o);
    case Fire(r) => controller.client.FireTimer(r);
    case _ => Serve(controller.client, e);
  }

  /** The program from its start in a process with any environment, through any interleaving of REST calls, timers and worker turns it can go
      through: it ends in the state the protocol ends in, and no resources that may exist are forgotten. */
  method Execute(environment: map<string, string>, run: seq<Event>) returns (controller: Controller)
    requires Runs(Initial(environment), run)
    ensures controller.client.Valid() && controller.client.model == End(Initial(environment), run)
    ensures forall n: string :: Live(controller.client.model.log, n) ==> Remembered(controller.client.model, n)
  {
    hide Cache.StoredValid, Cache.IndexedValid, Cache.ValuesValid, Cache.QueuesValid, Step, Enabled, Live, Remembered;
    var client := new Cache(environment);
    controller := new Controller(client);
    for i := 0 to |run|
      invariant controller.Wired() && controller.client == client && client.Valid() && fresh(client.Repr())
      invariant Runs(client.model, run[i..]) && End(client.model, run[i..]) == End(Initial(environment), run)
    {
      assert run[i..][0] == run[i] && run[i..][1..] == run[i + 1..];
      var panicked := Advance(controller, run[i]);
    }
    forall n: string ensures Live(client.model.log, n) ==> Remembered(client.model, n) {
      NothingIsForgotten(environment, run, n);
    }
  }
}
