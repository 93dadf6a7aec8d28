/** The store as the program keeps it: Configuration objects on the heap, shared between the store and the
    indexer of the informer. Every method is proved against its specification in Lifecycle. */
module Store {
  import opened Objects
  import opened Lifecycle
  import opened Protocol
  import opened KeyCodec

  /** types.Configuration, of namespace "default". */
  class ConfigurationObject {
    const name: string
    var spec: Spec
    var status: Status
    var finalizer: bool
    var deleting: bool

    constructor (c: Configuration)
      ensures Value() == c
    {
      name, spec, status, finalizer, deleting := c.name, c.spec, c.status, c.finalizer, c.deleting;
    }

    function Value(): Configuration
      reads this
    {
      Configuration(name, spec, status, finalizer, deleting)
    }
  }

  /** What can be put into the store. Providers, secrets and ConfigMaps are never shared with anything whose
      changes could be told apart from those of the store, and are kept as values. */
  datatype Object =
    | ConfigurationPointer(o: ConfigurationObject)
    | ProviderValue(ref: Ref, provider: Provider)
    | SecretValueOf(ref: Ref, secret: Secret)
    | ConfigMapValue(data: map<string, string>)
    | ClusterRoleValue

  /** The keyFunc of the store. */
  function KeyOf(obj: Object): Key {
    match obj
    case ConfigurationPointer(o) => ConfigurationKey(o.name)
    case ProviderValue(ref, _) => ProviderKey(ref)
    case SecretValueOf(ref, _) => SecretKey(ref)
    case ConfigMapValue(_) => ConfigMapKey
    case ClusterRoleValue => ClusterRoleKey
  }

  class ThreadSafeMap {
    var items: map<Key, Object>

    constructor ()
      ensures items == map[]
    {
      items := map[];
    }

    method Add(key: Key, obj: Object)
      modifies this
      ensures items == old(items)[key := obj]
    {
      Update(key, obj);
    }

    method Update(key: Key, obj: Object)
      modifies this
      ensures items == old(items)[key := obj]
    {
      items := items[key := obj];
    }

    method Delete(key: Key)
      modifies this
      ensures items == old(items) - {key}
    {
      if key in items {
        items := items - {key};
      }
    }

    method Get(key: Key) returns (item: Option<Object>)
      ensures item == Lookup(items, key)
    {
      item := if key in items then Some(items[key]) else None;
    }

    /** The objects under the keys, each key once. */
    ghost predicate Listing(keys: seq<Key>, list: seq<Object>)
      reads this
    {
      && |list| == |keys|
      && (forall i, j | 0 <= i < j < |keys| :: keys[i] != keys[j])
      && (forall i | 0 <= i < |keys| :: keys[i] in items && list[i] == items[keys[i]])
    }

    /** Every object once, in some order. */
    method List() returns (list: seq<Object>)
      ensures exists keys :: Listing(keys, list) && forall key <- items :: key in keys
      ensures |list| == |items|
    {
      list := [];
      ghost var keys := [];
      var rest := items.Keys;
      while rest != {}
        invariant rest <= items.Keys && Listing(keys, list) && |keys| + |rest| == |items.Keys|
        invariant forall key <- keys :: key !in rest
        invariant forall key <- items :: key in keys || key in rest
        decreases |rest|
      {
        var key :| key in rest;
        rest := rest - {key};
        list, keys := list + [items[key]], keys + [key];
      }
    }
  }

  /** A rate limiting work queue: entries that are ready and entries that wait for their timer. */
  class WorkQueue {
    var ready: set<Request>
    var delayed: set<Request>

    constructor ()
      ensures ready == {} && delayed == {}
    {
      ready, delayed := {}, {};
    }

    method Add(r: Request)
      modifies this
      ensures ready == old(ready) + {r} && delayed == old(delayed)
    {
      ready := ready + {r};
    }

    method Get(r: Request)
      requires r in ready
      modifies this
      ensures ready == old(ready) - {r} && delayed == old(delayed)
    {
      ready := ready - {r};
    }

    /** AddRateLimited and AddAfter. */
    method AddLater(r: Request)
      modifies this
      ensures ready == old(ready) && delayed == old(delayed) + {r}
    {
      delayed := delayed + {r};
    }

    /** The timer of a delayed entry. */
    method Fire(r: Request)
      requires r in delayed
      modifies this
      ensures ready == old(ready) + {r} && delayed == old(delayed) - {r}
    {
      ready, delayed := ready + {r}, delayed - {r};
    }
  }

  /** The informers: the indexer, and the queue their event handlers fill. InjectWorkerQueue is a library
      call; it is taken to put the object into the indexer and to enqueue its request. */
  class ConfigurationInformer {
    var indexer: map<string, ConfigurationObject>
    const queue: WorkQueue

    constructor ()
      ensures indexer == map[] && fresh(queue) && queue.ready == {} && queue.delayed == {}
    {
      indexer := map[];
      queue := new WorkQueue();
    }

    method InjectWorkerQueue(o: ConfigurationObject)
      modifies this, queue
      ensures indexer == old(indexer)[o.name := o]
      ensures queue.ready == old(queue.ready) + {ConfigurationRequest(o.name)} && queue.delayed == old(queue.delayed)
    {
      indexer := indexer[o.name := o];
      queue.Add(ConfigurationRequest(o.name));
    }
  }

  class ProviderInformer {
    var indexer: map<Ref, Provider>
    const queue: WorkQueue

    constructor ()
      ensures indexer == map[] && fresh(queue) && queue.ready == {} && queue.delayed == {}
    {
      indexer := map[];
      queue := new WorkQueue();
    }

    method InjectWorkerQueue(ref: Ref, p: Provider)
      modifies this, queue
      ensures indexer == old(indexer)[ref := p]
      ensures queue.ready == old(queue.ready) + {ProviderRequest(ref)} && queue.delayed == old(queue.delayed)
    {
      indexer := indexer[ref := p];
      queue.Add(ProviderRequest(ref));
    }
  }

  /** The environment of the process. */
  class Process {
    var environment: map<string, string>

    constructor (environment: map<string, string>)
      ensures this.environment == environment
    {
      this.environment := environment;
    }

    method Setenv(k: string, v: string)
      modifies this
      ensures environment == old(environment)[k := v]
    {
      environment := environment[k := v];
    }
  }

  /** Cache.Add as a step of the specification. */
  ghost function Added(s: State, obj: Object): State
    reads if obj.ConfigurationPointer? then {obj.o} else {}
  {
    match obj
    case ConfigurationPointer(o) => AddConfiguration(s, o.Value())
    case ProviderValue(ref, p) => AddProvider(s, ref, p)
    case SecretValueOf(ref, secret) => PutSecret(s, ref, secret)
    case ConfigMapValue(data) => s.(configMap := Some(data))
    case ClusterRoleValue => s.(clusterRole := true)
  }

  /** An object kept as a value is written to the storage. */
  function Put(s: State, obj: Object): State {
    match obj
    case ConfigurationPointer(_) => s
    case ProviderValue(ref, p) => s.(providers := s.providers[ref := p])
    case SecretValueOf(ref, secret) => PutSecret(s, ref, secret)
    case ConfigMapValue(data) => s.(configMap := Some(data))
    case ClusterRoleValue => s.(clusterRole := true)
  }

  function Removed(s: State, key: Key): State {
    match key
    case ConfigurationKey(_) => s
    case ProviderKey(ref) => s.(providers := s.providers - {ref})
    case SecretKey(ref) => DropSecret(s, ref)
    case ConfigMapKey => s.(configMap := None)
    case ClusterRoleKey => s.(clusterRole := false)
  }

  predicate SameValuesAs(s: State, t: State) {
    && s.providers == t.providers && s.secrets == t.secrets && s.configMap == t.configMap
    && s.clusterRole == t.clusterRole && s.environment == t.environment
  }

  /** Putting an object of the store where it already is changes nothing. */
  lemma UpdateInPlace(s: State, c: Configuration)
    requires Lookup(s.configurations, c.name) == Some(c)
    ensures c.name in s.indexed && s.indexed[c.name].Same? ==> UpdateFromIndexer(s, c.name) == s
    ensures !(c.name in s.indexed && s.indexed[c.name].Same?) ==> UpdateWithCopy(s, c) == s
  {
    assert s.configurations[c.name := c] == s.configurations;
    if c.name in s.indexed && s.indexed[c.name].Same? {
      assert s.indexed[c.name := Same] == s.indexed;
    }
  }

  lemma InjectMutated(s: State, c: Configuration)
    ensures Inject(MutateStored(s, c.name, c), c.name) == AddConfiguration(s, c)
  {
  }

  /** Cache.Update as a step of the specification; indexed says that the indexer holds the object. */
  ghost function Updated(s: State, obj: Object, indexed: bool, reconciliationLoop: bool): State
    reads if obj.ConfigurationPointer? then {obj.o} else {}
  {
    if reconciliationLoop then Added(s, obj)
    else if !obj.ConfigurationPointer? then Put(s, obj)
    else if indexed then UpdateFromIndexer(s, obj.o.name)
    else UpdateWithCopy(s, obj.o.Value())
  }

  class Cache {
    const cacheStorage: ThreadSafeMap
    const informerConfig: ConfigurationInformer
    const informerProvider: ProviderInformer
    const process: Process

    ghost var model: State                       // what all of it amounts to
    ghost var objects: set<ConfigurationObject>  // every Configuration object in use

    constructor (environment: map<string, string>)
      ensures Valid() && model == Initial(environment) && fresh(Repr())
    {
      hide StoredValid, IndexedValid, ValuesValid, QueuesValid;
      cacheStorage := new ThreadSafeMap();
      informerConfig := new ConfigurationInformer();
      informerProvider := new ProviderInformer();
      process := new Process(environment);
      model := Initial(environment);
      objects := {};
      new;
      EmptyRecords(environment);
      EmptyValues(environment);
      EmptyQueues(environment);
    }

    lemma EmptyRecords(environment: map<string, string>)
      requires cacheStorage.items == map[] && informerConfig.indexer == map[] && model == Initial(environment)
      ensures StoredValid(null) && IndexedValid(null)
    {
    }

    lemma EmptyQueues(environment: map<string, string>)
      requires informerConfig.queue != informerProvider.queue && model == Initial(environment)
      requires informerConfig.queue.ready == {} && informerConfig.queue.delayed == {}
      requires informerProvider.queue.ready == {} && informerProvider.queue.delayed == {}
      ensures QueuesValid()
    {
    }

    lemma EmptyValues(environment: map<string, string>)
      requires cacheStorage.items == map[] && informerProvider.indexer == map[]
      requires model == Initial(environment) && process.environment == environment
      ensures ValuesValid()
    {
    }

    ghost function Repr(): set<object>
      reads this
    {
      {this, cacheStorage, informerConfig, informerConfig.queue, informerProvider, informerProvider.queue, process}
      + objects
    }

    /** The store holds the object o. */
    predicate Stores(o: ConfigurationObject)
      reads cacheStorage
    {
      ConfigurationKey(o.name) in cacheStorage.items
      && cacheStorage.items[ConfigurationKey(o.name)] == ConfigurationPointer(o)
    }

    /** The indexer holds the object o. */
    predicate Indexes(o: ConfigurationObject)
      reads informerConfig
    {
      o.name in informerConfig.indexer && informerConfig.indexer[o.name] == o
    }

    ghost predicate StoredValid(but: ConfigurationObject?)
      reads this, cacheStorage, objects
    {
      forall n: string ::
        && (n in model.configurations <==> ConfigurationKey(n) in cacheStorage.items)
        && (n in model.configurations ==>
              var obj := cacheStorage.items[ConfigurationKey(n)];
              && obj.ConfigurationPointer? && obj.o in objects && obj.o.name == n
              && (obj.o != but ==> obj.o.Value() == model.configurations[n]))
    }

    ghost predicate IndexedValid(but: ConfigurationObject?)
      reads this, cacheStorage, informerConfig, objects
    {
      forall n: string ::
        && (n in model.indexed <==> n in informerConfig.indexer)
        && (n in model.indexed ==>
              var o := informerConfig.indexer[n];
              && o in objects && o.name == n
              && (model.indexed[n].Same? <==> Stores(o))
              && (model.indexed[n].Own? && o != but ==> o.Value() == model.indexed[n].configuration))
    }

    ghost predicate ValuesValid()
      reads this, cacheStorage, informerProvider, process
    {
      && (forall ref: Ref ::
            && (ref in model.providers <==> ProviderKey(ref) in cacheStorage.items)
            && (ref in model.providers ==> cacheStorage.items[ProviderKey(ref)] == ProviderValue(ref, model.providers[ref])))
      && (forall ref: Ref ::
            && (ref in model.secrets <==> SecretKey(ref) in cacheStorage.items)
            && (ref in model.secrets ==> cacheStorage.items[SecretKey(ref)] == SecretValueOf(ref, model.secrets[ref])))
      && (model.configMap.Some? <==> ConfigMapKey in cacheStorage.items)
      && (model.configMap.Some? ==> cacheStorage.items[ConfigMapKey] == ConfigMapValue(model.configMap.value))
      && (model.clusterRole <==> ClusterRoleKey in cacheStorage.items)
      && model.indexedProviders == informerProvider.indexer
      && model.environment == process.environment
    }

    ghost predicate QueuesValid()
      reads this, informerConfig.queue, informerProvider.queue
    {
      && informerConfig.queue != informerProvider.queue
      && (forall r <- informerConfig.queue.ready :: r.ConfigurationRequest?)
      && (forall r <- informerConfig.queue.delayed :: r.ConfigurationRequest?)
      && (forall r <- informerProvider.queue.ready :: r.ProviderRequest?)
      && (forall r <- informerProvider.queue.delayed :: r.ProviderRequest?)
      && model.ready == informerConfig.queue.ready + informerProvider.queue.ready
      && model.delayed == informerConfig.queue.delayed + informerProvider.queue.delayed
    }

    /** The heap is the state model, but for the fields of the object but, when there is one. */
    ghost predicate ValidBut(but: ConfigurationObject?)
      reads this, Repr()
    {
      StoredValid(but) && IndexedValid(but) && ValuesValid() && QueuesValid()
    }

    ghost predicate Valid()
      reads this, Repr()
    {
      ValidBut(null)
    }

    /** What the two pointers to a Configuration mean in the model. */
    lemma Pointers(o: ConfigurationObject)
      requires Valid()
      ensures Stores(o) ==> Lookup(model.configurations, o.name) == Some(o.Value())
      ensures Indexes(o) ==> o.name in model.indexed && Indexed(model, o.name) == Some(o.Value())
      ensures Stores(o) ==> (Indexes(o) <==> o.name in model.indexed && model.indexed[o.name].Same?)
      ensures Stores(o) || Indexes(o) ==> o in objects
    {
      hide ValuesValid, QueuesValid;
    }

    lemma IndexedInUse()
      requires Valid()
      ensures forall n <- informerConfig.indexer :: informerConfig.indexer[n] in objects
    {
      hide StoredValid, ValuesValid, QueuesValid;
      forall n <- informerConfig.indexer ensures informerConfig.indexer[n] in objects {
        assert n in model.indexed;
      }
    }

    /** The store and the indexer hold the same Configuration objects as before. */
    twostate predicate SamePointers()
      reads this, cacheStorage, informerConfig
    {
      && objects == old(objects) && informerConfig.indexer == old(informerConfig.indexer)
      && forall n: string :: Lookup(cacheStorage.items, ConfigurationKey(n)) == old(Lookup(cacheStorage.items, ConfigurationKey(n)))
    }

    /** Nothing but Configurations was written. */
    twostate predicate SameValues()
      reads this, cacheStorage, informerProvider, process
    {
      && (forall k: Key | !k.ConfigurationKey? :: Lookup(cacheStorage.items, k) == old(Lookup(cacheStorage.items, k)))
      && model.providers == old(model.providers) && model.secrets == old(model.secrets)
      && model.configMap == old(model.configMap) && model.clusterRole == old(model.clusterRole)
      && model.indexedProviders == old(model.indexedProviders) && model.environment == old(model.environment)
      && informerProvider.indexer == old(informerProvider.indexer) && process.environment == old(process.environment)
    }

    twostate lemma ValuesKept()
      requires old(ValuesValid()) && SameValues()
      ensures ValuesValid()
    {
      forall k: Key | !k.ConfigurationKey?
        ensures k in cacheStorage.items <==> k in old(cacheStorage.items)
        ensures k in cacheStorage.items ==> cacheStorage.items[k] == old(cacheStorage.items)[k]
      {
        assert Lookup(cacheStorage.items, k) == old(Lookup(cacheStorage.items, k));
      }
    }

    twostate lemma QueuesKept()
      requires old(QueuesValid())
      requires model.ready == old(model.ready) && model.delayed == old(model.delayed)
      requires unchanged(informerConfig.queue) && unchanged(informerProvider.queue)
      ensures QueuesValid()
    {
    }

    twostate lemma QueuesInjected(ref: Ref)
      requires old(QueuesValid()) && unchanged(informerConfig.queue)
      requires model.ready == old(model.ready) + {ProviderRequest(ref)} && model.delayed == old(model.delayed)
      requires informerProvider.queue.ready == old(informerProvider.queue.ready) + {ProviderRequest(ref)}
      requires informerProvider.queue.delayed == old(informerProvider.queue.delayed)
      ensures QueuesValid()
    {
    }

    /** The objects in use are as before. */
    twostate predicate SameObjects(was: set<ConfigurationObject>)
      reads was
    {
      forall o <- was :: o.Value() == old(o.Value())
    }

    /** The object o was put into the store. */
    twostate lemma StoredAfterPut(new o: ConfigurationObject)
      requires old(StoredValid(null)) && SameObjects(old(objects))
      requires cacheStorage.items == old(cacheStorage.items)[ConfigurationKey(o.name) := ConfigurationPointer(o)]
      requires model.configurations == old(model.configurations)[o.name := o.Value()]
      requires objects == old(objects) + {o}
      ensures StoredValid(null)
    {
    }

    twostate lemma IndexedAfterPut(new o: ConfigurationObject)
      requires old(StoredValid(null)) && old(IndexedValid(null)) && SameObjects(old(objects))
      requires cacheStorage.items == old(cacheStorage.items)[ConfigurationKey(o.name) := ConfigurationPointer(o)]
      requires informerConfig.indexer == old(informerConfig.indexer)
      requires model.indexed == if Indexes(o) then old(model.indexed)[o.name := Same] else Detached(old(model), o.name)
      requires objects == old(objects) + {o}
      ensures IndexedValid(null)
    {
    }

    /** Assignments to fields of o leave everything else in order. */
    twostate lemma FieldsAssigned(o: ConfigurationObject)
      requires old(Valid())
      requires unchanged(this) && unchanged(cacheStorage) && unchanged(informerConfig) && unchanged(informerConfig.queue)
      requires unchanged(informerProvider) && unchanged(informerProvider.queue) && unchanged(process)
      requires forall p <- objects | p != o :: p.Value() == old(p.Value())
      ensures ValidBut(o)
    {
      StoredBut(o);
      IndexedBut(o);
      hide StoredValid, IndexedValid;
    }

    twostate lemma StoredBut(o: ConfigurationObject)
      requires old(StoredValid(null)) && unchanged(this) && unchanged(cacheStorage)
      requires forall p <- objects | p != o :: p.Value() == old(p.Value())
      ensures StoredValid(o)
    {
    }

    twostate lemma IndexedBut(o: ConfigurationObject)
      requires old(IndexedValid(null)) && unchanged(this) && unchanged(cacheStorage) && unchanged(informerConfig)
      requires forall p <- objects | p != o :: p.Value() == old(p.Value())
      ensures IndexedValid(o)
    {
    }

    /** Fields of an object in use were assigned. */
    ghost method Assigned(o: ConfigurationObject)
      requires ValidBut(o) && (Stores(o) || Indexes(o))
      modifies this`model
      ensures Valid() && AssignedTo(old(model), o)
    {
      if Stores(o) {
        model := MutateStored(model, o.name, o.Value());
      } else {
        model := MutateIndexed(model, o.name, o.Value());
      }
    }

    /** A Configuration is put into the store and injected into the work queue. */
    method StoreAndInject(o: ConfigurationObject)
      requires ValidBut(o)
      modifies this, cacheStorage, informerConfig, informerConfig.queue
      ensures Valid() && model == AddConfiguration(old(model), o.Value()) && objects == old(objects) + {o}
    {
      hide StoredValid, IndexedValid, ValuesValid;
      cacheStorage.Update(ConfigurationKey(o.name), ConfigurationPointer(o));
      informerConfig.InjectWorkerQueue(o);
      objects := objects + {o};
      model := AddConfiguration(model, o.Value());
      StoredInjected(o);
      IndexedInjected(o);
      ValuesKept();
    }

    /** The object o was put into the store and into the indexer. */
    twostate lemma StoredInjected(o: ConfigurationObject)
      requires old(StoredValid(o)) && unchanged(old(objects) + {o}) && objects == old(objects) + {o}
      requires cacheStorage.items == old(cacheStorage.items)[ConfigurationKey(o.name) := ConfigurationPointer(o)]
      requires model.configurations == old(model.configurations)[o.name := o.Value()]
      ensures StoredValid(null)
    {
    }

    twostate lemma IndexedInjected(o: ConfigurationObject)
      requires old(IndexedValid(o)) && unchanged(old(objects) + {o}) && objects == old(objects) + {o}
      requires cacheStorage.items == old(cacheStorage.items)[ConfigurationKey(o.name) := ConfigurationPointer(o)]
      requires informerConfig.indexer == old(informerConfig.indexer)[o.name := o]
      requires model.indexed == old(model.indexed)[o.name := Same]
      ensures IndexedValid(null)
    {
    }

    /** Update(_, false) of a Configuration. */
    method UpdateConfigurationObject(o: ConfigurationObject)
      requires Valid()
      modifies this, cacheStorage
      ensures Valid() && objects == old(objects) + {o}
      ensures model == if Indexes(o) then UpdateFromIndexer(old(model), o.name) else UpdateWithCopy(old(model), o.Value())
      ensures old(Stores(o)) ==> model == old(model) && SamePointers()
    {
      hide StoredValid, IndexedValid, ValuesValid, QueuesValid;
      Pointers(o);
      if Stores(o) { UpdateInPlace(model, o.Value()); }
      cacheStorage.Update(ConfigurationKey(o.name), ConfigurationPointer(o));
      model := if Indexes(o) then UpdateFromIndexer(model, o.name) else UpdateWithCopy(model, o.Value());
      objects := objects + {o};
      StoredAfterPut(o);
      IndexedAfterPut(o);
      ValuesKept();
      QueuesKept();
      PutInPlace(o);
    }

    twostate lemma PutInPlace(new o: ConfigurationObject)
      requires cacheStorage.items == old(cacheStorage.items)[ConfigurationKey(o.name) := ConfigurationPointer(o)]
      requires objects == old(objects) + {o} && informerConfig.indexer == old(informerConfig.indexer)
      ensures old(allocated(o) && Stores(o)) && o in old(objects) ==> SamePointers()
    {
    }

    twostate lemma StoredAfterDrop(name: string)
      requires old(StoredValid(null)) && unchanged(old(objects)) && objects == old(objects)
      requires cacheStorage.items == old(cacheStorage.items) - {ConfigurationKey(name)}
      requires model.configurations == old(model.configurations) - {name}
      ensures StoredValid(null)
    {
    }

    twostate lemma IndexedAfterDrop(name: string)
      requires old(StoredValid(null)) && old(IndexedValid(null)) && unchanged(old(objects)) && objects == old(objects)
      requires cacheStorage.items == old(cacheStorage.items) - {ConfigurationKey(name)}
      requires informerConfig.indexer == old(informerConfig.indexer) && model.indexed == Detached(old(model), name)
      ensures IndexedValid(null)
    {
    }

    /** A Configuration is taken out of the store. */
    method Drop(name: string)
      requires Valid()
      modifies this`model, cacheStorage
      ensures Valid()
      ensures model == old(model).(configurations := old(model).configurations - {name}, indexed := Detached(old(model), name))
    {
      hide StoredValid, IndexedValid, ValuesValid, QueuesValid;
      cacheStorage.Delete(ConfigurationKey(name));
      model := model.(configurations := model.configurations - {name}, indexed := Detached(model, name));
      StoredAfterDrop(name);
      IndexedAfterDrop(name);
      ValuesKept();
      QueuesKept();
    }

    /** Delete of a Configuration: with its finalizer on, it is marked and scheduled instead. */
    method DeleteConfigurationObject(o: ConfigurationObject)
      requires Valid()
      modifies this, cacheStorage, informerConfig, informerConfig.queue, o
      ensures Valid() && model == CacheDelete(old(model), old(o.Value()))
      ensures objects == old(objects) + (if o.finalizer then {o} else {})
      ensures o.Value() == old(o.Value()).(deleting := o.finalizer || old(o.deleting))
      ensures !o.finalizer ==> informerConfig.indexer == old(informerConfig.indexer)
    {
      if o.finalizer {
        o.deleting := true;
        FieldsAssigned(o);
        hide ValidBut;
        StoreAndInject(o);
        InjectMutated(old(model), o.Value());
      } else {
        hide ValidBut;
        Drop(o.name);
      }
    }

    // ----- objects kept as values -----

    /** No Configuration was written. */
    twostate lemma RecordsKept()
      requires old(StoredValid(null)) && old(IndexedValid(null))
      requires SamePointers() && unchanged(objects)
      requires model.configurations == old(model.configurations) && model.indexed == old(model.indexed)
      ensures StoredValid(null) && IndexedValid(null)
    {
      forall n: string
        ensures ConfigurationKey(n) in cacheStorage.items <==> ConfigurationKey(n) in old(cacheStorage.items)
        ensures ConfigurationKey(n) in cacheStorage.items ==>
                  cacheStorage.items[ConfigurationKey(n)] == old(cacheStorage.items)[ConfigurationKey(n)]
      {
        assert Lookup(cacheStorage.items, ConfigurationKey(n)) == old(Lookup(cacheStorage.items, ConfigurationKey(n)));
      }
    }

    twostate lemma ValuesAfterPut(obj: Object)
      requires old(ValuesValid()) && !obj.ConfigurationPointer?
      requires cacheStorage.items == old(cacheStorage.items)[KeyOf(obj) := obj]
      requires SameValuesAs(model, Put(old(model), obj))
      requires model.indexedProviders == informerProvider.indexer && unchanged(process)
      ensures ValuesValid()
    {
    }

    twostate lemma ValuesAfterDrop(key: Key)
      requires old(ValuesValid()) && !key.ConfigurationKey?
      requires cacheStorage.items == old(cacheStorage.items) - {key}
      requires SameValuesAs(model, Removed(old(model), key))
      requires model.indexedProviders == informerProvider.indexer && unchanged(process)
      ensures ValuesValid()
    {
    }

    /** Add, and Update(_, true), of an object kept as a value: a Provider is injected into its work queue. */
    method AddValue(obj: Object)
      requires Valid() && !obj.ConfigurationPointer?
      modifies this`model, cacheStorage, informerProvider, informerProvider.queue
      ensures Valid() && SamePointers() && model == Added(old(model), obj)
    {
      hide StoredValid, IndexedValid;
      assert model.indexedProviders == informerProvider.indexer;
      hide ValuesValid, QueuesValid;
      cacheStorage.Add(KeyOf(obj), obj);
      if obj.ProviderValue? {
        informerProvider.InjectWorkerQueue(obj.ref, obj.provider);
      }
      model := Added(model, obj);
      RecordsKept();
      ValuesAfterPut(obj);
      if obj.ProviderValue? { QueuesInjected(obj.ref); } else { QueuesKept(); }
    }

    /** Update(_, false) of an object kept as a value. */
    method UpdateValue(obj: Object)
      requires Valid() && !obj.ConfigurationPointer?
      modifies this`model, cacheStorage
      ensures Valid() && SamePointers() && model == Put(old(model), obj)
    {
      hide StoredValid, IndexedValid;
      assert model.indexedProviders == informerProvider.indexer;
      hide ValuesValid, QueuesValid;
      cacheStorage.Update(KeyOf(obj), obj);
      model := Put(model, obj);
      RecordsKept();
      ValuesAfterPut(obj);
      QueuesKept();
    }

    method DeleteValue(key: Key)
      requires Valid() && !key.ConfigurationKey?
      modifies this`model, cacheStorage
      ensures Valid() && SamePointers() && model == Removed(old(model), key)
    {
      hide StoredValid, IndexedValid;
      assert model.indexedProviders == informerProvider.indexer;
      hide ValuesValid, QueuesValid;
      cacheStorage.Delete(key);
      model := Removed(model, key);
      RecordsKept();
      ValuesAfterDrop(key);
      QueuesKept();
    }

    // ----- assignments to the fields of an object in use -----

    method SetSpec(o: ConfigurationObject, spec: Spec)
      requires Valid() && (Stores(o) || Indexes(o))
      modifies this`model, o`spec
      ensures Valid() && AssignedTo(old(model), o)
      ensures o.Value() == old(o.Value()).(spec := spec)
    {
      o.spec := spec;
      FieldsAssigned(o);
      hide ValidBut;
      Assigned(o);
    }

    method SetStatus(o: ConfigurationObject, status: Status)
      requires Valid() && (Stores(o) || Indexes(o))
      modifies this`model, o`status
      ensures Valid() && AssignedTo(old(model), o)
      ensures o.Value() == old(o.Value()).(status := status)
    {
      o.status := status;
      FieldsAssigned(o);
      hide ValidBut;
      Assigned(o);
    }

    method AddFinalizer(o: ConfigurationObject)
      requires Valid() && (Stores(o) || Indexes(o))
      modifies this`model, o`finalizer
      ensures Valid() && AssignedTo(old(model), o)
      ensures o.Value() == old(o.Value()).(finalizer := true)
    {
      o.finalizer := true;
      FieldsAssigned(o);
      hide ValidBut;
      Assigned(o);
    }

    /** The model follows the assignment, through whichever pointer it was made. */
    ghost predicate AssignedTo(before: State, o: ConfigurationObject)
      reads this, cacheStorage, informerConfig, o
    {
      && (Stores(o) ==> model == MutateStored(before, o.name, o.Value()))
      && (Indexes(o) ==> model == MutateIndexed(before, o.name, o.Value()))
    }

    // ----- the Store interface -----

    /** What a call leaves alone for those who hold objects: the objects in use stay in use, new ones are
        newly made, and the indexer holds the same objects. */
    twostate predicate Kept()
      reads this, informerConfig
    {
      && old(objects) <= objects && (forall o <- objects :: o in old(objects) || fresh(o))
      && informerConfig.indexer == old(informerConfig.indexer)
    }

    method Add(obj: Object)
      requires Valid()
      modifies this, cacheStorage, informerConfig, informerConfig.queue, informerProvider, informerProvider.queue
      ensures Valid() && model == Added(old(model), obj)
      ensures objects == old(objects) + (if obj.ConfigurationPointer? then {obj.o} else {})
      ensures !obj.ConfigurationPointer? ==> SamePointers()
    {
      if obj.ConfigurationPointer? {
        ValidWithout(obj.o);
        hide ValidBut;
        StoreAndInject(obj.o);
      } else {
        hide ValidBut;
        AddValue(obj);
      }
    }

    lemma ValidWithout(o: ConfigurationObject)
      requires Valid()
      ensures ValidBut(o)
    {
      hide ValuesValid, QueuesValid;
    }

    method Update(obj: Object, reconciliationLoop: bool)
      requires Valid()
      modifies this, cacheStorage, informerConfig, informerConfig.queue, informerProvider, informerProvider.queue
      ensures Valid()
      ensures model == Updated(old(model), obj, obj.ConfigurationPointer? && old(Indexes(obj.o)), reconciliationLoop)
      ensures objects == old(objects) + (if obj.ConfigurationPointer? then {obj.o} else {})
      ensures obj.ConfigurationPointer? && old(Stores(obj.o)) && !reconciliationLoop ==> model == old(model) && SamePointers()
      ensures !obj.ConfigurationPointer? ==> SamePointers()
      ensures !reconciliationLoop ==> informerConfig.indexer == old(informerConfig.indexer)
    {
      if obj.ConfigurationPointer? {
        ValidWithout(obj.o);
        hide ValidBut;
        if reconciliationLoop {
          StoreAndInject(obj.o);
        } else {
          UpdateConfigurationObject(obj.o);
        }
      } else {
        hide ValidBut;
        if reconciliationLoop {
          AddValue(obj);
        } else {
          UpdateValue(obj);
        }
      }
    }

    method Delete(obj: Object)
      requires Valid()
      modifies this, cacheStorage, informerConfig, informerConfig.queue
      modifies if obj.ConfigurationPointer? then {obj.o} else {}
      ensures Valid()
      ensures model == if obj.ConfigurationPointer? then CacheDelete(old(model), old(obj.o.Value()))
                       else Removed(old(model), KeyOf(obj))
      ensures objects == old(objects) + (if obj.ConfigurationPointer? && old(obj.o.finalizer) then {obj.o} else {})
      ensures !obj.ConfigurationPointer? ==> SamePointers()
      ensures obj.ConfigurationPointer? && !old(obj.o.finalizer) ==> informerConfig.indexer == old(informerConfig.indexer)
    {
      hide ValidBut;
      if obj.ConfigurationPointer? {
        DeleteConfigurationObject(obj.o);
      } else {
        DeleteValue(KeyOf(obj));
      }
    }

    /** GetByKey; None when its error is not nil. */
    method GetByKey(key: Key) returns (item: Option<Object>)
      requires Valid()
      ensures Valid() && Finds(key, item)
    {
      item := cacheStorage.Get(key);
    }

    ghost predicate Finds(key: Key, item: Option<Object>)
      reads this, cacheStorage
    {
      match key
      case ConfigurationKey(n) =>
        && (item.Some? <==> n in model.configurations)
        && (item.Some? ==> item.value.ConfigurationPointer? && item.value.o.name == n && Stores(item.value.o))
      case ProviderKey(ref) =>
        item == if ref in model.providers then Some(ProviderValue(ref, model.providers[ref])) else None
      case SecretKey(ref) =>
        item == if ref in model.secrets then Some(SecretValueOf(ref, model.secrets[ref])) else None
      case ConfigMapKey =>
        item == if model.configMap.Some? then Some(ConfigMapValue(model.configMap.value)) else None
      case ClusterRoleKey =>
        item.Some? <==> model.clusterRole
    }

    /** GetByKey of the configuration indexer. */
    method GetIndexed(name: string) returns (item: Option<ConfigurationObject>)
      requires Valid()
      ensures Valid()
      ensures item.None? <==> Indexed(model, name).None?
      ensures item.Some? ==> Indexes(item.value) && item.value.name == name && item.value in objects
                             && Indexed(model, name) == Some(item.value.Value())
    {
      hide ValuesValid, QueuesValid;
      item := if name in informerConfig.indexer then Some(informerConfig.indexer[name]) else None;
    }

    /** GetByKey of the provider indexer. */
    method GetIndexedProvider(ref: Ref) returns (item: Option<Provider>)
      requires Valid()
      ensures Valid() && item == Lookup(model.indexedProviders, ref)
    {
      hide StoredValid, IndexedValid, QueuesValid;
      item := if ref in informerProvider.indexer then Some(informerProvider.indexer[ref]) else None;
    }

    /** Fields of the provider indexer's object are assigned. */
    method SetIndexedProvider(ref: Ref, p: Provider)
      requires Valid()
      modifies this`model, informerProvider
      ensures Valid() && SamePointers()
      ensures model == old(model).(indexedProviders := old(model).indexedProviders[ref := p])
    {
      hide StoredValid, IndexedValid, QueuesValid;
      informerProvider.indexer := informerProvider.indexer[ref := p];
      model := model.(indexedProviders := model.indexedProviders[ref := p]);
      RecordsKept();
      QueuesKept();
    }

    // ----- the work queues -----

    /** Queue.Get. */
    method Take(r: Request)
      requires Valid() && r in model.ready
      modifies this`model, informerConfig.queue, informerProvider.queue
      ensures Valid() && SamePointers() && model == Taken(old(model), r)
    {
      hide StoredValid, IndexedValid, ValuesValid;
      if r.ConfigurationRequest? {
        informerConfig.queue.Get(r);
      } else {
        informerProvider.queue.Get(r);
      }
      model := Taken(model, r);
      RecordsKept();
      ValuesKept();
    }

    /** Queue.AddRateLimited and Queue.AddAfter. */
    method Retry(r: Request)
      requires Valid()
      modifies this`model, informerConfig.queue, informerProvider.queue
      ensures Valid() && SamePointers()
      ensures model == old(model).(delayed := old(model).delayed + {r}, retried := old(model).retried + 1)
    {
      hide StoredValid, IndexedValid, ValuesValid;
      if r.ConfigurationRequest? {
        informerConfig.queue.AddLater(r);
      } else {
        informerProvider.queue.AddLater(r);
      }
      model := model.(delayed := model.delayed + {r}, retried := model.retried + 1);
      RecordsKept();
      ValuesKept();
    }

    /** The timer of a delayed entry fires. */
    method FireTimer(r: Request)
      requires Valid() && r in model.delayed
      modifies this`model, informerConfig.queue, informerProvider.queue
      ensures Valid() && SamePointers()
      ensures model == old(model).(delayed := old(model).delayed - {r}, ready := old(model).ready + {r})
    {
      hide StoredValid, IndexedValid, ValuesValid;
      if r.ConfigurationRequest? {
        informerConfig.queue.Fire(r);
      } else {
        informerProvider.queue.Fire(r);
      }
      model := model.(delayed := model.delayed - {r}, ready := model.ready + {r});
      RecordsKept();
      ValuesKept();
    }

    // ----- the process -----

    /** os.Getenv. */
    method Getenv(k: string) returns (v: string)
      requires Valid()
      ensures v == if k in model.environment then model.environment[k] else ""
    {
      hide StoredValid, IndexedValid, QueuesValid;
      v := if k in process.environment then process.environment[k] else "";
    }

    /** os.Setenv. */
    method Setenv(k: string, v: string)
      requires Valid()
      modifies this`model, process
      ensures Valid() && SamePointers()
      ensures model == old(model).(environment := old(model).environment[k := v])
    {
      hide StoredValid, IndexedValid, QueuesValid;
      process.Setenv(k, v);
      model := model.(environment := model.environment[k := v]);
      RecordsKept();
      QueuesKept();
    }

    /** A terraform run, or the release of a record, is noted. */
    ghost method Note(e: LogEntry)
      requires Valid()
      modifies this`model
      ensures Valid() && model == Logged(old(model), e)
    {
      hide StoredValid, IndexedValid, ValuesValid, QueuesValid;
      model := Logged(model, e);
      RecordsKept();
      ValuesKept();
      QueuesKept();
    }
  }
}
