/** A Configuration's region, once set, stays. */
module Region {
  import opened Objects
  import opened Lifecycle
  import opened Protocol
  import opened Frames
  import opened Safety
  import opened Aftermath
  import opened Convergence

  /** SetRegion returns the region the store holds afterwards, and writes one only where there is none, into a
      copy: the indexer's object does not change. */
  lemma SetRegionReturnsStored(s: State, n: string, p: Provider)
    requires WellFormed(s)
    ensures var (t, region) := SetRegion(s, n, p);
      if n !in s.configurations then region.None? && t == s
      else
        && n in t.configurations && region == Some(t.configurations[n].spec.region)
        && (s.configurations[n].spec.region != "" ==> t == s)
        && (s.configurations[n].spec.region == "" ==> region == Some(p.region))
        && t.configurations[n] == s.configurations[n].(spec := s.configurations[n].spec.(region := region.value))
        && Indexed(t, n) == Indexed(s, n)
  {
  }

  ghost predicate HasRegion(s: State, n: string, region: string) {
    n in s.configurations && s.configurations[n].spec.region == region
  }

  /** The record was deleted before it got its finalizer; the indexer's object still carries the region. */
  ghost predicate Parked(s: State, n: string, region: string) {
    && n !in s.configurations && n in s.indexed && Indexed(s, n).Some?
    && !Indexed(s, n).value.deleting && Indexed(s, n).value.spec.region == region
  }

  /** Where the region of a name can be, as long as nobody writes the name. */
  ghost predicate RegionKept(s: State, n: string, region: string) {
    HasRegion(s, n, region) || Stale(s, n) || Parked(s, n, region)
  }

  /** A POST or PUT of the name. */
  predicate Writes(e: Event, n: string) {
    match e
    case CreateConfiguration(name, _, _) => name == n
    case UpdateConfiguration(url, name, _, _) => url == n && name == n
    case _ => false
  }

  lemma HandleKeepsRegion(s: State, n: string, o: Oracle, region: string)
    requires Inv(s) && region != "" && ConfigurationRequest(n) in s.ready
    requires HasRegion(s, n, region) || Parked(s, n, region)
    requires HandleRequest(s, ConfigurationRequest(n), o).Next?
    ensures var t := HandleRequest(s, ConfigurationRequest(n), o).state; HasRegion(t, n, region) || Stale(t, n)
  {
    hide Reconcile, Inv, RecordInv, WellFormed, Alike, OthersKept, LogStep;
    var s0 := Taken(s, ConfigurationRequest(n));
    TakenStart(s, n);
    var gain := ReconcileEffect(s0, n, o);
  }

  lemma HandleOtherKeepsRegion(s: State, m: string, o: Oracle, n: string, region: string)
    requires Inv(s) && m != n && ConfigurationRequest(m) in s.ready
    requires HandleRequest(s, ConfigurationRequest(m), o).Next?
    ensures var t := HandleRequest(s, ConfigurationRequest(m), o).state;
      && (HasRegion(s, n, region) ==> HasRegion(t, n, region))
      && (Parked(s, n, region) ==> Parked(t, n, region))
  {
    hide Inv, RecordInv, Reconcile, LogStep, WellFormed, Alike;
    var s0 := Taken(s, ConfigurationRequest(m));
    TakenStart(s, m);
    var gain := ReconcileEffect(s0, m, o);
    OtherLookups(s0, Reconcile(s0, m, o).0, m, n);
  }

  /** DELETE marks the record, or takes it away and leaves the region with the indexer's object. */
  lemma DeleteKeepsRegion(s: State, n: string, region: string)
    requires Inv(s) && HasRegion(s, n, region)
    ensures HasRegion(CacheDelete(s, s.configurations[n]), n, region) || Parked(CacheDelete(s, s.configurations[n]), n, region)
  {
    assert RecordInv(s, n);
    assert s.configurations[n].name == n;
    hide Live, Alike;
  }

  lemma RestKeepsRegion(s: State, e: Event, n: string, region: string)
    requires WellFormed(s) && !RestOn(e, n) && n in s.indexed
    ensures HasRegion(s, n, region) ==> HasRegion(Rest(s, e), n, region)
    ensures Parked(s, n, region) ==> Parked(Rest(s, e), n, region)
  {
    hide Rest, WellFormed;
    RestLeavesName(s, e, n);
    assert n in s.configurations <==> Stored(s, n).Some?;
    assert n in Rest(s, e).configurations <==> Stored(Rest(s, e), n).Some?;
  }

  lemma ProviderKeepsRegion(s: State, ref: Ref, o: Oracle, n: string, region: string)
    requires HandleRequest(s, ProviderRequest(ref), o).Next?
    ensures var t := HandleRequest(s, ProviderRequest(ref), o).state;
      && (HasRegion(s, n, region) ==> HasRegion(t, n, region))
      && (Parked(s, n, region) ==> Parked(t, n, region))
  {
    hide GetProviderCredentials;
  }

  lemma StepKeepsRegion(s: State, e: Event, n: string, region: string)
    requires Inv(s) && Enabled(s, e) && Step(s, e).Next? && !Writes(e, n) && region != ""
    requires RegionKept(s, n, region)
    ensures RegionKept(Step(s, e).state, n, region)
  {
    if Stale(s, n) {
      StepKeepsStale(s, e, n);
    } else {
      assert n in s.indexed by { assert RecordInv(s, n); }
      WellFormedOf(s);
      hide Inv, HandleRequest, Stale, CacheDelete;
      match e
      case Handle(ConfigurationRequest(m), o) =>
        if m == n { HandleKeepsRegion(s, n, o, region); } else { HandleOtherKeepsRegion(s, m, o, n, region); }
      case Handle(ProviderRequest(ref), o) =>
        ProviderKeepsRegion(s, ref, o, n, region);
      case Fire(_) =>
      case DeleteConfiguration(url) =>
        if url == n && n in s.configurations {
          DeleteKeepsRegion(s, n, region);
          hide HasRegion, Parked;
        } else if url != n {
          RestKeepsRegion(s, e, n, region);
          hide Rest;
        }
      case _ =>
        RestKeepsRegion(s, e, n, region);
        hide Rest;
    }
  }

  /** Across any run without a POST or PUT of the Configuration, deletions of it included: whenever it is in
      the store its region is the one it had. The record can go, and a reconcile can put it back. */
  lemma {:induction false} RegionIsSticky(s: State, run: seq<Event>, n: string, region: string)
    requires Inv(s) && Runs(s, run) && forall e <- run :: !Writes(e, n)
    requires region != "" && RegionKept(s, n, region)
    ensures n in End(s, run).configurations ==> HasRegion(End(s, run), n, region)
    decreases |run|
  {
    if run != [] {
      assert run[0] in run;
      StepKeepsRegion(s, run[0], n, region);
      StepKeepsInv(s, run[0]);
      hide Inv, Step, RegionKept;
      RegionIsSticky(Step(s, run[0]).state, run[1..], n, region);
    }
  }
}
