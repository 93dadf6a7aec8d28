/** When a provider is ready, and what that means for the Configurations that refer to it. */
module Readiness {
  import opened Objects
  import opened Lifecycle
  import opened Protocol
  import opened Frames
  import opened Safety
  import opened Checks
  import opened Secrets
  import opened Deletion
  import opened Crash

  predicate KnownCloud(cloud: string) {
    || cloud == "alibaba" || cloud == "aws" || cloud == "gcp" || cloud == "tencent" || cloud == "azure" || cloud == "vsphere"
    || cloud == "ec" || cloud == "ucloud" || cloud == "custom" || cloud == "baidu" || cloud == "hashicups"
  }

  /** The credentials of p can be had: it keeps them in a Secret that is there with the key it names, its cloud
      is known, and decoding what is under the key gives them. */
  predicate CredentialsFound(s: State, p: Provider, o: Oracle) {
    && p.source == "Secret" && p.secretRef in s.secrets && p.secretKey in s.secrets[p.secretRef].data
    && KnownCloud(p.cloud) && !o.credentials.CredentialError?
  }

  /** The lookup fails exactly when they cannot be had, and otherwise gives what decoding gave. */
  lemma LookupExactly(s: State, p: Provider, o: Oracle)
    ensures GetProviderCredentials(s, p, o.credentials) ==
              if CredentialsFound(s, p, o) then o.credentials else CredentialError
  {
  }

  /** The provider after its reconcile: ready exactly when its credentials can be had. */
  function Judged(s: State, p: Provider, o: Oracle): Provider {
    Provider(p.cloud, p.region, p.source, p.secretRef, p.secretKey,
             if CredentialsFound(s, p, o) then ProviderIsReady else ProviderIsNotReady)
  }

  /** The reconcile of a provider writes its readiness, in store and indexer alike, and nothing else; its
      request is retried exactly when the provider is not ready. */
  lemma ProviderHandled(s: State, ref: Ref, o: Oracle)
    requires ProviderRequest(ref) in s.ready
    ensures HandleRequest(s, ProviderRequest(ref), o).Next?
    ensures var t := HandleRequest(s, ProviderRequest(ref), o).state; var r := ProviderRequest(ref);
      if ref in s.indexedProviders then
        var p := s.indexedProviders[ref];
        && t.providers == s.providers[ref := Judged(s, p, o)]
        && t.indexedProviders == s.indexedProviders[ref := Judged(s, p, o)]
        && t.ready == s.ready - {r}
        && t.delayed == (if CredentialsFound(s, p, o) then s.delayed else s.delayed + {r})
        && t.(providers := s.providers, indexedProviders := s.indexedProviders, ready := s.ready, delayed := s.delayed,
              handled := s.handled, retried := s.retried) == s
      else
        t == s.(ready := s.ready - {r}, handled := s.handled + 1)
  {
    hide GetProviderCredentials, KnownCloud;
    var s0 := Taken(s, ProviderRequest(ref));
    if ref in s.indexedProviders {
      LookupExactly(s0, s.indexedProviders[ref], o);
      assert CredentialsFound(s0, s.indexedProviders[ref], o) <==> CredentialsFound(s, s.indexedProviders[ref], o);
      hide CredentialsFound;
    }
  }

  // ---------------------------------------------------------------- deleting directly

  /** The provider c refers to. */
  predicate RefersTo(spec: Spec, ref: Ref) {
    if spec.providerRef.Some? then ref == spec.providerRef.value else ref == Ref("default", "default")
  }

  /** The Configuration n may go without a destroy: its provider is absent or unready, or terraform never got
      past its initialization and preCheck will leave the status that says so. */
  ghost predicate MayGo(s: State, n: string, ref: Ref, o: Oracle)
    requires Indexed(s, n).Some?
  {
    var c := Indexed(s, n).value;
    || ref !in s.providers || s.providers[ref].state == ProviderIsNotReady
    || (c.status.apply.state == TerraformInitError && !StatusOverwritten(s, c, o))
  }

  /** And it must wait: preCheck will leave a status that says terraform is still at work. */
  ghost predicate MustWait(s: State, n: string, ref: Ref, o: Oracle)
    requires Indexed(s, n).Some?
  {
    var c := Indexed(s, n).value;
    && !MayGo(s, n, ref, o)
    && c.status.apply.state == ConfigurationProvisioningAndChecking && !StatusOverwritten(s, c, o)
  }

  lemma DeletableExactly(s: State, n: string, ref: Ref, o: Oracle)
    requires Indexed(s, n).Some? && RefersTo(Indexed(s, n).value.spec, ref)
    ensures var c := Indexed(s, n).value;
      && (DeletableBefore(s, c, o).Directly? <==> MayGo(s, n, ref, o))
      && (DeletableBefore(s, c, o).NotYet? <==> MustWait(s, n, ref, o))
  {
    hide Indexed, StatusOverwritten;
    assert GetProviderNamespacedName(Indexed(s, n).value.spec) == ref;
  }

  /** A destroy reconcile that returns releases the record without a destroy run for one of these reasons
      exactly when there is one. */
  lemma ReleasedDirectlyExactlyWhen(s: State, n: string, ref: Ref, o: Oracle)
    requires BeingDeleted(s, n) && n in s.configurations && RefersTo(Indexed(s, n).value.spec, ref)
    requires Reconcile(s, n, o).1.Done?
    ensures var t := Reconcile(s, n, o).0;
      n !in t.configurations && t.log == s.log + [Released(n, DirectDelete)] <==> MayGo(s, n, ref, o)
  {
    hide Reconcile, DestroyStart, JobOf, DeletableBefore, StatusOverwritten, RefersTo, InputThere, BeingDeleted, MayGo, Shadowed,
      MustWait;
    BeingDeletedThere(s, n);
    DeletableExactly(s, n, ref, o);
    RecordLeavesExactlyWhen(s, n, o);
    var (s1, c1, meta) := DestroyStart(s, n, o);
    var t := Reconcile(s, n, o).0;
    if n !in t.configurations && t.log == s.log + [Released(n, DirectDelete)] {
      LastOf(s.log, Released(n, DirectDelete));
      LastOf(s.log, Released(n, JobShadowed));
      if s1.configMap.Some? { LastOf(s.log, Destroyed(n, JobOf(s1, c1, meta), true)); }
    }
  }

  lemma BeingDeletedThere(s: State, n: string)
    requires BeingDeleted(s, n)
    ensures n in s.indexed && Indexed(s, n).Some? && WellFormed(s)
  {
  }

  lemma LastOf(log: seq<LogEntry>, e: LogEntry)
    ensures (log + [e])[|log|] == e
  {
  }

  /** While terraform is at work a destroy reconcile fails, is to be tried again, and runs nothing. */
  lemma WaitingRunsNothing(s: State, n: string, ref: Ref, o: Oracle)
    requires BeingDeleted(s, n) && n in s.configurations && RefersTo(Indexed(s, n).value.spec, ref)
    requires MustWait(s, n, ref, o)
    ensures Reconcile(s, n, o).1 == Done(3, true)
    ensures var t := Reconcile(s, n, o).0; n in t.configurations && t.log == s.log
  {
    BeingDeletedThere(s, n);
    DestroyStartKeeps(s, n, o);
    DestroyStartKnown(s, n, o);
    hide Reconcile, DestroyStart, DeletableBefore, StatusOverwritten, RefersTo, BeingDeleted, MustWait, IsDeletable;
    DeletableExactly(s, n, ref, o);
    var (s1, c1, meta) := DestroyStart(s, n, o);
    assert ReconcileDestroy(s1, c1, meta, o) == (s1, Done(REQUEUE, true));
    hide ReconcileDestroy;
  }

  /** A provider whose reconcile has just failed: a marked Configuration that refers to it, and asks for no
      connection secret, is released at once, whatever the answers. */
  lemma UnreadyReleases(s: State, ref: Ref, o: Oracle, n: string, p: Oracle)
    requires Inv(s) && ProviderRequest(ref) in s.ready && ref in s.indexedProviders
    requires !CredentialsFound(s, s.indexedProviders[ref], o)
    requires n in s.configurations && s.configurations[n].deleting && ConfigurationRequest(n) in s.ready
    requires n in s.indexed && Indexed(s, n).Some? && RefersTo(Indexed(s, n).value.spec, ref)
    requires ConnectionSecret(Indexed(s, n).value.spec).None?
    ensures HandleRequest(s, ProviderRequest(ref), o).Next?
    ensures var t := HandleRequest(s, ProviderRequest(ref), o).state;
      && ConfigurationRequest(n) in t.ready && HandleRequest(t, ConfigurationRequest(n), p).Next?
      && (var u := HandleRequest(t, ConfigurationRequest(n), p).state;
          n !in u.configurations && u.log == s.log + [Released(n, DirectDelete)])
  {
    hide Inv, ReconcileProvider, Reconcile, CredentialsFound, ConnectionSecret, RefersTo, BeingDeleted, StatusOverwritten,
      DeletableBefore, EnvironmentDiffers, InputThere;
    ProviderHandled(s, ref, o);
    StepKeepsInv(s, Handle(ProviderRequest(ref), o));
    var t := HandleRequest(s, ProviderRequest(ref), o).state;
    MarkedIsBeingDeleted(t, n);
    var t0 := Taken(t, ConfigurationRequest(n));
    assert Indexed(t0, n) == Indexed(s, n);
    hide Indexed;
    DeletableExactly(t0, n, ref, p);
    DestroyOutcome(t0, n, p);
    hide WillPanic, JobWillFail;
    ReleasedDirectlyExactlyWhen(t0, n, ref, p);
  }
}
