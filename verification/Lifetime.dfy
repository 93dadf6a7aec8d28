/** One whole life of a Configuration, from an empty store: the hypotheses of the other results are met. */
module Lifetime {
  import opened Objects
  import opened Render
  import opened Variables
  import opened Lifecycle
  import opened Protocol
  import opened Frames
  import opened Safety
  import opened Checks
  import opened Secrets
  import opened Deletion
  import opened Crash
  import opened RoundTrip

  const NAME := "web"
  const REQUEST := ConfigurationRequest(NAME)
  const SPEC := Spec("resource \"null_resource\" \"web\" {}", "", Absent, None, None, None, "")
  const STATUS := Status(ApplyStatus(Unset, map[]), Unset)
  const CREDENTIALS := Ref("default", "credentials")
  const DEFAULT_REF := Ref("default", "default")
  const PROVIDER := Provider("custom", "eu", "Secret", CREDENTIALS, "key", ProviderUnset)

  /** The YAML document of the entries, one line for each. */
  function Yaml(entries: seq<(string, string)>): string {
    if entries == [] then "" else entries[0].0 + ": " + entries[0].1 + "\n" + Yaml(entries[1..])
  }

  /** What decoding that document as a map of strings gives. */
  function Decode(entries: seq<(string, string)>): map<string, string> {
    if entries == [] then map[] else map[entries[0].0 := entries[0].1] + Decode(entries[1..])
  }

  /** The environment a process starts with, and the credentials a provider of cloud "custom" is given, which
      are just the entries of the document in its secret. */
  datatype Setup = Setup(environment: map<string, string>, entries: seq<(string, string)>) {
    function Start(): State { Initial(environment) }

    function CredentialsSecret(): Secret { Secret(map[], map["key" := Text(Yaml(entries))]) }

    function Credentials(): map<string, string> { Decode(entries) }

    /** Decoding that secret, and a terraform run that succeeds. */
    function Answers(): Oracle {
      Oracle(true, Lifecycle.Credentials(Credentials()), true, Some(Parsed(map[])))
    }

    /** The same secret, and a terraform run that fails. */
    function Failing(): Oracle { Answers().(terraform := false) }

    function Provided(): State {
      AddProvider(PutSecret(Start(), CREDENTIALS, CredentialsSecret()), DEFAULT_REF, PROVIDER)
    }

    function Started(): State {
      WriteConfiguration(Provided(), Body(NAME, SPEC, STATUS))
    }

    /** The run that creates everything. */
    function Creation(): seq<Event> {
      [CreateSecret(CREDENTIALS, CredentialsSecret())]
      + ([CreateProvider(DEFAULT_REF, PROVIDER)] + [CreateConfiguration(NAME, SPEC, STATUS)])
    }

    /** And the one that also applies the Configuration. */
    function Beginning(): seq<Event> {
      Creation() + [Handle(REQUEST, Answers())]
    }

    /** Deleting and destroying it. */
    function Death(): seq<Event> {
      [DeleteConfiguration(NAME)] + [Handle(REQUEST, Answers())]
    }
  }

  function Plain(environment: map<string, string>): Setup {
    Setup(environment, [("KEY", "secret")])
  }

  lemma PlainCredentials(environment: map<string, string>)
    ensures var credentials := Plain(environment).Credentials();
      credentials == map["KEY" := "secret"] && credentials != map[] && BACKEND_NAMESPACE_VARIABLE !in credentials
  {
    assert Decode([]) == map[];
    assert "KEY" in map["KEY" := "secret"];
  }

  lemma CreationRuns(x: Setup)
    ensures Runs(x.Start(), x.Creation()) && End(x.Start(), x.Creation()) == x.Started()
  {
    hide Runs, End, WriteConfiguration, AddProvider, Yaml;
    var s1 := PutSecret(x.Start(), CREDENTIALS, x.CredentialsSecret());
    RunsOne(x.Start(), CreateSecret(CREDENTIALS, x.CredentialsSecret()));
    RunsOne(s1, CreateProvider(DEFAULT_REF, PROVIDER));
    RunsOne(x.Provided(), CreateConfiguration(NAME, SPEC, STATUS));
    RunsOn(s1, [CreateProvider(DEFAULT_REF, PROVIDER)], [CreateConfiguration(NAME, SPEC, STATUS)]);
    RunsOn(x.Start(), [CreateSecret(CREDENTIALS, x.CredentialsSecret())],
           [CreateProvider(DEFAULT_REF, PROVIDER)] + [CreateConfiguration(NAME, SPEC, STATUS)]);
  }

  lemma StartedInv(x: Setup)
    ensures Inv(x.Started())
  {
    hide Inv, Runs, End, Setup.Started;
    CreationRuns(x);
    InitialInv(x.environment);
    RunKeepsInv(x.Start(), x.Creation());
  }

  lemma StartedFacts(x: Setup)
    ensures var s := x.Started();
      && NAME in s.indexed && Indexed(s, NAME) == Some(Body(NAME, SPEC, STATUS))
      && REQUEST in s.ready && DerivedSecrets(s, NAME) !! s.secrets.Keys
      && s.providers == map[DEFAULT_REF := PROVIDER] && s.configurations.Keys == {NAME}
      && s.secrets == map[CREDENTIALS := x.CredentialsSecret()]
      && s.environment == x.environment && s.delayed == {} && VariableSecret(NAME) !in s.secrets
  {
    hide Yaml;
    assert CREDENTIALS.name[0] != VariableSecretName(NAME)[0] && CREDENTIALS.name[0] != BackendSecretName(NAME)[0];
  }

  lemma OnlyCredentials(credentials: map<string, string>)
    requires credentials != map[]
    ensures PrepareVariables(SPEC.variable, credentials) == Some(credentials)
  {
    var none: map<string, Interface> := map[];
    assert Converted(none) + credentials == credentials;
  }

  lemma StartedPreparable(x: Setup)
    requires x.Credentials() != map[]
    ensures Preparable(Taken(x.Started(), REQUEST), SPEC, x.Answers())
  {
    hide Yaml, Decode, PrepareVariables;
    StartedFacts(x);
    OnlyCredentials(x.Credentials());
    hide Setup.Started;
  }

  /** It is applied. */
  lemma Applies(x: Setup)
    requires x.Credentials() != map[]
    ensures var s := Taken(x.Started(), REQUEST);
      && WellFormed(s) && RecordInv(s, NAME) && NAME in s.indexed && Indexed(s, NAME) == Some(Body(NAME, SPEC, STATUS))
      && Reconcile(s, NAME, x.Answers()).1 == Done(0, false)
  {
    hide Inv, RecordInv, WellFormed, Reconcile, Setup.Started, Preparable, Decode, Yaml, DerivedSecrets;
    StartedInv(x);
    StartedFacts(x);
    TakenStart(x.Started(), NAME);
    StartedPreparable(x);
    var s := Taken(x.Started(), REQUEST);
    assert Indexed(s, NAME) == Indexed(x.Started(), NAME);
    ApplySucceedsExactlyWhen(s, NAME, x.Answers());
  }

  function AfterApply(x: Setup): State
    requires HandleRequest(x.Started(), REQUEST, x.Answers()).Next?
  {
    HandleRequest(x.Started(), REQUEST, x.Answers()).state
  }

  /** A record with its finalizer, applied with the credentials of the setup, whose deletion nothing but its
      destroy job can hold up. */
  ghost predicate Settles(a: State, x: Setup) {
    && Inv(a) && NAME in a.configurations && a.configurations[NAME].finalizer && a.configurations[NAME].name == NAME
    && DEFAULT_REF in a.providers && a.providers[DEFAULT_REF] == PROVIDER
    && SettledSpec(a.configurations[NAME])
    && x.Credentials() != map[] && VariableSecret(NAME) in a.secrets
    && a.secrets[VariableSecret(NAME)].data == AsSecretData(x.Credentials())
  }

  ghost predicate SettledSpec(d: Configuration) {
    && !Special(d.status.apply.state)
    && ValidConfigurationObject(d.spec).Some? && ConnectionSecret(d.spec).None?
    && GetProviderNamespacedName(d.spec) == DEFAULT_REF && d.spec.variable == SPEC.variable
  }

  /** What the apply has left. */
  ghost predicate IsNow(a: State, x: Setup) {
    && Settles(a, x) && a.configurations.Keys == {NAME} && REQUEST !in a.ready && REQUEST !in a.delayed
    && a.configMap == Some(InputData(SPEC, ConfigurationHCL))
    && CREDENTIALS in a.secrets && a.secrets[CREDENTIALS] == x.CredentialsSecret()
    && Live(a.log, NAME)
  }

  lemma OneRecord(before: map<string, Configuration>, after: map<string, Configuration>)
    requires before.Keys == {NAME} && NAME in after && after - {NAME} == before - {NAME}
    ensures after.Keys == {NAME}
  {
    assert (before - {NAME}).Keys == {};
    assert after.Keys == (after - {NAME}).Keys + {NAME};
  }

  lemma CredentialsKept(s: State, t: State)
    requires CREDENTIALS in s.secrets && t.secrets - DerivedSecrets(s, NAME) == s.secrets - DerivedSecrets(s, NAME)
    ensures CREDENTIALS in t.secrets && t.secrets[CREDENTIALS] == s.secrets[CREDENTIALS]
  {
    assert CREDENTIALS.name[0] != VariableSecretName(NAME)[0] && CREDENTIALS.name[0] != BackendSecretName(NAME)[0];
    assert CREDENTIALS in s.secrets - DerivedSecrets(s, NAME);
    assert CREDENTIALS in t.secrets - DerivedSecrets(s, NAME);
    hide DerivedSecrets;
  }

  lemma IsApplied(x: Setup)
    requires x.Credentials() != map[]
    ensures HandleRequest(x.Started(), REQUEST, x.Answers()).Next?
    ensures IsNow(AfterApply(x), x)
  {
    hide Inv, RecordInv, WellFormed, Reconcile, Setup.Started, PrepareVariables, AsSecretData, InputData, Indexed, Live,
      DerivedSecrets, BackendNamespace, NamespaceAfter, Decode, Yaml, ConnectionSecret;
    StartedInv(x);
    StartedFacts(x);
    Applies(x);
    assert ValidConfigurationObject(SPEC) == Some(ConfigurationHCL);
    assert GetProviderNamespacedName(SPEC) == DEFAULT_REF;
    NoConnectionSecret();
    AppliedAfterwards(x.Started(), NAME, x.Answers());
    OneRecord(x.Started().configurations, AfterApply(x).configurations);
    OnlyCredentials(x.Credentials());
    CredentialsKept(x.Started(), AfterApply(x));
    hide ValidConfigurationObject, GetProviderNamespacedName;
  }

  lemma NoConnectionSecret()
    ensures ConnectionSecret(SPEC).None?
  {
  }

  lemma BeginningRuns(x: Setup)
    requires x.Credentials() != map[]
    ensures HandleRequest(x.Started(), REQUEST, x.Answers()).Next?
    ensures Runs(x.Start(), x.Beginning()) && End(x.Start(), x.Beginning()) == AfterApply(x)
  {
    hide HandleRequest, IsNow, Setup.Creation, Setup.Started, Runs, End, Decode, Yaml, DerivedSecrets;
    CreationRuns(x);
    StartedFacts(x);
    IsApplied(x);
    RunsOne(x.Started(), Handle(REQUEST, x.Answers()));
    RunsOn(x.Start(), x.Creation(), [Handle(REQUEST, x.Answers())]);
  }

  // ---------------------------------------------------------------- deletion

  /** With the credentials of the apply, the merged variables are those of the variable secret. */
  lemma SameEnvironment(s: State, x: Setup, c: Configuration, o: Oracle)
    requires SettledSpec(c) && c.name == NAME && o.credentials == Lifecycle.Credentials(x.Credentials())
    requires x.Credentials() != map[] && VariableSecret(NAME) in s.secrets
    requires s.secrets[VariableSecret(NAME)].data == AsSecretData(x.Credentials())
    ensures !EnvironmentDiffers(s, c, o)
  {
    hide PrepareVariables, EnvChanged, AsSecretData, ValidConfigurationObject, GetProviderNamespacedName, ConnectionSecret,
      Decode, Yaml;
    OnlyCredentials(x.Credentials());
    FreshSecretRecordsEnvironment(x.Credentials());
  }

  lemma MarkedRecord(a: State, n: string)
    requires n in a.configurations && a.configurations[n].name == n && a.configurations[n].finalizer
    ensures var b := CacheDelete(a, a.configurations[n]);
      && n in b.configurations && b.configurations[n] == a.configurations[n].(deleting := true)
      && ConfigurationRequest(n) in b.ready && Indexed(b, n) == Some(b.configurations[n])
      && b.configurations - {n} == a.configurations - {n}
      && b.secrets == a.secrets && b.providers == a.providers && b.configMap == a.configMap && b.log == a.log
      && b.environment == a.environment && b.delayed == a.delayed
  {
  }

  /** The marked record as its reconcile finds it. */
  lemma Marked(a: State, x: Setup, o: Oracle)
    requires Settles(a, x) && o.credentials == Lifecycle.Credentials(x.Credentials())
    ensures var b := CacheDelete(a, a.configurations[NAME]); var s := Taken(b, REQUEST);
      && Inv(b) && NAME in b.configurations && REQUEST in b.ready && BeingDeleted(s, NAME) && NAME in s.configurations
      && b.configurations[NAME] == a.configurations[NAME].(deleting := true)
      && Indexed(s, NAME) == Some(b.configurations[NAME])
      && b.configurations - {NAME} == a.configurations - {NAME}
      && b.secrets == a.secrets && b.providers == a.providers && b.configMap == a.configMap && b.log == a.log
      && b.environment == a.environment && b.delayed == a.delayed
      && (var c := b.configurations[NAME];
          && DeletableBefore(s, c, o).AfterDestroy? && !EnvironmentDiffers(s, c, o)
          && !ConnectionWillBeThere(s, c, o) && (o.quantities ==> InputThere(s, c, o)))
  {
    hide Inv, CacheDelete, BeingDeleted, PrepareVariables, EnvChanged, ConnectionSecret, StateOutputs, AsSecretData,
      ValidConfigurationObject, GetProviderNamespacedName, Decode, Yaml, EnvironmentDiffers, StatusOverwritten;
    var b := CacheDelete(a, a.configurations[NAME]);
    DeleteKeepsInv(a, NAME);
    MarkedRecord(a, NAME);
    MarkedIsBeingDeleted(b, NAME);
    var s := Taken(b, REQUEST);
    assert Indexed(s, NAME) == Some(b.configurations[NAME]) && NAME in s.configurations;
    hide Indexed;
    SameEnvironment(s, x, b.configurations[NAME], o);
  }

  /** It is deleted: no type assertion is met, and the destroy succeeds. */
  lemma Dies(a: State, x: Setup)
    requires Settles(a, x)
    ensures Reconcile(Taken(CacheDelete(a, a.configurations[NAME]), REQUEST), NAME, x.Answers()).1 == Done(0, false)
  {
    hide Inv, CacheDelete, BeingDeleted, DeletableBefore, EnvironmentDiffers, ConnectionWillBeThere, InputThere, Reconcile,
      SettledSpec, Decode, Yaml, AsSecretData;
    Marked(a, x, x.Answers());
    DestroyOutcome(Taken(CacheDelete(a, a.configurations[NAME]), REQUEST), NAME, x.Answers());
  }

  lemma DeathRuns(a: State, x: Setup)
    requires Settles(a, x)
    ensures var b := CacheDelete(a, a.configurations[NAME]);
      && HandleRequest(b, REQUEST, x.Answers()).Next?
      && Runs(a, x.Death()) && End(a, x.Death()) == HandleRequest(b, REQUEST, x.Answers()).state
  {
    hide Inv, CacheDelete, Reconcile, BeingDeleted, Runs, End, DeletableBefore, EnvironmentDiffers, ConnectionWillBeThere,
      SettledSpec, Decode, Yaml, AsSecretData;
    Dies(a, x);
    Marked(a, x, x.Answers());
    var b := CacheDelete(a, a.configurations[NAME]);
    assert Step(a, DeleteConfiguration(NAME)) == Next(b);
    assert HandleRequest(b, REQUEST, x.Answers()).Next?;
    hide HandleRequest;
    RunsOne(a, DeleteConfiguration(NAME));
    RunsOne(b, Handle(REQUEST, x.Answers()));
    RunsOn(a, [DeleteConfiguration(NAME)], [Handle(REQUEST, x.Answers())]);
  }

  /** From an empty store and back, in a process with any environment: credentials, a provider and a
      Configuration are created, it is applied, deleted and destroyed with the same credentials. Its record and
      the input ConfigMap are gone, and the credentials are the only secret left. */
  lemma WholeLife(environment: map<string, string>)
    ensures var x := Plain(environment);
      && Runs(x.Start(), x.Beginning() + x.Death())
      && (var t := End(x.Start(), x.Beginning() + x.Death());
          t.configurations == map[] && t.configMap == None && t.secrets == map[CREDENTIALS := x.CredentialsSecret()])
  {
    hide Inv, Reconcile, Setup.Started, CacheDelete, BackendNamespace, Runs, End, Setup.Beginning, Settles, HandleRequest,
      Setup.Death, RecordInv, WellFormed, DerivedSecrets, Indexed, Decode, Yaml, InputData, Live, ConnectionSecret;
    var x := Plain(environment);
    PlainCredentials(environment);
    StartedInv(x);
    StartedFacts(x);
    NoConnectionSecret();
    Applies(x);
    IsApplied(x);
    BeginningRuns(x);
    var a := AfterApply(x);
    Dies(a, x);
    DeathRuns(a, x);
    SameNamed(x);
    ApplyHandled(x.Started(), NAME, x.Answers());
    ApplyThenDeleteRestores(x.Started(), NAME, x.Answers(), x.Answers());
    RunsOn(x.Start(), x.Beginning(), x.Death());
    assert x.Started().configurations - {NAME} == map[];
  }

  lemma SameNamed(x: Setup)
    ensures Indexed(Taken(x.Started(), REQUEST), NAME) == Indexed(x.Started(), NAME)
  {
    hide Yaml;
  }
}
