/** The strings objects are kept under and requests are named by. */
module KeyCodec {
  import opened Objects
  import opened Lifecycle

  predicate IsPart(s: string) {
    s != "" && '/' !in s
  }

  /** MetaNamespaceKeyFunc; GetGenerateName of the types of types/ is their kind. */
  function MetaNamespaceKeyFunc(generateName: string, namespace: string, name: string): string {
    if |namespace| > 0 && |generateName| > 0 then generateName + "/" + namespace + "/" + name else name
  }

  /** The keys the controllers and the REST handlers put together themselves. */
  function BuiltKey(kind: string, namespace: string, name: string): string {
    kind + "/" + namespace + "/" + name
  }

  /** The request of an object of namespace/name. */
  function RequestKey(namespace: string, name: string): string {
    namespace + "/" + name
  }

  /** strings.Split(s, "/"). */
  function Split(s: string): (parts: seq<string>)
    ensures |parts| >= 1
    ensures '/' !in s ==> parts == [s]
  {
    if s == "" then [""]
    else
      var rest := Split(s[1..]);
      assert [s[0]] + s[1..] == s;
      if s[0] == '/' then [""] + rest else [[s[0]] + rest[0]] + rest[1..]
  }

  /** The name initTFConfigurationMeta reads off a request. */
  function RequestName(request: string): string {
    var parts := Split(request);
    if |parts| != 2 then "" else parts[1]
  }

  lemma {:induction false} SplitAtSlash(part: string, rest: string)
    requires '/' !in part
    ensures Split(part + "/" + rest) == [part] + Split(rest)
  {
    var s := part + "/" + rest;
    if part == "" {
      assert s[1..] == rest;
    } else {
      assert s[1..] == part[1..] + "/" + rest;
      SplitAtSlash(part[1..], rest);
      assert [s[0]] + part[1..] == part;
    }
  }

  /** Splitting a request inverts joining it, so the name read off a request is the object's. */
  lemma RequestRoundTrip(namespace: string, name: string)
    requires '/' !in namespace && '/' !in name
    ensures Split(RequestKey(namespace, name)) == [namespace, name]
    ensures RequestName(RequestKey(namespace, name)) == name
  {
    SplitAtSlash(namespace, name);
  }

  lemma KeyRoundTrip(kind: string, namespace: string, name: string)
    requires '/' !in kind && '/' !in namespace && '/' !in name
    ensures Split(BuiltKey(kind, namespace, name)) == [kind, namespace, name]
  {
    assert BuiltKey(kind, namespace, name) == kind + "/" + (namespace + "/" + name);
    SplitAtSlash(kind, namespace + "/" + name);
    SplitAtSlash(namespace, name);
  }

  /** Keys are injective in kind, namespace and name. */
  lemma BuiltKeyInjective(k0: string, ns0: string, n0: string, k1: string, ns1: string, n1: string)
    requires '/' !in k0 && '/' !in ns0 && '/' !in n0 && '/' !in k1 && '/' !in ns1 && '/' !in n1
    ensures BuiltKey(k0, ns0, n0) == BuiltKey(k1, ns1, n1) <==> k0 == k1 && ns0 == ns1 && n0 == n1
  {
    KeyRoundTrip(k0, ns0, n0);
    KeyRoundTrip(k1, ns1, n1);
  }

  /** With a slash in a name two objects share a key. */
  lemma SlashesCollide(kind: string, a: string, b: string, c: string)
    ensures BuiltKey(kind, a, b + "/" + c) == BuiltKey(kind, a + "/" + b, c)
  {
    assert kind + "/" + a + "/" + (b + "/" + c) == kind + "/" + (a + "/" + b) + "/" + c;
  }

  /** A key put together by hand finds the object exactly when the object has a kind and a namespace. */
  lemma BuiltKeyFinds(kind: string, namespace: string, name: string)
    ensures MetaNamespaceKeyFunc(kind, namespace, name) == BuiltKey(kind, namespace, name)
            <==> kind != "" && namespace != ""
  {
    assert |BuiltKey(kind, namespace, name)| == |kind| + |namespace| + |name| + 2;
  }

  /** rbacv1.ClusterRole has no generate name: the key createTerraformExecutorClusterRole looks for is never
      the key it stores under, so that every preCheck stores the ClusterRole again. */
  lemma ClusterRoleNeverFound(name: string)
    ensures BuiltKey("ClusterRole", "Default", name) != MetaNamespaceKeyFunc("", "Default", name)
  {
    BuiltKeyFinds("", "Default", name);
    assert |BuiltKey("ClusterRole", "Default", name)| > |name|;
  }

  // ---------------------------------------------------------------- the keys of the model

  /** The keys of the store, by kind. */
  datatype Key =
    | ConfigurationKey(name: string)
    | ProviderKey(ref: Ref)
    | SecretKey(ref: Ref)
    | ConfigMapKey
    | ClusterRoleKey

  const CLUSTER_ROLE_NAME := "default-tf-executor-clusterrole"

  function KeyText(k: Key): string {
    match k
    case ConfigurationKey(name) => BuiltKey("Configuration", DEFAULT_NAMESPACE, name)
    case ProviderKey(ref) => BuiltKey("Provider", ref.namespace, ref.name)
    case SecretKey(ref) => BuiltKey("Secret", ref.namespace, ref.name)
    case ConfigMapKey => BuiltKey("ConfigMap", DEFAULT_NAMESPACE, "tf-Configuration")
    case ClusterRoleKey => MetaNamespaceKeyFunc("", "Default", CLUSTER_ROLE_NAME)
  }

  predicate SlashFree(k: Key) {
    match k
    case ConfigurationKey(name) => IsPart(name)
    case ProviderKey(ref) => IsPart(ref.namespace) && IsPart(ref.name)
    case SecretKey(ref) => IsPart(ref.namespace) && IsPart(ref.name)
    case ConfigMapKey => true
    case ClusterRoleKey => true
  }

  function KeyParts(k: Key): seq<string> {
    match k
    case ConfigurationKey(name) => ["Configuration", DEFAULT_NAMESPACE, name]
    case ProviderKey(ref) => ["Provider", ref.namespace, ref.name]
    case SecretKey(ref) => ["Secret", ref.namespace, ref.name]
    case ConfigMapKey => ["ConfigMap", DEFAULT_NAMESPACE, "tf-Configuration"]
    case ClusterRoleKey => [CLUSTER_ROLE_NAME]
  }

  lemma KeyTextParts(k: Key)
    requires SlashFree(k)
    ensures Split(KeyText(k)) == KeyParts(k)
  {
    if k.ClusterRoleKey? {
      assert '/' !in CLUSTER_ROLE_NAME;
    } else {
      KeyPartsSlashFree(k);
      hide Split, SlashFree;
      KeyRoundTrip(KeyParts(k)[0], KeyParts(k)[1], KeyParts(k)[2]);
    }
  }

  lemma KeyPartsSlashFree(k: Key)
    requires SlashFree(k) && !k.ClusterRoleKey?
    ensures forall i | 0 <= i < 3 :: '/' !in KeyParts(k)[i]
    ensures KeyText(k) == BuiltKey(KeyParts(k)[0], KeyParts(k)[1], KeyParts(k)[2])
  {
  }

  /** Objects of different kinds or names never share a string key: one map per kind loses nothing. */
  lemma KeyTextInjective(j: Key, k: Key)
    requires SlashFree(j) && SlashFree(k)
    ensures KeyText(j) == KeyText(k) <==> j == k
  {
    KeyTextParts(j);
    KeyTextParts(k);
    hide Split, KeyText, SlashFree;
    if KeyText(j) == KeyText(k) {
      KeyPartsInjective(j, k);
    }
  }

  lemma KeyPartsInjective(j: Key, k: Key)
    requires KeyParts(j) == KeyParts(k)
    ensures j == k
  {
    var a, b := KeyParts(j), KeyParts(k);
    assert |a| == |b| && a[0] == b[0];
    if !j.ClusterRoleKey? && !k.ClusterRoleKey? {
      assert a[1] == b[1] && a[2] == b[2];
      assert |a[0]| == |b[0]|;
    }
  }

  /** The secrets derived from two Configurations are different, and the variable secret of one is never
      the backend secret of another, even when the backend namespace is "default" as well. */
  lemma DerivedKeysDisjoint(m: string, n: string, backend: string)
    requires IsPart(m) && IsPart(n) && IsPart(backend)
    ensures KeyText(SecretKey(VariableSecret(m))) == KeyText(SecretKey(VariableSecret(n))) <==> m == n
    ensures KeyText(SecretKey(BackendSecret(backend, m))) == KeyText(SecretKey(BackendSecret(backend, n))) <==> m == n
    ensures KeyText(SecretKey(VariableSecret(m))) != KeyText(SecretKey(BackendSecret(backend, n)))
  {
    KeyTextInjective(SecretKey(VariableSecret(m)), SecretKey(VariableSecret(n)));
    KeyTextInjective(SecretKey(BackendSecret(backend, m)), SecretKey(BackendSecret(backend, n)));
    KeyTextInjective(SecretKey(VariableSecret(m)), SecretKey(BackendSecret(backend, n)));
    assert VariableSecretName(m)[9..] == m && VariableSecretName(n)[9..] == n;
    assert BackendSecretName(m)[16..] == m && BackendSecretName(n)[16..] == n;
    assert VariableSecretName(m)[0] != BackendSecretName(n)[0];
  }
}
