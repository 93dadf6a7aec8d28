/** The values the controller keeps: the API objects of types/, and the JSON and state-file values
    that reach it through the network and the file system. */
module Objects {

  datatype Option<+T> = None | Some(value: T)

  /** A namespaced name: the crossplane Reference and SecretReference of the source. */
  datatype Ref = Ref(namespace: string, name: string)

  /** A decoded JSON value (the source's interface{}); printed forms of floats and of compound
      values are produced by Go's formatting and are kept as given. */
  datatype Interface =
    | StringValue(s: string)
    | IntValue(i: int)
    | FloatValue(printed: string)
    | BoolValue(b: bool)
    | OtherValue(json: Option<string>)  // None: json.Marshal fails

  /** The raw spec.variable extension: absent, not a JSON object, or a JSON object. */
  datatype RawExtension = Absent | Malformed | Decoded(values: map<string, Interface>)

  /** A terraform state file, as json.Unmarshal reads it. */
  datatype StateFile = Unparsable | Parsed(outputs: map<string, Interface>)

  /** One entry of a Secret: plain text, or a gzip-compressed state file. Compression being an
      inverse pair is built in: Gzip(f) decompresses to exactly f and Text does not decompress. */
  datatype SecretValue = Text(s: string) | Gzip(file: StateFile)

  datatype Secret = Secret(labels: map<string, string>, data: map<string, SecretValue>)

  datatype Backend = Backend(path: string)

  datatype ConfigurationState =
    | Unset
    | Authorizing
    | ConfigurationProviderNotFound
    | ConfigurationProviderNotReady
    | ConfigurationStaticCheckFailed
    | Available
    | ConfigurationProvisioningAndChecking
    | ConfigurationDestroying
    | ConfigurationApplyFailed
    | ConfigurationDestroyFailed
    | ConfigurationReloading
    | GeneratingOutputs
    | InvalidRegion
    | TerraformInitError

  datatype ApplyStatus = ApplyStatus(state: ConfigurationState, outputs: map<string, string>)

  datatype Status = Status(apply: ApplyStatus, destroy: ConfigurationState)

  datatype Spec = Spec(
    hcl: string,
    remote: string,
    variable: RawExtension,
    backend: Option<Backend>,
    connection: Option<Ref>,     // spec.writeConnectionSecretToRef
    providerRef: Option<Ref>,
    region: string)              // spec.customRegion

  /** A Configuration of namespace "default". The finalizer list is either empty or holds exactly the
      controller's finalizer, and only the presence of the deletion timestamp is ever read. */
  datatype Configuration = Configuration(
    name: string,
    spec: Spec,
    status: Status,
    finalizer: bool,
    deleting: bool)

  datatype ProviderState = ProviderUnset | ProviderIsReady | ProviderIsNotReady

  datatype Provider = Provider(
    cloud: string,       // spec.provider
    region: string,
    source: string,      // spec.credentials.source
    secretRef: Ref,
    secretKey: string,
    state: ProviderState)

  const DEFAULT_NAMESPACE := "default"

  /** The provider a Configuration refers to, "default/default" when it names none. */
  function GetProviderNamespacedName(spec: Spec): Ref {
    if spec.providerRef.Some? then spec.providerRef.value else Ref(DEFAULT_NAMESPACE, DEFAULT_NAMESPACE)
  }

  function OnOff(b: bool): string {
    if b then "true" else "false"
  }

  function Itoa(n: int): (s: string)
    decreases if n < 0 then 1 - n else n
  {
    if n < 0 then "-" + Itoa(-n)
    else if n < 10 then ["0123456789"[n]]
    else Itoa(n / 10) + ["0123456789"[n % 10]]
  }

  /** Interface2String; None is its error return. */
  function Interface2String(v: Interface): Option<string> {
    match v
    case StringValue(s) => Some(s)
    case IntValue(i) => Some(Itoa(i))
    case FloatValue(printed) => Some(printed)
    case BoolValue(b) => Some(OnOff(b))
    case OtherValue(json) => json
  }

  ghost predicate Convertible(values: map<string, Interface>) {
    forall k <- values :: Interface2String(values[k]).Some?
  }

  /** Every value converted to its string form. */
  function Converted(values: map<string, Interface>): (r: map<string, string>)
    requires Convertible(values)
    ensures r.Keys == values.Keys
    ensures forall k <- values :: Interface2String(values[k]) == Some(r[k])
  {
    map k | k in values :: Interface2String(values[k]).value
  }
}
