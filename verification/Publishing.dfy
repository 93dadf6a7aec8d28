/** What an apply reports and publishes, in terms of its state file and of the labels of the connection
    secret. */
module Publishing {
  import opened Objects
  import opened Lifecycle
  import opened Frames
  import opened Safety
  import opened Outputs
  import opened Texts

  /** The secret with these labels names no other owner than n and no other namespace than "default". */
  predicate OpenTo(labels: map<string, string>, n: string) {
    && ("terraform.core.oam.dev/owned-by" in labels ==> labels["terraform.core.oam.dev/owned-by"] in {"", n})
    && ("terraform.core.oam.dev/owned-namespace" in labels ==>
          labels["terraform.core.oam.dev/owned-namespace"] in {"", "default"})
  }

  lemma OpenExactly(labels: map<string, string>, n: string)
    ensures !Foreign(labels, n) <==> OpenTo(labels, n)
  {
  }

  /** Where the connection secret is, of a spec that asks for one. */
  predicate AsksFor(spec: Spec, at: Ref) {
    && spec.connection.Some? && spec.connection.value.name == at.name && at.name != ""
    && at.namespace == (if spec.connection.value.namespace == "" then "default" else spec.connection.value.namespace)
  }

  predicate AsksForNone(spec: Spec) {
    spec.connection.Some? ==> spec.connection.value.name == ""
  }

  lemma AskedExactly(spec: Spec, at: Ref)
    ensures ConnectionSecret(spec) == Some(at) <==> AsksFor(spec, at)
    ensures ConnectionSecret(spec).None? <==> AsksForNone(spec)
  {
  }

  /** The state file can be read and every output has a text. */
  predicate Readable(file: StateFile) {
    file.Parsed? && AllHaveText(file.outputs)
  }

  lemma ReadableExactly(file: StateFile)
    ensures FileOutputs(Gzip(file)).Some? <==> Readable(file)
    ensures Readable(file) ==> AllSay(FileOutputs(Gzip(file)).value, file.outputs)
  {
    if file.Parsed? { ConvertedExactly(file.outputs); }
    hide AllSay, AllHaveText, Interface2String;
  }

  /** The data are exactly the reported outputs, as texts. */
  predicate HoldsTexts(data: map<string, SecretValue>, outputs: map<string, string>) {
    data.Keys == outputs.Keys && forall k <- outputs :: data[k] == Text(outputs[k])
  }

  /** The labels of a new connection secret of n. */
  predicate LabelledBy(labels: map<string, string>, n: string) {
    labels == map["terraform.core.oam.dev/created-by" := "terraform-controller",
                  "terraform.core.oam.dev/owned-by" := n,
                  "terraform.core.oam.dev/owned-namespace" := "default"]
  }

  // ---------------------------------------------------------------- an apply that asks for no connection secret

  /** After an apply without error the Configuration is Available exactly when its state file can be read, and
      then reports the outputs of the file, each with its text; otherwise it reports none. */
  lemma OutputsReported(s: State, n: string, o: Oracle)
    requires WellFormed(s) && RecordInv(s, n) && n in s.indexed && !Indexed(s, n).value.deleting
    requires Reconcile(s, n, o).1 == Done(0, false) && AsksForNone(Indexed(s, n).value.spec)
    ensures o.terraform && o.stateFile.Some?
    ensures var t := Reconcile(s, n, o).0; var file := o.stateFile.value;
      && n in t.configurations
      && (var status := t.configurations[n].status.apply;
          if Readable(file) then status.state == Available && AllSay(status.outputs, file.outputs)
          else status == ApplyStatus(GeneratingOutputs, map[]))
  {
    var spec := Indexed(s, n).value.spec;
    hide Reconcile, RecordInv, WellFormed, Indexed, Foreign, FileOutputs, SameApart, AllSay, Readable, Published;
    AskedExactly(spec, Ref("", ""));
    hide ConnectionSecret, AsksForNone;
    SuccessfulApply(s, n, o);
    ReadableExactly(o.stateFile.value);
    hide StateKept;
  }

  // ---------------------------------------------------------------- an apply that asks for one

  /** Whether the Configuration n may fill the secret. */
  predicate MayFill(secrets: map<Ref, Secret>, at: Ref, n: string) {
    at in secrets ==> OpenTo(secrets[at].labels, n)
  }

  /** The connection secret holds the outputs, with the labels it had, or those of a new one of n. */
  ghost predicate Filled(before: map<Ref, Secret>, after: map<Ref, Secret>, at: Ref, n: string, outputs: map<string, string>) {
    && at in after && HoldsTexts(after[at].data, outputs)
    && (if at in before then after[at].labels == before[at].labels else LabelledBy(after[at].labels, n))
  }

  lemma PublishedFills(secrets: map<Ref, Secret>, t: State, spec: Spec, at: Ref, n: string, outputs: map<string, string>)
    requires ConnectionSecret(spec) == Some(at) && Apart(at, n)
    requires SameApart(Published(secrets, spec, n, outputs), t.secrets, n)
    ensures Filled(secrets, t.secrets, at, n, outputs)
  {
    hide ConnectionSecret;
    assert Lookup(Published(secrets, spec, n, outputs), at) == Lookup(t.secrets, at);
    hide SameApart;
  }

  /** Available with readable outputs that are published at at, or neither reported nor published. */
  ghost predicate Told(before: map<Ref, Secret>, t: State, at: Ref, n: string, file: StateFile) {
    && n in t.configurations
    && (var status := t.configurations[n].status.apply;
        if Readable(file) && MayFill(before, at, n) then
          && status.state == Available && AllSay(status.outputs, file.outputs)
          && Filled(before, t.secrets, at, n, status.outputs)
        else
          && status == ApplyStatus(GeneratingOutputs, map[])
          && Lookup(t.secrets, at) == Lookup(before, at))
  }

  lemma ReportedIsTold(before: map<Ref, Secret>, t: State, spec: Spec, at: Ref, n: string, file: StateFile)
    requires Reported(before, t, spec, n, file) && ConnectionSecret(spec) == Some(at) && Apart(at, n)
    ensures Told(before, t, at, n, file)
  {
    hide ConnectionSecret, Foreign, FileOutputs, AllSay, Readable, Filled, OpenTo, Published;
    ReadableExactly(file);
    if at in before { OpenExactly(before[at].labels, n); }
    if Readable(file) && MayFill(before, at, n) {
      PublishedFills(before, t, spec, at, n, FileOutputs(Gzip(file)).value);
    } else {
      assert Lookup(before, at) == Lookup(t.secrets, at);
    }
    hide SameApart;
  }

  /** With a connection secret that is not one of the two derived from the name: the Configuration is Available
      exactly when its state file can be read and the secret is absent, without owner, or its own, and then the
      secret holds the very outputs the status reports; otherwise the secret is as it was. */
  lemma OutputsPublished(s: State, n: string, o: Oracle, at: Ref)
    requires WellFormed(s) && RecordInv(s, n) && n in s.indexed && !Indexed(s, n).value.deleting
    requires Reconcile(s, n, o).1 == Done(0, false) && AsksFor(Indexed(s, n).value.spec, at)
    requires at.name != "variable-" + n && at.name != "tfstate-default-" + n
    ensures o.terraform && o.stateFile.Some?
    ensures Told(s.secrets, Reconcile(s, n, o).0, at, n, o.stateFile.value)
  {
    var spec := Indexed(s, n).value.spec;
    hide Reconcile, RecordInv, WellFormed, Indexed, Reported, Told, StateKept, ConnectionSecret;
    AskedExactly(spec, at);
    hide AsksFor;
    SuccessfulApply(s, n, o);
    ReportedIsTold(s.secrets, Reconcile(s, n, o).0, spec, at, n, o.stateFile.value);
  }

  // ---------------------------------------------------------------- the state file

  /** After an apply without error the state file is in the secret "tfstate-default-<name>" of the backend
      namespace, under "tfstate". */
  lemma StateStored(s: State, n: string, o: Oracle)
    requires WellFormed(s) && RecordInv(s, n) && n in s.indexed && !Indexed(s, n).value.deleting
    requires Reconcile(s, n, o).1 == Done(0, false)
    requires ConnectionApart(Indexed(s, n).value.spec, n)
    ensures var namespace := if "TERRAFORM_BACKEND_NAMESPACE" in s.environment && s.environment["TERRAFORM_BACKEND_NAMESPACE"] != ""
                             then s.environment["TERRAFORM_BACKEND_NAMESPACE"] else "vela-system";
      var t := Reconcile(s, n, o).0; var at := Ref(namespace, "tfstate-default-" + n);
      o.stateFile.Some? && at in t.secrets && t.secrets[at].data == map["tfstate" := Gzip(o.stateFile.value)]
  {
    hide Reconcile, RecordInv, WellFormed, Indexed, Reported, ConnectionApart;
    SuccessfulApply(s, n, o);
  }

  /** Outputs are read back exactly from a state file that is there and can be read, each with its text. */
  lemma StateReadExactly(s: State, namespace: string, n: string)
    ensures var at := Ref(namespace, "tfstate-default-" + n); var outputs := StateOutputs(s, namespace, n);
      && (outputs.Some? <==>
            at in s.secrets && "tfstate" in s.secrets[at].data && s.secrets[at].data["tfstate"].Gzip?
            && Readable(s.secrets[at].data["tfstate"].file))
      && (outputs.Some? ==> AllSay(outputs.value, s.secrets[at].data["tfstate"].file.outputs))
  {
    hide AllSay, Readable;
    var at := Ref(namespace, "tfstate-default-" + n);
    if at in s.secrets && "tfstate" in s.secrets[at].data && s.secrets[at].data["tfstate"].Gzip? {
      ReadableExactly(s.secrets[at].data["tfstate"].file);
      assert s.secrets[at].data["tfstate"] == Gzip(s.secrets[at].data["tfstate"].file);
      hide FileOutputs;
    }
  }
}
