/** The environment of a Terraform run: variables merged with provider credentials, and the detection
    of a changed environment. The loops of the program that compute these values are in Reconcilers. */
module Variables {
  import opened Objects

  const TF_VAR := "TF_VAR_"

  /** getTerraformJSONVariable: every variable under its TF_VAR_ name. */
  function Prefixed(values: map<string, Interface>): (r: map<string, Interface>)
    ensures forall k <- values :: TF_VAR + k in r && r[TF_VAR + k] == values[k]
    ensures forall e <- r :: exists k <- values :: e == TF_VAR + k
  {
    map e | e in set k <- values :: TF_VAR + k :: values[e[|TF_VAR|..]]
  }

  /** prepareTFVariables: the converted variables, overridden by the credentials. */
  function Merged(environments: map<string, Interface>, credentials: map<string, string>): map<string, string>
    requires Convertible(environments)
  {
    Converted(environments) + credentials
  }

  /** os.Setenv for every entry that is not empty. */
  function NonEmpty(variables: map<string, string>): map<string, string> {
    map k | k in variables && variables[k] != "" :: variables[k]
  }

  /** The simple case folding of the Unicode standard: a representative for every character that has another
      case. Which table it is does not matter for any result, so it is left open. */
  const FOLDS: map<char, char>

  function FoldChar(c: char): char {
    if c in FOLDS then FOLDS[c] else c
  }

  /** strings.EqualFold. */
  predicate EqualFold(a: string, b: string) {
    |a| == |b| && forall i | 0 <= i < |a| :: FoldChar(a[i]) == FoldChar(b[i])
  }

  /** The entry k of the merged variables is recorded, up to case, in the variable secret. */
  predicate Recorded(k: string, v: string, stored: map<string, SecretValue>) {
    k in stored && stored[k].Text? && EqualFold(v, stored[k].s)
  }

  predicate EnvChanged(variables: map<string, string>, stored: map<string, SecretValue>) {
    exists k <- variables :: !Recorded(k, variables[k], stored)
  }

  function AsSecretData(variables: map<string, string>): map<string, SecretValue> {
    map k | k in variables :: Text(variables[k])
  }

  /** A variable secret that was just written records the environment it was written from. */
  lemma FreshSecretRecordsEnvironment(variables: map<string, string>)
    ensures !EnvChanged(variables, AsSecretData(variables))
  {
    forall k <- variables ensures Recorded(k, variables[k], AsSecretData(variables)) {
      assert AsSecretData(variables)[k] == Text(variables[k]);
    }
  }
}
