/** When a merged variable counts as different from what its variable secret records, and what comes of it. */
module Folding {
  import opened Objects
  import opened Render
  import opened Variables
  import opened Lifecycle
  import opened Frames
  import opened Checks
  import opened Secrets
  import opened Deletion
  import opened Crash

  // ---------------------------------------------------------------- texts

  /** The table folds the two characters together. */
  predicate SameLetter(c: char, d: char) {
    || c == d
    || (c in FOLDS && d !in FOLDS && FOLDS[c] == d) || (d in FOLDS && c !in FOLDS && FOLDS[d] == c)
    || (c in FOLDS && d in FOLDS && FOLDS[c] == FOLDS[d])
  }

  /** The texts are equal but for the case of their characters. */
  predicate SameText(a: string, b: string) {
    |a| == |b| && forall i | 0 <= i < |a| :: SameLetter(a[i], b[i])
  }

  lemma EqualFoldExactly(a: string, b: string)
    ensures EqualFold(a, b) <==> SameText(a, b)
  {
  }

  /** Characters without case are only equal to themselves: for texts of such characters, folding changes
      nothing. */
  lemma PlainTexts(a: string, b: string)
    requires forall i | 0 <= i < |a| :: a[i] !in FOLDS
    requires forall i | 0 <= i < |b| :: b[i] !in FOLDS
    ensures EqualFold(a, b) <==> a == b
  {
    EqualFoldExactly(a, b);
    if SameText(a, b) {
      assert forall i | 0 <= i < |a| :: a[i] == b[i];
    }
  }

  /** The case of a character never makes a difference, for a table whose representatives stand for
      themselves. */
  lemma CaseIsIgnored(a: string, i: nat)
    requires forall c <- FOLDS :: FOLDS[c] in FOLDS ==> FOLDS[FOLDS[c]] == FOLDS[c]
    requires i < |a| && a[i] in FOLDS
    ensures EqualFold(a, a[i := FOLDS[a[i]]]) && EqualFold(a[i := FOLDS[a[i]]], a)
  {
  }

  // ---------------------------------------------------------------- the merged variables and the secret

  /** The secret does not record the text under that key. */
  predicate Missing(k: string, text: string, data: map<string, SecretValue>) {
    k in data && data[k].Text? ==> !SameText(text, data[k].s)
  }

  lemma ChangedExactly(variables: map<string, string>, data: map<string, SecretValue>)
    ensures EnvChanged(variables, data) <==> exists k <- variables :: Missing(k, variables[k], data)
  {
    forall k <- variables ensures Missing(k, variables[k], data) <==> !Recorded(k, variables[k], data) {
      if k in data && data[k].Text? { EqualFoldExactly(variables[k], data[k].s); }
    }
    hide EqualFold, SameText, Missing, Recorded;
  }

  /** A reconcile of c gets as far as comparing merged, the merged variables, with data, the variable secret. */
  ghost predicate Compares(s: State, c: Configuration, o: Oracle, merged: map<string, string>, data: map<string, SecretValue>) {
    && Passes(s, c, o) && o.credentials.Credentials?
    && PrepareVariables(c.spec.variable, o.credentials.values) == Some(merged)
    && Ref("default", "variable-" + c.name) in s.secrets && s.secrets[Ref("default", "variable-" + c.name)].data == data
  }

  /** preCheck reports a changed environment exactly when some merged variable is not recorded. */
  lemma ReloadsExactlyWhen(s: State, c: Configuration, o: Oracle, merged: map<string, string>, data: map<string, SecretValue>)
    requires WellFormed(s) && Indexed(s, c.name) == Some(c) && Compares(s, c, o, merged, data)
    ensures var (t, meta, ok) := PreCheck(s, c, o);
      && ok && (meta.envChanged <==> exists k <- merged :: Missing(k, merged[k], data))
      && ((exists k <- merged :: Missing(k, merged[k], data)) ==>
            c.name in t.configurations && t.configurations[c.name].status.apply == ApplyStatus(ConfigurationReloading, map[]))
  {
    hide PreCheck, WellFormed, Indexed, PrepareVariables, EnvChanged, Missing, GetProviderNamespacedName, ValidConfigurationObject;
    assert EnvironmentDiffers(s, c, o) <==> EnvChanged(merged, data) by { hide EnvChanged; }
    EnvChangedExactly(s, c, o);
    ChangedExactly(merged, data);
    PreCheckOutcome(s, c, o);
    hide EnvironmentDiffers, Preparable;
  }

  /** A destroy of a Configuration with such a variable ends in the panic once terraform succeeds. */
  lemma MissingPanics(s: State, n: string, o: Oracle, merged: map<string, string>, data: map<string, SecretValue>, k: string)
    requires BeingDeleted(s, n) && n in s.configurations && !Shadowed(s, n) && o.terraform
    requires var c := Indexed(s, n).value; var ref := GetProviderNamespacedName(c.spec);
      && ref in s.providers && s.providers[ref].state != ProviderIsNotReady && !Special(c.status.apply.state)
      && c.name == n && Compares(s, c, o, merged, data)
    requires k in merged && Missing(k, merged[k], data)
    ensures Reconcile(s, n, o).1.Panicked?
  {
    var c := Indexed(s, n).value;
    hide Reconcile, BeingDeleted, Indexed, PrepareVariables, EnvChanged, Missing, Shadowed, GetProviderNamespacedName,
      ValidConfigurationObject;
    ChangedExactly(merged, data);
    assert EnvironmentDiffers(s, c, o);
    hide EnvironmentDiffers;
    ChangedEnvironmentPanics(s, n, o);
  }
}
