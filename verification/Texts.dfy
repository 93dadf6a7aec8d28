/** What terraform is given for the variables of a Configuration: which text stands for which value, in which
    map it ends up, and which texts count as the same. None of it mentions the functions that compute it. */
module Texts {
  import opened Objects
  import opened Variables
  import opened Lifecycle
  import opened Protocol
  import opened Frames
  import opened History
  import opened Checks

  // ---------------------------------------------------------------- numbers

  predicate IsDigits(s: string) {
    s != "" && forall i | 0 <= i < |s| :: '0' <= s[i] <= '9'
  }

  /** Reading a number in decimal. */
  function ReadNat(s: string): nat
    requires IsDigits(s)
  {
    var last := s[|s| - 1] as int - '0' as int;
    if |s| == 1 then last else 10 * ReadNat(s[..|s| - 1]) + last
  }

  /** The decimal form of i: only digits after a minus sign if there is one, no leading zero, and reading it
      gives i back. */
  predicate Decimal(s: string, i: int) {
    if i < 0 then
      s != "" && s[0] == '-' && IsDigits(s[1..]) && s[1] != '0' && ReadNat(s[1..]) == -i
    else
      IsDigits(s) && (s[0] == '0' ==> |s| == 1) && ReadNat(s) == i
  }

  lemma DigitReads(d: nat)
    requires d < 10
    ensures IsDigits(["0123456789"[d]]) && ReadNat(["0123456789"[d]]) == d && ("0123456789"[d] == '0' <==> d == 0)
  {
    assert d == 0 || d == 1 || d == 2 || d == 3 || d == 4 || d == 5 || d == 6 || d == 7 || d == 8 || d == 9;
  }

  lemma {:induction false} ItoaReads(n: nat)
    ensures Decimal(Itoa(n), n)
  {
    if n < 10 {
      DigitReads(n);
    } else {
      ItoaReads(n / 10);
      DigitReads(n % 10);
      var head, last := Itoa(n / 10), ["0123456789"[n % 10]];
      var s := head + last;
      assert s[..|s| - 1] == head && s[|s| - 1] == last[0];
      assert n / 10 > 0;
    }
  }

  lemma ItoaIsDecimal(i: int)
    ensures Decimal(Itoa(i), i)
  {
    if i < 0 {
      ItoaReads(-i);
      var s := Itoa(-i);
      assert Itoa(i) == "-" + s && ("-" + s)[1..] == s;
    } else {
      ItoaReads(i);
    }
  }

  /** Two decimal forms of a number are the same text. */
  lemma {:induction false} DigitsUnique(a: string, b: string)
    requires IsDigits(a) && IsDigits(b) && ReadNat(a) == ReadNat(b)
    requires (a[0] == '0' ==> |a| == 1) && (b[0] == '0' ==> |b| == 1)
    ensures a == b
    decreases |a|
  {
    var x, y := a[..|a| - 1], b[..|b| - 1];
    if |a| > 1 { Positive(x); }
    if |b| > 1 { Positive(y); }
    if |a| > 1 && |b| > 1 {
      assert ReadNat(a) == 10 * ReadNat(x) + (a[|a| - 1] as int - '0' as int);
      assert ReadNat(b) == 10 * ReadNat(y) + (b[|b| - 1] as int - '0' as int);
      DigitsUnique(x, y);
      assert a == x + [a[|a| - 1]] && b == y + [b[|b| - 1]];
    }
  }

  lemma {:induction false} Positive(s: string)
    requires IsDigits(s) && s[0] != '0'
    ensures ReadNat(s) > 0
    decreases |s|
  {
    if |s| > 1 { Positive(s[..|s| - 1]); }
  }

  // ---------------------------------------------------------------- values

  /** All values but those JSON cannot encode have a text. */
  predicate HasText(v: Interface) {
    v.OtherValue? ==> v.json.Some?
  }

  /** text is what terraform must be given for v: a string unchanged, a number in decimal, a boolean as "true"
      or "false", and anything else as it is printed. */
  predicate Says(text: string, v: Interface) {
    match v
    case StringValue(s) => text == s
    case IntValue(i) => Decimal(text, i)
    case FloatValue(printed) => text == printed
    case BoolValue(b) => (text == "true" && b) || (text == "false" && !b)
    case OtherValue(json) => json == Some(text)
  }

  /** Conversion gives the one text that says the value, and fails only where there is none. */
  lemma ConversionExactly(v: Interface, text: string)
    ensures Interface2String(v) == Some(text) <==> Says(text, v)
    ensures Interface2String(v).Some? <==> HasText(v)
  {
    if v.IntValue? {
      ItoaIsDecimal(v.i);
      if Decimal(text, v.i) {
        var s := Itoa(v.i);
        if v.i < 0 {
          DigitsUnique(s[1..], text[1..]);
          assert s == [s[0]] + s[1..] && text == [text[0]] + text[1..];
        } else {
          DigitsUnique(s, text);
        }
      }
    }
  }

  /** The texts say the values, key by key. */
  predicate AllSay(texts: map<string, string>, values: map<string, Interface>) {
    texts.Keys == values.Keys && forall k <- values :: Says(texts[k], values[k])
  }

  predicate AllHaveText(values: map<string, Interface>) {
    forall k <- values :: HasText(values[k])
  }

  lemma ConvertedExactly(values: map<string, Interface>)
    ensures Convertible(values) <==> AllHaveText(values)
    ensures Convertible(values) ==> AllSay(Converted(values), values)
  {
    hide Interface2String;
    forall k <- values ensures Interface2String(values[k]).Some? <==> HasText(values[k]) {
      ConversionExactly(values[k], "");
    }
    if Convertible(values) {
      forall k <- values ensures Says(Converted(values)[k], values[k]) {
        ConversionExactly(values[k], Converted(values)[k]);
      }
    }
    hide Says, HasText;
  }

  // ---------------------------------------------------------------- the merged variables

  /** The variables of raw under "TF_VAR_" and their names, unless a credential has that name, and the
      credentials; nothing else. */
  ghost predicate IsMerged(merged: map<string, string>, raw: RawExtension, credentials: map<string, string>) {
    && !raw.Malformed? && merged != map[]
    && (forall k <- credentials :: k in merged && merged[k] == credentials[k])
    && (raw.Decoded? ==> forall k <- raw.values | "TF_VAR_" + k !in credentials ::
          "TF_VAR_" + k in merged && Says(merged["TF_VAR_" + k], raw.values[k]))
    && (forall e <- merged :: e in credentials || (raw.Decoded? && exists k <- raw.values :: e == "TF_VAR_" + k))
  }

  lemma PrefixedHaveText(values: map<string, Interface>)
    ensures AllHaveText(Prefixed(values)) <==> AllHaveText(values)
    ensures Prefixed(values) == map[] <==> values == map[]
  {
    var prefixed := Prefixed(values);
    forall k <- values ensures TF_VAR + k in prefixed && prefixed[TF_VAR + k] == values[k] {
    }
    if AllHaveText(values) {
      forall e <- prefixed ensures HasText(prefixed[e]) {
        var k :| k in values && e == TF_VAR + k;
        assert prefixed[TF_VAR + k] == values[k];
      }
    }
    if AllHaveText(prefixed) {
      forall k <- values ensures HasText(values[k]) { assert HasText(prefixed[TF_VAR + k]); }
    }
    if values != map[] {
      var k :| k in values;
      assert TF_VAR + k in prefixed;
    }
    if prefixed != map[] {
      var e :| e in prefixed;
      var k :| k in values && e == TF_VAR + k;
    }
  }

  /** Merging fails exactly for variables that are malformed or have a value without text, and when there is
      nothing to merge. Otherwise it gives the variables and the credentials, each with the right text. */
  lemma MergedExactly(raw: RawExtension, credentials: map<string, string>)
    ensures PrepareVariables(raw, credentials).Some? <==>
              && !raw.Malformed? && (raw.Decoded? ==> AllHaveText(raw.values))
              && (credentials != map[] || (raw.Decoded? && raw.values != map[]))
    ensures PrepareVariables(raw, credentials).Some? ==>
              IsMerged(PrepareVariables(raw, credentials).value, raw, credentials)
  {
    var environments := if raw.Decoded? then Prefixed(raw.values) else map[];
    if raw.Decoded? { PrefixedHaveText(raw.values); }
    ConvertedExactly(environments);
    hide AllHaveText, Prefixed, Interface2String;
    if PrepareVariables(raw, credentials).Some? {
      MergedSay(raw, credentials, environments);
    }
    hide Converted;
  }

  lemma MergedSay(raw: RawExtension, credentials: map<string, string>, environments: map<string, Interface>)
    requires !raw.Malformed? && environments == if raw.Decoded? then Prefixed(raw.values) else map[]
    requires Convertible(environments) && AllSay(Converted(environments), environments)
    requires environments != map[] || credentials != map[]
    ensures IsMerged(Converted(environments) + credentials, raw, credentials)
  {
    hide Interface2String, Says, Convertible, Prefixed;
    var merged := Converted(environments) + credentials;
    if credentials != map[] {
      var k :| k in credentials;
      assert k in merged;
    } else {
      var k :| k in environments;
      assert k in merged;
    }
  }

  // ---------------------------------------------------------------- every apply of every run

  /** What terraform sees at every apply of every run: the variables of its Configuration merged with its
      credentials, and all that are not empty in the process environment. */
  lemma TerraformReceives(environment: map<string, string>, run: seq<Event>, i: nat)
    requires Runs(Initial(environment), run) && i < |End(Initial(environment), run).log|
    ensures var e := End(Initial(environment), run).log[i];
      e.Applied? ==>
        && e.job.stored.Some? && e.job.credentials.Some?
        && IsMerged(e.job.variables, e.job.stored.value.spec.variable, e.job.credentials.value)
        && forall k <- e.job.variables | e.job.variables[k] != "" ::
             k in e.job.environment && e.job.environment[k] == e.job.variables[k]
  {
    TerraformRunsOnlyWhenReady(environment, run, i);
    var e := End(Initial(environment), run).log[i];
    hide Runs, End, InputData, PrepareVariables, IsMerged;
    if e.Applied? { MergedExactly(e.job.stored.value.spec.variable, e.job.credentials.value); }
  }

  /** A variable secret preCheck creates holds the merged variables as texts, and nothing else. */
  lemma NewVariableSecret(s: State, c: Configuration, o: Oracle)
    requires WellFormed(s) && Indexed(s, c.name) == Some(c)
    requires Passes(s, c, o) && Ref("default", "variable-" + c.name) !in s.secrets
    ensures o.credentials.Credentials?
    ensures var t := PreCheck(s, c, o).0; var ref := Ref("default", "variable-" + c.name);
      && ref in t.secrets && t.secrets[ref].labels == map[]
      && exists merged :: IsMerged(merged, c.spec.variable, o.credentials.values)
           && t.secrets[ref].data.Keys == merged.Keys && forall k <- merged :: t.secrets[ref].data[k] == Text(merged[k])
  {
    VariableSecretCreated(s, c, o);
    MergedExactly(c.spec.variable, o.credentials.values);
    hide PreCheck, PrepareVariables, WellFormed, IsMerged, Indexed;
    var merged := PrepareVariables(c.spec.variable, o.credentials.values).value;
    assert AsSecretData(merged).Keys == merged.Keys;
  }
}
