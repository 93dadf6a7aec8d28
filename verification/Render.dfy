/** The Terraform text handed to the executor: the backend template, the rendering of a Configuration,
    and the inverse of the rendering. */
module Render {
  import opened Objects

  datatype ConfigurationType = ConfigurationHCL | ConfigurationRemote

  const FIRST_LINE := "terraform {"
  const SECOND_LINE := "  backend \"local\" {"
  const PATH_LINE := "    path     = \""
  const BACKEND_OPEN := "\n" + FIRST_LINE + "\n" + SECOND_LINE + "\n" + PATH_LINE
  const BACKEND_CLOSE := "\"\n  }\n}\n"
  const DEFAULT_PATH := "/tmp/terraform.tfstate"

  /** ValidConfigurationObject: exactly one of hcl and remote must be set. */
  function ValidConfigurationObject(spec: Spec): (r: Option<ConfigurationType>)
    ensures r == Some(ConfigurationHCL) <==> spec.hcl != "" && spec.remote == ""
    ensures r == Some(ConfigurationRemote) <==> spec.hcl == "" && spec.remote != ""
  {
    if spec.hcl == "" && spec.remote == "" then None
    else if spec.hcl != "" && spec.remote != "" then None
    else if spec.hcl != "" then Some(ConfigurationHCL)
    else Some(ConfigurationRemote)
  }

  function RenderTemplate(path: string): string {
    BACKEND_OPEN + path + BACKEND_CLOSE
  }

  /** The path the backend block will name. */
  function EffectivePath(spec: Spec): (path: string)
    ensures path != ""
  {
    if spec.backend.Some? && spec.backend.value.path != "" then spec.backend.value.path else DEFAULT_PATH
  }

  /** RenderConfiguration's in-place defaulting of spec.backend. */
  function WithBackend(spec: Spec): (r: Spec)
    ensures r.backend.Some? && r.backend.value.path != ""
    ensures EffectivePath(r) == EffectivePath(spec)
    ensures r.(backend := spec.backend) == spec
  {
    spec.(backend := Some(Backend(EffectivePath(spec))))
  }

  function RenderHCL(hcl: string, path: string): string {
    hcl + "\n" + RenderTemplate(path)
  }

  /** The text RenderConfiguration returns. */
  function RenderConfiguration(spec: Spec, kind: ConfigurationType): string {
    match kind
    case ConfigurationHCL => RenderHCL(spec.hcl, EffectivePath(spec))
    case ConfigurationRemote => RenderTemplate(EffectivePath(spec))
  }

  // ----- reading a rendered text back -----

  /** The position just after the last quote of s, 0 when there is none. */
  function AfterLastQuote(s: string): (i: nat)
    ensures i <= |s|
  {
    if s == "" then 0 else if s[|s| - 1] == '"' then |s| else AfterLastQuote(s[..|s| - 1])
  }

  /** The path named by a backend text. */
  function ParsePath(text: string): Option<string> {
    if |text| < |BACKEND_OPEN| + |BACKEND_CLOSE| then None
    else Some(text[|BACKEND_OPEN|..|text| - |BACKEND_CLOSE|])
  }

  /** The HCL part and the path of a text rendered for an HCL Configuration. */
  function ParseHCL(text: string): Option<(string, string)> {
    if |text| < |BACKEND_CLOSE| then None
    else
      var body := text[..|text| - |BACKEND_CLOSE|];
      var cut := AfterLastQuote(body);
      if cut < |BACKEND_OPEN| + 1 then None
      else Some((body[..cut - |BACKEND_OPEN| - 1], body[cut..]))
  }

  lemma {:induction false} AfterLastQuoteSkips(head: string, path: string)
    requires head != "" && head[|head| - 1] == '"'
    requires '"' !in path
    ensures AfterLastQuote(head + path) == |head|
  {
    if path == "" {
      assert head + path == head;
    } else {
      var s := head + path;
      assert s[|s| - 1] == path[|path| - 1] && path[|path| - 1] in path;
      assert s[..|s| - 1] == head + path[..|path| - 1];
      AfterLastQuoteSkips(head, path[..|path| - 1]);
    }
  }

  /** Both the HCL text and the path can be read back from the rendered text. */
  lemma RenderHCLRoundTrip(hcl: string, path: string)
    requires '"' !in path
    ensures ParseHCL(RenderHCL(hcl, path)) == Some((hcl, path))
  {
    var text := RenderHCL(hcl, path);
    var head := hcl + "\n" + BACKEND_OPEN;
    var body := text[..|text| - |BACKEND_CLOSE|];
    assert body == head + path;
    AfterLastQuoteSkips(head, path);
    assert body[..|hcl|] == hcl;
    assert body[|head|..] == path;
  }

  lemma RenderTemplateRoundTrip(path: string)
    ensures ParsePath(RenderTemplate(path)) == Some(path)
  {
  }

  /** Rendering again, after the first rendering has written the default path into the Configuration,
      gives the same text. */
  lemma RenderIsStable(spec: Spec, kind: ConfigurationType)
    ensures WithBackend(WithBackend(spec)) == WithBackend(spec)
    ensures RenderConfiguration(WithBackend(spec), kind) == RenderConfiguration(spec, kind)
    ensures ValidConfigurationObject(WithBackend(spec)) == ValidConfigurationObject(spec)
  {
  }

  // ----- when two texts are equal -----

  /** Between the HCL text and the path. */
  const JOINT := "\n" + BACKEND_OPEN

  /** Of three lines after two line feeds, no later place has two line feeds. */
  lemma TwoLineFeeds(first: string, second: string, third: string, k: nat)
    requires first != "" && second != "" && third != ""
    requires '\n' !in first && '\n' !in second && '\n' !in third
    ensures var text := ['\n', '\n'] + first + ['\n'] + second + ['\n'] + third;
      0 < k && k + 1 < |text| ==> text[k] != '\n' || text[k + 1] != '\n'
  {
    var a, b := 2 + |first|, 3 + |first| + |second|;
    var text := ['\n', '\n'] + first + ['\n'] + second + ['\n'] + third;
    assert forall i | 2 <= i < a :: text[i] == first[i - 2];
    assert forall i | a < i < b :: text[i] == second[i - a - 1];
    assert forall i | b < i < |text| :: text[i] == third[i - b - 1];
  }

  /** The joint starts with the only place in it where two line feeds follow each other. */
  lemma TwoLineFeedsAtStart(k: nat)
    requires 0 < k && k + 1 < |JOINT|
    ensures JOINT[0] == '\n' && JOINT[1] == '\n'
    ensures JOINT[k] != '\n' || JOINT[k + 1] != '\n'
  {
    assert JOINT == ['\n', '\n'] + FIRST_LINE + ['\n'] + SECOND_LINE + ['\n'] + PATH_LINE;
    assert '\n' !in FIRST_LINE && '\n' !in SECOND_LINE && '\n' !in PATH_LINE;
    TwoLineFeeds(FIRST_LINE, SECOND_LINE, PATH_LINE, k);
  }

  /** The longer path repeats the joint before the other path, and the other HCL text repeats it too. */
  ghost predicate Shifted(hcl: string, path: string, otherHcl: string, otherPath: string) {
    exists x: string :: path == x + JOINT + otherPath && otherHcl == hcl + JOINT + x
  }

  lemma ShiftedTextsEqual(hcl: string, path: string, otherHcl: string, otherPath: string)
    requires Shifted(hcl, path, otherHcl, otherPath)
    ensures hcl + JOINT + path == otherHcl + JOINT + otherPath
  {
    var x: string :| path == x + JOINT + otherPath && otherHcl == hcl + JOINT + x;
    Reassociate(hcl, JOINT, x, otherPath);
  }

  lemma Reassociate(h: string, j: string, x: string, p: string)
    ensures h + j + (x + j + p) == (h + j + x) + j + p
  {
    assert h + j + (x + j + p) == h + (j + (x + (j + p)));
    assert (h + j + x) + j + p == h + (j + (x + (j + p)));
  }

  /** A joint that starts inside another one differs from it. */
  lemma JointsDoNotOverlap(d: nat)
    requires 0 < d < |JOINT|
    ensures exists i: nat :: d + i < |JOINT| && JOINT[i] != JOINT[d + i]
  {
    if d + 1 < |JOINT| {
      TwoLineFeedsAtStart(d);
      assert JOINT[0] != JOINT[d + 0] || JOINT[1] != JOINT[d + 1];
    } else {
      assert JOINT[d] == PATH_LINE[|PATH_LINE| - 1];
      assert JOINT[0] != JOINT[d + 0];
    }
  }

  /** Two places where one text has the joint are at least its length apart. */
  lemma JointsApart(joint: string, text: string, i: nat, d: nat)
    requires joint == JOINT && 0 < d && i + d + |joint| <= |text|
    requires text[i..i + |joint|] == joint && text[i + d..i + d + |joint|] == joint
    ensures d >= |joint|
  {
    if d < |joint| {
      forall k: nat | d + k < |joint| ensures joint[k] == joint[d + k] {
        assert text[i + (d + k)] == text[i..i + |joint|][d + k];
        assert text[i + d + k] == text[i + d..i + d + |joint|][k];
      }
      JointsDoNotOverlap(d);
      assert false;
    }
  }

  lemma JointPlaces(hcl: string, joint: string, path: string, otherHcl: string, otherPath: string)
    requires hcl + joint + path == otherHcl + joint + otherPath && |path| > |otherPath|
    ensures var text, d := hcl + joint + path, |path| - |otherPath|;
      && |hcl| + d + |joint| <= |text| && |otherHcl| == |hcl| + d
      && text[|hcl|..|hcl| + |joint|] == joint && text[|hcl| + d..|hcl| + d + |joint|] == joint
  {
    assert (otherHcl + joint + otherPath)[|otherHcl|..|otherHcl| + |joint|] == joint;
  }

  lemma BetweenJoints(hcl: string, joint: string, path: string, otherHcl: string, otherPath: string) returns (x: string)
    requires hcl + joint + path == otherHcl + joint + otherPath && |path| >= |otherPath| + |joint|
    ensures path == x + joint + otherPath && otherHcl == hcl + joint + x
  {
    x := path[..|path| - |otherPath| - |joint|];
    var text := hcl + joint + path;
    assert otherHcl == text[..|otherHcl|] == hcl + joint + x;
    assert path == text[|hcl| + |joint|..] == x + joint + otherPath;
  }

  lemma EqualTextsShifted(hcl: string, joint: string, path: string, otherHcl: string, otherPath: string)
    requires joint == JOINT
    requires hcl + joint + path == otherHcl + joint + otherPath && |path| > |otherPath|
    ensures Shifted(hcl, path, otherHcl, otherPath)
  {
    JointPlaces(hcl, joint, path, otherHcl, otherPath);
    JointsApart(joint, hcl + joint + path, |hcl|, |path| - |otherPath|);
    var x := BetweenJoints(hcl, joint, path, otherHcl, otherPath);
  }

  lemma RenderHCLJoined(hcl: string, path: string)
    ensures RenderHCL(hcl, path) == hcl + JOINT + path + BACKEND_CLOSE
  {
    Associate(hcl, "\n", BACKEND_OPEN, path, BACKEND_CLOSE);
  }

  lemma Associate(h: string, n: string, o: string, p: string, c: string)
    ensures h + n + (o + p + c) == h + (n + o) + p + c
  {
    assert h + n + (o + p + c) == h + (n + (o + (p + c)));
    assert h + (n + o) + p + c == h + (n + (o + (p + c)));
  }

  /** Comparing rendered texts, for any paths. Remote texts are equal exactly when the effective paths are.
      HCL texts are equal exactly when HCL and path are, or when one path holds the joint and the HCL texts
      differ by just the part before it. */
  lemma RenderEqualityExactly(a: Spec, b: Spec)
    ensures RenderConfiguration(a, ConfigurationRemote) == RenderConfiguration(b, ConfigurationRemote)
            <==> EffectivePath(a) == EffectivePath(b)
    ensures RenderConfiguration(a, ConfigurationHCL) == RenderConfiguration(b, ConfigurationHCL)
            <==> || (a.hcl == b.hcl && EffectivePath(a) == EffectivePath(b))
                 || Shifted(a.hcl, EffectivePath(a), b.hcl, EffectivePath(b))
                 || Shifted(b.hcl, EffectivePath(b), a.hcl, EffectivePath(a))
  {
    var p, q := EffectivePath(a), EffectivePath(b);
    RenderTemplateRoundTrip(p);
    RenderTemplateRoundTrip(q);
    RenderHCLJoined(a.hcl, p);
    RenderHCLJoined(b.hcl, q);
    EqualJoined(a.hcl, p, b.hcl, q);
    hide RenderHCL, RenderTemplate, Shifted, ParsePath;
    var s, t := a.hcl + JOINT + p, b.hcl + JOINT + q;
    assert s + BACKEND_CLOSE == t + BACKEND_CLOSE <==> s == t by { SameEnd(s, t, BACKEND_CLOSE); }
  }

  lemma SameEnd(s: string, t: string, end: string)
    ensures s + end == t + end <==> s == t
  {
    if s + end == t + end {
      assert s == (s + end)[..|s|] && t == (t + end)[..|t|];
    }
  }

  lemma EqualJoined(hcl: string, path: string, otherHcl: string, otherPath: string)
    ensures hcl + JOINT + path == otherHcl + JOINT + otherPath
            <==> || (hcl == otherHcl && path == otherPath)
                 || Shifted(hcl, path, otherHcl, otherPath) || Shifted(otherHcl, otherPath, hcl, path)
  {
    if Shifted(hcl, path, otherHcl, otherPath) {
      ShiftedTextsEqual(hcl, path, otherHcl, otherPath);
    } else if Shifted(otherHcl, otherPath, hcl, path) {
      ShiftedTextsEqual(otherHcl, otherPath, hcl, path);
    } else if hcl + JOINT + path == otherHcl + JOINT + otherPath {
      if |path| > |otherPath| {
        EqualTextsShifted(hcl, JOINT, path, otherHcl, otherPath);
      } else if |path| < |otherPath| {
        EqualTextsShifted(otherHcl, JOINT, otherPath, hcl, path);
      } else {
        SameEnd(hcl + JOINT, otherHcl + JOINT, path);
        SameLength(hcl, path, otherHcl, otherPath);
      }
    }
  }

  lemma SameLength(hcl: string, path: string, otherHcl: string, otherPath: string)
    requires hcl + JOINT + path == otherHcl + JOINT + otherPath && |path| == |otherPath|
    ensures hcl == otherHcl && path == otherPath
  {
    var s, t := hcl + JOINT + path, otherHcl + JOINT + otherPath;
    assert hcl == s[..|hcl|] && otherHcl == t[..|otherHcl|];
    assert path == s[|hcl| + |JOINT|..] && otherPath == t[|otherHcl| + |JOINT|..];
  }

  /** The text is found in s, with something after it. */
  ghost predicate HoldsBefore(s: string, text: string) {
    exists x: string, y: string :: s == x + text + y && y != ""
  }

  ghost predicate Holds(s: string, text: string) {
    exists x: string, y: string :: s == x + text + y
  }

  /** No other HCL text and path render to the text of a. */
  ghost predicate Unambiguous(a: Spec) {
    forall b: Spec | RenderConfiguration(b, ConfigurationHCL) == RenderConfiguration(a, ConfigurationHCL) ::
      b.hcl == a.hcl && EffectivePath(b) == EffectivePath(a)
  }

  /** A rendered text says which HCL text and path it was made of exactly when neither holds the joint; a
      joint at the very end of the path does no harm, as no path is empty. */
  lemma UnambiguousExactly(a: Spec)
    ensures Unambiguous(a) <==> !Holds(a.hcl, JOINT) && !HoldsBefore(EffectivePath(a), JOINT)
  {
    var p := EffectivePath(a);
    if Holds(a.hcl, JOINT) {
      var x: string, y: string :| a.hcl == x + JOINT + y;
      ShiftedSpec(a.(hcl := x, backend := Some(Backend(y + JOINT + p))), a, y);
    } else if HoldsBefore(p, JOINT) {
      var x: string, y: string :| p == x + JOINT + y && y != "";
      ShiftedSpec(a, a.(hcl := a.hcl + JOINT + x, backend := Some(Backend(y))), x);
    } else {
      forall b: Spec | RenderConfiguration(b, ConfigurationHCL) == RenderConfiguration(a, ConfigurationHCL)
        ensures b.hcl == a.hcl && EffectivePath(b) == EffectivePath(a)
      {
        RenderEqualityExactly(a, b);
        hide RenderConfiguration, EffectivePath;
      }
    }
  }

  lemma ShiftedSpec(a: Spec, b: Spec, x: string)
    requires EffectivePath(a) == x + JOINT + EffectivePath(b) && b.hcl == a.hcl + JOINT + x
    ensures RenderConfiguration(a, ConfigurationHCL) == RenderConfiguration(b, ConfigurationHCL)
    ensures EffectivePath(a) != EffectivePath(b)
  {
    hide RenderConfiguration;
    RenderEqualityExactly(a, b);
    assert |EffectivePath(a)| > |EffectivePath(b)|;
  }

  lemma Regroup(n: string, o: string, c: string, x: string, y: string)
    ensures n + (o + (x + c + n + o + y) + c) == (n + o + x + c) + n + (o + y + c)
  {
    var p := n + o + x + c;
    assert x + c + n + o + y == (x + c) + (n + o + y);
    assert n + (o + ((x + c) + (n + o + y)) + c) == p + (n + o + y + c);
    assert p + n + (o + y + c) == p + (n + o + y + c);
  }

  /** Without the restriction on quotes the text is ambiguous: an unescaped path can close the block
      and open another one. */
  lemma QuotedPathsAreAmbiguous(x: string, y: string)
    requires x != "" && y != ""
    ensures var long := x + BACKEND_CLOSE + "\n" + BACKEND_OPEN + y;
            && RenderHCL("", long) == RenderHCL("\n" + BACKEND_OPEN + x + BACKEND_CLOSE, y)
            && long != y
  {
    assert "" + "\n" == "\n";
    Regroup("\n", BACKEND_OPEN, BACKEND_CLOSE, x, y);
  }
}
