/**
 * Reading and validating the action's inputs (`getInput` in lib/setup.js).
 *
 * The two regular expressions the action uses are both of the form `^[C]+$`
 * (one or more characters of a class, anchored at both ends, no flags), so
 * each is modelled by its character class rather than by a regex engine.
 */
module Inputs {
  import opened Wrappers

  /** The patterns `setup` validates its two inputs against. */
  datatype Pattern =
    | VersionPattern   // /^[\d.*]+$/
    | LinePattern      // /^.+$/

  /** `\d` without the `u` flag is the ASCII digits only. */
  predicate IsVersionChar(c: char) {
    '0' <= c <= '9' || c == '.' || c == '*'
  }

  /** The characters `.` does not match when the `s` flag is absent. */
  predicate IsLineTerminator(c: char) {
    c == '\n' || c == '\r' || c == '\U{2028}' || c == '\U{2029}'
  }

  /** The character class of the pattern. */
  predicate ClassAccepts(p: Pattern, c: char) {
    match p
    case VersionPattern => IsVersionChar(c)
    case LinePattern => !IsLineTerminator(c)
  }

  /** `pattern.test(s)`: the whole string is one or more characters of the class. */
  predicate Matches(p: Pattern, s: string) {
    |s| > 0 && forall i :: 0 <= i < |s| ==> ClassAccepts(p, s[i])
  }

  /** The regular expression read as it is written: a class item, then `+`, then the end anchor. */
  predicate OneOrMore(p: Pattern, s: string)
    decreases |s|
  {
    |s| > 0 && ClassAccepts(p, s[0]) && (|s| == 1 || OneOrMore(p, s[1..]))
  }

  /** The character-class reading and the left-to-right reading of `^[C]+$` agree. */
  lemma {:induction false} MatchesIsOneOrMore(p: Pattern, s: string)
    ensures Matches(p, s) <==> OneOrMore(p, s)
    decreases |s|
  {
    if |s| > 1 {
      MatchesIsOneOrMore(p, s[1..]);
      if Matches(p, s[1..]) && ClassAccepts(p, s[0]) {
        forall i | 0 <= i < |s| ensures ClassAccepts(p, s[i]) {
          if i > 0 { assert s[i] == s[1..][i - 1]; }
        }
      }
      if Matches(p, s) {
        forall i | 0 <= i < |s[1..]| ensures ClassAccepts(p, s[1..][i]) {
          assert s[1..][i] == s[i + 1];
        }
      }
    }
  }

  /** The pattern as `${pattern}` renders a RegExp in the error message. */
  function PatternText(p: Pattern): (t: string)
    ensures |t| >= 2 && t[0] == '/' && t[|t| - 1] == '/'
  {
    match p
    case VersionPattern => "/^[\\d.*]+$/"
    case LinePattern => "/^.+$/"
  }

  /** The message of the Error thrown for an input that does not match. */
  function MismatchMessage(name: string, p: Pattern): (m: string)
    ensures |m| > |name| + |PatternText(p)|
    ensures m[..|name|] == name
    ensures m[|m| - |PatternText(p)|..] == PatternText(p)
  {
    name + " doesn't match " + PatternText(p)
  }

  /**
   * `core.getInput(name)`: the input's value, or "" when the workflow does not set it.
   * `inputs` holds the values as that call returns them.
   */
  function Raw(inputs: map<string, string>, name: string): (v: string)
    ensures name !in inputs ==> v == ""
  {
    if name in inputs then inputs[name] else ""
  }

  /** `core.getInput(name) || defaultValue`: "" and an absent input both take the default. */
  function Defaulted(inputs: map<string, string>, name: string, default: string): (v: string)
    ensures Raw(inputs, name) != "" ==> v == Raw(inputs, name)
    ensures Raw(inputs, name) == "" ==> v == default
  {
    var raw := Raw(inputs, name);
    if raw == "" then default else raw
  }

  /** `getInput(name, pattern, defaultValue)`: the defaulted value, or the thrown message. */
  function GetInput(inputs: map<string, string>, name: string, p: Pattern, default: string)
    : (r: Result<string, string>)
    ensures r.Success? ==> Matches(p, r.value)
    ensures r.Success? && Raw(inputs, name) != "" ==> r.value == Raw(inputs, name)
    ensures r.Success? && Raw(inputs, name) == "" ==> r.value == default
    ensures r.Failure? ==> !Matches(p, Defaulted(inputs, name, default))
    ensures r.Failure? ==> r.error == MismatchMessage(name, p)
  {
    var value := Defaulted(inputs, name, default);
    if Matches(p, value) then Success(value) else Failure(MismatchMessage(name, p))
  }

  /** Feeding an accepted value back as the raw input yields the same value: validation is idempotent. */
  lemma GetInputIdempotent(inputs: map<string, string>, name: string, p: Pattern, default: string)
    requires GetInput(inputs, name, p, default).Success?
    ensures GetInput(inputs[name := GetInput(inputs, name, p, default).value], name, p, default)
            == GetInput(inputs, name, p, default)
  {
  }

  /** The version input: "1.*" when empty; otherwise accepted iff every character is a digit, `.` or `*`. */
  lemma VersionInputAccepted(inputs: map<string, string>)
    ensures var raw := Raw(inputs, "version");
            var r := GetInput(inputs, "version", VersionPattern, "1.*");
            && (r.Success? <==> raw == "" || forall i :: 0 <= i < |raw| ==> IsVersionChar(raw[i]))
            && (raw == "" ==> r == Success("1.*"))
            && (raw != "" && r.Success? ==> r.value == raw)
  {
  }

  /** The interpreter input: accepted iff empty (default taken) or free of line terminators. */
  lemma LineInputAccepted(inputs: map<string, string>, name: string, default: string)
    requires default != "" && forall i :: 0 <= i < |default| ==> !IsLineTerminator(default[i])
    ensures var raw := Raw(inputs, name);
            var r := GetInput(inputs, name, LinePattern, default);
            && (r.Success? <==> raw == "" || forall i :: 0 <= i < |raw| ==> !IsLineTerminator(raw[i]))
            && (raw == "" ==> r == Success(default))
  {
  }

  /** Concrete cases: "not valid" and "not|valid" are rejected with the version message; "1.2.*" and "1.2.3" pass. */
  lemma VersionExamples()
    ensures GetInput(map["version" := "not valid"], "version", VersionPattern, "1.*")
            == Failure("version doesn't match /^[\\d.*]+$/")
    ensures GetInput(map["version" := "not|valid"], "version", VersionPattern, "1.*")
            == Failure("version doesn't match /^[\\d.*]+$/")
    ensures GetInput(map["version" := "1.2.*"], "version", VersionPattern, "1.*") == Success("1.2.*")
    ensures GetInput(map["version" := "1.2.3"], "version", VersionPattern, "1.*") == Success("1.2.3")
  {
    assert MismatchMessage("version", VersionPattern) == "version doesn't match /^[\\d.*]+$/";
    assert !IsVersionChar("not valid"[3]);
    assert !IsVersionChar("not|valid"[3]);
  }

  /** A supplied interpreter path with a space in it is accepted and passed on unchanged. */
  lemma SuppliedInterpreterExample(default: string)
    ensures GetInput(map["python" := "/root/Python 1.2.3"], "python", LinePattern, default)
            == Success("/root/Python 1.2.3")
  {
    assert Matches(LinePattern, "/root/Python 1.2.3");
  }
}
