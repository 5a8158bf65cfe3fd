/** The placeholders the server (server.js) and the static build
    (scripts/build_static.js) fill into the served scripts from environment
    variables, and the environment itself. */
module Placeholders {
  import opened JsString

  /** `process.env`: the variables that are defined, with their values. */
  type Env = map<string, string>

  /** `process.env[key]` is truthy: defined and not empty. */
  predicate IsSet(env: Env, key: string)
  {
    key in env && env[key] != ""
  }

  /** `process.env[key] || default`. */
  function EnvOr(env: Env, key: string, default: string): (v: string)
    ensures IsSet(env, key) ==> v == env[key]
    ensures !IsSet(env, key) ==> v == default
  {
    if IsSet(env, key) then env[key] else default
  }

  const ServerUrlPlaceholder := "PLACEHOLDER_SERVER_URL"
  const RazorpayKeyPlaceholder := "PLACEHOLDER_RAZORPAY_KEY"
  /** The amount placeholder with its quotes, so that the number replaces a
      string literal. */
  const AmountPlaceholder := "'PLACEHOLDER_AMOUNT'"

  /** `pat` does not occur in `s`. */
  predicate Absent(s: string, pat: string)
  {
    forall j :: 0 <= j <= |s| ==> !OccursAt(s, pat, j)
  }

  /** When the first `pat` of `a + pat + b` is the one after `a`, replacing
      the first occurrence puts `rep` there and keeps `a` and `b`. */
  lemma ReplaceAtFirst(a: string, pat: string, b: string, rep: string)
    requires forall j :: 0 <= j < |a| ==> !OccursAt(a + pat + b, pat, j)
    ensures ReplaceFirst(a + pat + b, pat, rep) == a + rep + b
  {
    var s := a + pat + b;
    assert s[|a|..|a| + |pat|] == pat;
    assert OccursAt(s, pat, |a|);
    assert s[..|a|] == a;
    assert s[|a| + |pat|..] == b;
  }
}
