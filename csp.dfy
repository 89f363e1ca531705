/** Content-Security-Policy values as the policy objects of the OAuth provider
    hold them, and the hash-source grammar of section 2.3.1 of W3C Content
    Security Policy Level 3 (CSP3), against which the classifier's hash
    expressions are checked. */
module Csp {
  import opened Wrappers

  /** What a policy object gives one directive: `undefined`, a boolean flag,
      one source expression, or an ordered list of source expressions. */
  datatype DirectiveValue = Undefined | Flag(on: bool) | Single(source: string) | List(sources: seq<string>)

  /** A (partial) policy: directive name to value. */
  type CspConfig = map<string, DirectiveValue>

  const DefaultSrc := "default-src"
  const BaseUri := "base-uri"
  const ScriptSrc := "script-src"
  const StyleSrc := "style-src"
  const UpgradeInsecureRequests := "upgrade-insecure-requests"

  const SelfKeyword := "'self'"
  const NoneKeyword := "'none'"

  predicate StartsWith(s: string, prefix: string) {
    |prefix| <= |s| && s[..|prefix|] == prefix
  }

  predicate EndsWith(s: string, suffix: string) {
    |suffix| <= |s| && s[|s| - |suffix|..] == suffix
  }

  /** A character of CSP3's base64-value: ALPHA / DIGIT / "+" / "/" / "-" / "_". */
  predicate IsBase64Char(c: char) {
    ('A' <= c <= 'Z') || ('a' <= c <= 'z') || ('0' <= c <= '9')
    || c == '+' || c == '/' || c == '-' || c == '_'
  }

  /** `s` without its trailing "=" padding (at most two characters). */
  function Unpadded(s: string): string {
    if EndsWith(s, "==") then s[..|s| - 2]
    else if EndsWith(s, "=") then s[..|s| - 1]
    else s
  }

  /** CSP3's base64-value: one or more base64 characters, then at most two "=". */
  predicate IsBase64Value(s: string) {
    var body := Unpadded(s);
    |body| >= 1 && forall i :: 0 <= i < |body| ==> IsBase64Char(body[i])
  }

  /** The base64-value after `alg` and "-" inside a quoted hash-source. */
  function ParseHashValue(alg: string, value: string): Option<(string, string)> {
    if IsBase64Value(value) then Some((alg, value)) else None
  }

  /** Reads a hash-source, "'" hash-algorithm "-" base64-value "'", into its
      algorithm and its base64-value; `None` for anything else. */
  function ParseHashSource(s: string): (r: Option<(string, string)>)
    ensures r.Some? ==> |s| >= 2 && s[0] == '\'' && s[|s| - 1] == '\''
    ensures r.Some? ==> r.value.0 in {"sha256", "sha384", "sha512"} && IsBase64Value(r.value.1)
  {
    if |s| < 2 || s[0] != '\'' || s[|s| - 1] != '\'' then None
    else
      var inner := s[1..|s| - 1];
      if StartsWith(inner, "sha256-") then ParseHashValue("sha256", inner[7..])
      else if StartsWith(inner, "sha384-") then ParseHashValue("sha384", inner[7..])
      else if StartsWith(inner, "sha512-") then ParseHashValue("sha512", inner[7..])
      else None
  }
}
