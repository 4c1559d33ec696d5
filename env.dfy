/**
 * The backend's environment flags: whether `NODE_ENV` names a development
 * environment, its normalised form, and whether dev-login is switched on. Each function
 * takes an optional explicit value; the process environment is the parameter
 * `processEnv` (None where the variable is unset).
 */
module Env {
  import opened Common
  import opened Strings

  /** `a ?? b`: only an undefined `a` falls back. */
  function Coalesce(a: Option<string>, b: Option<string>): (r: Option<string>)
    ensures a.Some? ==> r == a
    ensures a.None? ==> r == b
  {
    if a.Some? then a else b
  }

  /** `.toLowerCase().trim()`. */
  function Normalize(s: string): string {
    Trim(ToLower(s))
  }

  /** `isDevelopmentEnv`. */
  predicate IsDevelopmentEnv(nodeEnv: Option<string>, processEnv: Option<string>) {
    var env := Normalize(Coalesce(nodeEnv, processEnv).GetOr(""));
    env == "development" || env == "dev" || env == "local"
  }

  /** `getNormalizedNodeEnv`: `development` when nothing is set. */
  function GetNormalizedNodeEnv(nodeEnv: Option<string>, processEnv: Option<string>): string {
    Normalize(Coalesce(nodeEnv, processEnv).GetOr("development"))
  }

  datatype NodeEnvInfo = NodeEnvInfo(raw: Option<string>, normalized: string, isDevelopment: bool)

  /** `getNodeEnvInfo`. */
  function GetNodeEnvInfo(nodeEnv: Option<string>, processEnv: Option<string>): NodeEnvInfo {
    var raw := Coalesce(nodeEnv, processEnv);
    NodeEnvInfo(raw, GetNormalizedNodeEnv(raw, processEnv), IsDevelopmentEnv(raw, processEnv))
  }

  /** `isDevLoginEnabled`. */
  predicate IsDevLoginEnabled(value: Option<string>, processEnv: Option<string>) {
    Normalize(Coalesce(value, processEnv).GetOr("")) in ["true", "1", "yes", "on"]
  }

  /**
   * An explicit value wins over the environment, even an empty one; an undefined value
   * falls back to it, exactly as if the environment's value had been passed.
   */
  lemma ExplicitValueWins(v: string, nodeEnv: Option<string>, processEnv: Option<string>, otherEnv: Option<string>)
    ensures IsDevelopmentEnv(Some(v), processEnv) == IsDevelopmentEnv(Some(v), otherEnv)
    ensures GetNormalizedNodeEnv(Some(v), processEnv) == GetNormalizedNodeEnv(Some(v), otherEnv)
    ensures IsDevLoginEnabled(Some(v), processEnv) == IsDevLoginEnabled(Some(v), otherEnv)
    ensures processEnv.Some? ==> IsDevelopmentEnv(None, processEnv) == IsDevelopmentEnv(processEnv, otherEnv)
    ensures processEnv.Some? ==> GetNormalizedNodeEnv(None, processEnv) == GetNormalizedNodeEnv(processEnv, otherEnv)
    ensures processEnv.Some? ==> IsDevLoginEnabled(None, processEnv) == IsDevLoginEnabled(processEnv, otherEnv)
  {
    assert Coalesce(Some(v), processEnv) == Coalesce(Some(v), otherEnv);
    assert processEnv.Some? ==> Coalesce(None, processEnv) == Coalesce(processEnv, otherEnv);
  }

  /** The development test is membership of the normalised value, and normalising twice changes nothing. */
  lemma DevelopmentIsNormalizedMembership(nodeEnv: Option<string>, processEnv: Option<string>)
    ensures Coalesce(nodeEnv, processEnv).Some? ==>
      (IsDevelopmentEnv(nodeEnv, processEnv) <==>
        GetNormalizedNodeEnv(nodeEnv, processEnv) in ["development", "dev", "local"])
    ensures var n := GetNormalizedNodeEnv(nodeEnv, processEnv);
      GetNormalizedNodeEnv(Some(n), processEnv) == n
  {
    var raw := Coalesce(nodeEnv, processEnv);
    var n := Normalize(raw.GetOr("development"));
    assert GetNormalizedNodeEnv(nodeEnv, processEnv) == n;
    if raw.Some? {
      assert IsDevelopmentEnv(nodeEnv, processEnv) == (n in ["development", "dev", "local"]);
    }
    LowerTrimIdempotent(raw.GetOr("development"));
    assert Normalize(n) == n;
    assert Coalesce(Some(n), processEnv) == Some(n);
  }

  /** A lower-case value without surrounding white space is already normal. */
  lemma NormalizeFixed(s: string)
    requires forall i :: 0 <= i < |s| ==> !('A' <= s[i] <= 'Z')
    requires s == [] || (!IsSpace(s[0]) && !IsSpace(s[|s| - 1]))
    ensures Normalize(s) == s
  {
    assert ToLower(s) == s;
    TrimStartFixed(s);
    TrimEndFixed(s);
  }

  /** With nothing set, the normalised value reads `development`... */
  lemma UnsetNormalizedIsDevelopment()
    ensures GetNormalizedNodeEnv(None, None) == "development"
  {
    NormalizeFixed("development");
  }

  /** ...while `isDevelopment` is false, since the empty string is not a development name. */
  lemma UnsetIsNotDevelopment()
    ensures !IsDevelopmentEnv(None, None)
  {
    NormalizeFixed("");
  }

  /** The two together: `getNodeEnvInfo` with nothing set. */
  lemma UnsetEnvironment()
    ensures GetNodeEnvInfo(None, None) == NodeEnvInfo(None, "development", false)
  {
    UnsetNormalizedIsDevelopment();
    UnsetIsNotDevelopment();
  }

  /** An unset dev-login flag is off, and so is an empty one. */
  lemma UnsetDevLoginIsOff(processEnv: Option<string>)
    requires processEnv.None? || processEnv == Some("")
    ensures !IsDevLoginEnabled(None, processEnv)
  {
    NormalizeFixed("");
    assert Coalesce(None, processEnv).GetOr("") == "";
    var flags := ["true", "1", "yes", "on"];
    assert forall i :: 0 <= i < |flags| ==> flags[i] != "";
  }

  /** Surrounding white space and letter case never matter to any of the flags. */
  lemma FlagsIgnoreCaseAndSpace(s: string, processEnv: Option<string>)
    ensures IsDevelopmentEnv(Some(s), processEnv) == IsDevelopmentEnv(Some(Normalize(s)), processEnv)
    ensures IsDevLoginEnabled(Some(s), processEnv) == IsDevLoginEnabled(Some(Normalize(s)), processEnv)
  {
    LowerTrimIdempotent(s);
  }
}
