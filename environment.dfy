/**
  Development-environment detection (log/init.go).

  The process environment is a map from variable name to value; a variable
  that is absent reads as the empty string, as os.Getenv does.  Case folding
  is modelled on ASCII letters only.
 */
module Environment {

  /** os.Getenv: the value of `key`, or "" when it is not set. */
  function Getenv(vars: map<string, string>, key: string): string
  {
    if key in vars then vars[key] else ""
  }

  /** ASCII lower-casing of one character. */
  function LowerChar(c: char): char
  {
    if 'A' <= c <= 'Z' then (c as int + 32) as char else c
  }

  /** ASCII upper-casing of one character, used only to state case-insensitive matches. */
  function UpperChar(c: char): char
  {
    if 'a' <= c <= 'z' then (c as int - 32) as char else c
  }

  predicate IsLowerAscii(w: string)
  {
    forall i :: 0 <= i < |w| ==> !('A' <= w[i] <= 'Z')
  }

  /** strings.ToLower, restricted to ASCII: every character is lowered in place. */
  function ToLower(s: string): (r: string)
    ensures |r| == |s|
    ensures forall i :: 0 <= i < |s| ==> r[i] == LowerChar(s[i])
    ensures IsLowerAscii(r)
  {
    if s == [] then [] else [LowerChar(s[0])] + ToLower(s[1..])
  }

  /**
    `s` spells the lower-case word `w` with any mix of upper and lower case:
    each character is the word's own character or its capital.
   */
  predicate MatchesIgnoringCase(s: string, w: string)
  {
    |s| == |w| && forall i :: 0 <= i < |s| ==> s[i] == w[i] || s[i] == UpperChar(w[i])
  }

  lemma LowerCharIs(c: char, x: char)
    requires !('A' <= x <= 'Z')
    ensures LowerChar(c) == x <==> c == x || c == UpperChar(x)
  {
  }

  /** Lower-casing `s` gives the lower-case word `w` exactly when `s` spells `w` ignoring case. */
  lemma LowerEqualsIff(s: string, w: string)
    requires IsLowerAscii(w)
    ensures ToLower(s) == w <==> MatchesIgnoringCase(s, w)
  {
    if ToLower(s) == w {
      forall i | 0 <= i < |s| ensures s[i] == w[i] || s[i] == UpperChar(w[i]) {
        LowerCharIs(s[i], w[i]);
      }
    }
    if MatchesIgnoringCase(s, w) {
      forall i | 0 <= i < |s| ensures ToLower(s)[i] == w[i] {
        LowerCharIs(s[i], w[i]);
      }
    }
  }

  /**
    The environment name isDEV compares: ENV, or APP_ENV when ENV is empty,
    or env when both are empty.
   */
  function SelectedEnv(vars: map<string, string>): (v: string)
    ensures Getenv(vars, "ENV") != "" ==> v == vars["ENV"]
    ensures Getenv(vars, "ENV") == "" && Getenv(vars, "APP_ENV") != "" ==> v == vars["APP_ENV"]
    ensures Getenv(vars, "ENV") == "" && Getenv(vars, "APP_ENV") == "" ==> v == Getenv(vars, "env")
  {
    if Getenv(vars, "ENV") != "" then Getenv(vars, "ENV")
    else if Getenv(vars, "APP_ENV") != "" then Getenv(vars, "APP_ENV")
    else Getenv(vars, "env")
  }

  /** The final comparison of isDEV on an already selected value. */
  function IsDevValue(env: string): (r: bool)
    ensures r <==> MatchesIgnoringCase(env, "dev") || MatchesIgnoringCase(env, "development")
  {
    LowerEqualsIff(env, "dev");
    LowerEqualsIff(env, "development");
    ToLower(env) == "dev" || ToLower(env) == "development"
  }

  /** isDEV: true when the selected environment name is `dev` or `development`, in any case. */
  function IsDev(vars: map<string, string>): (r: bool)
    ensures r <==> (MatchesIgnoringCase(SelectedEnv(vars), "dev") ||
                    MatchesIgnoringCase(SelectedEnv(vars), "development"))
  {
    IsDevValue(SelectedEnv(vars))
  }

  /** A non-empty ENV decides alone: APP_ENV and env are never read. */
  lemma EnvDecides(vars: map<string, string>, appEnv: string, lowerEnv: string)
    requires Getenv(vars, "ENV") != ""
    ensures IsDev(vars) == IsDevValue(vars["ENV"])
    ensures IsDev(vars["APP_ENV" := appEnv]["env" := lowerEnv]) == IsDev(vars)
  {
  }

  /** APP_ENV is consulted only when ENV is empty, and then env is never read. */
  lemma AppEnvDecidesWhenEnvEmpty(vars: map<string, string>, lowerEnv: string)
    requires Getenv(vars, "ENV") == "" && Getenv(vars, "APP_ENV") != ""
    ensures IsDev(vars) == IsDevValue(vars["APP_ENV"])
    ensures IsDev(vars["env" := lowerEnv]) == IsDev(vars)
  {
  }

  /** env is consulted only when both ENV and APP_ENV are empty. */
  lemma LowerEnvDecidesLast(vars: map<string, string>)
    requires Getenv(vars, "ENV") == "" && Getenv(vars, "APP_ENV") == ""
    ensures IsDev(vars) == IsDevValue(Getenv(vars, "env"))
  {
  }

  /** With all three variables unset or empty the process is not in development. */
  lemma UnsetIsNotDev(vars: map<string, string>)
    requires Getenv(vars, "ENV") == "" && Getenv(vars, "APP_ENV") == "" && Getenv(vars, "env") == ""
    ensures !IsDev(vars)
  {
  }

  /** Mixed case is accepted: ENV=Development means development. */
  lemma MixedCaseIsDev()
    ensures IsDev(map["ENV" := "Development"])
  {
    var vars := map["ENV" := "Development"];
    assert SelectedEnv(vars) == "Development";
    assert MatchesIgnoringCase("Development", "development");
  }

  /** APP_ENV=DEV with ENV unset means development. */
  lemma UpperCaseAppEnvIsDev()
    ensures IsDev(map["APP_ENV" := "DEV"])
  {
    var vars := map["APP_ENV" := "DEV"];
    assert Getenv(vars, "ENV") == "";
    assert SelectedEnv(vars) == "DEV";
    assert MatchesIgnoringCase("DEV", "dev");
  }

  /** ENV shadows APP_ENV: ENV=production with APP_ENV=dev is not development. */
  lemma EnvShadowsAppEnv()
    ensures !IsDev(map["ENV" := "production", "APP_ENV" := "dev"])
  {
    var vars := map["ENV" := "production", "APP_ENV" := "dev"];
    assert SelectedEnv(vars) == "production";
    assert !MatchesIgnoringCase("production", "dev");
    assert !MatchesIgnoringCase("production", "development");
  }
}
