/**
 * The start-up check of src/utils/checkEnvVars.ts: which of the seven
 * required environment variables are missing, and the message it reports.
 * The environment is a read-only map from variable name to value.
 */
module EnvCheck {
  import opened Wrappers
  import opened Strings

  /** The required variables, in the order the check visits them. */
  const RequiredEnvVars: seq<string> := [
    "NODE_ENV",
    "PORT",
    "DATABASE",
    "AUTH_URL",
    "RATELIMIT_MAXCONNECTIONS",
    "RATELIMIT_WINDOWMS",
    "CORS_WHITELIST"
  ]

  const MissingPrefix := "Missing environment variables: "

  /** `!process.env[name]`: the variable is unset or set to the empty string. */
  predicate IsMissing(env: map<string, string>, name: string)
  {
    name !in env || env[name] == ""
  }

  /** The missing names among `names`, kept in the order of `names`. */
  function MissingFrom(env: map<string, string>, names: seq<string>): (missing: seq<string>)
    ensures |missing| <= |names|
  {
    if names == [] then []
    else
      var last := names[|names| - 1];
      MissingFrom(env, names[..|names| - 1]) + (if IsMissing(env, last) then [last] else [])
  }

  /** A name is reported exactly when it is one of the names checked and it is missing. */
  lemma {:induction false} MissingFromMembers(env: map<string, string>, names: seq<string>)
    ensures forall x :: x in MissingFrom(env, names) <==> x in names && IsMissing(env, x)
  {
    if names != [] {
      var init := names[..|names| - 1];
      MissingFromMembers(env, init);
      assert names == init + [names[|names| - 1]];
    }
  }

  /** A variable set to the empty string is reported like an unset one. */
  lemma EmptyValueIsMissing(env: map<string, string>)
    requires forall i :: 0 <= i < |RequiredEnvVars| ==> RequiredEnvVars[i] in env
    requires forall i :: 0 <= i < |RequiredEnvVars| ==> (env[RequiredEnvVars[i]] == "" <==> i == 1)
    ensures MissingFrom(env, RequiredEnvVars) == ["PORT"]
  {
    var r := RequiredEnvVars;
    assert IsMissing(env, r[1]);
    assert !IsMissing(env, r[0]) && !IsMissing(env, r[2]) && !IsMissing(env, r[3]);
    assert !IsMissing(env, r[4]) && !IsMissing(env, r[5]) && !IsMissing(env, r[6]);
    assert MissingFrom(env, r[..1]) == [] by { assert r[..1][..0] == []; }
    assert MissingFrom(env, r[..2]) == ["PORT"] by { assert r[..2][..1] == r[..1]; }
    assert MissingFrom(env, r[..3]) == ["PORT"] by { assert r[..3][..2] == r[..2]; }
    assert MissingFrom(env, r[..4]) == ["PORT"] by { assert r[..4][..3] == r[..3]; }
    assert MissingFrom(env, r[..5]) == ["PORT"] by { assert r[..5][..4] == r[..4]; }
    assert MissingFrom(env, r[..6]) == ["PORT"] by { assert r[..6][..5] == r[..5]; }
    assert r[..7] == r && r[..7][..6] == r[..6];
  }

  /**
   * `checkEnvVars()`: reports whether some required variable is missing and,
   * when one is, the message it logs: the missing names in declaration order
   * joined with ", ".
   */
  method CheckEnvVars(env: map<string, string>) returns (anyMissing: bool, report: Option<string>)
    ensures anyMissing <==> exists i :: 0 <= i < |RequiredEnvVars| && IsMissing(env, RequiredEnvVars[i])
    ensures anyMissing ==> report == Some(MissingPrefix + Join(MissingFrom(env, RequiredEnvVars), ", "))
    ensures !anyMissing ==> report == None
  {
    var missing: seq<string> := [];
    for i := 0 to |RequiredEnvVars|
      invariant missing == MissingFrom(env, RequiredEnvVars[..i])
    {
      var name := RequiredEnvVars[i];
      assert RequiredEnvVars[..i + 1] == RequiredEnvVars[..i] + [name];
      if IsMissing(env, name) {
        missing := missing + [name];
      }
    }
    assert RequiredEnvVars[..|RequiredEnvVars|] == RequiredEnvVars;
    MissingFromMembers(env, RequiredEnvVars);
    if |missing| > 0 {
      assert missing[0] in RequiredEnvVars && IsMissing(env, missing[0]);
      anyMissing := true;
      report := Some(MissingPrefix + Join(missing, ", "));
    } else {
      anyMissing := false;
      report := None;
      forall i | 0 <= i < |RequiredEnvVars|
        ensures !IsMissing(env, RequiredEnvVars[i])
      {
        assert RequiredEnvVars[i] !in missing;
      }
    }
  }
}
