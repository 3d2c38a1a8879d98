/**
 * The configuration module: five environment variables are read and, if any
 * is unset or empty, loading fails with a message naming every missing one in
 * a fixed order.
 */
module Config {
  import opened Wrappers
  import opened Js

  /** The raw environment; None is an unset variable. */
  datatype Environment = Environment(
    jiraClientId: Option<string>,
    jiraClientSecret: Option<string>,
    jiraRedirectUri: Option<string>,
    appUrl: Option<string>,
    sessionSecret: Option<string>)

  /** The variables in the order they are checked. */
  function Variables(env: Environment): seq<(string, Option<string>)> {
    [("JIRA_CLIENT_ID", env.jiraClientId),
     ("JIRA_CLIENT_SECRET", env.jiraClientSecret),
     ("JIRA_REDIRECT_URI", env.jiraRedirectUri),
     ("NEXT_PUBLIC_APP_URL", env.appUrl),
     ("SESSION_SECRET", env.sessionSecret)]
  }

  /** The names of the falsy variables, in order. */
  function MissingOf(vars: seq<(string, Option<string>)>): seq<string>
    decreases |vars|
  {
    if |vars| == 0 then []
    else
      var init := MissingOf(vars[..|vars| - 1]);
      var last := vars[|vars| - 1];
      if Truthy(last.1) then init else init + [last.0]
  }

  /** The values every importer sees once loading has succeeded. */
  datatype Settings = Settings(
    jiraClientId: string,
    jiraClientSecret: string,
    jiraRedirectUri: string,
    appUrl: string,
    sessionSecret: string)

  const MessagePrefix := "Missing required environment variables: "
  const MessageSuffix := ". Check your .env.local file or environment configuration."

  /** The thrown message: the fixed opening, the names separated by ", ", the fixed closing. */
  function MissingMessage(missing: seq<string>): (message: string)
    ensures StartsWith(message, MessagePrefix) && EndsWith(message, MessageSuffix)
    ensures |message| == |MessagePrefix| + |Join(missing, ", ")| + |MessageSuffix|
  {
    Framed(MessagePrefix, Join(missing, ", "), MessageSuffix);
    MessagePrefix + Join(missing, ", ") + MessageSuffix
  }

  function IfMissing(value: Option<string>, name: string): seq<string> {
    if Truthy(value) then [] else [name]
  }

  /** The filter over the five variables, written out. */
  lemma MissingOfVariables(env: Environment)
    ensures MissingOf(Variables(env)) ==
      IfMissing(env.jiraClientId, "JIRA_CLIENT_ID") + IfMissing(env.jiraClientSecret, "JIRA_CLIENT_SECRET") +
      IfMissing(env.jiraRedirectUri, "JIRA_REDIRECT_URI") + IfMissing(env.appUrl, "NEXT_PUBLIC_APP_URL") +
      IfMissing(env.sessionSecret, "SESSION_SECRET")
  {
    var v := Variables(env);
    assert v[..1][..0] == [];
    var m1 := IfMissing(env.jiraClientId, "JIRA_CLIENT_ID");
    assert MissingOf(v[..1]) == m1;
    assert v[..2][..1] == v[..1] && v[..2][1] == v[1];
    var m2 := m1 + IfMissing(env.jiraClientSecret, "JIRA_CLIENT_SECRET");
    assert MissingOf(v[..2]) == m2;
    assert v[..3][..2] == v[..2] && v[..3][2] == v[2];
    var m3 := m2 + IfMissing(env.jiraRedirectUri, "JIRA_REDIRECT_URI");
    assert MissingOf(v[..3]) == m3;
    assert v[..4][..3] == v[..3] && v[..4][3] == v[3];
    var m4 := m3 + IfMissing(env.appUrl, "NEXT_PUBLIC_APP_URL");
    assert MissingOf(v[..4]) == m4;
    assert v[..4] == v[..|v| - 1];
  }

  /** The five checks, one after the other. */
  method MissingVariables(env: Environment) returns (missing: seq<string>)
    ensures missing == MissingOf(Variables(env))
  {
    missing := [];
    if !Truthy(env.jiraClientId) { missing := missing + ["JIRA_CLIENT_ID"]; }
    ghost var m1 := IfMissing(env.jiraClientId, "JIRA_CLIENT_ID");
    assert missing == m1;
    if !Truthy(env.jiraClientSecret) { missing := missing + ["JIRA_CLIENT_SECRET"]; }
    ghost var m2 := m1 + IfMissing(env.jiraClientSecret, "JIRA_CLIENT_SECRET");
    assert missing == m2;
    if !Truthy(env.jiraRedirectUri) { missing := missing + ["JIRA_REDIRECT_URI"]; }
    ghost var m3 := m2 + IfMissing(env.jiraRedirectUri, "JIRA_REDIRECT_URI");
    assert missing == m3;
    if !Truthy(env.appUrl) { missing := missing + ["NEXT_PUBLIC_APP_URL"]; }
    ghost var m4 := m3 + IfMissing(env.appUrl, "NEXT_PUBLIC_APP_URL");
    assert missing == m4;
    if !Truthy(env.sessionSecret) { missing := missing + ["SESSION_SECRET"]; }
    assert missing == m4 + IfMissing(env.sessionSecret, "SESSION_SECRET");
    MissingOfVariables(env);
  }

  /** Loading the module: the settings, or the error it throws. */
  method ReadEnvironment(env: Environment) returns (r: Result<Settings, string>)
    ensures r.Failure? <==> exists k :: 0 <= k < 5 && !Truthy(Variables(env)[k].1)
    ensures r.Failure? ==> r.error == MissingMessage(MissingOf(Variables(env)))
    ensures r.Success? ==>
      env.jiraClientId.Some? && env.jiraClientSecret.Some? && env.jiraRedirectUri.Some? &&
      env.appUrl.Some? && env.sessionSecret.Some? &&
      r.value == Settings(env.jiraClientId.value, env.jiraClientSecret.value, env.jiraRedirectUri.value,
                          env.appUrl.value, env.sessionSecret.value)
  {
    var missing := MissingVariables(env);
    ghost var positions := MissingPositions(Variables(env));
    if |missing| > 0 {
      return Failure(MissingMessage(missing));
    }
    assert Truthy(Variables(env)[0].1) && Truthy(Variables(env)[1].1) && Truthy(Variables(env)[2].1);
    assert Truthy(Variables(env)[3].1) && Truthy(Variables(env)[4].1);
    r := Success(Settings(env.jiraClientId.value, env.jiraClientSecret.value, env.jiraRedirectUri.value,
                          env.appUrl.value, env.sessionSecret.value));
  }

  /**
   * The missing list is exactly the falsy variables, in their order: the j-th
   * name comes from position `idx[j]`, the positions increase, and every falsy
   * position is listed.
   */
  lemma {:induction false} MissingPositions(vars: seq<(string, Option<string>)>) returns (idx: seq<int>)
    ensures var missing := MissingOf(vars);
            |idx| == |missing| &&
            (forall j :: 0 <= j < |idx| ==> 0 <= idx[j] < |vars| && vars[idx[j]].0 == missing[j] && !Truthy(vars[idx[j]].1)) &&
            (forall i, j :: 0 <= i < j < |idx| ==> idx[i] < idx[j]) &&
            (forall k :: 0 <= k < |vars| && !Truthy(vars[k].1) ==> k in idx)
    decreases |vars|
  {
    if |vars| == 0 {
      idx := [];
    } else {
      var n := |vars| - 1;
      var init := MissingPositions(vars[..n]);
      if Truthy(vars[n].1) {
        idx := init;
      } else {
        idx := init + [n];
      }
    }
  }

  /** With every variable set, nothing is missing; with none set, all five are, in order. */
  lemma MissingExtremes(env: Environment)
    ensures (Truthy(env.jiraClientId) && Truthy(env.jiraClientSecret) && Truthy(env.jiraRedirectUri) &&
             Truthy(env.appUrl) && Truthy(env.sessionSecret)) ==> MissingOf(Variables(env)) == []
    ensures (!Truthy(env.jiraClientId) && !Truthy(env.jiraClientSecret) && !Truthy(env.jiraRedirectUri) &&
             !Truthy(env.appUrl) && !Truthy(env.sessionSecret)) ==>
      MissingOf(Variables(env)) == ["JIRA_CLIENT_ID", "JIRA_CLIENT_SECRET", "JIRA_REDIRECT_URI", "NEXT_PUBLIC_APP_URL", "SESSION_SECRET"]
  {
    MissingOfVariables(env);
  }

  /** An empty value counts as missing, just like an unset one. */
  lemma EmptyIsMissing(env: Environment)
    requires env.jiraClientSecret == Some("") && env.sessionSecret == None
    requires Truthy(env.jiraClientId) && Truthy(env.jiraRedirectUri) && Truthy(env.appUrl)
    ensures MissingOf(Variables(env)) == ["JIRA_CLIENT_SECRET", "SESSION_SECRET"]
  {
    MissingOfVariables(env);
  }

  /** The message names every missing variable. */
  lemma MessageNamesEveryMissing(missing: seq<string>)
    ensures forall k :: 0 <= k < |missing| ==> Includes(MissingMessage(missing), missing[k])
  {
    forall k | 0 <= k < |missing| ensures Includes(MissingMessage(missing), missing[k]) {
      var a, c := JoinSplitAt(missing, ", ", k);
      assert MissingMessage(missing) == (MessagePrefix + a) + missing[k] + (c + MessageSuffix);
      IncludesMiddle(MessagePrefix + a, missing[k], c + MessageSuffix);
    }
  }

  /** Every part of a join sits between two strings. */
  lemma {:induction false} JoinSplitAt(parts: seq<string>, sep: string, k: nat) returns (a: string, c: string)
    requires k < |parts|
    ensures Join(parts, sep) == a + parts[k] + c
    decreases |parts|
  {
    if k == 0 {
      a := "";
      c := if |parts| == 1 then "" else sep + Join(parts[1..], sep);
    } else {
      var a', c' := JoinSplitAt(parts[1..], sep, k - 1);
      a := parts[0] + sep + a';
      c := c';
    }
  }
}
