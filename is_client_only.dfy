/** The `IsClientOnly` condition: the application runs without the data
    layer when the client-only flag says so or when no namespace is set. */
module IsClientOnly {
  import opened JavaLang
  import SpringDataAerospike

  const CLIENT_ONLY_KEY: string := "starters.aerospike.client-only"
  const NAMESPACE_KEY: string := SpringDataAerospike.CONFIG_PREFIX_DATA + ".namespace"

  /** The flag counts only when it is set and reads "true" ignoring case. */
  predicate ClientOnlyFlag(env: Environment) {
    var v := GetProperty(env, CLIENT_ONLY_KEY);
    v.Some? && EqualsIgnoreCase(v.value, "true")
  }

  /** A namespace counts when it is set and not empty; whitespace counts as a namespace. */
  predicate HasNamespace(env: Environment) {
    var ns := GetProperty(env, NAMESPACE_KEY);
    ns.Some? && !IsEmpty(ns.value)
  }

  /** `matches`: client-only unless a namespace is given and the flag is not set. */
  function Matches(env: Environment): (r: bool)
    ensures r <==> (CLIENT_ONLY_KEY in env && EqualsIgnoreCase(env[CLIENT_ONLY_KEY], "true"))
                   || NAMESPACE_KEY !in env || env[NAMESPACE_KEY] == ""
  {
    ClientOnlyFlag(env) || !HasNamespace(env)
  }

  /** The data layer is configured exactly when a non-empty namespace is set
      and the flag is absent or anything other than "true". */
  lemma DataModeIff(env: Environment)
    ensures !Matches(env) <==>
      NAMESPACE_KEY in env && env[NAMESPACE_KEY] != ""
      && (CLIENT_ONLY_KEY !in env || !EqualsIgnoreCase(env[CLIENT_ONLY_KEY], "true"))
  {
  }

  /** The flag key and the namespace key are different keys. */
  lemma KeysDiffer()
    ensures CLIENT_ONLY_KEY != NAMESPACE_KEY
  {
    assert CLIENT_ONLY_KEY[1] != NAMESPACE_KEY[1];
  }

  /** Only the two keys matter: environments that agree on them agree on the result. */
  lemma OnlyTwoKeysMatter(env1: Environment, env2: Environment)
    requires GetProperty(env1, CLIENT_ONLY_KEY) == GetProperty(env2, CLIENT_ONLY_KEY)
    requires GetProperty(env1, NAMESPACE_KEY) == GetProperty(env2, NAMESPACE_KEY)
    ensures Matches(env1) == Matches(env2)
  {
  }

  /** "true" is matched ignoring case, so "TRUE" and "True" switch client-only mode on too. */
  lemma FlagIgnoresCase(env: Environment, v: string)
    requires v == "true" || v == "TRUE" || v == "True" || v == "tRuE"
    ensures Matches(env[CLIENT_ONLY_KEY := v])
  {
    var e := env[CLIENT_ONLY_KEY := v];
    assert GetProperty(e, CLIENT_ONLY_KEY) == Some(v);
    assert EqualsIgnoreCase(v, "true");
  }

  /** Any other flag value, "false" and "yes" included, leaves the decision to the namespace. */
  lemma OtherFlagValuesDefer(env: Environment, v: string)
    requires !EqualsIgnoreCase(v, "true")
    ensures Matches(env[CLIENT_ONLY_KEY := v]) == !HasNamespace(env)
  {
    KeysDiffer();
    var e := env[CLIENT_ONLY_KEY := v];
    assert GetProperty(e, NAMESPACE_KEY) == GetProperty(env, NAMESPACE_KEY);
  }

  /** A namespace made only of spaces is not empty, so it selects the data layer. */
  lemma WhitespaceNamespaceCounts()
    ensures !Matches(map[NAMESPACE_KEY := " "])
  {
    KeysDiffer();
  }

  /** The worked cases: an empty environment, a namespace alone, a namespace
      with the flag, and an empty namespace. */
  lemma Examples()
    ensures Matches(map[])
    ensures !Matches(map[NAMESPACE_KEY := "test"])
    ensures Matches(map[NAMESPACE_KEY := "test", CLIENT_ONLY_KEY := "true"])
    ensures Matches(map[NAMESPACE_KEY := ""])
    ensures !Matches(map[NAMESPACE_KEY := "test", CLIENT_ONLY_KEY := "false"])
  {
    KeysDiffer();
    assert EqualsIgnoreCase("true", "true");
    assert !EqualsIgnoreCase("false", "true") by {
      assert |"false"| != |"true"|;
    }
  }
}
