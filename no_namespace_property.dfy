/** The legacy `NoNamespaceProperty` condition: true when no data namespace is set. */
module NoNamespaceProperty {
  import opened JavaLang
  import IsClientOnly

  const NAMESPACE_KEY: string := "spring.data.aerospike.namespace"

  /** `matches`: the namespace is absent or empty. */
  function Matches(env: Environment): (r: bool)
    ensures r <==> NAMESPACE_KEY !in env || |env[NAMESPACE_KEY]| == 0
  {
    var ns := GetProperty(env, NAMESPACE_KEY);
    ns.None? || IsEmpty(ns.value)
  }

  /** The hard-coded key is the one `IsClientOnly` builds from the data prefix. */
  lemma SameNamespaceKey()
    ensures NAMESPACE_KEY == IsClientOnly.NAMESPACE_KEY
  {
  }

  /** Whenever this condition holds, `IsClientOnly` holds too. */
  lemma ImpliesClientOnly(env: Environment)
    ensures Matches(env) ==> IsClientOnly.Matches(env)
  {
    SameNamespaceKey();
  }

  /** Without the client-only flag the two conditions agree. */
  lemma AgreesWithoutFlag(env: Environment)
    requires !IsClientOnly.ClientOnlyFlag(env)
    ensures Matches(env) == IsClientOnly.Matches(env)
  {
    SameNamespaceKey();
  }

  /** With the flag the two can differ: client-only with a namespace set. */
  lemma DiffersWithFlag()
    ensures var env := map[NAMESPACE_KEY := "test", IsClientOnly.CLIENT_ONLY_KEY := "true"];
            !Matches(env) && IsClientOnly.Matches(env)
  {
    var env := map[NAMESPACE_KEY := "test", IsClientOnly.CLIENT_ONLY_KEY := "true"];
    IsClientOnly.KeysDiffer();
    SameNamespaceKey();
    assert env[NAMESPACE_KEY] == "test";
    assert EqualsIgnoreCase("true", "true");
  }
}
