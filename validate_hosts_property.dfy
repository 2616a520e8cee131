/** The `ValidateHostsProperty` condition: it holds when the hosts property
    is set and throws `InvalidParameterException` otherwise. The data module
    and the common module each carry a copy of it. */
module ValidateHostsProperty {
  import opened JavaLang
  import SpringDataAerospike

  datatype ConditionError = InvalidParameter(message: string)

  const HOSTS_KEY: string := SpringDataAerospike.CONFIG_PREFIX_CONNECTION + ".hosts"

  const MISSING_HOSTS_MESSAGE: string := "Required property '" + HOSTS_KEY + "' is missing"

  /** `matches` of the data module's copy. */
  function Matches(env: Environment): (r: Result<bool, ConditionError>)
    ensures r.Ok? ==> r.value
    ensures r.Err? <==> HOSTS_KEY !in env || env[HOSTS_KEY] == ""
    ensures r.Err? ==> r.error == InvalidParameter(MISSING_HOSTS_MESSAGE)
  {
    var hosts := GetProperty(env, HOSTS_KEY);
    var hasHosts := hosts.Some? && !IsEmpty(hosts.value);
    if !hasHosts then Err(InvalidParameter("Required property '" + HOSTS_KEY + "' is missing"))
    else Ok(true)
  }

  /** `matches` of the common module's copy. */
  function CommonMatches(env: Environment): (r: Result<bool, ConditionError>)
    ensures r.Ok? ==> r.value
    ensures r.Err? <==> HOSTS_KEY !in env || env[HOSTS_KEY] == ""
    ensures r.Err? ==> r.error == InvalidParameter(MISSING_HOSTS_MESSAGE)
  {
    var hosts := GetProperty(env, HOSTS_KEY);
    if hosts.None? || IsEmpty(hosts.value) then Err(InvalidParameter(MISSING_HOSTS_MESSAGE))
    else Ok(true)
  }

  /** The two copies decide and report identically. */
  lemma CopiesAgree(env: Environment)
    ensures Matches(env) == CommonMatches(env)
  {
  }

  /** The key checked and the message thrown, written out. */
  lemma KeyAndMessage()
    ensures HOSTS_KEY == "spring.aerospike.hosts"
    ensures MISSING_HOSTS_MESSAGE == "Required property 'spring.aerospike.hosts' is missing"
  {
  }

  /** A hosts value of spaces passes: only absence and emptiness are refused. */
  lemma BlankHostsPass()
    ensures Matches(map[HOSTS_KEY := " "]) == Ok(true)
  {
  }
}
