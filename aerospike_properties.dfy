/** `AerospikeProperties`: the `spring.aerospike.*` settings. The record is
    the union of the fields the configuration utilities read; every field
    that Java holds as a nullable reference is an `Option`. */
module AerospikeProperties {
  import opened JavaLang
  import opened AerospikeClient

  /** The fields shared by every command policy (`PolicyDefault`,
      and `ReadPolicyDefault`, which adds nothing). */
  datatype PolicyDefault = PolicyDefault(
    socketTimeout: Option<Duration>,
    totalTimeout: Option<Duration>,
    timeoutDelay: Option<Duration>,
    maxRetries: Option<Int32>,
    sleepBetweenRetries: Option<Duration>,
    sendKey: Option<bool>)

  datatype WritePolicyDefault = WritePolicyDefault(general: PolicyDefault, durableDelete: Option<bool>)

  datatype BatchPolicyDefault = BatchPolicyDefault(
    general: PolicyDefault,
    maxConcurrentThreads: Option<Int32>,
    allowInline: Option<bool>,
    sendSetName: Option<bool>)

  datatype QueryPolicyDefault = QueryPolicyDefault(
    general: PolicyDefault,
    maxRecords: Option<Int64>,
    failOnClusterChange: Option<bool>,
    includeBinData: Option<bool>,
    maxConcurrentNodes: Option<Int32>,
    recordQueueSize: Option<Int32>)

  datatype InfoPolicyDefault = InfoPolicyDefault(timeout: Option<Duration>)

  /** `BatchWritePolicyDefault`, `BatchDeletePolicyDefault` and `BatchUDFPolicyDefault`. */
  datatype DurableDeletePolicyDefault = DurableDeletePolicyDefault(durableDelete: Option<bool>)

  /** `EventLoopsProperties`: loop kind, group kind, thread settings and the
      six `EventPolicy` counters, modelled as nullable in case they are boxed. */
  datatype EventLoopsProperties = EventLoopsProperties(
    eventLoopsType: Option<string>,
    groupType: Option<string>,
    threads: Int32,
    nioDaemonThreads: bool,
    nioPoolName: Option<string>,
    maxCommandsInProcess: Option<Int32>,
    maxCommandsInQueue: Option<Int32>,
    queueInitialCapacity: Option<Int32>,
    minTimeout: Option<Int32>,
    ticksPerWheel: Option<Int32>,
    commandsPerEventLoop: Option<Int32>)

  datatype Properties = Properties(
    hosts: Option<string>,
    user: Option<string>,
    password: Option<string>,
    clusterName: Option<string>,
    authMode: Option<AuthMode>,
    connectTimeout: Option<Duration>,
    loginTimeout: Option<Duration>,
    minConnsPerNode: Option<Int32>,
    maxConnsPerNode: Option<Int32>,
    connPoolsPerNode: Option<Int32>,
    maxSocketIdle: Option<Duration>,
    tendInterval: Option<Duration>,
    failIfNotConnected: Option<bool>,
    defaultPort: Int32,
    read: PolicyDefault,
    write: WritePolicyDefault,
    batch: BatchPolicyDefault,
    query: QueryPolicyDefault,
    info: InfoPolicyDefault,
    batchWrite: DurableDeletePolicyDefault,
    batchDelete: DurableDeletePolicyDefault,
    batchUdf: DurableDeletePolicyDefault,
    eventLoops: EventLoopsProperties)

  // Defaults of fields declared in a newer version of `AerospikeProperties`
  // (and its `EventLoopsProperties`) than the repository's
  // `aerospike/AerospikeProperties.java`.
  const DEFAULT_PORT: Int32
  const EVENT_LOOPS_PROPERTIES_DEFAULTS: EventLoopsProperties

  /** A policy record with nothing set, as `new ReadPolicyDefault()` is. */
  function NoPolicyDefaults(): (d: PolicyDefault)
    ensures d.socketTimeout.None? && d.totalTimeout.None? && d.timeoutDelay.None?
    ensures d.maxRetries.None? && d.sleepBetweenRetries.None? && d.sendKey.None?
  {
    PolicyDefault(None, None, None, None, None, None)
  }

  /** The field initialisers: a 10-second connect timeout, `failIfNotConnected`
      on, every other value absent and every sub-record empty. */
  function Defaults(): (p: Properties)
    ensures p.connectTimeout == Some(OfSeconds(10))
    ensures p.failIfNotConnected == Some(true)
    ensures p.hosts.None? && p.user.None? && p.password.None? && p.clusterName.None?
    ensures p.authMode.None? && p.loginTimeout.None? && p.minConnsPerNode.None?
    ensures p.maxConnsPerNode.None? && p.connPoolsPerNode.None?
    ensures p.maxSocketIdle.None? && p.tendInterval.None?
    ensures p.read == NoPolicyDefaults() && p.write == WritePolicyDefault(NoPolicyDefaults(), None)
    ensures p.batch == BatchPolicyDefault(NoPolicyDefaults(), None, None, None)
    ensures p.query == QueryPolicyDefault(NoPolicyDefaults(), None, None, None, None, None)
    ensures p.info.timeout.None?
    ensures p.batchWrite.durableDelete.None? && p.batchDelete.durableDelete.None? && p.batchUdf.durableDelete.None?
  {
    Properties(None, None, None, None, None, Some(OfSeconds(10)), None, None, None, None, None, None,
      Some(true), DEFAULT_PORT,
      NoPolicyDefaults(),
      WritePolicyDefault(NoPolicyDefaults(), None),
      BatchPolicyDefault(NoPolicyDefaults(), None, None, None),
      QueryPolicyDefault(NoPolicyDefaults(), None, None, None, None, None),
      InfoPolicyDefault(None),
      DurableDeletePolicyDefault(None),
      DurableDeletePolicyDefault(None),
      DurableDeletePolicyDefault(None),
      EVENT_LOOPS_PROPERTIES_DEFAULTS)
  }

  /** The default connect timeout is 10 000 ms. */
  lemma DefaultConnectTimeoutMillis()
    ensures ToMillis(Defaults().connectTimeout.value) == 10_000
  {
  }
}
