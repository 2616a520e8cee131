/** The parts of the Aerospike Java client the configuration writes into:
    the policy classes with their public mutable fields, the event-loop
    types and the Netty loop groups. The constructor defaults are defined by
    the Aerospike client library, so they are constants of unknown value. Java
    inheritance (`WritePolicy extends Policy`, ...) is modelled by a `base`
    sub-object holding the inherited `Policy` fields. */
module AerospikeClient {
  import opened JavaLang

  datatype AuthMode = Internal | External | ExternalInsecure | Pki

  /** A Netty `EventLoopGroup` and the thread count it was built with. */
  datatype LoopGroup =
    | NioEventLoopGroup(threads: Int32)
    | EpollEventLoopGroup(threads: Int32)
    | KQueueEventLoopGroup(threads: Int32)

  datatype EventPolicyState = EventPolicyState(
    maxCommandsInProcess: Int32,
    maxCommandsInQueue: Int32,
    queueInitialCapacity: Int32,
    minTimeout: Int32,
    ticksPerWheel: Int32,
    commandsPerEventLoop: Int32)

  /** `NettyEventLoops(policy, group)` or `NioEventLoops(policy, threads, daemon, poolName)`. */
  datatype EventLoops =
    | NettyEventLoops(policy: EventPolicyState, group: LoopGroup)
    | NioEventLoops(policy: EventPolicyState, threads: Int32, daemon: bool, poolName: Option<string>)

  /** The fields of `Policy` that the configuration sets. */
  datatype PolicyState = PolicyState(
    socketTimeout: Int32,
    totalTimeout: Int32,
    timeoutDelay: Int32,
    maxRetries: Int32,
    sleepBetweenRetries: Int32,
    sendKey: bool)

  datatype WritePolicyState = WritePolicyState(general: PolicyState, durableDelete: bool)

  datatype BatchPolicyState = BatchPolicyState(
    general: PolicyState,
    maxConcurrentThreads: Int32,
    allowInline: bool,
    sendSetName: bool)

  datatype QueryPolicyState = QueryPolicyState(
    general: PolicyState,
    maxRecords: Int64,
    failOnClusterChange: bool,
    includeBinData: bool,
    maxConcurrentNodes: Int32,
    recordQueueSize: Int32)

  datatype InfoPolicyState = InfoPolicyState(timeout: Int32)

  /** `BatchWritePolicy`, `BatchDeletePolicy` and `BatchUDFPolicy`: only `durableDelete` is set. */
  datatype DurableDeleteState = DurableDeleteState(durableDelete: bool)

  /** The twelve scalar fields of `ClientPolicy` that the configuration sets. */
  datatype ClientFields = ClientFields(
    user: Option<string>,
    password: Option<string>,
    clusterName: Option<string>,
    authMode: AuthMode,
    timeout: Int32,
    loginTimeout: Int32,
    minConnsPerNode: Int32,
    maxConnsPerNode: Int32,
    connPoolsPerNode: Int32,
    maxSocketIdle: Int32,
    tendInterval: Int32,
    failIfNotConnected: bool)

  /** A `ClientPolicy` with the states of the sub-policies it points to. */
  datatype ClientPolicyState = ClientPolicyState(
    fields: ClientFields,
    read: PolicyState,
    write: WritePolicyState,
    batch: BatchPolicyState,
    query: QueryPolicyState,
    info: InfoPolicyState,
    batchWrite: DurableDeleteState,
    batchDelete: DurableDeleteState,
    batchUdf: DurableDeleteState,
    eventLoops: Option<EventLoops>)

  // Constructor defaults, defined by the Aerospike client library.
  const POLICY_DEFAULTS: PolicyState
  const WRITE_POLICY_DEFAULTS: WritePolicyState
  const BATCH_POLICY_DEFAULTS: BatchPolicyState
  const QUERY_POLICY_DEFAULTS: QueryPolicyState
  const INFO_POLICY_DEFAULTS: InfoPolicyState
  const BATCH_WRITE_POLICY_DEFAULTS: DurableDeleteState
  const BATCH_DELETE_POLICY_DEFAULTS: DurableDeleteState
  const BATCH_UDF_POLICY_DEFAULTS: DurableDeleteState
  const EVENT_POLICY_DEFAULTS: EventPolicyState
  const CLIENT_FIELD_DEFAULTS: ClientFields
  const CLIENT_EVENT_LOOPS_DEFAULT: Option<EventLoops>

  /** What `new ClientPolicy()` holds, sub-policies included. */
  const CLIENT_POLICY_DEFAULTS: ClientPolicyState :=
    ClientPolicyState(CLIENT_FIELD_DEFAULTS, POLICY_DEFAULTS, WRITE_POLICY_DEFAULTS,
      BATCH_POLICY_DEFAULTS, QUERY_POLICY_DEFAULTS, INFO_POLICY_DEFAULTS,
      BATCH_WRITE_POLICY_DEFAULTS, BATCH_DELETE_POLICY_DEFAULTS, BATCH_UDF_POLICY_DEFAULTS,
      CLIENT_EVENT_LOOPS_DEFAULT)

  class Policy {
    var socketTimeout: Int32
    var totalTimeout: Int32
    var timeoutDelay: Int32
    var maxRetries: Int32
    var sleepBetweenRetries: Int32
    var sendKey: bool

    function State(): PolicyState
      reads this
    {
      PolicyState(socketTimeout, totalTimeout, timeoutDelay, maxRetries, sleepBetweenRetries, sendKey)
    }

    /** `new Policy()`. */
    constructor ()
      ensures State() == POLICY_DEFAULTS
    {
      socketTimeout, totalTimeout, timeoutDelay := POLICY_DEFAULTS.socketTimeout,
        POLICY_DEFAULTS.totalTimeout, POLICY_DEFAULTS.timeoutDelay;
      maxRetries, sleepBetweenRetries, sendKey := POLICY_DEFAULTS.maxRetries,
        POLICY_DEFAULTS.sleepBetweenRetries, POLICY_DEFAULTS.sendKey;
    }

    /** The `Policy` part of a subclass, initialised with that subclass's defaults. */
    constructor Inherited(defaults: PolicyState)
      ensures State() == defaults
    {
      socketTimeout, totalTimeout, timeoutDelay := defaults.socketTimeout,
        defaults.totalTimeout, defaults.timeoutDelay;
      maxRetries, sleepBetweenRetries, sendKey := defaults.maxRetries,
        defaults.sleepBetweenRetries, defaults.sendKey;
    }
  }

  class WritePolicy {
    const base: Policy
    var durableDelete: bool

    function State(): WritePolicyState
      reads this, base
    {
      WritePolicyState(base.State(), durableDelete)
    }

    constructor ()
      ensures fresh(base)
      ensures State() == WRITE_POLICY_DEFAULTS
    {
      base := new Policy.Inherited(WRITE_POLICY_DEFAULTS.general);
      durableDelete := WRITE_POLICY_DEFAULTS.durableDelete;
    }
  }

  class BatchPolicy {
    const base: Policy
    var maxConcurrentThreads: Int32
    var allowInline: bool
    var sendSetName: bool

    function State(): BatchPolicyState
      reads this, base
    {
      BatchPolicyState(base.State(), maxConcurrentThreads, allowInline, sendSetName)
    }

    constructor ()
      ensures fresh(base)
      ensures State() == BATCH_POLICY_DEFAULTS
    {
      base := new Policy.Inherited(BATCH_POLICY_DEFAULTS.general);
      maxConcurrentThreads := BATCH_POLICY_DEFAULTS.maxConcurrentThreads;
      allowInline := BATCH_POLICY_DEFAULTS.allowInline;
      sendSetName := BATCH_POLICY_DEFAULTS.sendSetName;
    }
  }

  class QueryPolicy {
    const base: Policy
    var maxRecords: Int64
    var failOnClusterChange: bool
    var includeBinData: bool
    var maxConcurrentNodes: Int32
    var recordQueueSize: Int32

    function State(): QueryPolicyState
      reads this, base
    {
      QueryPolicyState(base.State(), maxRecords, failOnClusterChange, includeBinData,
        maxConcurrentNodes, recordQueueSize)
    }

    constructor ()
      ensures fresh(base)
      ensures State() == QUERY_POLICY_DEFAULTS
    {
      base := new Policy.Inherited(QUERY_POLICY_DEFAULTS.general);
      maxRecords := QUERY_POLICY_DEFAULTS.maxRecords;
      failOnClusterChange := QUERY_POLICY_DEFAULTS.failOnClusterChange;
      includeBinData := QUERY_POLICY_DEFAULTS.includeBinData;
      maxConcurrentNodes := QUERY_POLICY_DEFAULTS.maxConcurrentNodes;
      recordQueueSize := QUERY_POLICY_DEFAULTS.recordQueueSize;
    }
  }

  class InfoPolicy {
    var timeout: Int32

    function State(): InfoPolicyState
      reads this
    {
      InfoPolicyState(timeout)
    }

    constructor ()
      ensures State() == INFO_POLICY_DEFAULTS
    {
      timeout := INFO_POLICY_DEFAULTS.timeout;
    }
  }

  class BatchWritePolicy {
    var durableDelete: bool

    function State(): DurableDeleteState
      reads this
    {
      DurableDeleteState(durableDelete)
    }

    constructor ()
      ensures State() == BATCH_WRITE_POLICY_DEFAULTS
    {
      durableDelete := BATCH_WRITE_POLICY_DEFAULTS.durableDelete;
    }
  }

  class BatchDeletePolicy {
    var durableDelete: bool

    function State(): DurableDeleteState
      reads this
    {
      DurableDeleteState(durableDelete)
    }

    constructor ()
      ensures State() == BATCH_DELETE_POLICY_DEFAULTS
    {
      durableDelete := BATCH_DELETE_POLICY_DEFAULTS.durableDelete;
    }
  }

  class BatchUDFPolicy {
    var durableDelete: bool

    function State(): DurableDeleteState
      reads this
    {
      DurableDeleteState(durableDelete)
    }

    constructor ()
      ensures State() == BATCH_UDF_POLICY_DEFAULTS
    {
      durableDelete := BATCH_UDF_POLICY_DEFAULTS.durableDelete;
    }
  }

  class EventPolicy {
    var maxCommandsInProcess: Int32
    var maxCommandsInQueue: Int32
    var queueInitialCapacity: Int32
    var minTimeout: Int32
    var ticksPerWheel: Int32
    var commandsPerEventLoop: Int32

    function State(): EventPolicyState
      reads this
    {
      EventPolicyState(maxCommandsInProcess, maxCommandsInQueue, queueInitialCapacity,
        minTimeout, ticksPerWheel, commandsPerEventLoop)
    }

    constructor ()
      ensures State() == EVENT_POLICY_DEFAULTS
    {
      maxCommandsInProcess := EVENT_POLICY_DEFAULTS.maxCommandsInProcess;
      maxCommandsInQueue := EVENT_POLICY_DEFAULTS.maxCommandsInQueue;
      queueInitialCapacity := EVENT_POLICY_DEFAULTS.queueInitialCapacity;
      minTimeout := EVENT_POLICY_DEFAULTS.minTimeout;
      ticksPerWheel := EVENT_POLICY_DEFAULTS.ticksPerWheel;
      commandsPerEventLoop := EVENT_POLICY_DEFAULTS.commandsPerEventLoop;
    }
  }

  /** `ClientPolicy`. Its twelve scalar fields are grouped in one record
      field, `fields`; the sub-policies are references to policy objects. */
  class ClientPolicy {
    var fields: ClientFields
    var readPolicyDefault: Policy
    var writePolicyDefault: WritePolicy
    var batchPolicyDefault: BatchPolicy
    var queryPolicyDefault: QueryPolicy
    var infoPolicyDefault: InfoPolicy
    var batchWritePolicyDefault: BatchWritePolicy
    var batchDeletePolicyDefault: BatchDeletePolicy
    var batchUDFPolicyDefault: BatchUDFPolicy
    var eventLoops: Option<EventLoops>

    /** The objects `State()` depends on besides `this`. */
    function SubPolicies(): set<object>
      reads this
    {
      {readPolicyDefault, writePolicyDefault, writePolicyDefault.base, batchPolicyDefault,
       batchPolicyDefault.base, queryPolicyDefault, queryPolicyDefault.base, infoPolicyDefault,
       batchWritePolicyDefault, batchDeletePolicyDefault, batchUDFPolicyDefault}
    }

    function State(): ClientPolicyState
      reads this, SubPolicies()
    {
      ClientPolicyState(fields, readPolicyDefault.State(), writePolicyDefault.State(),
        batchPolicyDefault.State(), queryPolicyDefault.State(), infoPolicyDefault.State(),
        batchWritePolicyDefault.State(), batchDeletePolicyDefault.State(),
        batchUDFPolicyDefault.State(), eventLoops)
    }

    /** `new ClientPolicy()`: library defaults, each sub-policy a fresh default object. */
    constructor ()
      ensures fresh(readPolicyDefault) && fresh(writePolicyDefault) && fresh(writePolicyDefault.base)
      ensures fresh(batchPolicyDefault) && fresh(batchPolicyDefault.base)
      ensures fresh(queryPolicyDefault) && fresh(queryPolicyDefault.base) && fresh(infoPolicyDefault)
      ensures fresh(batchWritePolicyDefault) && fresh(batchDeletePolicyDefault) && fresh(batchUDFPolicyDefault)
      ensures fields == CLIENT_FIELD_DEFAULTS && eventLoops == CLIENT_EVENT_LOOPS_DEFAULT
      ensures readPolicyDefault.State() == POLICY_DEFAULTS && writePolicyDefault.State() == WRITE_POLICY_DEFAULTS
      ensures batchPolicyDefault.State() == BATCH_POLICY_DEFAULTS && queryPolicyDefault.State() == QUERY_POLICY_DEFAULTS
      ensures infoPolicyDefault.State() == INFO_POLICY_DEFAULTS
      ensures batchWritePolicyDefault.State() == BATCH_WRITE_POLICY_DEFAULTS
      ensures batchDeletePolicyDefault.State() == BATCH_DELETE_POLICY_DEFAULTS
      ensures batchUDFPolicyDefault.State() == BATCH_UDF_POLICY_DEFAULTS
    {
      var read := new Policy();
      var write := new WritePolicy();
      var batch := new BatchPolicy();
      var query := new QueryPolicy();
      var info := new InfoPolicy();
      var batchWrite := new BatchWritePolicy();
      var batchDelete := new BatchDeletePolicy();
      var batchUdf := new BatchUDFPolicy();
      fields := CLIENT_FIELD_DEFAULTS;
      readPolicyDefault, writePolicyDefault, batchPolicyDefault, queryPolicyDefault := read, write, batch, query;
      infoPolicyDefault, batchWritePolicyDefault := info, batchWrite;
      batchDeletePolicyDefault, batchUDFPolicyDefault := batchDelete, batchUdf;
      eventLoops := CLIENT_EVENT_LOOPS_DEFAULT;
    }
  }
}
