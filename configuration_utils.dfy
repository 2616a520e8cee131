/** The newer `util/AerospikeConfigurationUtils`: it overlays the present
    properties onto a `ClientPolicy`, rebuilds all eight sub-policies from
    fresh defaults, builds Netty event loops and copies data properties onto
    the data settings. Absent properties leave the target field alone. */
module ConfigurationUtils {
  import opened JavaLang
  import opened AerospikeClient
  import opened AerospikeProperties
  import opened SpringDataAerospike
  import AerospikeDataProperties
  import AerospikeCommonDataConfiguration

  // ------------------------------------------------------------ conversions

  /** `whenPresent(param, consumer)` for a consumer that stores its argument:
      the new value when there is one, the current value otherwise. */
  function WhenPresent<T>(param: Option<T>, current: T): (r: T)
    ensures param.Some? ==> r == param.value
    ensures param.None? ==> r == current
  {
    match param
    case Some(v) => v
    case None => current
  }

  /** `(int) d.toMillis()`: whole milliseconds, wrapped to 32 bits. */
  function Millis(d: Duration): (ms: Int32)
    ensures ToMillis(d) <= INT_MAX ==> ms == ToMillis(d) && ms >= 0
    ensures (ms - ToMillis(d)) % TWO_32 == 0
  {
    NarrowToInt(ToMillis(d))
  }

  /** `(int) d.getSeconds()`: whole seconds, wrapped to 32 bits. */
  function Seconds(d: Duration): (s: Int32)
    ensures GetSeconds(d) <= INT_MAX ==> s == GetSeconds(d) && s >= 0
    ensures (s - GetSeconds(d)) % TWO_32 == 0
  {
    NarrowToInt(GetSeconds(d))
  }

  /** `whenPresent` with a millisecond conversion in the consumer. */
  function MillisWhenPresent(param: Option<Duration>, current: Int32): (r: Int32)
    ensures param.Some? ==> r == Millis(param.value)
    ensures param.None? ==> r == current
  {
    if param.Some? then Millis(param.value) else current
  }

  // ------------------------------------------------------------ client fields

  /** The twelve top-level assignments of `getClientPolicyConfig`. */
  function ClientFieldsOverlay(f: ClientFields, p: Properties): (r: ClientFields)
    ensures p.user.Some? ==> r.user == p.user
    ensures p.user.None? ==> r.user == f.user
    ensures p.password.Some? ==> r.password == p.password
    ensures p.password.None? ==> r.password == f.password
    ensures p.clusterName.Some? ==> r.clusterName == p.clusterName
    ensures p.clusterName.None? ==> r.clusterName == f.clusterName
    ensures r.authMode == WhenPresent(p.authMode, f.authMode)
    ensures r.timeout == MillisWhenPresent(p.connectTimeout, f.timeout)
    ensures r.loginTimeout == MillisWhenPresent(p.loginTimeout, f.loginTimeout)
    ensures r.minConnsPerNode == WhenPresent(p.minConnsPerNode, f.minConnsPerNode)
    ensures r.maxConnsPerNode == WhenPresent(p.maxConnsPerNode, f.maxConnsPerNode)
    ensures r.connPoolsPerNode == WhenPresent(p.connPoolsPerNode, f.connPoolsPerNode)
    ensures p.maxSocketIdle.Some? ==> r.maxSocketIdle == Seconds(p.maxSocketIdle.value)
    ensures p.maxSocketIdle.None? ==> r.maxSocketIdle == f.maxSocketIdle
    ensures r.tendInterval == MillisWhenPresent(p.tendInterval, f.tendInterval)
    ensures r.failIfNotConnected == WhenPresent(p.failIfNotConnected, f.failIfNotConnected)
  {
    ClientFields(
      if p.user.Some? then p.user else f.user,
      if p.password.Some? then p.password else f.password,
      if p.clusterName.Some? then p.clusterName else f.clusterName,
      WhenPresent(p.authMode, f.authMode),
      MillisWhenPresent(p.connectTimeout, f.timeout),
      MillisWhenPresent(p.loginTimeout, f.loginTimeout),
      WhenPresent(p.minConnsPerNode, f.minConnsPerNode),
      WhenPresent(p.maxConnsPerNode, f.maxConnsPerNode),
      WhenPresent(p.connPoolsPerNode, f.connPoolsPerNode),
      if p.maxSocketIdle.Some? then Seconds(p.maxSocketIdle.value) else f.maxSocketIdle,
      MillisWhenPresent(p.tendInterval, f.tendInterval),
      WhenPresent(p.failIfNotConnected, f.failIfNotConnected))
  }

  /** No client-level property set: the top-level fields are not touched. */
  predicate NoClientFieldsSet(p: Properties) {
    p.user.None? && p.password.None? && p.clusterName.None? && p.authMode.None?
    && p.connectTimeout.None? && p.loginTimeout.None? && p.minConnsPerNode.None?
    && p.maxConnsPerNode.None? && p.connPoolsPerNode.None? && p.maxSocketIdle.None?
    && p.tendInterval.None? && p.failIfNotConnected.None?
  }

  lemma ClientFieldsOverlayIdentity(f: ClientFields, p: Properties)
    requires NoClientFieldsSet(p)
    ensures ClientFieldsOverlay(f, p) == f
  {
  }

  /** Overlaying the same properties twice is the same as once. */
  lemma ClientFieldsOverlayIdempotent(f: ClientFields, p: Properties)
    ensures ClientFieldsOverlay(ClientFieldsOverlay(f, p), p) == ClientFieldsOverlay(f, p)
  {
  }

  /** The default properties set the connect timeout to 10 000 ms and
      `failIfNotConnected` to true, and nothing else. */
  lemma DefaultPropertiesClientFields(f: ClientFields)
    ensures ClientFieldsOverlay(f, Defaults()) == f.(timeout := 10_000, failIfNotConnected := true)
  {
    DefaultConnectTimeoutMillis();
  }

  /** Units: the same 1.5-second duration is 1500 as a tend interval (ms) but 1
      as a maximum socket idle time (whole seconds). */
  lemma MillisVersusSeconds(f: ClientFields, p: Properties)
    requires p.tendInterval == Some(1_500_000_000) && p.maxSocketIdle == Some(1_500_000_000)
    ensures ClientFieldsOverlay(f, p).tendInterval == 1500
    ensures ClientFieldsOverlay(f, p).maxSocketIdle == 1
  {
  }

  /** A duration of more than `Integer.MAX_VALUE` ms wraps around in the `(int)` cast. */
  lemma MillisWrapsAboveIntMax()
    ensures Millis(3_000_000_000 * NANOS_PER_MILLI) == 3_000_000_000 - TWO_32
  {
  }

  // ------------------------------------------------------------ sub-policies

  /** `setGeneralPolicyProperties`: the six `Policy` fields, durations in ms. */
  function GeneralOverlay(s: PolicyState, d: PolicyDefault): (r: PolicyState)
    ensures r.socketTimeout == MillisWhenPresent(d.socketTimeout, s.socketTimeout)
    ensures r.totalTimeout == MillisWhenPresent(d.totalTimeout, s.totalTimeout)
    ensures r.timeoutDelay == MillisWhenPresent(d.timeoutDelay, s.timeoutDelay)
    ensures r.maxRetries == WhenPresent(d.maxRetries, s.maxRetries)
    ensures r.sleepBetweenRetries == MillisWhenPresent(d.sleepBetweenRetries, s.sleepBetweenRetries)
    ensures r.sendKey == WhenPresent(d.sendKey, s.sendKey)
  {
    PolicyState(
      MillisWhenPresent(d.socketTimeout, s.socketTimeout),
      MillisWhenPresent(d.totalTimeout, s.totalTimeout),
      MillisWhenPresent(d.timeoutDelay, s.timeoutDelay),
      WhenPresent(d.maxRetries, s.maxRetries),
      MillisWhenPresent(d.sleepBetweenRetries, s.sleepBetweenRetries),
      WhenPresent(d.sendKey, s.sendKey))
  }

  lemma GeneralOverlayIdentity(s: PolicyState)
    ensures GeneralOverlay(s, NoPolicyDefaults()) == s
  {
  }

  lemma GeneralOverlayIdempotent(s: PolicyState, d: PolicyDefault)
    ensures GeneralOverlay(GeneralOverlay(s, d), d) == GeneralOverlay(s, d)
  {
  }

  method SetGeneralPolicyProperties(policy: Policy, d: PolicyDefault)
    modifies policy
    ensures policy.State() == GeneralOverlay(old(policy.State()), d)
  {
    if d.socketTimeout.Some? { policy.socketTimeout := Millis(d.socketTimeout.value); }
    if d.totalTimeout.Some? { policy.totalTimeout := Millis(d.totalTimeout.value); }
    if d.timeoutDelay.Some? { policy.timeoutDelay := Millis(d.timeoutDelay.value); }
    if d.maxRetries.Some? { policy.maxRetries := d.maxRetries.value; }
    if d.sleepBetweenRetries.Some? { policy.sleepBetweenRetries := Millis(d.sleepBetweenRetries.value); }
    if d.sendKey.Some? { policy.sendKey := d.sendKey.value; }
  }

  /** A fresh `WritePolicy` after `setupWritePolicy`. */
  function WritePolicyFor(d: WritePolicyDefault): (r: WritePolicyState)
    ensures r.general == GeneralOverlay(WRITE_POLICY_DEFAULTS.general, d.general)
    ensures r.durableDelete == WhenPresent(d.durableDelete, WRITE_POLICY_DEFAULTS.durableDelete)
  {
    WritePolicyState(GeneralOverlay(WRITE_POLICY_DEFAULTS.general, d.general),
      WhenPresent(d.durableDelete, WRITE_POLICY_DEFAULTS.durableDelete))
  }

  /** A fresh `BatchPolicy` after `setupBatchPolicy`. */
  function BatchPolicyFor(d: BatchPolicyDefault): (r: BatchPolicyState)
    ensures r.general == GeneralOverlay(BATCH_POLICY_DEFAULTS.general, d.general)
    ensures r.maxConcurrentThreads == WhenPresent(d.maxConcurrentThreads, BATCH_POLICY_DEFAULTS.maxConcurrentThreads)
    ensures r.allowInline == WhenPresent(d.allowInline, BATCH_POLICY_DEFAULTS.allowInline)
    ensures r.sendSetName == WhenPresent(d.sendSetName, BATCH_POLICY_DEFAULTS.sendSetName)
  {
    var b := BATCH_POLICY_DEFAULTS;
    BatchPolicyState(GeneralOverlay(b.general, d.general),
      WhenPresent(d.maxConcurrentThreads, b.maxConcurrentThreads),
      WhenPresent(d.allowInline, b.allowInline),
      WhenPresent(d.sendSetName, b.sendSetName))
  }

  /** A fresh `QueryPolicy` after `setupQueryPolicy`. */
  function QueryPolicyFor(d: QueryPolicyDefault): (r: QueryPolicyState)
    ensures r.general == GeneralOverlay(QUERY_POLICY_DEFAULTS.general, d.general)
    ensures r.maxRecords == WhenPresent(d.maxRecords, QUERY_POLICY_DEFAULTS.maxRecords)
    ensures r.failOnClusterChange == WhenPresent(d.failOnClusterChange, QUERY_POLICY_DEFAULTS.failOnClusterChange)
    ensures r.includeBinData == WhenPresent(d.includeBinData, QUERY_POLICY_DEFAULTS.includeBinData)
    ensures r.maxConcurrentNodes == WhenPresent(d.maxConcurrentNodes, QUERY_POLICY_DEFAULTS.maxConcurrentNodes)
    ensures r.recordQueueSize == WhenPresent(d.recordQueueSize, QUERY_POLICY_DEFAULTS.recordQueueSize)
  {
    var q := QUERY_POLICY_DEFAULTS;
    QueryPolicyState(GeneralOverlay(q.general, d.general),
      WhenPresent(d.maxRecords, q.maxRecords),
      WhenPresent(d.failOnClusterChange, q.failOnClusterChange),
      WhenPresent(d.includeBinData, q.includeBinData),
      WhenPresent(d.maxConcurrentNodes, q.maxConcurrentNodes),
      WhenPresent(d.recordQueueSize, q.recordQueueSize))
  }

  /** A fresh `InfoPolicy` after `setupInfoPolicy`: only the timeout, in ms. */
  function InfoPolicyFor(d: InfoPolicyDefault): (r: InfoPolicyState)
    ensures r.timeout == MillisWhenPresent(d.timeout, INFO_POLICY_DEFAULTS.timeout)
  {
    InfoPolicyState(MillisWhenPresent(d.timeout, INFO_POLICY_DEFAULTS.timeout))
  }

  /** A fresh batch-write, batch-delete or batch-UDF policy: only `durableDelete`. */
  function DurableDeleteFor(defaults: DurableDeleteState, d: DurableDeletePolicyDefault): (r: DurableDeleteState)
    ensures r.durableDelete == WhenPresent(d.durableDelete, defaults.durableDelete)
  {
    DurableDeleteState(WhenPresent(d.durableDelete, defaults.durableDelete))
  }

  method SetupInfoPolicy(p: Properties) returns (policy: InfoPolicy)
    ensures fresh(policy)
    ensures policy.State() == InfoPolicyFor(p.info)
  {
    policy := new InfoPolicy();
    if p.info.timeout.Some? { policy.timeout := Millis(p.info.timeout.value); }
  }

  method SetupWritePolicy(p: Properties) returns (policy: WritePolicy)
    ensures fresh(policy) && fresh(policy.base)
    ensures policy.State() == WritePolicyFor(p.write)
  {
    policy := new WritePolicy();
    SetGeneralPolicyProperties(policy.base, p.write.general);
    if p.write.durableDelete.Some? { policy.durableDelete := p.write.durableDelete.value; }
  }

  method SetupReadPolicy(p: Properties) returns (policy: Policy)
    ensures fresh(policy)
    ensures policy.State() == GeneralOverlay(POLICY_DEFAULTS, p.read)
  {
    policy := new Policy();
    SetGeneralPolicyProperties(policy, p.read);
  }

  method SetupBatchPolicy(p: Properties) returns (policy: BatchPolicy)
    ensures fresh(policy) && fresh(policy.base)
    ensures policy.State() == BatchPolicyFor(p.batch)
  {
    var d := p.batch;
    policy := new BatchPolicy();
    SetGeneralPolicyProperties(policy.base, d.general);
    if d.maxConcurrentThreads.Some? { policy.maxConcurrentThreads := d.maxConcurrentThreads.value; }
    if d.allowInline.Some? { policy.allowInline := d.allowInline.value; }
    if d.sendSetName.Some? { policy.sendSetName := d.sendSetName.value; }
  }

  method SetupBatchWritePolicy(p: Properties) returns (policy: BatchWritePolicy)
    ensures fresh(policy)
    ensures policy.State() == DurableDeleteFor(BATCH_WRITE_POLICY_DEFAULTS, p.batchWrite)
  {
    policy := new BatchWritePolicy();
    if p.batchWrite.durableDelete.Some? { policy.durableDelete := p.batchWrite.durableDelete.value; }
  }

  method SetupBatchDeletePolicy(p: Properties) returns (policy: BatchDeletePolicy)
    ensures fresh(policy)
    ensures policy.State() == DurableDeleteFor(BATCH_DELETE_POLICY_DEFAULTS, p.batchDelete)
  {
    policy := new BatchDeletePolicy();
    if p.batchDelete.durableDelete.Some? { policy.durableDelete := p.batchDelete.durableDelete.value; }
  }

  method SetupBatchUDFPolicy(p: Properties) returns (policy: BatchUDFPolicy)
    ensures fresh(policy)
    ensures policy.State() == DurableDeleteFor(BATCH_UDF_POLICY_DEFAULTS, p.batchUdf)
  {
    policy := new BatchUDFPolicy();
    if p.batchUdf.durableDelete.Some? { policy.durableDelete := p.batchUdf.durableDelete.value; }
  }

  method SetupQueryPolicy(p: Properties) returns (policy: QueryPolicy)
    ensures fresh(policy) && fresh(policy.base)
    ensures policy.State() == QueryPolicyFor(p.query)
  {
    var d := p.query;
    policy := new QueryPolicy();
    SetGeneralPolicyProperties(policy.base, d.general);
    if d.maxRecords.Some? { policy.maxRecords := d.maxRecords.value; }
    if d.failOnClusterChange.Some? { policy.failOnClusterChange := d.failOnClusterChange.value; }
    if d.includeBinData.Some? { policy.includeBinData := d.includeBinData.value; }
    if d.maxConcurrentNodes.Some? { policy.maxConcurrentNodes := d.maxConcurrentNodes.value; }
    if d.recordQueueSize.Some? { policy.recordQueueSize := d.recordQueueSize.value; }
  }

  // ------------------------------------------------------------ client policy

  /** The `ClientPolicy` after `getClientPolicyConfig`: the field overlay, all
      eight sub-policies rebuilt from the properties, the event loops kept. */
  function ClientPolicyFor(before: ClientPolicyState, p: Properties): (r: ClientPolicyState)
    ensures r.fields == ClientFieldsOverlay(before.fields, p)
    ensures r.read == GeneralOverlay(POLICY_DEFAULTS, p.read)
    ensures r.write == WritePolicyFor(p.write) && r.batch == BatchPolicyFor(p.batch)
    ensures r.query == QueryPolicyFor(p.query) && r.info == InfoPolicyFor(p.info)
    ensures r.batchWrite == DurableDeleteFor(BATCH_WRITE_POLICY_DEFAULTS, p.batchWrite)
    ensures r.batchDelete == DurableDeleteFor(BATCH_DELETE_POLICY_DEFAULTS, p.batchDelete)
    ensures r.batchUdf == DurableDeleteFor(BATCH_UDF_POLICY_DEFAULTS, p.batchUdf)
    ensures r.eventLoops == before.eventLoops
  {
    ClientPolicyState(ClientFieldsOverlay(before.fields, p),
      GeneralOverlay(POLICY_DEFAULTS, p.read), WritePolicyFor(p.write), BatchPolicyFor(p.batch),
      QueryPolicyFor(p.query), InfoPolicyFor(p.info),
      DurableDeleteFor(BATCH_WRITE_POLICY_DEFAULTS, p.batchWrite),
      DurableDeleteFor(BATCH_DELETE_POLICY_DEFAULTS, p.batchDelete),
      DurableDeleteFor(BATCH_UDF_POLICY_DEFAULTS, p.batchUdf),
      before.eventLoops)
  }

  /** Whatever sub-policies the incoming policy held are discarded: only its
      top-level fields and event loops reach the result. */
  lemma ClientPolicyForDiscardsSubPolicies(b1: ClientPolicyState, b2: ClientPolicyState, p: Properties)
    requires b1.fields == b2.fields && b1.eventLoops == b2.eventLoops
    ensures ClientPolicyFor(b1, p) == ClientPolicyFor(b2, p)
  {
  }

  /** Configuring a policy twice with the same properties is the same as once. */
  lemma {:induction false} ClientPolicyForIdempotent(b: ClientPolicyState, p: Properties)
    ensures ClientPolicyFor(ClientPolicyFor(b, p), p) == ClientPolicyFor(b, p)
  {
    ClientFieldsOverlayIdempotent(b.fields, p);
  }

  /** Sub-policy records with nothing set give the library defaults. */
  lemma EmptySubPoliciesGiveDefaults()
    ensures GeneralOverlay(POLICY_DEFAULTS, NoPolicyDefaults()) == POLICY_DEFAULTS
    ensures WritePolicyFor(WritePolicyDefault(NoPolicyDefaults(), None)) == WRITE_POLICY_DEFAULTS
    ensures BatchPolicyFor(BatchPolicyDefault(NoPolicyDefaults(), None, None, None)) == BATCH_POLICY_DEFAULTS
    ensures QueryPolicyFor(QueryPolicyDefault(NoPolicyDefaults(), None, None, None, None, None)) == QUERY_POLICY_DEFAULTS
    ensures InfoPolicyFor(InfoPolicyDefault(None)) == INFO_POLICY_DEFAULTS
    ensures forall s: DurableDeleteState :: DurableDeleteFor(s, DurableDeletePolicyDefault(None)) == s
  {
  }

  /** The first four sub-policy assignments of `getClientPolicyConfig`. */
  method SetupRequestPolicies(clientPolicy: ClientPolicy, p: Properties)
    modifies clientPolicy
    ensures fresh(clientPolicy.infoPolicyDefault) && fresh(clientPolicy.readPolicyDefault)
    ensures fresh(clientPolicy.writePolicyDefault) && fresh(clientPolicy.writePolicyDefault.base)
    ensures fresh(clientPolicy.batchPolicyDefault) && fresh(clientPolicy.batchPolicyDefault.base)
    ensures clientPolicy.queryPolicyDefault == old(clientPolicy.queryPolicyDefault)
    ensures clientPolicy.batchWritePolicyDefault == old(clientPolicy.batchWritePolicyDefault)
    ensures clientPolicy.batchDeletePolicyDefault == old(clientPolicy.batchDeletePolicyDefault)
    ensures clientPolicy.batchUDFPolicyDefault == old(clientPolicy.batchUDFPolicyDefault)
    ensures clientPolicy.fields == old(clientPolicy.fields) && clientPolicy.eventLoops == old(clientPolicy.eventLoops)
    ensures clientPolicy.infoPolicyDefault.State() == InfoPolicyFor(p.info)
    ensures clientPolicy.readPolicyDefault.State() == GeneralOverlay(POLICY_DEFAULTS, p.read)
    ensures clientPolicy.writePolicyDefault.State() == WritePolicyFor(p.write)
    ensures clientPolicy.batchPolicyDefault.State() == BatchPolicyFor(p.batch)
  {
    clientPolicy.infoPolicyDefault := SetupInfoPolicy(p);
    clientPolicy.readPolicyDefault := SetupReadPolicy(p);
    clientPolicy.writePolicyDefault := SetupWritePolicy(p);
    clientPolicy.batchPolicyDefault := SetupBatchPolicy(p);
  }

  /** The last four sub-policy assignments of `getClientPolicyConfig`. */
  method SetupCommandPolicies(clientPolicy: ClientPolicy, p: Properties)
    modifies clientPolicy
    ensures fresh(clientPolicy.queryPolicyDefault) && fresh(clientPolicy.queryPolicyDefault.base)
    ensures fresh(clientPolicy.batchWritePolicyDefault) && fresh(clientPolicy.batchDeletePolicyDefault)
    ensures fresh(clientPolicy.batchUDFPolicyDefault)
    ensures clientPolicy.infoPolicyDefault == old(clientPolicy.infoPolicyDefault)
    ensures clientPolicy.readPolicyDefault == old(clientPolicy.readPolicyDefault)
    ensures clientPolicy.writePolicyDefault == old(clientPolicy.writePolicyDefault)
    ensures clientPolicy.batchPolicyDefault == old(clientPolicy.batchPolicyDefault)
    ensures clientPolicy.fields == old(clientPolicy.fields) && clientPolicy.eventLoops == old(clientPolicy.eventLoops)
    ensures clientPolicy.queryPolicyDefault.State() == QueryPolicyFor(p.query)
    ensures clientPolicy.batchWritePolicyDefault.State() == DurableDeleteFor(BATCH_WRITE_POLICY_DEFAULTS, p.batchWrite)
    ensures clientPolicy.batchDeletePolicyDefault.State() == DurableDeleteFor(BATCH_DELETE_POLICY_DEFAULTS, p.batchDelete)
    ensures clientPolicy.batchUDFPolicyDefault.State() == DurableDeleteFor(BATCH_UDF_POLICY_DEFAULTS, p.batchUdf)
  {
    clientPolicy.queryPolicyDefault := SetupQueryPolicy(p);
    clientPolicy.batchWritePolicyDefault := SetupBatchWritePolicy(p);
    clientPolicy.batchDeletePolicyDefault := SetupBatchDeletePolicy(p);
    clientPolicy.batchUDFPolicyDefault := SetupBatchUDFPolicy(p);
  }

  /** `getClientPolicyConfig`: mutates the given policy and returns it. */
  method GetClientPolicyConfig(clientPolicy: ClientPolicy, p: Properties) returns (r: ClientPolicy)
    modifies clientPolicy
    ensures r == clientPolicy
    ensures fresh(clientPolicy.readPolicyDefault) && fresh(clientPolicy.infoPolicyDefault)
    ensures fresh(clientPolicy.writePolicyDefault) && fresh(clientPolicy.writePolicyDefault.base)
    ensures fresh(clientPolicy.batchPolicyDefault) && fresh(clientPolicy.batchPolicyDefault.base)
    ensures fresh(clientPolicy.queryPolicyDefault) && fresh(clientPolicy.queryPolicyDefault.base)
    ensures fresh(clientPolicy.batchWritePolicyDefault) && fresh(clientPolicy.batchDeletePolicyDefault)
    ensures fresh(clientPolicy.batchUDFPolicyDefault)
    ensures clientPolicy.State() == ClientPolicyFor(old(clientPolicy.State()), p)
  {
    clientPolicy.fields := ClientFieldsOverlay(clientPolicy.fields, p);
    SetupRequestPolicies(clientPolicy, p);
    SetupCommandPolicies(clientPolicy, p);
    r := clientPolicy;
  }

  // ------------------------------------------------------------ event loops

  /** The six `whenPresent` assignments of `setupEventLoops` onto an `EventPolicy`. */
  function EventPolicyOverlay(s: EventPolicyState, e: EventLoopsProperties): (r: EventPolicyState)
    ensures r.maxCommandsInProcess == WhenPresent(e.maxCommandsInProcess, s.maxCommandsInProcess)
    ensures r.maxCommandsInQueue == WhenPresent(e.maxCommandsInQueue, s.maxCommandsInQueue)
    ensures r.queueInitialCapacity == WhenPresent(e.queueInitialCapacity, s.queueInitialCapacity)
    ensures r.minTimeout == WhenPresent(e.minTimeout, s.minTimeout)
    ensures r.ticksPerWheel == WhenPresent(e.ticksPerWheel, s.ticksPerWheel)
    ensures r.commandsPerEventLoop == WhenPresent(e.commandsPerEventLoop, s.commandsPerEventLoop)
  {
    EventPolicyState(
      WhenPresent(e.maxCommandsInProcess, s.maxCommandsInProcess),
      WhenPresent(e.maxCommandsInQueue, s.maxCommandsInQueue),
      WhenPresent(e.queueInitialCapacity, s.queueInitialCapacity),
      WhenPresent(e.minTimeout, s.minTimeout),
      WhenPresent(e.ticksPerWheel, s.ticksPerWheel),
      WhenPresent(e.commandsPerEventLoop, s.commandsPerEventLoop))
  }

  /** With no counter configured the event policy keeps its defaults. */
  lemma EventPolicyOverlayIdentity(s: EventPolicyState, e: EventLoopsProperties)
    requires e.maxCommandsInProcess.None? && e.maxCommandsInQueue.None? && e.queueInitialCapacity.None?
    requires e.minTimeout.None? && e.ticksPerWheel.None? && e.commandsPerEventLoop.None?
    ensures EventPolicyOverlay(s, e) == s
  {
  }

  /** Overlaying the same counters twice is the same as once. */
  lemma EventPolicyOverlayIdempotent(s: EventPolicyState, e: EventLoopsProperties)
    ensures EventPolicyOverlay(EventPolicyOverlay(s, e), e) == EventPolicyOverlay(s, e)
  {
  }

  const EPOLL_GROUP_NAME: string := "epolleventloopgroup"
  const KQUEUE_GROUP_NAME: string := "kqueueeventloopgroup"
  const NIO_GROUP_NAME: string := "nioeventloopgroup"

  const STANDARD_GROUP_MESSAGE: string := "Proceeding with standard EventLoops group type 'NioEventLoopGroup'"

  function UnexpectedGroupMessage(groupType: string): string {
    "Unexpected EventLoops group type '" + groupType + "', proceeding with 'NioEventLoopGroup' instead"
  }

  /** The three group names are lower case, so the `toLowerCase()` switch on
      them is a case-insensitive comparison. */
  lemma GroupNamesAreLowerCase()
    ensures IsLowerCase(EPOLL_GROUP_NAME) && IsLowerCase(KQUEUE_GROUP_NAME) && IsLowerCase(NIO_GROUP_NAME)
  {
  }

  /** A group type that names a known group, ignoring case. */
  predicate NamesGroup(g: Option<string>, name: string) {
    HasText(g) && EqualsIgnoreCase(g.value, name)
  }

  /** `chooseLoopGroup`: the thread count is `max(threads, 0)`; a missing or
      blank group type gives NIO with an info line; the three known names pick
      their group whatever their case; anything else gives NIO with a warning. */
  function ChooseLoopGroup(e: EventLoopsProperties): (r: Logged<LoopGroup>)
    ensures r.value.threads == ClampToNonNegative(e.threads) && r.value.threads >= 0
    ensures r.value.EpollEventLoopGroup? <==> NamesGroup(e.groupType, EPOLL_GROUP_NAME)
    ensures r.value.KQueueEventLoopGroup? <==> NamesGroup(e.groupType, KQUEUE_GROUP_NAME)
    ensures !HasText(e.groupType) ==> r == Logged(NioEventLoopGroup(r.value.threads), [Info(STANDARD_GROUP_MESSAGE)])
    ensures HasWarning(r.log) <==>
      HasText(e.groupType) && !NamesGroup(e.groupType, EPOLL_GROUP_NAME)
      && !NamesGroup(e.groupType, KQUEUE_GROUP_NAME) && !NamesGroup(e.groupType, NIO_GROUP_NAME)
    ensures r.value.EpollEventLoopGroup? || r.value.KQueueEventLoopGroup? ==> r.log == []
    ensures NamesGroup(e.groupType, NIO_GROUP_NAME) ==> r == Logged(NioEventLoopGroup(r.value.threads), [])
    ensures HasWarning(r.log) ==> r == Logged(NioEventLoopGroup(r.value.threads),
                                              [Warn(UnexpectedGroupMessage(e.groupType.value))])
  {
    var threadsNumber := ClampToNonNegative(e.threads);
    if !HasText(e.groupType) then
      Logged(NioEventLoopGroup(threadsNumber), [Info(STANDARD_GROUP_MESSAGE)])
    else
      var g := e.groupType.value;
      GroupNamesAreLowerCase();
      LowerCaseSwitchIsIgnoreCase(g, EPOLL_GROUP_NAME);
      LowerCaseSwitchIsIgnoreCase(g, KQUEUE_GROUP_NAME);
      LowerCaseSwitchIsIgnoreCase(g, NIO_GROUP_NAME);
      match ToLowerCase(g)
      case "epolleventloopgroup" => Logged(EpollEventLoopGroup(threadsNumber), [])
      case "kqueueeventloopgroup" => Logged(KQueueEventLoopGroup(threadsNumber), [])
      case "nioeventloopgroup" => Logged(NioEventLoopGroup(threadsNumber), [])
      case _ =>
        var log := [Warn(UnexpectedGroupMessage(g))];
        assert IsWarning(log[0]);
        Logged(NioEventLoopGroup(threadsNumber), log)
  }

  /** `setupEventLoops`: a fresh `EventPolicy` with the present counters, wrapped
      with the chosen group in Netty event loops. */
  method SetupEventLoops(e: EventLoopsProperties) returns (r: Logged<EventLoops>)
    ensures r.value == NettyEventLoops(EventPolicyOverlay(EVENT_POLICY_DEFAULTS, e), ChooseLoopGroup(e).value)
    ensures r.log == ChooseLoopGroup(e).log
  {
    var eventPolicy := new EventPolicy();
    if e.maxCommandsInProcess.Some? { eventPolicy.maxCommandsInProcess := e.maxCommandsInProcess.value; }
    if e.maxCommandsInQueue.Some? { eventPolicy.maxCommandsInQueue := e.maxCommandsInQueue.value; }
    if e.queueInitialCapacity.Some? { eventPolicy.queueInitialCapacity := e.queueInitialCapacity.value; }
    if e.minTimeout.Some? { eventPolicy.minTimeout := e.minTimeout.value; }
    if e.ticksPerWheel.Some? { eventPolicy.ticksPerWheel := e.ticksPerWheel.value; }
    if e.commandsPerEventLoop.Some? { eventPolicy.commandsPerEventLoop := e.commandsPerEventLoop.value; }
    var group := ChooseLoopGroup(e);
    r := Logged(NettyEventLoops(eventPolicy.State(), group.value), group.log);
  }

  /** The Netty class name, as a user would write it, names its group. */
  lemma ClassNameNamesGroup()
    ensures NamesGroup(Some("EpollEventLoopGroup"), EPOLL_GROUP_NAME)
  {
  }

  /** A blank group type counts as missing. */
  lemma ChooseLoopGroupBlank(e: EventLoopsProperties)
    requires e.groupType == Some("   ")
    ensures ChooseLoopGroup(e) == Logged(NioEventLoopGroup(ClampToNonNegative(e.threads)), [Info(STANDARD_GROUP_MESSAGE)])
  {
    assert !ContainsText("   ") by {
      assert !ContainsText("   "[2..]);
      assert !ContainsText("   "[1..]);
    }
  }

  // ------------------------------------------------------------ hosts, namespace, data settings

  /** `getClientHosts`: null when no hosts are configured, otherwise what the
      client's host parser (a parameter here) makes of the hosts and the default port. */
  function GetClientHosts<H>(p: Properties, parseHosts: (string, Int32) -> seq<H>): (r: Option<seq<H>>)
    ensures r.None? <==> p.hosts.None?
    ensures p.hosts.Some? ==> r == Some(parseHosts(p.hosts.value, p.defaultPort))
  {
    if p.hosts.Some? then Some(parseHosts(p.hosts.value, p.defaultPort)) else None
  }

  /** `getNamespace`: the configured namespace, null when it is not set. */
  function GetNamespace(d: AerospikeDataProperties.DataProperties): (r: Option<string>)
    ensures r.None? <==> d.namespace.None?
    ensures r.Some? ==> r.value == d.namespace.value
  {
    if d.namespace.Some? then d.namespace else None
  }

  /** The settings after `getDataSettings`: seven values copied from the data
      properties (always present, as they are primitives), `writeSortedMaps` kept. */
  function WithDataProperties(s: DataSettingsState, d: AerospikeDataProperties.DataProperties): (r: DataSettingsState)
    ensures r.scansEnabled == d.scansEnabled && r.createIndexesOnStartup == d.createIndexesOnStartup
    ensures r.indexCacheRefreshSeconds == d.indexCacheRefreshSeconds
    ensures r.serverVersionRefreshSeconds == d.serverVersionRefreshSeconds
    ensures r.queryMaxRecords == d.queryMaxRecords && r.batchWriteSize == d.batchWriteSize
    ensures r.keepOriginalKeyTypes == d.keepOriginalKeyTypes
    ensures r.writeSortedMaps == s.writeSortedMaps
  {
    DataSettingsState(d.scansEnabled, d.createIndexesOnStartup, d.indexCacheRefreshSeconds,
      d.serverVersionRefreshSeconds, d.queryMaxRecords, d.batchWriteSize, d.keepOriginalKeyTypes,
      s.writeSortedMaps)
  }

  /** `getDataSettings`. */
  method GetDataSettings(d: AerospikeDataProperties.DataProperties, settings: AerospikeDataSettings)
    modifies settings
    ensures settings.State() == WithDataProperties(old(settings.State()), d)
  {
    settings.scansEnabled := d.scansEnabled;
    settings.createIndexesOnStartup := d.createIndexesOnStartup;
    settings.indexCacheRefreshSeconds := d.indexCacheRefreshSeconds;
    settings.serverVersionRefreshSeconds := d.serverVersionRefreshSeconds;
    settings.queryMaxRecords := d.queryMaxRecords;
    settings.batchWriteSize := d.batchWriteSize;
    settings.keepOriginalKeyTypes := d.keepOriginalKeyTypes;
  }

  /** Copying the data properties and the data flags together determines
      the whole settings object from the properties alone. */
  lemma {:induction false} DataSettingsFromProperties(s: DataSettingsState, t: DataSettingsState, d: AerospikeDataProperties.DataProperties)
    ensures AerospikeCommonDataConfiguration.WithDataFlags(WithDataProperties(s, d), d)
         == AerospikeCommonDataConfiguration.WithDataFlags(WithDataProperties(t, d), d)
    ensures AerospikeCommonDataConfiguration.WithDataFlags(WithDataProperties(s, d), d).writeSortedMaps == d.writeSortedMaps
  {
  }

  lemma WithDataPropertiesIdempotent(s: DataSettingsState, d: AerospikeDataProperties.DataProperties)
    ensures WithDataProperties(WithDataProperties(s, d), d) == WithDataProperties(s, d)
  {
  }
}
