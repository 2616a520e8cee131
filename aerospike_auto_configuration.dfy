/** The client-policy bean of `AerospikeAutoConfiguration`: a fresh
    `ClientPolicy` with the same twelve-field overlay as the utilities, but
    only the read, write, batch and query sub-policies rebuilt, a general
    overlay without `sendKey` (which only the write policy receives), and
    the event loops taken from the optional bean. */
module AerospikeAutoConfiguration {
  import opened JavaLang
  import opened AerospikeClient
  import opened AerospikeProperties
  import opened ConfigurationUtils

  /** This file's `setGeneralPolicyProperties`: five fields, no `sendKey`. */
  function AutoGeneralOverlay(s: PolicyState, d: PolicyDefault): (r: PolicyState)
    ensures r.socketTimeout == MillisWhenPresent(d.socketTimeout, s.socketTimeout)
    ensures r.totalTimeout == MillisWhenPresent(d.totalTimeout, s.totalTimeout)
    ensures r.timeoutDelay == MillisWhenPresent(d.timeoutDelay, s.timeoutDelay)
    ensures r.maxRetries == WhenPresent(d.maxRetries, s.maxRetries)
    ensures r.sleepBetweenRetries == MillisWhenPresent(d.sleepBetweenRetries, s.sleepBetweenRetries)
    ensures r.sendKey == s.sendKey
  {
    s.(socketTimeout := MillisWhenPresent(d.socketTimeout, s.socketTimeout),
       totalTimeout := MillisWhenPresent(d.totalTimeout, s.totalTimeout),
       timeoutDelay := MillisWhenPresent(d.timeoutDelay, s.timeoutDelay),
       maxRetries := WhenPresent(d.maxRetries, s.maxRetries),
       sleepBetweenRetries := MillisWhenPresent(d.sleepBetweenRetries, s.sleepBetweenRetries))
  }

  /** It is the utilities' general overlay with `sendKey` ignored. */
  lemma {:induction false} AutoGeneralOverlayIgnoresSendKey(s: PolicyState, d: PolicyDefault)
    ensures AutoGeneralOverlay(s, d) == GeneralOverlay(s, d.(sendKey := None))
  {
  }

  method SetGeneralPolicyProperties(policy: Policy, d: PolicyDefault)
    modifies policy
    ensures policy.State() == AutoGeneralOverlay(old(policy.State()), d)
  {
    if d.socketTimeout.Some? { policy.socketTimeout := Millis(d.socketTimeout.value); }
    if d.totalTimeout.Some? { policy.totalTimeout := Millis(d.totalTimeout.value); }
    if d.timeoutDelay.Some? { policy.timeoutDelay := Millis(d.timeoutDelay.value); }
    if d.maxRetries.Some? { policy.maxRetries := d.maxRetries.value; }
    if d.sleepBetweenRetries.Some? { policy.sleepBetweenRetries := Millis(d.sleepBetweenRetries.value); }
  }

  /** A fresh `WritePolicy` after this file's `setupWritePolicy`: the five
      general fields, then `durableDelete`, then `sendKey`. */
  function AutoWritePolicyFor(d: WritePolicyDefault): (r: WritePolicyState)
    ensures r.general == AutoGeneralOverlay(WRITE_POLICY_DEFAULTS.general, d.general)
                           .(sendKey := WhenPresent(d.general.sendKey, WRITE_POLICY_DEFAULTS.general.sendKey))
    ensures r.durableDelete == WhenPresent(d.durableDelete, WRITE_POLICY_DEFAULTS.durableDelete)
  {
    var general := AutoGeneralOverlay(WRITE_POLICY_DEFAULTS.general, d.general);
    WritePolicyState(general.(sendKey := WhenPresent(d.general.sendKey, general.sendKey)),
      WhenPresent(d.durableDelete, WRITE_POLICY_DEFAULTS.durableDelete))
  }

  /** Setting `sendKey` separately afterwards builds the same write policy as
      the utilities' six-field overlay. */
  lemma {:induction false} AutoWritePolicyAgrees(d: WritePolicyDefault)
    ensures AutoWritePolicyFor(d) == WritePolicyFor(d)
  {
  }

  /** A fresh `BatchPolicy` after this file's `setupBatchPolicy`. */
  function AutoBatchPolicyFor(d: BatchPolicyDefault): (r: BatchPolicyState)
    ensures r.general == AutoGeneralOverlay(BATCH_POLICY_DEFAULTS.general, d.general)
    ensures r.maxConcurrentThreads == WhenPresent(d.maxConcurrentThreads, BATCH_POLICY_DEFAULTS.maxConcurrentThreads)
    ensures r.allowInline == WhenPresent(d.allowInline, BATCH_POLICY_DEFAULTS.allowInline)
    ensures r.sendSetName == WhenPresent(d.sendSetName, BATCH_POLICY_DEFAULTS.sendSetName)
  {
    var b := BATCH_POLICY_DEFAULTS;
    BatchPolicyState(AutoGeneralOverlay(b.general, d.general),
      WhenPresent(d.maxConcurrentThreads, b.maxConcurrentThreads),
      WhenPresent(d.allowInline, b.allowInline),
      WhenPresent(d.sendSetName, b.sendSetName))
  }

  /** A fresh `QueryPolicy` after this file's `setupQueryPolicy`. */
  function AutoQueryPolicyFor(d: QueryPolicyDefault): (r: QueryPolicyState)
    ensures r.general == AutoGeneralOverlay(QUERY_POLICY_DEFAULTS.general, d.general)
    ensures r.maxRecords == WhenPresent(d.maxRecords, QUERY_POLICY_DEFAULTS.maxRecords)
    ensures r.failOnClusterChange == WhenPresent(d.failOnClusterChange, QUERY_POLICY_DEFAULTS.failOnClusterChange)
    ensures r.includeBinData == WhenPresent(d.includeBinData, QUERY_POLICY_DEFAULTS.includeBinData)
    ensures r.maxConcurrentNodes == WhenPresent(d.maxConcurrentNodes, QUERY_POLICY_DEFAULTS.maxConcurrentNodes)
    ensures r.recordQueueSize == WhenPresent(d.recordQueueSize, QUERY_POLICY_DEFAULTS.recordQueueSize)
  {
    var q := QUERY_POLICY_DEFAULTS;
    QueryPolicyState(AutoGeneralOverlay(q.general, d.general),
      WhenPresent(d.maxRecords, q.maxRecords),
      WhenPresent(d.failOnClusterChange, q.failOnClusterChange),
      WhenPresent(d.includeBinData, q.includeBinData),
      WhenPresent(d.maxConcurrentNodes, q.maxConcurrentNodes),
      WhenPresent(d.recordQueueSize, q.recordQueueSize))
  }

  /** Batch and query differ from the utilities' builders in `sendKey` only. */
  lemma {:induction false} AutoBatchAndQueryIgnoreSendKey(p: Properties)
    ensures AutoBatchPolicyFor(p.batch) == BatchPolicyFor(p.batch.(general := p.batch.general.(sendKey := None)))
    ensures AutoQueryPolicyFor(p.query) == QueryPolicyFor(p.query.(general := p.query.general.(sendKey := None)))
  {
    AutoGeneralOverlayIgnoresSendKey(BATCH_POLICY_DEFAULTS.general, p.batch.general);
    AutoGeneralOverlayIgnoresSendKey(QUERY_POLICY_DEFAULTS.general, p.query.general);
  }

  method SetupWritePolicy(p: Properties) returns (policy: WritePolicy)
    ensures fresh(policy) && fresh(policy.base)
    ensures policy.State() == AutoWritePolicyFor(p.write)
  {
    policy := new WritePolicy();
    SetGeneralPolicyProperties(policy.base, p.write.general);
    if p.write.durableDelete.Some? { policy.durableDelete := p.write.durableDelete.value; }
    if p.write.general.sendKey.Some? { policy.base.sendKey := p.write.general.sendKey.value; }
  }

  method SetupReadPolicy(p: Properties) returns (policy: Policy)
    ensures fresh(policy)
    ensures policy.State() == AutoGeneralOverlay(POLICY_DEFAULTS, p.read)
  {
    policy := new Policy();
    SetGeneralPolicyProperties(policy, p.read);
  }

  method SetupBatchPolicy(p: Properties) returns (policy: BatchPolicy)
    ensures fresh(policy) && fresh(policy.base)
    ensures policy.State() == AutoBatchPolicyFor(p.batch)
  {
    var d := p.batch;
    policy := new BatchPolicy();
    SetGeneralPolicyProperties(policy.base, d.general);
    if d.maxConcurrentThreads.Some? { policy.maxConcurrentThreads := d.maxConcurrentThreads.value; }
    if d.allowInline.Some? { policy.allowInline := d.allowInline.value; }
    if d.sendSetName.Some? { policy.sendSetName := d.sendSetName.value; }
  }

  method SetupQueryPolicy(p: Properties) returns (policy: QueryPolicy)
    ensures fresh(policy) && fresh(policy.base)
    ensures policy.State() == AutoQueryPolicyFor(p.query)
  {
    var d := p.query;
    policy := new QueryPolicy();
    SetGeneralPolicyProperties(policy.base, d.general);
    if d.maxRecords.Some? { policy.maxRecords := d.maxRecords.value; }
    if d.failOnClusterChange.Some? { policy.failOnClusterChange := d.failOnClusterChange.value; }
    if d.includeBinData.Some? { policy.includeBinData := d.includeBinData.value; }
    if d.maxConcurrentNodes.Some? { policy.maxConcurrentNodes := d.maxConcurrentNodes.value; }
    if d.recordQueueSize.Some? { policy.recordQueueSize := d.recordQueueSize.value; }
  }

  /** The bean `aerospikeClientPolicy` builds: library defaults, the field
      overlay, four rebuilt sub-policies and the event loops when supplied. */
  function AutoClientPolicyFor(p: Properties, loops: Option<EventLoops>): (r: ClientPolicyState)
    ensures r.fields == ClientFieldsOverlay(CLIENT_FIELD_DEFAULTS, p)
    ensures r.read == AutoGeneralOverlay(POLICY_DEFAULTS, p.read)
    ensures r.write == AutoWritePolicyFor(p.write)
    ensures r.batch == AutoBatchPolicyFor(p.batch) && r.query == AutoQueryPolicyFor(p.query)
    ensures r.info == INFO_POLICY_DEFAULTS
    ensures r.batchWrite == BATCH_WRITE_POLICY_DEFAULTS && r.batchDelete == BATCH_DELETE_POLICY_DEFAULTS
    ensures r.batchUdf == BATCH_UDF_POLICY_DEFAULTS
    ensures loops.Some? ==> r.eventLoops == loops
    ensures loops.None? ==> r.eventLoops == CLIENT_EVENT_LOOPS_DEFAULT
  {
    CLIENT_POLICY_DEFAULTS.(fields := ClientFieldsOverlay(CLIENT_FIELD_DEFAULTS, p),
      read := AutoGeneralOverlay(POLICY_DEFAULTS, p.read), write := AutoWritePolicyFor(p.write),
      batch := AutoBatchPolicyFor(p.batch), query := AutoQueryPolicyFor(p.query),
      eventLoops := if loops.Some? then loops else CLIENT_EVENT_LOOPS_DEFAULT)
  }

  /** `sendKey` reaches only the write policy: read, batch and query keep the
      library default whatever is configured for them. */
  lemma SendKeyOnlyForWrites(p: Properties, loops: Option<EventLoops>)
    ensures AutoClientPolicyFor(p, loops).read.sendKey == POLICY_DEFAULTS.sendKey
    ensures AutoClientPolicyFor(p, loops).batch.general.sendKey == BATCH_POLICY_DEFAULTS.general.sendKey
    ensures AutoClientPolicyFor(p, loops).query.general.sendKey == QUERY_POLICY_DEFAULTS.general.sendKey
    ensures p.write.general.sendKey.Some? ==>
      AutoClientPolicyFor(p, loops).write.general.sendKey == p.write.general.sendKey.value
  {
  }

  /** When nothing is configured that only the newer utility reads, and no
      event loops are supplied, the bean equals the newer utility applied to a
      default `ClientPolicy`. */
  lemma {:induction false} AgreesWithUtility(p: Properties)
    requires p.read.sendKey.None? && p.batch.general.sendKey.None? && p.query.general.sendKey.None?
    requires p.info.timeout.None?
    requires p.batchWrite.durableDelete.None? && p.batchDelete.durableDelete.None?
    requires p.batchUdf.durableDelete.None?
    ensures AutoClientPolicyFor(p, None) == ClientPolicyFor(CLIENT_POLICY_DEFAULTS, p)
  {
    AutoGeneralOverlayIgnoresSendKey(POLICY_DEFAULTS, p.read);
    assert p.read.(sendKey := None) == p.read;
    AutoWritePolicyAgrees(p.write);
    AutoBatchAndQueryIgnoreSendKey(p);
    assert p.batch.(general := p.batch.general.(sendKey := None)) == p.batch;
    assert p.query.(general := p.query.general.(sendKey := None)) == p.query;
  }

  /** The read and write assignments of `aerospikeClientPolicy`. */
  method SetupReadWritePolicies(clientPolicy: ClientPolicy, p: Properties)
    modifies clientPolicy
    ensures fresh(clientPolicy.readPolicyDefault)
    ensures fresh(clientPolicy.writePolicyDefault) && fresh(clientPolicy.writePolicyDefault.base)
    ensures clientPolicy.infoPolicyDefault == old(clientPolicy.infoPolicyDefault)
    ensures clientPolicy.batchPolicyDefault == old(clientPolicy.batchPolicyDefault)
    ensures clientPolicy.queryPolicyDefault == old(clientPolicy.queryPolicyDefault)
    ensures clientPolicy.batchWritePolicyDefault == old(clientPolicy.batchWritePolicyDefault)
    ensures clientPolicy.batchDeletePolicyDefault == old(clientPolicy.batchDeletePolicyDefault)
    ensures clientPolicy.batchUDFPolicyDefault == old(clientPolicy.batchUDFPolicyDefault)
    ensures clientPolicy.fields == old(clientPolicy.fields) && clientPolicy.eventLoops == old(clientPolicy.eventLoops)
    ensures clientPolicy.readPolicyDefault.State() == AutoGeneralOverlay(POLICY_DEFAULTS, p.read)
    ensures clientPolicy.writePolicyDefault.State() == AutoWritePolicyFor(p.write)
  {
    clientPolicy.readPolicyDefault := SetupReadPolicy(p);
    clientPolicy.writePolicyDefault := SetupWritePolicy(p);
  }

  /** The batch and query assignments of `aerospikeClientPolicy`. */
  method SetupBatchQueryPolicies(clientPolicy: ClientPolicy, p: Properties)
    modifies clientPolicy
    ensures fresh(clientPolicy.batchPolicyDefault) && fresh(clientPolicy.batchPolicyDefault.base)
    ensures fresh(clientPolicy.queryPolicyDefault) && fresh(clientPolicy.queryPolicyDefault.base)
    ensures clientPolicy.infoPolicyDefault == old(clientPolicy.infoPolicyDefault)
    ensures clientPolicy.readPolicyDefault == old(clientPolicy.readPolicyDefault)
    ensures clientPolicy.writePolicyDefault == old(clientPolicy.writePolicyDefault)
    ensures clientPolicy.batchWritePolicyDefault == old(clientPolicy.batchWritePolicyDefault)
    ensures clientPolicy.batchDeletePolicyDefault == old(clientPolicy.batchDeletePolicyDefault)
    ensures clientPolicy.batchUDFPolicyDefault == old(clientPolicy.batchUDFPolicyDefault)
    ensures clientPolicy.fields == old(clientPolicy.fields) && clientPolicy.eventLoops == old(clientPolicy.eventLoops)
    ensures clientPolicy.batchPolicyDefault.State() == AutoBatchPolicyFor(p.batch)
    ensures clientPolicy.queryPolicyDefault.State() == AutoQueryPolicyFor(p.query)
  {
    clientPolicy.batchPolicyDefault := SetupBatchPolicy(p);
    clientPolicy.queryPolicyDefault := SetupQueryPolicy(p);
  }

  /** `aerospikeClientPolicy(properties, aerospikeEventLoops)`. */
  method AerospikeClientPolicy(p: Properties, loops: Option<EventLoops>) returns (clientPolicy: ClientPolicy)
    ensures fresh(clientPolicy)
    ensures clientPolicy.State() == AutoClientPolicyFor(p, loops)
  {
    clientPolicy := new ClientPolicy();
    clientPolicy.fields := ClientFieldsOverlay(clientPolicy.fields, p);
    SetupReadWritePolicies(clientPolicy, p);
    SetupBatchQueryPolicies(clientPolicy, p);
    if loops.Some? {
      clientPolicy.eventLoops := loops;
    }
  }
}
