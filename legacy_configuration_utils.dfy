/** The older `utils/AerospikeConfigurationUtils`. Its host, namespace and
    data-settings helpers and its `setup*Policy` builders are line for line
    those of the newer utility, so they are shared with `ConfigurationUtils`;
    what differs is `getClientPolicyConfig`, which rebuilds seven sub-policies
    and leaves the info policy alone. */
module LegacyConfigurationUtils {
  import opened JavaLang
  import opened AerospikeClient
  import opened AerospikeProperties
  import opened ConfigurationUtils

  /** The `ClientPolicy` after the older `getClientPolicyConfig`: the same field
      overlay, read, write, batch, query and the three batch-record policies
      rebuilt, the info policy and the event loops kept. */
  function LegacyClientPolicyFor(before: ClientPolicyState, p: Properties): (r: ClientPolicyState)
    ensures r.fields == ClientFieldsOverlay(before.fields, p)
    ensures r.read == GeneralOverlay(POLICY_DEFAULTS, p.read)
    ensures r.write == WritePolicyFor(p.write) && r.batch == BatchPolicyFor(p.batch)
    ensures r.query == QueryPolicyFor(p.query)
    ensures r.batchWrite == DurableDeleteFor(BATCH_WRITE_POLICY_DEFAULTS, p.batchWrite)
    ensures r.batchDelete == DurableDeleteFor(BATCH_DELETE_POLICY_DEFAULTS, p.batchDelete)
    ensures r.batchUdf == DurableDeleteFor(BATCH_UDF_POLICY_DEFAULTS, p.batchUdf)
    ensures r.info == before.info
    ensures r.eventLoops == before.eventLoops
  {
    ClientPolicyState(ClientFieldsOverlay(before.fields, p),
      GeneralOverlay(POLICY_DEFAULTS, p.read), WritePolicyFor(p.write), BatchPolicyFor(p.batch),
      QueryPolicyFor(p.query), before.info,
      DurableDeleteFor(BATCH_WRITE_POLICY_DEFAULTS, p.batchWrite),
      DurableDeleteFor(BATCH_DELETE_POLICY_DEFAULTS, p.batchDelete),
      DurableDeleteFor(BATCH_UDF_POLICY_DEFAULTS, p.batchUdf),
      before.eventLoops)
  }

  /** The two variants differ in the info policy only. */
  lemma {:induction false} LegacyDiffersOnlyInInfo(b: ClientPolicyState, p: Properties)
    ensures LegacyClientPolicyFor(b, p) == ClientPolicyFor(b, p).(info := b.info)
  {
  }

  /** They agree exactly when the incoming info policy already is what the
      newer variant would build from the properties. */
  lemma {:induction false} VariantsAgreeIff(b: ClientPolicyState, p: Properties)
    ensures LegacyClientPolicyFor(b, p) == ClientPolicyFor(b, p) <==> b.info == InfoPolicyFor(p.info)
  {
    LegacyDiffersOnlyInInfo(b, p);
  }

  lemma {:induction false} LegacyClientPolicyForIdempotent(b: ClientPolicyState, p: Properties)
    ensures LegacyClientPolicyFor(LegacyClientPolicyFor(b, p), p) == LegacyClientPolicyFor(b, p)
  {
    ClientFieldsOverlayIdempotent(b.fields, p);
  }

  /** The first three sub-policy assignments of the older `getClientPolicyConfig`. */
  method SetupRequestPolicies(clientPolicy: ClientPolicy, p: Properties)
    modifies clientPolicy
    ensures fresh(clientPolicy.readPolicyDefault)
    ensures fresh(clientPolicy.writePolicyDefault) && fresh(clientPolicy.writePolicyDefault.base)
    ensures fresh(clientPolicy.batchPolicyDefault) && fresh(clientPolicy.batchPolicyDefault.base)
    ensures clientPolicy.infoPolicyDefault == old(clientPolicy.infoPolicyDefault)
    ensures clientPolicy.queryPolicyDefault == old(clientPolicy.queryPolicyDefault)
    ensures clientPolicy.batchWritePolicyDefault == old(clientPolicy.batchWritePolicyDefault)
    ensures clientPolicy.batchDeletePolicyDefault == old(clientPolicy.batchDeletePolicyDefault)
    ensures clientPolicy.batchUDFPolicyDefault == old(clientPolicy.batchUDFPolicyDefault)
    ensures clientPolicy.fields == old(clientPolicy.fields) && clientPolicy.eventLoops == old(clientPolicy.eventLoops)
    ensures clientPolicy.readPolicyDefault.State() == GeneralOverlay(POLICY_DEFAULTS, p.read)
    ensures clientPolicy.writePolicyDefault.State() == WritePolicyFor(p.write)
    ensures clientPolicy.batchPolicyDefault.State() == BatchPolicyFor(p.batch)
  {
    clientPolicy.readPolicyDefault := SetupReadPolicy(p);
    clientPolicy.writePolicyDefault := SetupWritePolicy(p);
    clientPolicy.batchPolicyDefault := SetupBatchPolicy(p);
  }

  /** The older `getClientPolicyConfig`: mutates the given policy and returns it. */
  method GetClientPolicyConfig(clientPolicy: ClientPolicy, p: Properties) returns (r: ClientPolicy)
    modifies clientPolicy
    ensures r == clientPolicy
    ensures fresh(clientPolicy.readPolicyDefault)
    ensures fresh(clientPolicy.writePolicyDefault) && fresh(clientPolicy.writePolicyDefault.base)
    ensures fresh(clientPolicy.batchPolicyDefault) && fresh(clientPolicy.batchPolicyDefault.base)
    ensures fresh(clientPolicy.queryPolicyDefault) && fresh(clientPolicy.queryPolicyDefault.base)
    ensures fresh(clientPolicy.batchWritePolicyDefault) && fresh(clientPolicy.batchDeletePolicyDefault)
    ensures fresh(clientPolicy.batchUDFPolicyDefault)
    ensures clientPolicy.infoPolicyDefault == old(clientPolicy.infoPolicyDefault)
    ensures clientPolicy.State() == LegacyClientPolicyFor(old(clientPolicy.State()), p)
  {
    clientPolicy.fields := ClientFieldsOverlay(clientPolicy.fields, p);
    SetupRequestPolicies(clientPolicy, p);
    SetupCommandPolicies(clientPolicy, p);
    r := clientPolicy;
  }
}
