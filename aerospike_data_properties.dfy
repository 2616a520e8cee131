/** `AerospikeDataProperties`: the `spring.data.aerospike.*` settings with
    their defaults, and the resolution of the bin that stores an entity's type. */
module AerospikeDataProperties {
  import opened JavaLang

  /** The bound property values; null fields are `None`. */
  datatype DataProperties = DataProperties(
    namespace: Option<string>,
    classKey: Option<string>,
    typeKey: Option<string>,
    scansEnabled: bool,
    createIndexesOnStartup: bool,
    sendKey: bool,
    indexCacheRefreshSeconds: Int32,
    serverVersionRefreshSeconds: Int32,
    queryMaxRecords: Int64,
    batchWriteSize: Int32,
    keepOriginalKeyTypes: bool,
    writeSortedMaps: bool)

  const DEFAULT_CLASS_KEY: string := "@_class"

  const TYPE_KEY_DEPRECATION: string :=
    "Property 'spring.data.aerospike.type-key' is deprecated. Please use 'spring.data.aerospike.class-key' instead."

  /** The field initialisers: what a properties object holds before binding. */
  function Defaults(): (p: DataProperties)
    ensures p.namespace.None? && p.typeKey.None?
    ensures p.classKey == Some(DEFAULT_CLASS_KEY)
    ensures !p.scansEnabled && p.createIndexesOnStartup && p.sendKey
    ensures p.indexCacheRefreshSeconds == 3600 && p.serverVersionRefreshSeconds == 0
    ensures p.queryMaxRecords == 10_000 && p.batchWriteSize == 100
    ensures !p.keepOriginalKeyTypes && p.writeSortedMaps
  {
    DataProperties(None, Some(DEFAULT_CLASS_KEY), None, false, true, true, 3600, 0, 10_000, 100, false, true)
  }

  /** The legacy key is in force when it is set to a non-empty value. */
  predicate TypeKeyInForce(p: DataProperties) {
    p.typeKey.Some? && !IsEmpty(p.typeKey.value)
  }

  /** `getEffectiveClassKey`: a non-empty legacy `typeKey` wins, with a deprecation
      warning; otherwise `classKey` is returned as it is, null and "" included. */
  function EffectiveClassKey(p: DataProperties): (r: Logged<Option<string>>)
    ensures r.value == p.typeKey || r.value == p.classKey
    ensures TypeKeyInForce(p) ==> r.value == p.typeKey && r.value.Some? && r.value.value != ""
    ensures !TypeKeyInForce(p) ==> r.value == p.classKey
    ensures HasWarning(r.log) <==> TypeKeyInForce(p)
    ensures r.log == [] || r.log == [Warn(TYPE_KEY_DEPRECATION)]
  {
    if p.typeKey != None && !IsEmpty(p.typeKey.value) then
      var log := [Warn(TYPE_KEY_DEPRECATION)];
      assert IsWarning(log[0]);
      Logged(p.typeKey, log)
    else
      Logged(p.classKey, [])
  }

  /** With neither key set the type bin is "@_class", and nothing is logged. */
  lemma DefaultEffectiveClassKey()
    ensures EffectiveClassKey(Defaults()) == Logged(Some("@_class"), [])
  {
  }

  /** The class key only matters while the legacy key is unset or empty. */
  lemma ClassKeyIrrelevantUnderTypeKey(p: DataProperties, c: Option<string>)
    requires TypeKeyInForce(p)
    ensures EffectiveClassKey(p.(classKey := c)) == EffectiveClassKey(p)
  {
  }

  /** The cases the unit tests pin down, one per test. */
  lemma EffectiveClassKeyExamples()
    ensures EffectiveClassKey(Defaults().(classKey := Some("@custom_class"))).value == Some("@custom_class")
    ensures EffectiveClassKey(Defaults().(typeKey := Some("@legacy_type"))).value == Some("@legacy_type")
    ensures EffectiveClassKey(Defaults().(classKey := Some("@new_class"), typeKey := Some("@legacy_type"))).value
            == Some("@legacy_type")
    ensures EffectiveClassKey(Defaults().(classKey := Some("@custom_class"), typeKey := Some(""))).value
            == Some("@custom_class")
    ensures EffectiveClassKey(Defaults().(classKey := None)).value == None
    ensures EffectiveClassKey(Defaults().(classKey := Some(""))).value == Some("")
  {
  }
}
