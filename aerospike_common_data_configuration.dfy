/** The logic inside `AerospikeCommonDataConfiguration`'s bean methods: the
    server-version refresh gate, the type-alias key and the copy of three
    data properties onto the shared `AerospikeDataSettings`. */
module AerospikeCommonDataConfiguration {
  import opened JavaLang
  import opened SpringDataAerospike
  import opened AerospikeDataProperties

  /** The refresh requests a configured interval leads to: one, with that
      interval, when it is positive; none otherwise. */
  function RefreshRequests(seconds: Int32): (r: seq<Int32>)
    ensures |r| <= 1
    ensures r == [] <==> seconds <= 0
    ensures forall i :: 0 <= i < |r| ==> r[i] == seconds && r[i] > 0
  {
    if seconds > 0 then [seconds] else []
  }

  /** `processServerVersionRefreshFrequency`. */
  method ProcessServerVersionRefreshFrequency(seconds: Int32, support: ServerVersionSupport)
    modifies support
    ensures support.scheduledRefreshes == old(support.scheduledRefreshes) + RefreshRequests(seconds)
  {
    if seconds > 0 {
      support.ScheduleServerVersionRefresh(seconds);
    }
  }

  /** `serverVersionSupport`: a new support object, scheduled from the properties. */
  method ServerVersionSupportBean(properties: DataProperties) returns (support: ServerVersionSupport)
    ensures fresh(support)
    ensures support.scheduledRefreshes == RefreshRequests(properties.serverVersionRefreshSeconds)
  {
    support := new ServerVersionSupport();
    ProcessServerVersionRefreshFrequency(properties.serverVersionRefreshSeconds, support);
  }

  /** With the default interval of 0, no refresh is scheduled. */
  lemma NoRefreshByDefault()
    ensures RefreshRequests(Defaults().serverVersionRefreshSeconds) == []
  {
  }

  /** The key handed to `AerospikeTypeAliasAccessor`: the legacy `typeKey`, with "" read as null. */
  function TypeAliasKey(properties: DataProperties): (key: Option<string>)
    ensures properties.typeKey == Some("") ==> key.None?
    ensures properties.typeKey != Some("") ==> key == properties.typeKey
    ensures key.Some? ==> key.value != ""
  {
    var typeKey := properties.typeKey;
    if typeKey != None && typeKey.value == "" then None else typeKey
  }

  /** The alias key and the effective class key agree while the legacy key is
      in force, and only then: with it unset the accessor gets null whatever
      `classKey` says. */
  lemma {:induction false} TypeAliasKeyVersusEffectiveClassKey(p: DataProperties)
    ensures TypeKeyInForce(p) ==> TypeAliasKey(p) == EffectiveClassKey(p).value
    ensures !TypeKeyInForce(p) ==> TypeAliasKey(p) == None
    ensures TypeAliasKey(Defaults()) == None && EffectiveClassKey(Defaults()).value == Some(DEFAULT_CLASS_KEY)
  {
    if !TypeKeyInForce(p) {
      assert p.typeKey == None || p.typeKey == Some("");
    }
    DefaultEffectiveClassKey();
  }

  /** The settings after `configureDataSettings`: three flags copied, the rest as before. */
  function WithDataFlags(s: DataSettingsState, p: DataProperties): (r: DataSettingsState)
    ensures r.scansEnabled == p.scansEnabled
    ensures r.createIndexesOnStartup == p.createIndexesOnStartup
    ensures r.writeSortedMaps == p.writeSortedMaps
    ensures r.indexCacheRefreshSeconds == s.indexCacheRefreshSeconds
    ensures r.serverVersionRefreshSeconds == s.serverVersionRefreshSeconds
    ensures r.queryMaxRecords == s.queryMaxRecords && r.batchWriteSize == s.batchWriteSize
    ensures r.keepOriginalKeyTypes == s.keepOriginalKeyTypes
  {
    s.(scansEnabled := p.scansEnabled, createIndexesOnStartup := p.createIndexesOnStartup,
       writeSortedMaps := p.writeSortedMaps)
  }

  /** `configureDataSettings`: mutates the given settings and returns the same object. */
  method ConfigureDataSettings(dataSettings: AerospikeDataSettings, properties: DataProperties)
    returns (r: AerospikeDataSettings)
    modifies dataSettings
    ensures r == dataSettings
    ensures dataSettings.State() == WithDataFlags(old(dataSettings.State()), properties)
  {
    dataSettings.scansEnabled := properties.scansEnabled;
    dataSettings.createIndexesOnStartup := properties.createIndexesOnStartup;
    dataSettings.writeSortedMaps := properties.writeSortedMaps;
    r := dataSettings;
  }

  /** Configuring twice is the same as configuring once. */
  lemma {:induction false} WithDataFlagsIdempotent(s: DataSettingsState, p: DataProperties)
    ensures WithDataFlags(WithDataFlags(s, p), p) == WithDataFlags(s, p)
  {
  }

  /** Only the three copied properties matter. */
  lemma WithDataFlagsReadsThreeProperties(s: DataSettingsState, p: DataProperties, q: DataProperties)
    requires p.scansEnabled == q.scansEnabled && p.createIndexesOnStartup == q.createIndexesOnStartup
    requires p.writeSortedMaps == q.writeSortedMaps
    ensures WithDataFlags(s, p) == WithDataFlags(s, q)
  {
  }

  /** Once configured, the settings are a fixed point of configuring again. */
  lemma WithDataFlagsFixedPoint(s: DataSettingsState, p: DataProperties)
    requires s.scansEnabled == p.scansEnabled && s.createIndexesOnStartup == p.createIndexesOnStartup
    requires s.writeSortedMaps == p.writeSortedMaps
    ensures WithDataFlags(s, p) == s
  {
  }
}
