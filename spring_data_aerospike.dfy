/** The parts of Spring Data Aerospike the configuration talks to: the
    property prefixes, the mutable `AerospikeDataSettings` bean and the
    scheduling entry point of `ServerVersionSupport`. */
module SpringDataAerospike {
  import opened JavaLang

  /** `AerospikeDataConfigurationSupport.CONFIG_PREFIX_CONNECTION`. */
  const CONFIG_PREFIX_CONNECTION: string := "spring.aerospike"
  /** `AerospikeDataConfigurationSupport.CONFIG_PREFIX_DATA`. */
  const CONFIG_PREFIX_DATA: string := "spring.data.aerospike"

  /** The fields of `AerospikeDataSettings` that the configuration sets. */
  datatype DataSettingsState = DataSettingsState(
    scansEnabled: bool,
    createIndexesOnStartup: bool,
    indexCacheRefreshSeconds: Int32,
    serverVersionRefreshSeconds: Int32,
    queryMaxRecords: Int64,
    batchWriteSize: Int32,
    keepOriginalKeyTypes: bool,
    writeSortedMaps: bool)

  /** What `new AerospikeDataSettings()` holds, as defined by Spring Data Aerospike. */
  const DATA_SETTINGS_DEFAULTS: DataSettingsState

  class AerospikeDataSettings {
    var scansEnabled: bool
    var createIndexesOnStartup: bool
    var indexCacheRefreshSeconds: Int32
    var serverVersionRefreshSeconds: Int32
    var queryMaxRecords: Int64
    var batchWriteSize: Int32
    var keepOriginalKeyTypes: bool
    var writeSortedMaps: bool

    function State(): DataSettingsState
      reads this
    {
      DataSettingsState(scansEnabled, createIndexesOnStartup, indexCacheRefreshSeconds,
        serverVersionRefreshSeconds, queryMaxRecords, batchWriteSize, keepOriginalKeyTypes, writeSortedMaps)
    }

    constructor ()
      ensures State() == DATA_SETTINGS_DEFAULTS
    {
      var d := DATA_SETTINGS_DEFAULTS;
      scansEnabled, createIndexesOnStartup := d.scansEnabled, d.createIndexesOnStartup;
      indexCacheRefreshSeconds, serverVersionRefreshSeconds := d.indexCacheRefreshSeconds, d.serverVersionRefreshSeconds;
      queryMaxRecords, batchWriteSize := d.queryMaxRecords, d.batchWriteSize;
      keepOriginalKeyTypes, writeSortedMaps := d.keepOriginalKeyTypes, d.writeSortedMaps;
    }
  }

  /** Only the requests to schedule a periodic server-version refresh are
      modelled: each call records the interval it was given, in order. */
  class ServerVersionSupport {
    var scheduledRefreshes: seq<Int32>

    constructor ()
      ensures scheduledRefreshes == []
    {
      scheduledRefreshes := [];
    }

    /** `scheduleServerVersionRefresh(seconds)`. */
    method ScheduleServerVersionRefresh(seconds: Int32)
      modifies this
      ensures scheduledRefreshes == old(scheduledRefreshes) + [seconds]
    {
      scheduledRefreshes := scheduledRefreshes + [seconds];
    }
  }
}
