# Configuration resolution of the Spring Boot starters for Spring Data Aerospike

This project models, in Dafny, the logic underneath the Spring Boot
auto-configuration for Aerospike: what turns property values into client
policies, event loops and data settings, and what decides the mode the
application starts in. It proves properties of that model.

- **Mode decisions.** `IsClientOnly` and the older `NoNamespaceProperty` choose
  between client-only and the full data stack, from the client-only flag and
  the namespace. `ValidateHostsProperty` (one copy in the data module, one in
  the common module) stops start-up when the hosts property is missing or
  empty. These are functions over the `Environment` (a map of resolved
  properties). A failure is a `Result` carrying the exact exception message.
- **Data properties.** `AerospikeDataProperties` is a datatype holding its field
  defaults. `getEffectiveClassKey` returns a value and the log lines written
  along the way. `AerospikeCommonDataConfiguration` contributes three pieces:
  - the refresh gate, a method on a `ServerVersionSupport` object that records
    the refreshes it is asked to schedule;
  - the empty-to-null normalisation of the type-alias key;
  - `configureDataSettings`, a method that updates an `AerospikeDataSettings`
    object in place.
- **Policy overlay, three variants.**
  - **The variants.** The newer utility (`util/`) rebuilds eight
    sub-policies. The older utility (`utils/`) rebuilds seven and keeps the
    info policy. The auto-configuration bean starts from a new `ClientPolicy`,
    rebuilds four sub-policies, copies `sendKey` only into the write policy,
    and installs optional event loops.
  - **Policy objects.** Every Aerospike policy is a class with mutable fields.
    `WritePolicy`, `BatchPolicy` and `QueryPolicy` extend `Policy`; each holds
    its `Policy` part as a `base` object. A `State()` function snapshots an
    object as a value.
  - **Methods and specifications.** Every builder is a method whose `ensures`
    gives the new state as a function of the old state and the properties
    (`ClientPolicyFor`, `LegacyClientPolicyFor`, `AutoClientPolicyFor`, …).
    Lemmas relate those functions to each other:
    - which sub-policies each variant discards;
    - where the variants agree and exactly where they differ;
    - idempotence;
    - identity on empty input;
    - units (ms against whole seconds);
    - the `(int)` wrap-around.
- **Event loops.**
  - **The utility.** `setupEventLoops` and `chooseLoopGroup` overlay
    the present counters and choose the loop group by name, ignoring case.
  - **`EventLoopsFactory`.** It overlays only positive counters and chooses
    Netty or NIO event loops by name. An unknown type is an error. When a
    native transport is unavailable it falls back to NIO. The availability
    of Epoll and KQueue, and the reported cause, are inputs.
  - **Properties proved.** The thread count is clamped. Each outcome holds
    exactly when its condition does. The factory agrees with the utility when
    both native transports are available.

Helper modules: `JavaLang` holds the Java semantics the code relies on:
- nullable references (`Option`);
- exceptions as `Result`;
- `int`/`long` ranges and the `(int)` narrowing cast;
- `Duration` in nanoseconds;
- ASCII `toLowerCase`/`equalsIgnoreCase`;
- Spring's `hasText`;
- log lines.

`AerospikeClient` holds the client library's policy classes and event-loop
values, whose constructor defaults are opaque constants. `SpringDataAerospike`
holds the property prefixes and the settings and version-support objects.

Modules and files follow the Java classes: `is_client_only.dfy`,
`no_namespace_property.dfy`, `validate_hosts_property.dfy`,
`aerospike_data_properties.dfy`, `aerospike_common_data_configuration.dfy`,
`aerospike_properties.dfy`, `configuration_utils.dfy` (util/),
`legacy_configuration_utils.dfy` (utils/), `aerospike_auto_configuration.dfy`,
`event_loops_factory.dfy`, plus the three helper files.

## Model

| member | source | states |
|---|---|---|
| JavaLang.NarrowToInt | spring-boot-autoconfigure-data-aerospike/src/main/java/org/springframework/boot/autoconfigure/util/AerospikeConfigurationUtils.java:54 | the `(int)` cast of a `long` keeps the value modulo 2^32 and leaves values that fit in an `int` unchanged |
| JavaLang.ClampToNonNegative | spring-boot-autoconfigure-data-aerospike/src/main/java/org/springframework/boot/autoconfigure/util/AerospikeConfigurationUtils.java:151 | `Math.max(x, 0)` is never negative, never below `x`, and is either `x` or 0 |
| JavaLang.ToMillis | spring-boot-autoconfigure-data-aerospike/src/main/java/org/springframework/boot/autoconfigure/util/AerospikeConfigurationUtils.java:54 | `toMillis()` is the number of whole milliseconds in the duration |
| JavaLang.GetSeconds | spring-boot-autoconfigure-data-aerospike/src/main/java/org/springframework/boot/autoconfigure/util/AerospikeConfigurationUtils.java:59 | `getSeconds()` is the number of whole seconds in the duration |
| JavaLang.LowerChar | spring-boot-autoconfigure-data-aerospike/src/main/java/org/springframework/boot/autoconfigure/util/AerospikeConfigurationUtils.java:158 | lower-casing a character changes exactly the ASCII capitals, by +32, and never yields a capital |
| JavaLang.ToLowerCase | spring-boot-autoconfigure-data-aerospike/src/main/java/org/springframework/boot/autoconfigure/util/AerospikeConfigurationUtils.java:158 | `toLowerCase()` keeps the length and lower-cases each character in place |
| JavaLang.LowerCaseSwitchIsIgnoreCase | spring-boot-autoconfigure-data-aerospike/src/main/java/org/springframework/boot/autoconfigure/util/AerospikeConfigurationUtils.java:158-161 | a `switch` on `s.toLowerCase()` against a lower-case label matches exactly when `s` equals the label ignoring case |
| JavaLang.ContainsTextIff | spring-boot-autoconfigure-data-aerospike/src/main/java/org/springframework/boot/autoconfigure/util/AerospikeConfigurationUtils.java:153 | Spring's `containsText` holds iff some character is not whitespace |
| JavaLang.HasTextIff | spring-boot-autoconfigure-data-aerospike/src/main/java/org/springframework/boot/autoconfigure/util/AerospikeConfigurationUtils.java:153 | `hasText` holds iff the string is non-null and has a non-whitespace character |
| JavaLang.GetProperty | spring-boot-autoconfigure-data-aerospike/src/main/java/org/springframework/boot/autoconfigure/condition/IsClientOnly.java:29-30 | `getProperty` is null exactly when the key is not set, and otherwise returns the bound value |
| IsClientOnly.Matches | spring-boot-autoconfigure-data-aerospike/src/main/java/org/springframework/boot/autoconfigure/condition/IsClientOnly.java:28-35 | true iff the client-only flag is set to "true" ignoring case, or the namespace is absent or empty |
| IsClientOnly.DataModeIff | spring-boot-autoconfigure-data-aerospike/src/main/java/org/springframework/boot/autoconfigure/condition/IsClientOnly.java:31-34 | the data layer is chosen (false) iff a non-empty namespace is set and the flag is absent or not "true" ignoring case |
| IsClientOnly.OnlyTwoKeysMatter | spring-boot-autoconfigure-data-aerospike/src/main/java/org/springframework/boot/autoconfigure/condition/IsClientOnly.java:29-34 | environments that agree on the two keys get the same answer |
| IsClientOnly.FlagIgnoresCase | spring-boot-autoconfigure-data-aerospike/src/main/java/org/springframework/boot/autoconfigure/condition/IsClientOnly.java:31 | "true", "TRUE", "True" and "tRuE" all switch client-only mode on whatever the namespace |
| IsClientOnly.OtherFlagValuesDefer | spring-boot-autoconfigure-data-aerospike/src/main/java/org/springframework/boot/autoconfigure/condition/IsClientOnly.java:31-34 | any other flag value leaves the answer to the namespace alone |
| IsClientOnly.WhitespaceNamespaceCounts | spring-boot-autoconfigure-data-aerospike/src/main/java/org/springframework/boot/autoconfigure/condition/IsClientOnly.java:32 | a namespace of spaces is present, so the data layer is chosen |
| IsClientOnly.Examples | spring-boot-autoconfigure-data-aerospike/src/main/java/org/springframework/boot/autoconfigure/condition/IsClientOnly.java:28-35 | the empty environment, a namespace alone, namespace plus flag, an empty namespace and the flag "false" give true, false, true, true, false |
| NoNamespaceProperty.Matches | spring-boot-autoconfigure-data-aerospike/src/main/java/org/springframework/boot/autoconfigure/utils/NoNamespaceProperty.java:11-14 | true iff the namespace is absent or empty; a whitespace namespace gives false |
| NoNamespaceProperty.SameNamespaceKey | spring-boot-autoconfigure-data-aerospike/src/main/java/org/springframework/boot/autoconfigure/utils/NoNamespaceProperty.java:12 | the hard-coded key is the data prefix plus ".namespace", the key `IsClientOnly` reads |
| NoNamespaceProperty.ImpliesClientOnly | spring-boot-autoconfigure-data-aerospike/src/main/java/org/springframework/boot/autoconfigure/utils/NoNamespaceProperty.java:11-14 | whenever this condition holds, `IsClientOnly` holds too |
| NoNamespaceProperty.AgreesWithoutFlag | spring-boot-autoconfigure-data-aerospike/src/main/java/org/springframework/boot/autoconfigure/utils/NoNamespaceProperty.java:11-14 | when the client-only flag is not "true", both conditions give the same answer |
| NoNamespaceProperty.DiffersWithFlag | spring-boot-autoconfigure-data-aerospike/src/main/java/org/springframework/boot/autoconfigure/utils/NoNamespaceProperty.java:11-14 | with the flag and a namespace set, this condition is false while `IsClientOnly` is true |
| ValidateHostsProperty.Matches | spring-boot-autoconfigure-data-aerospike/src/main/java/org/springframework/boot/autoconfigure/condition/ValidateHostsProperty.java:30-38 | absent or empty hosts give `InvalidParameterException` with the missing-property message; any other value, whitespace included, gives true, never false |
| ValidateHostsProperty.CommonMatches | spring-boot-autoconfigure-aerospike-common/src/main/java/org/springframework/boot/autoconfigure/condition/ValidateHostsProperty.java:14-23 | the same outcome for the common module's copy |
| ValidateHostsProperty.CopiesAgree | spring-boot-autoconfigure-aerospike-common/src/main/java/org/springframework/boot/autoconfigure/condition/ValidateHostsProperty.java:13-23 | the two copies give the same result on every environment |
| ValidateHostsProperty.KeyAndMessage | spring-boot-autoconfigure-data-aerospike/src/main/java/org/springframework/boot/autoconfigure/condition/ValidateHostsProperty.java:31-36 | the key is "spring.aerospike.hosts" and the message is "Required property 'spring.aerospike.hosts' is missing" |
| ValidateHostsProperty.BlankHostsPass | spring-boot-autoconfigure-data-aerospike/src/main/java/org/springframework/boot/autoconfigure/condition/ValidateHostsProperty.java:33-38 | a hosts value of one space passes |
| AerospikeDataProperties.Defaults | spring-boot-autoconfigure-data-aerospike/src/main/java/org/springframework/boot/autoconfigure/data/aerospike/AerospikeDataProperties.java:41-115 | the field initialisers: no namespace or type key, class key "@_class", scans off, index creation on, sendKey on, 3600 s index refresh, 0 s version refresh, 10 000 records, batches of 100, key types not kept, sorted maps on |
| AerospikeDataProperties.EffectiveClassKey | spring-boot-autoconfigure-data-aerospike/src/main/java/org/springframework/boot/autoconfigure/data/aerospike/AerospikeDataProperties.java:127-134 | a non-null, non-empty type key wins, with exactly one deprecation warning; otherwise the class key is returned verbatim (null and "" included) with no log; the result is always one of the two |
| AerospikeDataProperties.DefaultEffectiveClassKey | spring-boot-autoconfigure-data-aerospike/src/main/java/org/springframework/boot/autoconfigure/data/aerospike/AerospikeDataProperties.java:127-134 | with neither key set the result is "@_class" and nothing is logged |
| AerospikeDataProperties.ClassKeyIrrelevantUnderTypeKey | spring-boot-autoconfigure-data-aerospike/src/main/java/org/springframework/boot/autoconfigure/data/aerospike/AerospikeDataProperties.java:128-131 | while the type key is in force, changing the class key changes nothing |
| AerospikeDataProperties.EffectiveClassKeyExamples | spring-boot-autoconfigure-data-aerospike/src/test/java/org/springframework/boot/autoconfigure/data/aerospike/AerospikeDataPropertiesTest.java:29-86 | the unit tests' cases: custom class key, legacy type key alone and with a class key, empty type key, null and empty class key |
| AerospikeCommonDataConfiguration.RefreshRequests | spring-boot-autoconfigure-data-aerospike/src/main/java/org/springframework/boot/autoconfigure/data/aerospike/AerospikeCommonDataConfiguration.java:45-50 | one refresh request with exactly the interval when it is positive, none when it is zero or negative |
| AerospikeCommonDataConfiguration.ProcessServerVersionRefreshFrequency | spring-boot-autoconfigure-data-aerospike/src/main/java/org/springframework/boot/autoconfigure/data/aerospike/AerospikeCommonDataConfiguration.java:45-50 | the support object's scheduled refreshes grow by exactly those requests |
| AerospikeCommonDataConfiguration.ServerVersionSupportBean | spring-boot-autoconfigure-data-aerospike/src/main/java/org/springframework/boot/autoconfigure/data/aerospike/AerospikeCommonDataConfiguration.java:38-43 | a fresh support object whose only scheduled refreshes are those the configured interval asks for |
| AerospikeCommonDataConfiguration.NoRefreshByDefault | spring-boot-autoconfigure-data-aerospike/src/main/java/org/springframework/boot/autoconfigure/data/aerospike/AerospikeCommonDataConfiguration.java:45-50 | the default interval of 0 schedules nothing |
| AerospikeCommonDataConfiguration.TypeAliasKey | spring-boot-autoconfigure-data-aerospike/src/main/java/org/springframework/boot/autoconfigure/data/aerospike/AerospikeCommonDataConfiguration.java:89-92 | an empty type key becomes null; null and non-empty keys pass unchanged; the result is never "" |
| AerospikeCommonDataConfiguration.TypeAliasKeyVersusEffectiveClassKey | spring-boot-autoconfigure-data-aerospike/src/main/java/org/springframework/boot/autoconfigure/data/aerospike/AerospikeCommonDataConfiguration.java:89-92 | the alias key equals the effective class key while the type key is in force and is null otherwise, so with defaults the accessor gets null although the effective class key is "@_class" |
| AerospikeCommonDataConfiguration.WithDataFlags | spring-boot-autoconfigure-data-aerospike/src/main/java/org/springframework/boot/autoconfigure/data/aerospike/AerospikeCommonDataConfiguration.java:143-149 | exactly scansEnabled, createIndexesOnStartup and writeSortedMaps take the property values; the other five settings are unchanged |
| AerospikeCommonDataConfiguration.ConfigureDataSettings | spring-boot-autoconfigure-data-aerospike/src/main/java/org/springframework/boot/autoconfigure/data/aerospike/AerospikeCommonDataConfiguration.java:143-149 | mutates the given settings to that state and returns the same object |
| AerospikeCommonDataConfiguration.WithDataFlagsIdempotent | spring-boot-autoconfigure-data-aerospike/src/main/java/org/springframework/boot/autoconfigure/data/aerospike/AerospikeCommonDataConfiguration.java:143-149 | configuring twice equals configuring once |
| AerospikeCommonDataConfiguration.WithDataFlagsReadsThreeProperties | spring-boot-autoconfigure-data-aerospike/src/main/java/org/springframework/boot/autoconfigure/data/aerospike/AerospikeCommonDataConfiguration.java:145-147 | properties that agree on the three flags give the same settings |
| AerospikeCommonDataConfiguration.WithDataFlagsFixedPoint | spring-boot-autoconfigure-data-aerospike/src/main/java/org/springframework/boot/autoconfigure/data/aerospike/AerospikeCommonDataConfiguration.java:143-149 | settings that already hold the three values are left as they are |
| AerospikeProperties.NoPolicyDefaults | spring-boot-autoconfigure-data-aerospike/src/main/java/org/springframework/boot/autoconfigure/aerospike/AerospikeProperties.java:105-133 | a fresh policy record has every field absent |
| AerospikeProperties.Defaults | spring-boot-autoconfigure-data-aerospike/src/main/java/org/springframework/boot/autoconfigure/aerospike/AerospikeProperties.java:40-99 | a 10-second connect timeout and failIfNotConnected true; every other top-level value absent; every sub-record empty |
| AerospikeProperties.DefaultConnectTimeoutMillis | spring-boot-autoconfigure-data-aerospike/src/main/java/org/springframework/boot/autoconfigure/aerospike/AerospikeProperties.java:65 | the default connect timeout is 10 000 ms |
| ConfigurationUtils.WhenPresent | spring-boot-autoconfigure-data-aerospike/src/main/java/org/springframework/boot/autoconfigure/util/AerospikeConfigurationUtils.java:179-182 | a present value replaces the current one; an absent one leaves it; the copy in AerospikeAutoConfiguration.java (lines 152-155) is the same |
| ConfigurationUtils.Millis | spring-boot-autoconfigure-data-aerospike/src/main/java/org/springframework/boot/autoconfigure/util/AerospikeConfigurationUtils.java:54 | `(int) d.toMillis()`: the whole milliseconds when they fit in an `int`, and congruent to them modulo 2^32 always |
| ConfigurationUtils.Seconds | spring-boot-autoconfigure-data-aerospike/src/main/java/org/springframework/boot/autoconfigure/util/AerospikeConfigurationUtils.java:59 | `(int) d.getSeconds()`: the whole seconds when they fit, congruent modulo 2^32 always |
| ConfigurationUtils.MillisWhenPresent | spring-boot-autoconfigure-data-aerospike/src/main/java/org/springframework/boot/autoconfigure/util/AerospikeConfigurationUtils.java:171 | a present duration is stored in ms; an absent one leaves the field |
| ConfigurationUtils.ClientFieldsOverlay | spring-boot-autoconfigure-data-aerospike/src/main/java/org/springframework/boot/autoconfigure/util/AerospikeConfigurationUtils.java:50-61 | each of the twelve client fields is overwritten iff its property is present, the connect, login and tend durations in ms and the socket idle time in whole seconds; the rest keep the incoming values; the copy in utils/AerospikeConfigurationUtils.java (lines 40-51) is the same; the copy in AerospikeAutoConfiguration.java (lines 66-77) is the same |
| ConfigurationUtils.ClientFieldsOverlayIdentity | spring-boot-autoconfigure-data-aerospike/src/main/java/org/springframework/boot/autoconfigure/util/AerospikeConfigurationUtils.java:50-61 | with no client property set the fields are unchanged |
| ConfigurationUtils.ClientFieldsOverlayIdempotent | spring-boot-autoconfigure-data-aerospike/src/main/java/org/springframework/boot/autoconfigure/util/AerospikeConfigurationUtils.java:50-61 | overlaying the same properties twice equals once |
| ConfigurationUtils.DefaultPropertiesClientFields | spring-boot-autoconfigure-data-aerospike/src/main/java/org/springframework/boot/autoconfigure/util/AerospikeConfigurationUtils.java:54-61 | the default properties change only the timeout (to 10 000 ms) and failIfNotConnected (to true) |
| ConfigurationUtils.MillisVersusSeconds | spring-boot-autoconfigure-data-aerospike/src/main/java/org/springframework/boot/autoconfigure/util/AerospikeConfigurationUtils.java:59-60 | a 1.5-second duration becomes 1500 as tend interval but 1 as maximum socket idle |
| ConfigurationUtils.MillisWrapsAboveIntMax | spring-boot-autoconfigure-data-aerospike/src/main/java/org/springframework/boot/autoconfigure/util/AerospikeConfigurationUtils.java:54 | a duration of 3 000 000 000 ms is stored as 3 000 000 000 - 2^32 |
| ConfigurationUtils.GeneralOverlay | spring-boot-autoconfigure-data-aerospike/src/main/java/org/springframework/boot/autoconfigure/util/AerospikeConfigurationUtils.java:170-177 | the four durations in ms, maxRetries and sendKey verbatim, each only when present; the copy in utils/AerospikeConfigurationUtils.java (lines 126-133) is the same |
| ConfigurationUtils.GeneralOverlayIdentity | spring-boot-autoconfigure-data-aerospike/src/main/java/org/springframework/boot/autoconfigure/util/AerospikeConfigurationUtils.java:170-177 | an empty policy record changes nothing |
| ConfigurationUtils.GeneralOverlayIdempotent | spring-boot-autoconfigure-data-aerospike/src/main/java/org/springframework/boot/autoconfigure/util/AerospikeConfigurationUtils.java:170-177 | applying the overlay twice equals once |
| ConfigurationUtils.SetGeneralPolicyProperties | spring-boot-autoconfigure-data-aerospike/src/main/java/org/springframework/boot/autoconfigure/util/AerospikeConfigurationUtils.java:170-177 | the policy object's new state is the general overlay of its old state |
| ConfigurationUtils.WritePolicyFor | spring-boot-autoconfigure-data-aerospike/src/main/java/org/springframework/boot/autoconfigure/util/AerospikeConfigurationUtils.java:81-87 | a default write policy with the general overlay and durableDelete when present |
| ConfigurationUtils.BatchPolicyFor | spring-boot-autoconfigure-data-aerospike/src/main/java/org/springframework/boot/autoconfigure/util/AerospikeConfigurationUtils.java:96-104 | a default batch policy with the general overlay and maxConcurrentThreads, allowInline and sendSetName when present |
| ConfigurationUtils.QueryPolicyFor | spring-boot-autoconfigure-data-aerospike/src/main/java/org/springframework/boot/autoconfigure/util/AerospikeConfigurationUtils.java:127-137 | a default query policy with the general overlay and the five query extras when present |
| ConfigurationUtils.InfoPolicyFor | spring-boot-autoconfigure-data-aerospike/src/main/java/org/springframework/boot/autoconfigure/util/AerospikeConfigurationUtils.java:74-79 | a default info policy with only the timeout, in ms, when present |
| ConfigurationUtils.DurableDeleteFor | spring-boot-autoconfigure-data-aerospike/src/main/java/org/springframework/boot/autoconfigure/util/AerospikeConfigurationUtils.java:106-125 | a default batch-write, batch-delete or batch-UDF policy with only durableDelete, when present |
| ConfigurationUtils.SetupInfoPolicy | spring-boot-autoconfigure-data-aerospike/src/main/java/org/springframework/boot/autoconfigure/util/AerospikeConfigurationUtils.java:74-79 | a fresh info policy in that state |
| ConfigurationUtils.SetupWritePolicy | spring-boot-autoconfigure-data-aerospike/src/main/java/org/springframework/boot/autoconfigure/util/AerospikeConfigurationUtils.java:81-87 | a fresh write policy in that state; the copy in utils/AerospikeConfigurationUtils.java (lines 68-74) is the same |
| ConfigurationUtils.SetupReadPolicy | spring-boot-autoconfigure-data-aerospike/src/main/java/org/springframework/boot/autoconfigure/util/AerospikeConfigurationUtils.java:89-94 | a fresh read policy with the general overlay on the defaults; the copy in utils/AerospikeConfigurationUtils.java (lines 76-81) is the same |
| ConfigurationUtils.SetupBatchPolicy | spring-boot-autoconfigure-data-aerospike/src/main/java/org/springframework/boot/autoconfigure/util/AerospikeConfigurationUtils.java:96-104 | a fresh batch policy in that state; the copy in utils/AerospikeConfigurationUtils.java (lines 83-91) is the same |
| ConfigurationUtils.SetupBatchWritePolicy | spring-boot-autoconfigure-data-aerospike/src/main/java/org/springframework/boot/autoconfigure/util/AerospikeConfigurationUtils.java:106-111 | a fresh batch-write policy with durableDelete when present; the copy in utils/AerospikeConfigurationUtils.java (lines 93-98) is the same |
| ConfigurationUtils.SetupBatchDeletePolicy | spring-boot-autoconfigure-data-aerospike/src/main/java/org/springframework/boot/autoconfigure/util/AerospikeConfigurationUtils.java:113-118 | a fresh batch-delete policy with durableDelete when present; the copy in utils/AerospikeConfigurationUtils.java (lines 100-105) is the same |
| ConfigurationUtils.SetupBatchUDFPolicy | spring-boot-autoconfigure-data-aerospike/src/main/java/org/springframework/boot/autoconfigure/util/AerospikeConfigurationUtils.java:120-125 | a fresh batch-UDF policy with durableDelete when present; the copy in utils/AerospikeConfigurationUtils.java (lines 107-112) is the same |
| ConfigurationUtils.SetupQueryPolicy | spring-boot-autoconfigure-data-aerospike/src/main/java/org/springframework/boot/autoconfigure/util/AerospikeConfigurationUtils.java:127-137 | a fresh query policy in that state; the copy in utils/AerospikeConfigurationUtils.java (lines 114-124) is the same |
| ConfigurationUtils.ClientPolicyFor | spring-boot-autoconfigure-data-aerospike/src/main/java/org/springframework/boot/autoconfigure/util/AerospikeConfigurationUtils.java:49-72 | the field overlay, all eight sub-policies rebuilt from the properties, the event loops kept |
| ConfigurationUtils.ClientPolicyForDiscardsSubPolicies | spring-boot-autoconfigure-data-aerospike/src/main/java/org/springframework/boot/autoconfigure/util/AerospikeConfigurationUtils.java:63-70 | whatever sub-policies the incoming policy held do not affect the result |
| ConfigurationUtils.ClientPolicyForIdempotent | spring-boot-autoconfigure-data-aerospike/src/main/java/org/springframework/boot/autoconfigure/util/AerospikeConfigurationUtils.java:49-72 | configuring twice with the same properties equals once |
| ConfigurationUtils.EmptySubPoliciesGiveDefaults | spring-boot-autoconfigure-data-aerospike/src/main/java/org/springframework/boot/autoconfigure/util/AerospikeConfigurationUtils.java:74-137 | empty property records give the library's default sub-policies |
| ConfigurationUtils.SetupRequestPolicies | spring-boot-autoconfigure-data-aerospike/src/main/java/org/springframework/boot/autoconfigure/util/AerospikeConfigurationUtils.java:63-66 | fresh info, read, write and batch policies in their built states; every other reference and field unchanged |
| ConfigurationUtils.SetupCommandPolicies | spring-boot-autoconfigure-data-aerospike/src/main/java/org/springframework/boot/autoconfigure/util/AerospikeConfigurationUtils.java:67-70 | fresh query and batch-record policies in their built states; every other reference and field unchanged |
| ConfigurationUtils.GetClientPolicyConfig | spring-boot-autoconfigure-data-aerospike/src/main/java/org/springframework/boot/autoconfigure/util/AerospikeConfigurationUtils.java:49-72 | returns the same object, whose new state is `ClientPolicyFor` of its old state, with eight fresh sub-policy objects |
| ConfigurationUtils.EventPolicyOverlay | spring-boot-autoconfigure-data-aerospike/src/main/java/org/springframework/boot/autoconfigure/util/AerospikeConfigurationUtils.java:140-146 | each of the six counters is set iff present |
| ConfigurationUtils.EventPolicyOverlayIdentity | spring-boot-autoconfigure-data-aerospike/src/main/java/org/springframework/boot/autoconfigure/util/AerospikeConfigurationUtils.java:140-146 | with no counter present the event policy keeps its state |
| ConfigurationUtils.EventPolicyOverlayIdempotent | spring-boot-autoconfigure-data-aerospike/src/main/java/org/springframework/boot/autoconfigure/util/AerospikeConfigurationUtils.java:140-146 | applying the counters twice equals once |
| ConfigurationUtils.GroupNamesAreLowerCase | spring-boot-autoconfigure-data-aerospike/src/main/java/org/springframework/boot/autoconfigure/util/AerospikeConfigurationUtils.java:158-161 | the three switch labels are lower case |
| ConfigurationUtils.ChooseLoopGroup | spring-boot-autoconfigure-data-aerospike/src/main/java/org/springframework/boot/autoconfigure/util/AerospikeConfigurationUtils.java:150-168 | threads = max(threads, 0); missing or blank type gives NIO with the info line; Epoll and KQueue iff the type names them ignoring case, with no log; a warning iff the type has text and names none of the three, and then NIO with the message naming the type; a type naming the NIO group ignoring case gives NIO and logs nothing |
| ConfigurationUtils.SetupEventLoops | spring-boot-autoconfigure-data-aerospike/src/main/java/org/springframework/boot/autoconfigure/util/AerospikeConfigurationUtils.java:139-148 | Netty event loops over the counter overlay on a default event policy and the chosen group, with the group's log |
| ConfigurationUtils.ClassNameNamesGroup | spring-boot-autoconfigure-data-aerospike/src/main/java/org/springframework/boot/autoconfigure/util/AerospikeConfigurationUtils.java:158-159 | the Netty class name "EpollEventLoopGroup" names the Epoll group |
| ConfigurationUtils.ChooseLoopGroupBlank | spring-boot-autoconfigure-data-aerospike/src/main/java/org/springframework/boot/autoconfigure/util/AerospikeConfigurationUtils.java:153-156 | a group type of three spaces counts as missing: NIO with the info line |
| ConfigurationUtils.GetClientHosts | spring-boot-autoconfigure-data-aerospike/src/main/java/org/springframework/boot/autoconfigure/util/AerospikeConfigurationUtils.java:41-47 | null iff no hosts are configured, otherwise the parser's result for the hosts and default port; the copy in utils/AerospikeConfigurationUtils.java (lines 22-29) is the same |
| ConfigurationUtils.GetNamespace | spring-boot-autoconfigure-data-aerospike/src/main/java/org/springframework/boot/autoconfigure/util/AerospikeConfigurationUtils.java:184-189 | the namespace unchanged, null iff it is null; the copy in utils/AerospikeConfigurationUtils.java (lines 31-37) is the same |
| ConfigurationUtils.WithDataProperties | spring-boot-autoconfigure-data-aerospike/src/main/java/org/springframework/boot/autoconfigure/util/AerospikeConfigurationUtils.java:191-200 | exactly the seven listed settings take the property values; writeSortedMaps is kept |
| ConfigurationUtils.GetDataSettings | spring-boot-autoconfigure-data-aerospike/src/main/java/org/springframework/boot/autoconfigure/util/AerospikeConfigurationUtils.java:191-200 | the settings' new state is that copy of their old state; the copy in utils/AerospikeConfigurationUtils.java (lines 140-149) is the same |
| ConfigurationUtils.DataSettingsFromProperties | spring-boot-autoconfigure-data-aerospike/src/main/java/org/springframework/boot/autoconfigure/util/AerospikeConfigurationUtils.java:191-200 | after this copy and the three data flags the settings no longer depend on their previous state, and writeSortedMaps follows the property |
| ConfigurationUtils.WithDataPropertiesIdempotent | spring-boot-autoconfigure-data-aerospike/src/main/java/org/springframework/boot/autoconfigure/util/AerospikeConfigurationUtils.java:191-200 | copying twice equals once |
| LegacyConfigurationUtils.LegacyClientPolicyFor | spring-boot-autoconfigure-data-aerospike/src/main/java/org/springframework/boot/autoconfigure/utils/AerospikeConfigurationUtils.java:39-66 | the same field overlay; read, write, batch, query and the three batch-record policies rebuilt; info policy and event loops kept |
| LegacyConfigurationUtils.LegacyDiffersOnlyInInfo | spring-boot-autoconfigure-data-aerospike/src/main/java/org/springframework/boot/autoconfigure/utils/AerospikeConfigurationUtils.java:53-59 | the older variant's result is the newer one's with the incoming info policy put back |
| LegacyConfigurationUtils.VariantsAgreeIff | spring-boot-autoconfigure-data-aerospike/src/main/java/org/springframework/boot/autoconfigure/utils/AerospikeConfigurationUtils.java:39-66 | the two variants agree iff the incoming info policy already is the one the newer variant would build |
| LegacyConfigurationUtils.LegacyClientPolicyForIdempotent | spring-boot-autoconfigure-data-aerospike/src/main/java/org/springframework/boot/autoconfigure/utils/AerospikeConfigurationUtils.java:39-66 | configuring twice equals once |
| LegacyConfigurationUtils.SetupRequestPolicies | spring-boot-autoconfigure-data-aerospike/src/main/java/org/springframework/boot/autoconfigure/utils/AerospikeConfigurationUtils.java:53-55 | fresh read, write and batch policies in their built states; every other reference, the info policy included, and every field unchanged |
| LegacyConfigurationUtils.GetClientPolicyConfig | spring-boot-autoconfigure-data-aerospike/src/main/java/org/springframework/boot/autoconfigure/utils/AerospikeConfigurationUtils.java:39-66 | returns the same object, whose new state is `LegacyClientPolicyFor` of its old state; the info policy object is the same as before |
| AerospikeAutoConfiguration.AutoGeneralOverlay | spring-boot-autoconfigure-data-aerospike/src/main/java/org/springframework/boot/autoconfigure/aerospike/AerospikeAutoConfiguration.java:144-150 | the four durations in ms and maxRetries verbatim when present; sendKey untouched |
| AerospikeAutoConfiguration.AutoGeneralOverlayIgnoresSendKey | spring-boot-autoconfigure-data-aerospike/src/main/java/org/springframework/boot/autoconfigure/aerospike/AerospikeAutoConfiguration.java:144-150 | it is the utilities' overlay with the sendKey property discarded |
| AerospikeAutoConfiguration.SetGeneralPolicyProperties | spring-boot-autoconfigure-data-aerospike/src/main/java/org/springframework/boot/autoconfigure/aerospike/AerospikeAutoConfiguration.java:144-150 | the policy object's new state is that overlay of its old state |
| AerospikeAutoConfiguration.AutoWritePolicyFor | spring-boot-autoconfigure-data-aerospike/src/main/java/org/springframework/boot/autoconfigure/aerospike/AerospikeAutoConfiguration.java:106-113 | a default write policy with the five-field overlay, durableDelete and then sendKey when present |
| AerospikeAutoConfiguration.AutoWritePolicyAgrees | spring-boot-autoconfigure-data-aerospike/src/main/java/org/springframework/boot/autoconfigure/aerospike/AerospikeAutoConfiguration.java:106-113 | setting sendKey afterwards builds the same write policy as the utilities' six-field overlay |
| AerospikeAutoConfiguration.AutoBatchPolicyFor | spring-boot-autoconfigure-data-aerospike/src/main/java/org/springframework/boot/autoconfigure/aerospike/AerospikeAutoConfiguration.java:122-130 | a default batch policy with the five-field overlay and the three batch extras when present |
| AerospikeAutoConfiguration.AutoQueryPolicyFor | spring-boot-autoconfigure-data-aerospike/src/main/java/org/springframework/boot/autoconfigure/aerospike/AerospikeAutoConfiguration.java:132-142 | a default query policy with the five-field overlay and the five query extras when present |
| AerospikeAutoConfiguration.AutoBatchAndQueryIgnoreSendKey | spring-boot-autoconfigure-data-aerospike/src/main/java/org/springframework/boot/autoconfigure/aerospike/AerospikeAutoConfiguration.java:122-142 | batch and query equal the utilities' builders with the sendKey property discarded |
| AerospikeAutoConfiguration.SetupWritePolicy | spring-boot-autoconfigure-data-aerospike/src/main/java/org/springframework/boot/autoconfigure/aerospike/AerospikeAutoConfiguration.java:106-113 | a fresh write policy in that state |
| AerospikeAutoConfiguration.SetupReadPolicy | spring-boot-autoconfigure-data-aerospike/src/main/java/org/springframework/boot/autoconfigure/aerospike/AerospikeAutoConfiguration.java:115-120 | a fresh read policy with the five-field overlay on the defaults |
| AerospikeAutoConfiguration.SetupBatchPolicy | spring-boot-autoconfigure-data-aerospike/src/main/java/org/springframework/boot/autoconfigure/aerospike/AerospikeAutoConfiguration.java:122-130 | a fresh batch policy in that state |
| AerospikeAutoConfiguration.SetupQueryPolicy | spring-boot-autoconfigure-data-aerospike/src/main/java/org/springframework/boot/autoconfigure/aerospike/AerospikeAutoConfiguration.java:132-142 | a fresh query policy in that state |
| AerospikeAutoConfiguration.AutoClientPolicyFor | spring-boot-autoconfigure-data-aerospike/src/main/java/org/springframework/boot/autoconfigure/aerospike/AerospikeAutoConfiguration.java:63-86 | library defaults with the field overlay and the read, write, batch and query policies rebuilt; info and batch-record policies at their defaults; event loops set iff supplied |
| AerospikeAutoConfiguration.SendKeyOnlyForWrites | spring-boot-autoconfigure-data-aerospike/src/main/java/org/springframework/boot/autoconfigure/aerospike/AerospikeAutoConfiguration.java:79-82 | read, batch and query keep the default sendKey whatever is configured; a configured write sendKey is applied |
| AerospikeAutoConfiguration.AgreesWithUtility | spring-boot-autoconfigure-data-aerospike/src/main/java/org/springframework/boot/autoconfigure/aerospike/AerospikeAutoConfiguration.java:63-86 | without event loops, and with nothing set that only the newer utility reads, the bean equals the newer utility applied to a default client policy |
| AerospikeAutoConfiguration.SetupReadWritePolicies | spring-boot-autoconfigure-data-aerospike/src/main/java/org/springframework/boot/autoconfigure/aerospike/AerospikeAutoConfiguration.java:79-80 | fresh read and write policies in their built states; every other reference and field unchanged |
| AerospikeAutoConfiguration.SetupBatchQueryPolicies | spring-boot-autoconfigure-data-aerospike/src/main/java/org/springframework/boot/autoconfigure/aerospike/AerospikeAutoConfiguration.java:81-82 | fresh batch and query policies in their built states; every other reference and field unchanged |
| AerospikeAutoConfiguration.AerospikeClientPolicy | spring-boot-autoconfigure-data-aerospike/src/main/java/org/springframework/boot/autoconfigure/aerospike/AerospikeAutoConfiguration.java:63-86 | a fresh client policy whose state is `AutoClientPolicyFor` of the properties and the optional event loops |
| EventLoopsFactory.CauseText | spring-boot-autoconfigure-data-aerospike/src/main/java/org/springframework/boot/autoconfigure/util/EventLoopsFactory.java:118 | the cause's message, "unknown" without a cause, and "null" for a null message |
| EventLoopsFactory.CreateEpollEventLoopGroup | spring-boot-autoconfigure-data-aerospike/src/main/java/org/springframework/boot/autoconfigure/util/EventLoopsFactory.java:111-121 | an Epoll group iff Epoll is available, with the info line; otherwise NIO with the same thread count and a warning naming the cause |
| EventLoopsFactory.CreateKQueueEventLoopGroup | spring-boot-autoconfigure-data-aerospike/src/main/java/org/springframework/boot/autoconfigure/util/EventLoopsFactory.java:123-133 | the same with KQueue |
| EventLoopsFactory.ChooseLoopGroup | spring-boot-autoconfigure-data-aerospike/src/main/java/org/springframework/boot/autoconfigure/util/EventLoopsFactory.java:91-109 | threads = max(threads, 0); Epoll iff the type names it ignoring case and Epoll is available, KQueue likewise; missing or blank type gives NIO with the info line; the NIO name and unknown names are stated by `NioGroupLogsNothing` and `UnknownGroupWarns` |
| EventLoopsFactory.ChooseLoopGroupAgreesWhenAvailable | spring-boot-autoconfigure-data-aerospike/src/main/java/org/springframework/boot/autoconfigure/util/EventLoopsFactory.java:91-109 | with both transports available the group is the one the utility's `chooseLoopGroup` picks |
| EventLoopsFactory.EpollGroupDelegates | spring-boot-autoconfigure-data-aerospike/src/main/java/org/springframework/boot/autoconfigure/util/EventLoopsFactory.java:99-100 | a type naming Epoll in any case goes to `createEpollEventLoopGroup` with the clamped thread count |
| EventLoopsFactory.KQueueGroupDelegates | spring-boot-autoconfigure-data-aerospike/src/main/java/org/springframework/boot/autoconfigure/util/EventLoopsFactory.java:99-101 | a type naming KQueue in any case goes to `createKQueueEventLoopGroup` with the clamped thread count |
| EventLoopsFactory.UnknownGroupWarns | spring-boot-autoconfigure-data-aerospike/src/main/java/org/springframework/boot/autoconfigure/util/EventLoopsFactory.java:103-106 | a non-blank type naming none of the three groups, ignoring case, gives NIO with the clamped thread count and exactly the warning "Unexpected EventLoops group type '<type>', proceeding with 'NioEventLoopGroup' instead" |
| EventLoopsFactory.NioGroupLogsNothing | spring-boot-autoconfigure-data-aerospike/src/main/java/org/springframework/boot/autoconfigure/util/EventLoopsFactory.java:102 | a type naming the NIO group in any case gives NIO with the clamped thread count and logs nothing |
| EventLoopsFactory.WhenPositive | spring-boot-autoconfigure-data-aerospike/src/main/java/org/springframework/boot/autoconfigure/util/EventLoopsFactory.java:52-54 | a positive value replaces the current one; zero or negative keeps it |
| EventLoopsFactory.PositiveOverlay | spring-boot-autoconfigure-data-aerospike/src/main/java/org/springframework/boot/autoconfigure/util/EventLoopsFactory.java:52-69 | each of the six counters is set iff its value is positive |
| EventLoopsFactory.PositiveOverlayAgreesWhenPositive | spring-boot-autoconfigure-data-aerospike/src/main/java/org/springframework/boot/autoconfigure/util/EventLoopsFactory.java:52-69 | with every counter positive it equals the utility's present-value overlay |
| EventLoopsFactory.NonPositiveCountersKeepDefaults | spring-boot-autoconfigure-data-aerospike/src/main/java/org/springframework/boot/autoconfigure/util/EventLoopsFactory.java:52-69 | with every counter zero or negative the event policy is unchanged |
| EventLoopsFactory.GetNioEventLoopsOrFail | spring-boot-autoconfigure-data-aerospike/src/main/java/org/springframework/boot/autoconfigure/util/EventLoopsFactory.java:77-89 | NIO event loops iff the type is "nio" ignoring case, with max(threads, 0), the daemon flag and the pool name; otherwise the exception naming the type |
| EventLoopsFactory.EventLoopsFor | spring-boot-autoconfigure-data-aerospike/src/main/java/org/springframework/boot/autoconfigure/util/EventLoopsFactory.java:49-75 | an unset counter or event-loops type fails with a null dereference |
| EventLoopsFactory.NettyIff | spring-boot-autoconfigure-data-aerospike/src/main/java/org/springframework/boot/autoconfigure/util/EventLoopsFactory.java:71-73 | Netty event loops iff the type is "netty" ignoring case, built on the positive overlay and the chosen group, with the group's log |
| EventLoopsFactory.NioIff | spring-boot-autoconfigure-data-aerospike/src/main/java/org/springframework/boot/autoconfigure/util/EventLoopsFactory.java:71-89 | NIO event loops iff the type is "nio" ignoring case; group type and transports are then not consulted and nothing is logged |
| EventLoopsFactory.OtherTypesFail | spring-boot-autoconfigure-data-aerospike/src/main/java/org/springframework/boot/autoconfigure/util/EventLoopsFactory.java:77-84 | any other type fails with "Expecting 'nio' or 'netty' as eventLoopsType, got '<type>' instead" |
| EventLoopsFactory.CreateEventLoops | spring-boot-autoconfigure-data-aerospike/src/main/java/org/springframework/boot/autoconfigure/util/EventLoopsFactory.java:49-75 | the outcome and log of `EventLoopsFor`, built by updating a fresh event policy in place |

Where the two configuration utilities contain code with the same behaviour
(`getClientHosts`, `getNamespace`, `getDataSettings`,
`setGeneralPolicyProperties` and the seven `setup*Policy` builders), a single
member models both. The copies differ only in form: `getClientHosts` returns
a `List<Host>` in `util/` and a `Collection<Host>` in `utils/`, and the
older copies of `getClientHosts` and `getNamespace` return null from an
`else` branch where the newer ones fall through to `return null`. Its row cites the newer copy and names the lines of the other.

## Left out

- **Spring itself.** Condition evaluation, bean registration and the
  `@Conditional…` annotations are left out. The statement that exactly one
  data/client import applies needs `IsNotClientOnly`, which is not part of this
  model, so it is not stated.
- **Host parsing.** `Host.parseHosts` belongs to the client library. It is a
  function parameter of `GetClientHosts`.
- **Client and Netty construction.** Building `AerospikeClient`,
  `AerospikeReactorClient` and the Netty groups is left out. A group is a
  value that records its kind and thread count. Reflection (`EntityScanner`,
  `BeanUtils.instantiateClass`) is left out.
- **Default NIO event loops.** The `aerospikeEventLoops` bean of the
  auto-configuration (AerospikeAutoConfiguration.java lines 99-103) only calls
  the library's NIO constructor. It is not modelled.
- **Library defaults.** The policy constructors' defaults are defined by the
  Aerospike client library, so they are uninitialised constants. The `AerospikeDataSettings` defaults, defined by
  Spring Data Aerospike, are treated the same way.
- **Scheduling.** The actual server-version scheduling is left out.
  `ServerVersionSupport` records only the intervals it is asked to schedule.
- **Property record.** `AerospikeProperties.java`, as it stands, is older than
  the code that reads it: it has no batch, query, info, batch-record or
  event-loop sub-records and no `minConnsPerNode` or `sendKey`. The record
  here is the union of the fields the configuration code reads. Those
  fields' defaults are taken to be absent. `EventLoopsProperties` is declared in a newer
  version of `AerospikeProperties` than the one at that path, and that
  declaration is not in the repository, so the Java types of its fields are
  not known:
  - the six counters are modelled as nullable (`Option`) so that a boxed
    `Integer` declaration is covered. Reading an unset one in
    `EventLoopsFactory` is then a null unboxing, modelled as a `NullPointer`
    error. If the counters are primitive `int`s, the `None` case never
    arises and the `NullPointer` outcome of `EventLoopsFor` is unreachable
    for them;
  - `threads` is an `int` and `nioDaemonThreads` a `boolean`.
- **`(int)` casts.** They narrow with two's-complement wrap-around instead of
  requiring that the value fits.
- **Durations.** A `Duration` is a non-negative count of nanoseconds whose
  millisecond value fits in a `long`. Negative durations and overflow inside
  `toMillis()` are outside the model.
- **Case folding.** `toLowerCase` and `equalsIgnoreCase` fold ASCII letters
  only. Locale-specific and non-ASCII case mappings are not modelled.
- **Log lines.** They are returned values (`Logged<T>`). The `{}`
  placeholders of the logger are written out as string concatenation.
- **`ClientPolicy` scalar fields.** The twelve scalar fields are one `fields`
  record, assigned in a single step. Absent properties write the current value
  back, which leaves the same state as not assigning it.
- **`EventLoops` values.** They hold a snapshot of the `EventPolicy` state, not
  a reference to the object, so later changes to that object are not seen.
- **The `ClientPolicy` constructor.** It states each field and sub-policy of
  its new object rather than one equation on `State()`.
- **Helper methods.** The getClientPolicyConfig/aerospikeClientPolicy methods
  assign their sub-policies through two helper methods
  (`SetupRequestPolicies`/`SetupCommandPolicies`,
  `SetupReadWritePolicies`/`SetupBatchQueryPolicies`). The assignments are the
  same, in the same order.
- **Type-alias accessor.** `aerospikeTypeAliasAccessor` passes the raw type
  key, not the effective class key, so with default properties the accessor
  receives null. `AerospikeTypeAliasAccessor` is Spring Data Aerospike library
  code outside this repository, so what it does with null is not part of this
  model. The divergence is stated as a lemma only; it is not claimed as a
  defect.
- **Other modules.** The common module's `AerospikeDataProperties.java` only
  repeats field defaults, so it is not modelled separately. The remaining
  configuration classes, repositories, example applications and tests only
  wire beans together. Of the tests, only the class-key tests are restated,
  as `EffectiveClassKeyExamples`.
