/** `EventLoopsFactory`: event loops for the reactive client. Unlike the
    utility's `setupEventLoops` it copies only positive counters, chooses
    between Netty and NIO event loops by name, and falls back to NIO when a
    native transport is not available. The availability probes of Netty's
    `Epoll` and `KQueue` are inputs. */
module EventLoopsFactory {
  import opened JavaLang
  import opened AerospikeClient
  import opened AerospikeProperties
  import ConfigurationUtils

  /** What a transport's `unavailabilityCause()` returns: null, or a throwable
      whose message may itself be null. */
  datatype Cause = NoCause | Cause(message: Option<string>)

  /** The probe of a native transport (`Epoll` or `KQueue`). */
  datatype Transport = Transport(available: bool, unavailabilityCause: Cause)

  /** The exceptions `createEventLoops` can throw. */
  datatype FactoryError =
    | NullPointer
    | UnsupportedOperation(message: string)

  /** The text logged for the cause: its message, "unknown" when there is no
      cause, and "null" (as the logger prints it) when the message is null. */
  function CauseText(c: Cause): (t: string)
    ensures c.NoCause? ==> t == "unknown"
    ensures c.Cause? && c.message.Some? ==> t == c.message.value
    ensures c.Cause? && c.message.None? ==> t == "null"
  {
    match c
    case NoCause => "unknown"
    case Cause(Some(m)) => m
    case Cause(None) => "null"
  }

  const EPOLL_MESSAGE: string := "Using EpollEventLoopGroup for native Linux transport"
  const KQUEUE_MESSAGE: string := "Using KQueueEventLoopGroup for native macOS/BSD transport"

  function EpollUnavailableMessage(cause: string): string {
    "EpollEventLoopGroup requested but Epoll is not available on this platform. Cause: "
    + cause + ". Falling back to NioEventLoopGroup."
  }

  function KQueueUnavailableMessage(cause: string): string {
    "KQueueEventLoopGroup requested but KQueue is not available on this platform. Cause: "
    + cause + ". Falling back to NioEventLoopGroup."
  }

  /** `createEpollEventLoopGroup`: an Epoll group when the transport is there,
      otherwise NIO with the same thread count and a warning naming the cause. */
  function CreateEpollEventLoopGroup(threads: Int32, epoll: Transport): (r: Logged<LoopGroup>)
    ensures r.value.threads == threads
    ensures r.value.EpollEventLoopGroup? <==> epoll.available
    ensures epoll.available ==> r.log == [Info(EPOLL_MESSAGE)]
    ensures !epoll.available ==> r.value.NioEventLoopGroup?
    ensures !epoll.available ==> r.log == [Warn(EpollUnavailableMessage(CauseText(epoll.unavailabilityCause)))]
  {
    if epoll.available then
      Logged(EpollEventLoopGroup(threads), [Info(EPOLL_MESSAGE)])
    else
      Logged(NioEventLoopGroup(threads), [Warn(EpollUnavailableMessage(CauseText(epoll.unavailabilityCause)))])
  }

  /** `createKQueueEventLoopGroup`, the same with the KQueue transport. */
  function CreateKQueueEventLoopGroup(threads: Int32, kqueue: Transport): (r: Logged<LoopGroup>)
    ensures r.value.threads == threads
    ensures r.value.KQueueEventLoopGroup? <==> kqueue.available
    ensures kqueue.available ==> r.log == [Info(KQUEUE_MESSAGE)]
    ensures !kqueue.available ==> r.value.NioEventLoopGroup?
    ensures !kqueue.available ==> r.log == [Warn(KQueueUnavailableMessage(CauseText(kqueue.unavailabilityCause)))]
  {
    if kqueue.available then
      Logged(KQueueEventLoopGroup(threads), [Info(KQUEUE_MESSAGE)])
    else
      Logged(NioEventLoopGroup(threads), [Warn(KQueueUnavailableMessage(CauseText(kqueue.unavailabilityCause)))])
  }

  /** This file's `chooseLoopGroup`: as the utility's, but a native group is
      built only when its transport is available. */
  function ChooseLoopGroup(e: EventLoopsProperties, epoll: Transport, kqueue: Transport): (r: Logged<LoopGroup>)
    ensures r.value.threads == ClampToNonNegative(e.threads) && r.value.threads >= 0
    ensures r.value.EpollEventLoopGroup? <==>
      ConfigurationUtils.NamesGroup(e.groupType, ConfigurationUtils.EPOLL_GROUP_NAME) && epoll.available
    ensures r.value.KQueueEventLoopGroup? <==>
      ConfigurationUtils.NamesGroup(e.groupType, ConfigurationUtils.KQUEUE_GROUP_NAME) && kqueue.available
    ensures !HasText(e.groupType) ==>
      r == Logged(NioEventLoopGroup(r.value.threads), [Info(ConfigurationUtils.STANDARD_GROUP_MESSAGE)])
  {
    var threadsNumber := ClampToNonNegative(e.threads);
    if !HasText(e.groupType) then
      Logged(NioEventLoopGroup(threadsNumber), [Info(ConfigurationUtils.STANDARD_GROUP_MESSAGE)])
    else
      var g := e.groupType.value;
      ConfigurationUtils.GroupNamesAreLowerCase();
      LowerCaseSwitchIsIgnoreCase(g, ConfigurationUtils.EPOLL_GROUP_NAME);
      LowerCaseSwitchIsIgnoreCase(g, ConfigurationUtils.KQUEUE_GROUP_NAME);
      LowerCaseSwitchIsIgnoreCase(g, ConfigurationUtils.NIO_GROUP_NAME);
      match ToLowerCase(g)
      case "epolleventloopgroup" => CreateEpollEventLoopGroup(threadsNumber, epoll)
      case "kqueueeventloopgroup" => CreateKQueueEventLoopGroup(threadsNumber, kqueue)
      case "nioeventloopgroup" => Logged(NioEventLoopGroup(threadsNumber), [])
      case _ => Logged(NioEventLoopGroup(threadsNumber), [Warn(ConfigurationUtils.UnexpectedGroupMessage(g))])
  }

  /** With both native transports available the factory picks the same group
      as the utility; only the log differs. */
  lemma {:induction false} ChooseLoopGroupAgreesWhenAvailable(e: EventLoopsProperties, epoll: Transport, kqueue: Transport)
    requires epoll.available && kqueue.available
    ensures ChooseLoopGroup(e, epoll, kqueue).value == ConfigurationUtils.ChooseLoopGroup(e).value
  {
    var r := ChooseLoopGroup(e, epoll, kqueue);
    var u := ConfigurationUtils.ChooseLoopGroup(e);
    assert r.value.threads == u.value.threads;
    if !r.value.EpollEventLoopGroup? && !r.value.KQueueEventLoopGroup? {
      assert r.value.NioEventLoopGroup? && u.value.NioEventLoopGroup?;
    }
  }

  /** A group type naming Epoll, in any case, goes to `createEpollEventLoopGroup`. */
  lemma {:induction false} EpollGroupDelegates(e: EventLoopsProperties, epoll: Transport, kqueue: Transport)
    requires ConfigurationUtils.NamesGroup(e.groupType, ConfigurationUtils.EPOLL_GROUP_NAME)
    ensures ChooseLoopGroup(e, epoll, kqueue) == CreateEpollEventLoopGroup(ClampToNonNegative(e.threads), epoll)
  {
    ConfigurationUtils.GroupNamesAreLowerCase();
    LowerCaseSwitchIsIgnoreCase(e.groupType.value, ConfigurationUtils.EPOLL_GROUP_NAME);
  }

  /** A group type naming KQueue, in any case, goes to `createKQueueEventLoopGroup`. */
  lemma {:induction false} KQueueGroupDelegates(e: EventLoopsProperties, epoll: Transport, kqueue: Transport)
    requires ConfigurationUtils.NamesGroup(e.groupType, ConfigurationUtils.KQUEUE_GROUP_NAME)
    ensures ChooseLoopGroup(e, epoll, kqueue) == CreateKQueueEventLoopGroup(ClampToNonNegative(e.threads), kqueue)
  {
    ConfigurationUtils.GroupNamesAreLowerCase();
    LowerCaseSwitchIsIgnoreCase(e.groupType.value, ConfigurationUtils.KQUEUE_GROUP_NAME);
  }

  /** A group type that names no known group falls back to NIO with a warning
      naming the type. */
  lemma {:induction false} UnknownGroupWarns(e: EventLoopsProperties, epoll: Transport, kqueue: Transport)
    requires HasText(e.groupType)
    requires !ConfigurationUtils.NamesGroup(e.groupType, ConfigurationUtils.EPOLL_GROUP_NAME)
    requires !ConfigurationUtils.NamesGroup(e.groupType, ConfigurationUtils.KQUEUE_GROUP_NAME)
    requires !ConfigurationUtils.NamesGroup(e.groupType, ConfigurationUtils.NIO_GROUP_NAME)
    ensures ChooseLoopGroup(e, epoll, kqueue) ==
      Logged(NioEventLoopGroup(ClampToNonNegative(e.threads)),
             [Warn(ConfigurationUtils.UnexpectedGroupMessage(e.groupType.value))])
  {
    ConfigurationUtils.GroupNamesAreLowerCase();
    LowerCaseSwitchIsIgnoreCase(e.groupType.value, ConfigurationUtils.EPOLL_GROUP_NAME);
    LowerCaseSwitchIsIgnoreCase(e.groupType.value, ConfigurationUtils.KQUEUE_GROUP_NAME);
    LowerCaseSwitchIsIgnoreCase(e.groupType.value, ConfigurationUtils.NIO_GROUP_NAME);
  }

  /** A group type naming NIO, in any case, gives NIO and logs nothing. */
  lemma {:induction false} NioGroupLogsNothing(e: EventLoopsProperties, epoll: Transport, kqueue: Transport)
    requires ConfigurationUtils.NamesGroup(e.groupType, ConfigurationUtils.NIO_GROUP_NAME)
    ensures ChooseLoopGroup(e, epoll, kqueue) == Logged(NioEventLoopGroup(ClampToNonNegative(e.threads)), [])
  {
    ConfigurationUtils.GroupNamesAreLowerCase();
    LowerCaseSwitchIsIgnoreCase(e.groupType.value, ConfigurationUtils.NIO_GROUP_NAME);
  }

  // ------------------------------------------------------------ event policy

  /** One `if (x > 0) field = x` of `createEventLoops`. */
  function WhenPositive(x: Int32, current: Int32): (r: Int32)
    ensures x > 0 ==> r == x
    ensures x <= 0 ==> r == current
  {
    if x > 0 then x else current
  }

  /** The six counters are all set (when boxed, reading an unset one unboxes null). */
  predicate CountersSet(e: EventLoopsProperties) {
    e.maxCommandsInProcess.Some? && e.maxCommandsInQueue.Some? && e.queueInitialCapacity.Some?
    && e.minTimeout.Some? && e.ticksPerWheel.Some? && e.commandsPerEventLoop.Some?
  }

  /** The positive-only overlay of `createEventLoops` onto an `EventPolicy`. */
  function PositiveOverlay(s: EventPolicyState, e: EventLoopsProperties): (r: EventPolicyState)
    requires CountersSet(e)
    ensures r.maxCommandsInProcess == WhenPositive(e.maxCommandsInProcess.value, s.maxCommandsInProcess)
    ensures r.maxCommandsInQueue == WhenPositive(e.maxCommandsInQueue.value, s.maxCommandsInQueue)
    ensures r.queueInitialCapacity == WhenPositive(e.queueInitialCapacity.value, s.queueInitialCapacity)
    ensures r.minTimeout == WhenPositive(e.minTimeout.value, s.minTimeout)
    ensures r.ticksPerWheel == WhenPositive(e.ticksPerWheel.value, s.ticksPerWheel)
    ensures r.commandsPerEventLoop == WhenPositive(e.commandsPerEventLoop.value, s.commandsPerEventLoop)
  {
    EventPolicyState(
      WhenPositive(e.maxCommandsInProcess.value, s.maxCommandsInProcess),
      WhenPositive(e.maxCommandsInQueue.value, s.maxCommandsInQueue),
      WhenPositive(e.queueInitialCapacity.value, s.queueInitialCapacity),
      WhenPositive(e.minTimeout.value, s.minTimeout),
      WhenPositive(e.ticksPerWheel.value, s.ticksPerWheel),
      WhenPositive(e.commandsPerEventLoop.value, s.commandsPerEventLoop))
  }

  /** Where every counter is positive the factory's overlay and the utility's
      `whenPresent` overlay agree; zero or negative counters keep the defaults. */
  lemma {:induction false} PositiveOverlayAgreesWhenPositive(s: EventPolicyState, e: EventLoopsProperties)
    requires CountersSet(e)
    requires e.maxCommandsInProcess.value > 0 && e.maxCommandsInQueue.value > 0
    requires e.queueInitialCapacity.value > 0 && e.minTimeout.value > 0
    requires e.ticksPerWheel.value > 0 && e.commandsPerEventLoop.value > 0
    ensures PositiveOverlay(s, e) == ConfigurationUtils.EventPolicyOverlay(s, e)
  {
  }

  lemma {:induction false} NonPositiveCountersKeepDefaults(s: EventPolicyState, e: EventLoopsProperties)
    requires CountersSet(e)
    requires e.maxCommandsInProcess.value <= 0 && e.maxCommandsInQueue.value <= 0
    requires e.queueInitialCapacity.value <= 0 && e.minTimeout.value <= 0
    requires e.ticksPerWheel.value <= 0 && e.commandsPerEventLoop.value <= 0
    ensures PositiveOverlay(s, e) == s
  {
  }

  // ------------------------------------------------------------ event loops

  const NETTY: string := "netty"
  const NIO: string := "nio"

  function UnsupportedTypeMessage(eventLoopsType: string): string {
    "Expecting 'nio' or 'netty' as eventLoopsType, got '" + eventLoopsType + "' instead"
  }

  /** `getNioEventLoopsOrFail`: NIO event loops when the type is "nio" in any
      case, with `max(threads, 0)` threads and the daemon flag and pool name as
      configured; otherwise the exception naming the type. */
  function GetNioEventLoopsOrFail(policy: EventPolicyState, e: EventLoopsProperties): (r: Result<EventLoops, FactoryError>)
    requires e.eventLoopsType.Some?
    ensures r.Ok? <==> EqualsIgnoreCase(e.eventLoopsType.value, NIO)
    ensures r.Ok? ==> r.value == NioEventLoops(policy, ClampToNonNegative(e.threads), e.nioDaemonThreads, e.nioPoolName)
    ensures r.Err? ==> r.error == UnsupportedOperation(UnsupportedTypeMessage(e.eventLoopsType.value))
  {
    if !EqualsIgnoreCase(e.eventLoopsType.value, NIO) then
      Err(UnsupportedOperation(UnsupportedTypeMessage(e.eventLoopsType.value)))
    else
      Ok(NioEventLoops(policy, ClampToNonNegative(e.threads), e.nioDaemonThreads, e.nioPoolName))
  }

  /** The outcome of `createEventLoops`, with the log lines written on the way. */
  function EventLoopsFor(e: EventLoopsProperties, epoll: Transport, kqueue: Transport): (r: Logged<Result<EventLoops, FactoryError>>)
    ensures !CountersSet(e) || e.eventLoopsType.None? ==> r == Logged(Err(NullPointer), [])
  {
    if !CountersSet(e) || e.eventLoopsType.None? then
      Logged(Err(NullPointer), [])
    else
      var policy := PositiveOverlay(EVENT_POLICY_DEFAULTS, e);
      if EqualsIgnoreCase(e.eventLoopsType.value, NETTY) then
        var group := ChooseLoopGroup(e, epoll, kqueue);
        Logged(Ok(NettyEventLoops(policy, group.value)), group.log)
      else
        Logged(GetNioEventLoopsOrFail(policy, e), [])
  }

  /** Netty event loops exactly for the type "netty" in any case, built on the
      chosen group, with the group's log. */
  lemma {:induction false} NettyIff(e: EventLoopsProperties, epoll: Transport, kqueue: Transport)
    ensures EventLoopsFor(e, epoll, kqueue).value.Ok? && EventLoopsFor(e, epoll, kqueue).value.value.NettyEventLoops?
            <==> CountersSet(e) && e.eventLoopsType.Some? && EqualsIgnoreCase(e.eventLoopsType.value, NETTY)
    ensures CountersSet(e) && e.eventLoopsType.Some? && EqualsIgnoreCase(e.eventLoopsType.value, NETTY) ==>
      EventLoopsFor(e, epoll, kqueue) == Logged(Ok(NettyEventLoops(PositiveOverlay(EVENT_POLICY_DEFAULTS, e),
        ChooseLoopGroup(e, epoll, kqueue).value)), ChooseLoopGroup(e, epoll, kqueue).log)
  {
  }

  /** NIO event loops exactly for the type "nio" in any case; the group type
      and the transports are then not consulted and nothing is logged. */
  lemma {:induction false} NioIff(e: EventLoopsProperties, epoll: Transport, kqueue: Transport)
    ensures EventLoopsFor(e, epoll, kqueue).value.Ok? && EventLoopsFor(e, epoll, kqueue).value.value.NioEventLoops?
            <==> CountersSet(e) && e.eventLoopsType.Some? && EqualsIgnoreCase(e.eventLoopsType.value, NIO)
    ensures CountersSet(e) && e.eventLoopsType.Some? && EqualsIgnoreCase(e.eventLoopsType.value, NIO) ==>
      EventLoopsFor(e, epoll, kqueue) == Logged(Ok(NioEventLoops(PositiveOverlay(EVENT_POLICY_DEFAULTS, e),
        ClampToNonNegative(e.threads), e.nioDaemonThreads, e.nioPoolName)), [])
  {
    if CountersSet(e) && e.eventLoopsType.Some? && EqualsIgnoreCase(e.eventLoopsType.value, NIO) {
      assert !EqualsIgnoreCase(e.eventLoopsType.value, NETTY);
    }
  }

  /** Any other type fails with the message naming it. */
  lemma {:induction false} OtherTypesFail(e: EventLoopsProperties, epoll: Transport, kqueue: Transport)
    requires CountersSet(e) && e.eventLoopsType.Some?
    requires !EqualsIgnoreCase(e.eventLoopsType.value, NETTY) && !EqualsIgnoreCase(e.eventLoopsType.value, NIO)
    ensures EventLoopsFor(e, epoll, kqueue)
            == Logged(Err(UnsupportedOperation(UnsupportedTypeMessage(e.eventLoopsType.value))), [])
  {
  }

  /** `createEventLoops`: a fresh `EventPolicy` updated in place under the
      `> 0` guards, then the choice between Netty and NIO. */
  method CreateEventLoops(e: EventLoopsProperties, epoll: Transport, kqueue: Transport)
    returns (r: Logged<Result<EventLoops, FactoryError>>)
    ensures r == EventLoopsFor(e, epoll, kqueue)
  {
    var eventPolicy := new EventPolicy();
    if !CountersSet(e) {
      return Logged(Err(NullPointer), []);
    }
    if e.maxCommandsInProcess.value > 0 { eventPolicy.maxCommandsInProcess := e.maxCommandsInProcess.value; }
    if e.maxCommandsInQueue.value > 0 { eventPolicy.maxCommandsInQueue := e.maxCommandsInQueue.value; }
    if e.queueInitialCapacity.value > 0 { eventPolicy.queueInitialCapacity := e.queueInitialCapacity.value; }
    if e.minTimeout.value > 0 { eventPolicy.minTimeout := e.minTimeout.value; }
    if e.ticksPerWheel.value > 0 { eventPolicy.ticksPerWheel := e.ticksPerWheel.value; }
    if e.commandsPerEventLoop.value > 0 { eventPolicy.commandsPerEventLoop := e.commandsPerEventLoop.value; }
    if e.eventLoopsType.None? {
      return Logged(Err(NullPointer), []);
    }
    if EqualsIgnoreCase(e.eventLoopsType.value, NETTY) {
      var group := ChooseLoopGroup(e, epoll, kqueue);
      return Logged(Ok(NettyEventLoops(eventPolicy.State(), group.value)), group.log);
    }
    r := Logged(GetNioEventLoopsOrFail(eventPolicy.State(), e), []);
  }
}
