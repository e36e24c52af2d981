/** The Pusher event service (src/events/PusherEventService.cpp).

    PusherEventService keeps an insertion-ordered list of listener
    registrations, owns a Pusher client (absent until start), subscribes
    channels on it and dispatches the client's inbound events to the
    registered listeners.  The Pusher client itself is not part of this model:
    it is represented by an abstract state (its connection state and the state
    of each channel) and by a ghost trace of the commands the service sends it. */
module PusherEvents {
  import opened Optional
  import opened EventTypes

  // ---------------------------------------------------------------------
  // Values exchanged with listeners and with the client

  /** The identity of an IEventListener; the source compares addresses. */
  type ListenerId = nat

  /** EventListenerRegistration: a listener and the matcher deciding which types it receives. */
  datatype Registration = Registration(listener: ListenerId, matcher: EventType -> bool)

  /** EventListenerRegistration::RegistrationListenerConfiguration. */
  datatype Configuration = Configuration(listener: ListenerId, matcher: EventType -> bool) {

    /** RegistrationListenerConfiguration::create. */
    function Create(): (r: Registration)
      ensures r.listener == listener && r.matcher == matcher
    {
      Registration(listener, matcher)
    }
  }

  /** pusher::PusherEvent: every field of an inbound event is optional. */
  datatype PusherEvent = PusherEvent(eventName: Option<string>, channelName: Option<string>, data: Option<string>)

  /** models::NotificationEvent: the resolved type, the channel and the raw data. */
  datatype NotificationEvent = NotificationEvent(eventType: EventType, channel: string, message: string)

  /** One call of notification_received on a listener. */
  datatype Delivery = Delivery(listener: ListenerId, event: NotificationEvent)

  /** pusher::ConnectionState; ALL is only a wildcard for handler filtering. */
  datatype ConnectionState = Connecting | Connected | Disconnecting | Disconnected | All

  /** The client's view of one channel. */
  datatype SubscriptionState = Unsubscribed | Pending | Subscribed

  /** pusher::PusherOptions as built by start. */
  datatype ClientOptions = ClientOptions(cluster: string, encrypted: bool)

  /** The abstract Pusher client: its connection state and its channels. */
  datatype ClientState = ClientState(connection: ConnectionState, channels: map<string, SubscriptionState>) {

    function ChannelState(channel: string): SubscriptionState
    {
      if channel in channels then channels[channel] else Unsubscribed
    }

    /** PusherClient::is_subscribed. */
    predicate IsSubscribed(channel: string)
    {
      ChannelState(channel) == Subscribed
    }

    /** PusherClient::is_subscribed_or_pending. */
    predicate IsSubscribedOrPending(channel: string)
    {
      ChannelState(channel) != Unsubscribed
    }
  }

  /** The commands the service sends to the Pusher client. */
  datatype Command =
    | Connect(key: string, options: ClientOptions)
    | Disconnect
    | SubscribeTo(channel: string)
    | UnsubscribeFrom(channel: string)
    | BindKey(key: string)

  /** The parts of models::Platform that start and the channel names read. */
  datatype PusherSettingsOptions = PusherSettingsOptions(cluster: Option<string>, encrypted: Option<bool>)
  datatype PusherSettings = PusherSettings(key: Option<string>, options: Option<PusherSettingsOptions>)
  datatype Notifications = Notifications(pusher: Option<PusherSettings>)
  datatype Platform = Platform(id: string, notifications: Option<Notifications>)

  /** The four channel shapes the subscribe_to_* operations build. */
  datatype Channel =
    | ProjectChannel(project: int)
    | PlayerChannel(project: int, player: string)
    | AssetChannel(asset: string)
    | WalletChannel(wallet: string)

  /** What the connection-state handler installed by init_client runs. */
  datatype HandlerAction = NoAction | RunConnectedHandler | RunDisconnectedHandler

  // ---------------------------------------------------------------------
  // The listener registry

  /** At most one registration per listener identity. */
  ghost predicate UniqueListeners(regs: seq<Registration>)
  {
    forall i, j :: 0 <= i < j < |regs| ==> regs[i].listener != regs[j].listener
  }

  predicate Registered(regs: seq<Registration>, l: ListenerId)
  {
    exists i :: 0 <= i < |regs| && regs[i].listener == l
  }

  /** The position of the first registration of `l`, or |regs| when there is none. */
  function FirstIndexOf(regs: seq<Registration>, l: ListenerId): (k: nat)
    ensures k <= |regs|
    ensures forall j :: 0 <= j < k ==> regs[j].listener != l
    ensures k < |regs| ==> regs[k].listener == l
    ensures k < |regs| <==> Registered(regs, l)
  {
    if regs == [] then 0
    else if regs[0].listener == l then 0
    else 1 + FirstIndexOf(regs[1..], l)
  }

  /** The list after cache_registration(config). */
  function AfterRegister(regs: seq<Registration>, config: Configuration): seq<Registration>
  {
    if Registered(regs, config.listener) then regs else regs + [config.Create()]
  }

  /** The list after unregister_listener(l): the first registration of `l` erased. */
  function RemoveFirst(regs: seq<Registration>, l: ListenerId): seq<Registration>
  {
    var k := FirstIndexOf(regs, l);
    if k < |regs| then regs[..k] + regs[k + 1..] else regs
  }

  lemma RegisteredIffFirstIndex(regs: seq<Registration>, l: ListenerId)
    ensures Registered(regs, l) <==> FirstIndexOf(regs, l) < |regs|
  {
  }

  /** Registering an identity that is already registered changes nothing, and
      the registration kept is the first one: a later matcher is ignored. */
  lemma RegisterExistingKeepsList(regs: seq<Registration>, config: Configuration)
    requires Registered(regs, config.listener)
    ensures AfterRegister(regs, config) == regs
    ensures regs[FirstIndexOf(regs, config.listener)].listener == config.listener
  {
  }

  /** Registering a new identity appends exactly one registration, at the end,
      and keeps identities unique. */
  lemma RegisterNewAppends(regs: seq<Registration>, config: Configuration)
    requires UniqueListeners(regs)
    ensures !Registered(regs, config.listener) ==>
              AfterRegister(regs, config) == regs + [Registration(config.listener, config.matcher)]
    ensures UniqueListeners(AfterRegister(regs, config))
    ensures Registered(AfterRegister(regs, config), config.listener)
    ensures forall l :: l != config.listener ==>
              (Registered(AfterRegister(regs, config), l) <==> Registered(regs, l))
  {
    var after := AfterRegister(regs, config);
    if !Registered(regs, config.listener) {
      assert after[|regs|].listener == config.listener;
      assert forall i :: 0 <= i < |regs| ==> after[i] == regs[i] && regs[i].listener != config.listener;
      forall l | l != config.listener && Registered(after, l)
        ensures Registered(regs, l)
      {
        var i :| 0 <= i < |after| && after[i].listener == l;
        assert i < |regs|;
      }
    }
  }

  /** Unregistering removes the first registration of `l` and keeps the others in order. */
  lemma RemoveFirstShape(regs: seq<Registration>, l: ListenerId)
    ensures !Registered(regs, l) ==> RemoveFirst(regs, l) == regs
    ensures Registered(regs, l) ==>
              var k := FirstIndexOf(regs, l);
              |RemoveFirst(regs, l)| == |regs| - 1 &&
              RemoveFirst(regs, l)[..k] == regs[..k] &&
              RemoveFirst(regs, l)[k..] == regs[k + 1..]
  {
    RegisteredIffFirstIndex(regs, l);
  }

  /** Under unique identities, `l` is no longer registered after unregistering
      it, every other identity keeps its status, and identities stay unique. */
  lemma RemoveFirstUnregisters(regs: seq<Registration>, l: ListenerId)
    requires UniqueListeners(regs)
    ensures !Registered(RemoveFirst(regs, l), l)
    ensures UniqueListeners(RemoveFirst(regs, l))
    ensures forall m :: m != l ==> (Registered(RemoveFirst(regs, l), m) <==> Registered(regs, m))
  {
    var k := FirstIndexOf(regs, l);
    var after := RemoveFirst(regs, l);
    if k < |regs| {
      assert forall i :: 0 <= i < |after| ==> after[i] == (if i < k then regs[i] else regs[i + 1]);
      forall m | Registered(regs, m) && m != l
        ensures Registered(after, m)
      {
        var i :| 0 <= i < |regs| && regs[i].listener == m;
        assert after[if i < k then i else i - 1].listener == m;
      }
    }
  }

  // ---------------------------------------------------------------------
  // Dispatch

  /** The deliveries for notification `n`: every registration whose matcher
      accepts the type, in list order. */
  function Dispatch(regs: seq<Registration>, n: NotificationEvent): seq<Delivery>
  {
    if regs == [] then []
    else (if regs[0].matcher(n.eventType) then [Delivery(regs[0].listener, n)] else [])
         + Dispatch(regs[1..], n)
  }

  /** How many of `ds` go to listener `l`. */
  function DeliveriesTo(ds: seq<Delivery>, l: ListenerId): nat
  {
    if ds == [] then 0 else (if ds[0].listener == l then 1 else 0) + DeliveriesTo(ds[1..], l)
  }

  /** Dispatching over two lists in turn is dispatching over their concatenation:
      listeners are notified in list order. */
  lemma {:induction false} DispatchAppend(a: seq<Registration>, b: seq<Registration>, n: NotificationEvent)
    ensures Dispatch(a + b, n) == Dispatch(a, n) + Dispatch(b, n)
  {
    if a == [] {
      assert a + b == b;
    } else {
      assert (a + b)[0] == a[0];
      assert (a + b)[1..] == a[1..] + b;
      DispatchAppend(a[1..], b, n);
    }
  }

  /** Registration `r` hands delivery `d` of notification `n` to its listener. */
  predicate Hands(r: Registration, d: Delivery, n: NotificationEvent)
  {
    r.listener == d.listener && r.matcher(n.eventType)
  }

  /** Every delivery carries `n` and goes to a registration that accepts its type;
      every accepting registration receives one. */
  lemma {:induction false} DispatchMembers(regs: seq<Registration>, n: NotificationEvent, d: Delivery)
    ensures d in Dispatch(regs, n) <==> d.event == n && exists i :: 0 <= i < |regs| && Hands(regs[i], d, n)
  {
    if regs != [] {
      var rest := regs[1..];
      DispatchMembers(rest, n, d);
      assert (exists i :: 0 <= i < |regs| && Hands(regs[i], d, n)) <==>
             Hands(regs[0], d, n) || exists i :: 0 <= i < |rest| && Hands(rest[i], d, n)
      by {
        if exists i :: 0 <= i < |regs| && Hands(regs[i], d, n) {
          var i :| 0 <= i < |regs| && Hands(regs[i], d, n);
          if i > 0 {
            assert Hands(rest[i - 1], d, n);
          }
        }
        if exists i :: 0 <= i < |rest| && Hands(rest[i], d, n) {
          var i :| 0 <= i < |rest| && Hands(rest[i], d, n);
          assert Hands(regs[i + 1], d, n);
        }
      }
    }
  }

  /** Under unique identities each registered listener is notified exactly once
      when its matcher accepts the type and never otherwise; an unregistered
      identity is never notified. */
  lemma {:induction false} DispatchExactlyOnce(regs: seq<Registration>, n: NotificationEvent, l: ListenerId)
    requires UniqueListeners(regs)
    ensures DeliveriesTo(Dispatch(regs, n), l) ==
            if Registered(regs, l) && regs[FirstIndexOf(regs, l)].matcher(n.eventType) then 1 else 0
  {
    if regs != [] {
      var rest := regs[1..];
      assert UniqueListeners(rest) by {
        forall i, j | 0 <= i < j < |rest| ensures rest[i].listener != rest[j].listener {
          assert rest[i] == regs[i + 1] && rest[j] == regs[j + 1];
        }
      }
      DispatchExactlyOnce(rest, n, l);
      var head := if regs[0].matcher(n.eventType) then [Delivery(regs[0].listener, n)] else [];
      DeliveriesToAppend(head, Dispatch(rest, n), l);
      if regs[0].listener == l {
        assert !Registered(rest, l) by {
          forall i | 0 <= i < |rest| ensures rest[i].listener != l {
            assert rest[i] == regs[i + 1];
          }
        }
      } else {
        assert Registered(regs, l) <==> Registered(rest, l) by {
          if Registered(regs, l) {
            var i :| 0 <= i < |regs| && regs[i].listener == l;
            assert rest[i - 1] == regs[i];
          }
          if Registered(rest, l) {
            var i :| 0 <= i < |rest| && rest[i].listener == l;
            assert regs[i + 1] == rest[i];
          }
        }
        if Registered(rest, l) {
          assert FirstIndexOf(regs, l) == 1 + FirstIndexOf(rest, l);
        }
      }
    }
  }

  lemma {:induction false} DeliveriesToAppend(a: seq<Delivery>, b: seq<Delivery>, l: ListenerId)
    ensures DeliveriesTo(a + b, l) == DeliveriesTo(a, l) + DeliveriesTo(b, l)
  {
    if a == [] {
      assert a + b == b;
    } else {
      assert (a + b)[0] == a[0];
      assert (a + b)[1..] == a[1..] + b;
      DeliveriesToAppend(a[1..], b, l);
    }
  }

  /** Registering the same identity twice keeps the first matcher: a type that
      only the second matcher accepts is never delivered to that listener. */
  lemma FirstRegistrationWins(regs: seq<Registration>, first: Configuration, second: Configuration, n: NotificationEvent)
    requires UniqueListeners(regs) && !Registered(regs, first.listener)
    requires second.listener == first.listener
    requires !first.matcher(n.eventType)
    ensures AfterRegister(AfterRegister(regs, first), second) == AfterRegister(regs, first)
    ensures DeliveriesTo(Dispatch(AfterRegister(AfterRegister(regs, first), second), n), first.listener) == 0
  {
    var once := AfterRegister(regs, first);
    RegisterNewAppends(regs, first);
    assert once == regs + [first.Create()];
    RegisterExistingKeepsList(once, second);
    DispatchExactlyOnce(once, n, first.listener);
    assert FirstIndexOf(once, first.listener) == |regs| by {
      assert once[|regs|].listener == first.listener;
      assert forall j :: 0 <= j < |regs| ==> once[j].listener != first.listener;
    }
  }

  // ---------------------------------------------------------------------
  // Subscriptions

  /** The bind requests for `defs`: one per definition, its key, in order. */
  function BindCommands(defs: seq<EventTypeDef>): (cs: seq<Command>)
  {
    seq(|defs|, i requires 0 <= i < |defs| => BindKey(defs[i].key))
  }

  lemma BindCommandsSnoc(defs: seq<EventTypeDef>, i: nat)
    requires i < |defs|
    ensures BindCommands(defs[..i + 1]) == BindCommands(defs[..i]) + [BindKey(defs[i].key)]
  {
  }

  /** What subscribe(channel) sends. */
  function SubscribeCommands(client: Option<ClientState>, channel: string): seq<Command>
  {
    if client.None? || client.value.IsSubscribedOrPending(channel) then []
    else [SubscribeTo(channel)] + BindCommands(FilterByChannelTypes([channel]))
  }

  /** The client after subscribe(channel): a channel it was sent is pending. */
  function AfterSubscribe(client: Option<ClientState>, channel: string): Option<ClientState>
  {
    if client.None? || client.value.IsSubscribedOrPending(channel) then client
    else Some(client.value.(channels := client.value.channels[channel := Pending]))
  }

  /** What unsubscribe(channel) sends. */
  function UnsubscribeCommands(client: Option<ClientState>, channel: string): seq<Command>
  {
    if client.Some? && client.value.IsSubscribed(channel) then [UnsubscribeFrom(channel)] else []
  }

  /** The client after unsubscribe(channel). */
  function AfterUnsubscribe(client: Option<ClientState>, channel: string): Option<ClientState>
  {
    if client.Some? && client.value.IsSubscribed(channel)
    then Some(client.value.(channels := client.value.channels[channel := Unsubscribed]))
    else client
  }

  /** subscribe sends nothing without a client or for a subscribed or pending
      channel; otherwise one subscribe request followed by one bind per key the
      channel filter returns, and the channel becomes pending. */
  lemma SubscribeEffect(client: Option<ClientState>, channel: string)
    ensures SubscribeCommands(client, channel) == [] <==>
            client.None? || client.value.ChannelState(channel) in {Pending, Subscribed}
    ensures SubscribeCommands(client, channel) != [] ==>
              SubscribeCommands(client, channel)[0] == SubscribeTo(channel) &&
              |SubscribeCommands(client, channel)| == 1 + |FilterByChannelTypes([channel])| &&
              (forall i :: 1 <= i < |SubscribeCommands(client, channel)| ==>
                 SubscribeCommands(client, channel)[i] == BindKey(FilterByChannelTypes([channel])[i - 1].key)) &&
              AfterSubscribe(client, channel).value.ChannelState(channel) == Pending
    ensures AfterSubscribe(client, channel).Some? == client.Some?
  {
    if client.Some? && !client.value.IsSubscribedOrPending(channel) {
      var defs := FilterByChannelTypes([channel]);
      var cs := SubscribeCommands(client, channel);
      assert cs == [SubscribeTo(channel)] + BindCommands(defs);
      forall i | 1 <= i < |cs|
        ensures cs[i] == BindKey(defs[i - 1].key)
      {
        assert cs[i] == BindCommands(defs)[i - 1];
      }
    }
  }

  /** The commands and the new client of a subscribe that goes ahead. */
  lemma SubscribeSends(client: Option<ClientState>, channel: string)
    requires client.Some? && !client.value.IsSubscribedOrPending(channel)
    ensures SubscribeCommands(client, channel) == [SubscribeTo(channel)] + BindCommands(FilterByChannelTypes([channel]))
    ensures AfterSubscribe(client, channel) == Some(client.value.(channels := client.value.channels[channel := Pending]))
  {
  }

  /** Subscribing twice in a row sends the subscribe request only once. */
  lemma SubscribeIdempotent(client: Option<ClientState>, channel: string)
    ensures SubscribeCommands(AfterSubscribe(client, channel), channel) == []
    ensures AfterSubscribe(AfterSubscribe(client, channel), channel) == AfterSubscribe(client, channel)
  {
  }

  /** unsubscribe sends a request exactly when a client exists and the channel is
      subscribed; a pending or never-subscribed channel is left alone. */
  lemma UnsubscribeEffect(client: Option<ClientState>, channel: string)
    ensures UnsubscribeCommands(client, channel) != [] <==>
            client.Some? && client.value.ChannelState(channel) == Subscribed
    ensures UnsubscribeCommands(client, channel) == [] ==> AfterUnsubscribe(client, channel) == client
    ensures client.Some? ==> AfterUnsubscribe(client, channel).value.ChannelState(channel) != Subscribed
  {
  }

  // ---------------------------------------------------------------------
  // Start

  /** The key, cluster and encryption flag start connects with, when the
      platform's notification settings name a non-empty key and cluster. */
  function ConnectionSettings(p: Platform): Option<(string, string, Option<bool>)>
  {
    match p.notifications
    case None => None
    case Some(notifications) =>
      match notifications.pusher
      case None => None
      case Some(pusher) =>
        match pusher.options
        case None => None
        case Some(options) =>
          if pusher.key.None? || pusher.key.value == "" || options.cluster.None? || options.cluster.value == ""
          then None
          else Some((pusher.key.value, options.cluster.value, options.encrypted))
  }

  /** start creates a client exactly when notifications, the pusher settings and
      their options are present and the key and the cluster are present and
      non-empty. */
  lemma ConnectionSettingsGate(p: Platform)
    ensures ConnectionSettings(p).Some? <==>
            p.notifications.Some? && p.notifications.value.pusher.Some? &&
            p.notifications.value.pusher.value.options.Some? &&
            p.notifications.value.pusher.value.key.Some? &&
            |p.notifications.value.pusher.value.key.value| > 0 &&
            p.notifications.value.pusher.value.options.value.cluster.Some? &&
            |p.notifications.value.pusher.value.options.value.cluster.value| > 0
    ensures ConnectionSettings(p).Some? ==>
              ConnectionSettings(p).value.0 == p.notifications.value.pusher.value.key.value &&
              ConnectionSettings(p).value.1 == p.notifications.value.pusher.value.options.value.cluster.value
  {
  }

  /** The connection-state handler: CONNECTED runs the connected handler,
      DISCONNECTED the disconnected handler, when set; anything else runs nothing. */
  function ConnectionStateAction(state: ConnectionState, hasConnected: bool, hasDisconnected: bool): (a: HandlerAction)
    ensures a == RunConnectedHandler <==> state == Connected && hasConnected
    ensures a == RunDisconnectedHandler <==> state == Disconnected && hasDisconnected
    ensures state != Connected && state != Disconnected ==> a == NoAction
  {
    if state == Connected && hasConnected then RunConnectedHandler
    else if state == Disconnected && hasDisconnected then RunDisconnectedHandler
    else NoAction
  }

  // ---------------------------------------------------------------------
  // Channel names

  function DigitChar(d: nat): char
    requires d < 10
  {
    "0123456789"[d]
  }

  function NatToString(n: nat): string
    decreases n
  {
    if n < 10 then [DigitChar(n)] else NatToString(n / 10) + [DigitChar(n % 10)]
  }

  function IntToString(i: int): string
  {
    if i < 0 then "-" + NatToString(-i) else NatToString(i)
  }

  /** The topic of a channel on a platform: family, platform id, identifiers. */
  function ChannelTopic(p: Platform, c: Channel): string
  {
    match c
    case ProjectChannel(project) => "project." + p.id + "." + IntToString(project)
    case PlayerChannel(project, player) => "player." + p.id + "." + IntToString(project) + "." + player
    case AssetChannel(asset) => "asset." + p.id + "." + asset
    case WalletChannel(wallet) => "wallet." + p.id + "." + wallet
  }

  /** Every topic is longer than every channel family of the table, so the
      filter that subscribe applies to the raw topic selects no definition,
      and subscribing to a channel binds no event key. */
  lemma TopicBindsNothing(p: Platform, c: Channel)
    ensures |ChannelTopic(p, c)| > 6
    ensures FilterByChannelTypes([ChannelTopic(p, c)]) == []
  {
    FilterOfLongChannelIsEmpty(ChannelTopic(p, c));
  }

  // ---------------------------------------------------------------------
  // The service

  class PusherEventService {
    var platform: Option<Platform>
    var listeners: seq<Registration>
    var client: Option<ClientState>
    var hasConnectedHandler: bool
    var hasDisconnectedHandler: bool
    /** Every command sent to a Pusher client, oldest first. */
    ghost var trace: seq<Command>

    ghost predicate Valid()
      reads this
    {
      UniqueListeners(listeners)
    }

    /** The constructor without a platform. */
    constructor ()
      ensures Valid() && platform.None? && listeners == [] && client.None? && trace == []
      ensures !hasConnectedHandler && !hasDisconnectedHandler
    {
      platform := None;
      listeners := [];
      client := None;
      hasConnectedHandler := false;
      hasDisconnectedHandler := false;
      trace := [];
    }

    /** The constructor with a platform. */
    constructor WithPlatform(p: Platform)
      ensures Valid() && platform == Some(p) && listeners == [] && client.None? && trace == []
      ensures !hasConnectedHandler && !hasDisconnectedHandler
    {
      platform := Some(p);
      listeners := [];
      client := None;
      hasConnectedHandler := false;
      hasDisconnectedHandler := false;
      trace := [];
    }

    // --- connection

    /** start(): shut down, then create and connect a client when the
        platform's notification settings allow it.  `thrown` reports the
        bad_optional_access raised when the key and cluster are usable but the
        encryption flag is absent; nothing is created then. */
    method Start() returns (thrown: bool)
      requires Valid() && platform.Some?
      modifies this`client, this`trace
      ensures Valid()
      ensures var settings := ConnectionSettings(platform.value);
              thrown <==> settings.Some? && settings.value.2.None?
      ensures var settings := ConnectionSettings(platform.value);
              var shutdown := if old(client).Some? then [Disconnect] else [];
              if settings.Some? && !thrown then
                var options := ClientOptions(settings.value.1, settings.value.2.value);
                client == Some(ClientState(Connecting, map[])) &&
                trace == old(trace) + shutdown + [Connect(settings.value.0, options)]
              else
                client == old(client) && trace == old(trace) + shutdown
    {
      thrown := false;
      Shutdown();
      var notifications := platform.value.notifications;
      if notifications.None? {
        return;
      }
      var pusher := notifications.value.pusher;
      if pusher.None? || pusher.value.options.None? {
        return;
      }
      var key := pusher.value.key;
      var cluster := pusher.value.options.value.cluster;
      var encrypted := pusher.value.options.value.encrypted;
      if key.None? || key.value == "" || cluster.None? || cluster.value == "" {
        return;
      }
      if encrypted.None? {
        return true;
      }
      var options := ClientOptions(cluster.value, encrypted.value);
      InitClient(key.value, options);
    }

    /** start(platform): replace the platform, then start(). */
    method StartWith(p: Platform) returns (thrown: bool)
      requires Valid()
      modifies this`platform, this`client, this`trace
      ensures Valid() && platform == Some(p)
      ensures var settings := ConnectionSettings(p);
              thrown <==> settings.Some? && settings.value.2.None?
      ensures var settings := ConnectionSettings(p);
              var shutdown := if old(client).Some? then [Disconnect] else [];
              if settings.Some? && !thrown then
                var options := ClientOptions(settings.value.1, settings.value.2.value);
                client == Some(ClientState(Connecting, map[])) &&
                trace == old(trace) + shutdown + [Connect(settings.value.0, options)]
              else
                client == old(client) && trace == old(trace) + shutdown
    {
      platform := Some(p);
      thrown := Start();
    }

    /** PusherEventServiceImpl::init_client: a fresh client, then connect(). */
    method InitClient(key: string, options: ClientOptions)
      modifies this`client, this`trace
      ensures client == Some(ClientState(Connecting, map[]))
      ensures trace == old(trace) + [Connect(key, options)]
    {
      client := Some(ClientState(Connecting, map[]));
      trace := trace + [Connect(key, options)];
    }

    /** shutdown(): disconnect the client, if there is one; the client is kept. */
    method Shutdown()
      modifies this`trace
      ensures trace == old(trace) + (if client.Some? then [Disconnect] else [])
    {
      if client.Some? {
        trace := trace + [Disconnect];
      }
    }

    /** is_connected(). */
    method IsConnected() returns (b: bool)
      ensures b <==> client.Some? && client.value.connection == Connected
    {
      b := client.Some? && client.value.connection == Connected;
    }

    method SetConnectedHandler()
      modifies this`hasConnectedHandler
      ensures hasConnectedHandler
    {
      hasConnectedHandler := true;
    }

    method SetDisconnectedHandler()
      modifies this`hasDisconnectedHandler
      ensures hasDisconnectedHandler
    {
      hasDisconnectedHandler := true;
    }

    /** The connection-state handler installed by init_client. */
    method OnConnectionStateChange(state: ConnectionState) returns (a: HandlerAction)
      ensures a == ConnectionStateAction(state, hasConnectedHandler, hasDisconnectedHandler)
      ensures a == RunConnectedHandler <==> state == Connected && hasConnectedHandler
      ensures a == RunDisconnectedHandler <==> state == Disconnected && hasDisconnectedHandler
    {
      a := ConnectionStateAction(state, hasConnectedHandler, hasDisconnectedHandler);
    }

    /** The client reports a new connection state and the service's handler runs. */
    method TransportStateChanged(state: ConnectionState) returns (a: HandlerAction)
      requires client.Some? && state != All
      modifies this`client
      ensures client == Some(old(client).value.(connection := state))
      ensures a == ConnectionStateAction(state, hasConnectedHandler, hasDisconnectedHandler)
    {
      client := Some(client.value.(connection := state));
      a := OnConnectionStateChange(state);
    }

    /** The client acknowledges a pending subscription. */
    method TransportSubscribed(channel: string)
      requires client.Some?
      modifies this`client
      ensures client == if old(client).value.ChannelState(channel) == Pending
                        then Some(old(client).value.(channels := old(client).value.channels[channel := Subscribed]))
                        else old(client)
    {
      if client.value.ChannelState(channel) == Pending {
        client := Some(client.value.(channels := client.value.channels[channel := Subscribed]));
      }
    }

    // --- listener registry

    /** is_registered(listener). */
    method IsRegistered(l: ListenerId) returns (b: bool)
      ensures b <==> Registered(listeners, l)
    {
      var i := 0;
      while i < |listeners|
        invariant 0 <= i <= |listeners|
        invariant forall j :: 0 <= j < i ==> listeners[j].listener != l
      {
        if listeners[i].listener == l {
          return true;
        }
        i := i + 1;
      }
      return false;
    }

    /** cache_registration(configuration): the existing registration of the
        listener, or a new one appended at the end. */
    method CacheRegistration(config: Configuration) returns (r: Registration)
      requires Valid()
      modifies this`listeners
      ensures Valid()
      ensures listeners == AfterRegister(old(listeners), config)
      ensures Registered(listeners, config.listener)
      ensures r == listeners[FirstIndexOf(listeners, config.listener)]
      ensures r.listener == config.listener
    {
      RegisterNewAppends(listeners, config);
      var i := 0;
      while i < |listeners|
        invariant 0 <= i <= |listeners|
        invariant forall j :: 0 <= j < i ==> listeners[j].listener != config.listener
      {
        if listeners[i].listener == config.listener {
          return listeners[i];
        }
        i := i + 1;
      }
      r := config.Create();
      listeners := listeners + [r];
      assert FirstIndexOf(listeners, config.listener) == |listeners| - 1 by {
        assert listeners[|listeners| - 1].listener == config.listener;
      }
    }

    /** register_listener(listener): a registration that accepts every type. */
    method RegisterListener(l: ListenerId) returns (r: Registration)
      requires Valid()
      modifies this`listeners
      ensures Valid()
      ensures listeners == AfterRegister(old(listeners), Configuration(l, t => true))
      ensures Registered(listeners, l)
      ensures r == listeners[FirstIndexOf(listeners, l)] && r.listener == l
    {
      r := CacheRegistration(Configuration(l, t => true));
    }

    /** register_listener_with_matcher(listener, matcher). */
    method RegisterListenerWithMatcher(l: ListenerId, matcher: EventType -> bool) returns (r: Registration)
      requires Valid()
      modifies this`listeners
      ensures Valid()
      ensures listeners == AfterRegister(old(listeners), Configuration(l, matcher))
      ensures Registered(listeners, l)
      ensures r == listeners[FirstIndexOf(listeners, l)] && r.listener == l
    {
      r := CacheRegistration(Configuration(l, matcher));
    }

    /** register_listener_including_types(listener, types). */
    method RegisterListenerIncludingTypes(l: ListenerId, types: seq<EventType>) returns (r: Registration)
      requires Valid()
      modifies this`listeners
      ensures Valid()
      ensures listeners == AfterRegister(old(listeners), Configuration(l, t => t in types))
      ensures Registered(listeners, l)
      ensures r == listeners[FirstIndexOf(listeners, l)] && r.listener == l
    {
      r := CacheRegistration(Configuration(l, t => t in types));
    }

    /** register_listener_excluding_types(listener, types). */
    method RegisterListenerExcludingTypes(l: ListenerId, types: seq<EventType>) returns (r: Registration)
      requires Valid()
      modifies this`listeners
      ensures Valid()
      ensures listeners == AfterRegister(old(listeners), Configuration(l, t => t !in types))
      ensures Registered(listeners, l)
      ensures r == listeners[FirstIndexOf(listeners, l)] && r.listener == l
    {
      r := CacheRegistration(Configuration(l, t => t !in types));
    }

    /** unregister_listener(listener): erase the first registration of the listener. */
    method UnregisterListener(l: ListenerId)
      requires Valid()
      modifies this`listeners
      ensures Valid()
      ensures listeners == RemoveFirst(old(listeners), l)
      ensures !Registered(listeners, l)
    {
      RemoveFirstUnregisters(listeners, l);
      var i := 0;
      while i < |listeners| && listeners[i].listener != l
        invariant 0 <= i <= |listeners|
        invariant forall j :: 0 <= j < i ==> listeners[j].listener != l
      {
        i := i + 1;
      }
      if i < |listeners| {
        listeners := listeners[..i] + listeners[i + 1..];
      }
    }

    // --- dispatch

    /** PusherEventListener::on_event: the deliveries made for one inbound event. */
    method OnEvent(e: PusherEvent) returns (deliveries: seq<Delivery>)
      ensures listeners == [] ==> deliveries == []
      ensures e.eventName.None? ==> deliveries == []
      ensures GetFromKey(e.eventName.GetOr("")).eventType == Unknown ==> deliveries == []
      ensures listeners != [] && GetFromKey(e.eventName.GetOr("")).eventType != Unknown ==>
                deliveries == Dispatch(listeners, NotificationEvent(GetFromKey(e.eventName.GetOr("")).eventType,
                                                                    e.channelName.GetOr(""), e.data.GetOr("")))
    {
      GetFromKeyOfEmptyIsUnknown();
      var key := e.eventName.GetOr("");
      var channel := e.channelName.GetOr("");
      var message := e.data.GetOr("");
      deliveries := [];
      if |listeners| == 0 {
        return;
      }
      var def := GetFromKey(key);
      if def.eventType == Unknown {
        return;
      }
      deliveries := Notify(NotificationEvent(def.eventType, channel, message));
    }

    /** The loop of on_event: notify, in list order, every registration whose
        matcher accepts the notification's type. */
    method Notify(n: NotificationEvent) returns (deliveries: seq<Delivery>)
      ensures deliveries == Dispatch(listeners, n)
    {
      deliveries := [];
      var i := 0;
      while i < |listeners|
        invariant 0 <= i <= |listeners|
        invariant deliveries == Dispatch(listeners[..i], n)
      {
        var r := listeners[i];
        if r.matcher(n.eventType) {
          deliveries := deliveries + [Delivery(r.listener, n)];
        }
        assert listeners[..i + 1] == listeners[..i] + [r];
        DispatchAppend(listeners[..i], [r], n);
        i := i + 1;
      }
      assert listeners[..i] == listeners;
    }

    // --- subscriptions

    /** subscribe(channel). */
    method Subscribe(channel: string)
      modifies this`client, this`trace
      ensures client == AfterSubscribe(old(client), channel)
      ensures trace == old(trace) + SubscribeCommands(old(client), channel)
    {
      if client.None? || client.value.IsSubscribedOrPending(channel) {
        return;
      }
      ghost var binds := BindCommands(FilterByChannelTypes([channel]));
      SubscribeSends(client, channel);
      client := Some(client.value.(channels := client.value.channels[channel := Pending]));
      trace := trace + [SubscribeTo(channel)];
      Bind(channel);
      assert trace == old(trace) + [SubscribeTo(channel)] + binds;
    }

    /** unsubscribe(channel). */
    method Unsubscribe(channel: string)
      modifies this`client, this`trace
      ensures client == AfterUnsubscribe(old(client), channel)
      ensures trace == old(trace) + UnsubscribeCommands(old(client), channel)
    {
      if client.None? || !client.value.IsSubscribed(channel) {
        return;
      }
      client := Some(client.value.(channels := client.value.channels[channel := Unsubscribed]));
      trace := trace + [UnsubscribeFrom(channel)];
    }

    /** bind(channel): bind every key the filter returns for [channel]. */
    method Bind(channel: string)
      requires client.Some?
      modifies this`trace
      ensures trace == old(trace) + BindCommands(FilterByChannelTypes([channel]))
    {
      var defs := FilterByChannelTypes([channel]);
      var i := 0;
      while i < |defs|
        invariant 0 <= i <= |defs|
        invariant trace == old(trace) + BindCommands(defs[..i])
      {
        BindCommandsSnoc(defs, i);
        trace := trace + [BindKey(defs[i].key)];
        i := i + 1;
      }
      assert defs[..i] == defs;
    }

    /** subscribe_to_project / _player / _asset / _wallet: subscribe to the
        channel's topic; `thrown` reports the bad_optional_access raised when
        the service has no platform, and nothing changes then. */
    method SubscribeToChannel(c: Channel) returns (thrown: bool)
      modifies this`client, this`trace
      ensures thrown <==> platform.None?
      ensures thrown ==> client == old(client) && trace == old(trace)
      ensures !thrown ==> client == AfterSubscribe(old(client), ChannelTopic(platform.value, c)) &&
                          trace == old(trace) + SubscribeCommands(old(client), ChannelTopic(platform.value, c))
    {
      if platform.None? {
        return true;
      }
      Subscribe(ChannelTopic(platform.value, c));
      return false;
    }

    /** unsubscribe_to_project / _player / _asset / _wallet. */
    method UnsubscribeToChannel(c: Channel) returns (thrown: bool)
      modifies this`client, this`trace
      ensures thrown <==> platform.None?
      ensures thrown ==> client == old(client) && trace == old(trace)
      ensures !thrown ==> client == AfterUnsubscribe(old(client), ChannelTopic(platform.value, c)) &&
                          trace == old(trace) + UnsubscribeCommands(old(client), ChannelTopic(platform.value, c))
    {
      if platform.None? {
        return true;
      }
      Unsubscribe(ChannelTopic(platform.value, c));
      return false;
    }

    /** is_subscribed_to_project / _player / _asset / _wallet on an existing
        client: None stands for the bad_optional_access raised without a platform. */
    method IsSubscribedToChannel(c: Channel) returns (r: Option<bool>)
      requires client.Some?
      ensures r.None? <==> platform.None?
      ensures r.Some? ==> (r.value <==> client.value.IsSubscribed(ChannelTopic(platform.value, c)))
    {
      if platform.None? {
        return None;
      }
      return Some(client.value.IsSubscribed(ChannelTopic(platform.value, c)));
    }
  }
}
