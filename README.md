# Enjin C++ SDK: event service, event-type catalog and auth-token holder

A Dafny model of three parts of the Enjin platform C++ SDK.

- **The event-type catalog** (`event_types.dfy`, module `EventTypes`). This is the static table of the 30 notification types. Each entry has a type, a wire key (the empty key for UNKNOWN, and for each known entry one of the form `EnjinCloud\Events\<Name>`), the channel families it arrives on, and a name. The lookups over it are `values`, `get_from_key`, `get_from_name`, `filter_by_channel_types` and `in`.
- **The Pusher event service** (`event_service.dfy`, module `PusherEvents`). The class `PusherEventService` holds:
  - the platform configuration;
  - an insertion-ordered list of listener registrations;
  - an optional Pusher client;
  - the connected and disconnected handlers.

  It registers listeners without duplicates and unregisters them. It dispatches each inbound Pusher event to the registrations whose matcher accepts the event's type. It subscribes channels on the client and binds the event keys that the filter returns for the subscribed topic. For every topic that `ChannelTopic` renders, that filter returns nothing, so no key is bound (`TopicBindsNothing`). It also starts and shuts the client down.
- **The trusted-platform auth-token holder** (`trusted_platform.dfy`, module `TrustedPlatform`). This class stores an optional token. It is authenticated when the token is present and holds a non-whitespace character.

`option.dfy` (module `Optional`) provides the `Option` type that stands for `std::optional`.

The Pusher client is not part of this model, so it is represented by two things:

- an abstract state, `ClientState`: its connection state and each channel's `Unsubscribed`/`Pending`/`Subscribed` state;
- a ghost `trace` of every command the service sends it (connect, disconnect, subscribe, unsubscribe, bind).

Two methods stand for the client's own reports to the service:

- `TransportStateChanged` runs the connection-state handler installed by `init_client`;
- `TransportSubscribed` acknowledges a pending subscription.

A listener is identified by a number, `ListenerId`; the source compares listener addresses. `OnEvent` returns the sequence of deliveries it makes, as (listener, notification) pairs, in order.

Where the source raises `std::bad_optional_access`, the model returns a `thrown` flag (or `None`) and changes nothing further:

- `start` reads the encryption flag with `value()`;
- the `subscribe_to_*`, `unsubscribe_to_*` and `is_subscribed_to_*` operations read the platform with `value()`.

Where the source dereferences without a check, the operation instead carries a precondition:

- `platform->` in `start`;
- the client pointer in `is_subscribed_to_*`.

The model follows the code where the design documentation says otherwise:

- The documentation calls a missing encryption flag a silent no-op of `start`. The code checks only the key and the cluster, then reads the flag with `value()` (src/events/PusherEventService.cpp:209-215). So `Start` reports the exception.
- The documentation says that listener failures are caught at the dispatch boundary. `on_event` has no such handler. Listener callbacks are not modelled as failing.
- The documentation's default filter matches every type except UNKNOWN. `register_listener` passes a configuration with no filter. `RegisterListener` accepts every type. This is equivalent because UNKNOWN never reaches a matcher.

## Model

| member | source | states |
|---|---|---|
| EventTypes.CreateFields | src/events/EventTypeDef.hpp:45-47 | a created definition holds the given type, key and channel families, and the type's name |
| EventTypes.DefinitionStoredUnderOwnType | src/events/EventTypeDef.hpp:49-140 | looking up type T in the map yields a definition whose type is T |
| EventTypes.AllTypesListsEachType | src/events/EventTypeDef.hpp:49-140 | every event type is a key of the map, at its ordinal position |
| EventTypes.AllTypesDistinct | src/events/EventTypeDef.hpp:49-140 | no type occurs twice among the map's keys |
| EventTypes.KeyFormat | src/events/EventTypeDef.hpp:53-139 | every non-UNKNOWN wire key is `EnjinCloud\Events\` followed by the type's class name |
| EventTypes.ClassNamesDistinct | src/events/EventTypeDef.hpp:53-139 | distinct types have distinct class names in their keys |
| EventTypes.KeysDistinct | src/events/EventTypeDef.hpp:49-140 | the wire keys of the table are pairwise distinct |
| EventTypes.UnknownDefinition | src/events/EventTypeDef.hpp:50-52 | UNKNOWN owns the empty key and the channel list `[""]`, and no other type has the empty key |
| EventTypes.TypeNamesDistinct | src/events/EventTypeDef.hpp:49-140 | distinct types have distinct names |
| EventTypes.AppChannelForKnownTypes | src/events/EventTypeDef.hpp:53-139 | every non-UNKNOWN entry lists the "app" channel family |
| EventTypes.PlayerChannelOnlyForPlayerTypes | src/events/EventTypeDef.hpp:80-94 | an entry lists "player" exactly when its type is one of the five PLAYER_* types |
| EventTypes.PlayerTypePositions | src/events/EventTypeDef.hpp:80-94 | the five player types are the map's keys at positions 10 to 14 |
| EventTypes.PlayerPosition | src/events/EventTypeDef.hpp:80-94 | the entry at position i shares a channel with `["player"]` exactly when 10 <= i < 15, and it is then the i-10th player definition |
| EventTypes.Values | src/events/EventTypeDef.hpp:31 | `values()` has one definition per key of the map, the i-th being the definition of the i-th key |
| EventTypes.ValuesByOrdinal | src/events/EventTypeDef.hpp:31 | the definition of type T sits in `values()` at T's ordinal, and the definition at position i has ordinal i |
| EventTypes.FindFirst | src/events/EventTypeDef.hpp:35-37 | the search returns the first position whose definition satisfies the predicate, or None when none does |
| EventTypes.FindFirstOfUnique | src/events/EventTypeDef.hpp:35-37 | when every matching definition equals one present definition, the search finds it |
| EventTypes.GetFromKey | src/events/EventTypeDef.hpp:37 | the result is a table definition; it owns the key or is UNKNOWN's; and it is UNKNOWN's when no definition owns the key |
| EventTypes.GetFromKeyRoundTrip | src/events/EventTypeDef.hpp:37 | looking up the key of any table definition returns that same definition |
| EventTypes.GetFromKeyOfEmptyIsUnknown | src/events/EventTypeDef.hpp:37 | the empty key, which an event without a name carries, resolves to UNKNOWN's definition |
| EventTypes.GetFromKeyKnownIff | src/events/EventTypeDef.hpp:37 | a key resolves to a known type exactly when some known definition owns it |
| EventTypes.GetFromName | src/events/EventTypeDef.hpp:35 | the result is a table definition; it has the name or is UNKNOWN's; and it is UNKNOWN's when no definition has the name |
| EventTypes.GetFromNameRoundTrip | src/events/EventTypeDef.hpp:35 | looking up the name of any table definition returns that same definition |
| EventTypes.In | src/events/EventTypeDef.hpp:17 | `in(types)` holds exactly when the definition's type occurs in `types` |
| EventTypes.FilterDefsKeeps | src/events/EventTypeDef.hpp:33 | a definition is kept exactly when it is in the input and shares a channel family with the request; the result is a subsequence of the input |
| EventTypes.FilterByChannelTypesKeeps | src/events/EventTypeDef.hpp:33 | its result is a subsequence of `values()`; an entry is kept exactly when its channel list shares an element with the request |
| EventTypes.FilterByChannelTypes | src/events/EventTypeDef.hpp:33 | the result is no longer than the table, and every entry shares a channel family with the request |
| EventTypes.ChannelFamiliesShort | src/events/EventTypeDef.hpp:49-140 | every channel family named in the table is at most six characters long |
| EventTypes.FilterOfLongChannelIsEmpty | src/events/EventTypeDef.hpp:33 | a single requested channel longer than six characters selects no definition |
| EventTypes.PlayerFilterFrom | src/events/EventTypeDef.hpp:33 | filtering the table from position i for "player" yields the player definitions from position i on |
| EventTypes.PlayerFilter | src/events/EventTypeDef.hpp:33 | filtering for "player" yields exactly the five player definitions, in table order |
| EventTypes.FilterKeepsUnknownIff | src/events/EventTypeDef.hpp:33 | the filter returns UNKNOWN's definition exactly when "" is requested |
| PusherEvents.Configuration.Create | src/events/PusherEventService.cpp:294 | the created registration holds the configured listener and the configured matcher |
| PusherEvents.FirstIndexOf | src/events/PusherEventService.cpp:300-306 | the position of the first registration of a listener, with none before it; it is the list's length exactly when the listener is not registered |
| PusherEvents.RegisteredIffFirstIndex | src/events/PusherEventService.cpp:238-245 | a listener is registered exactly when its first position lies inside the list |
| PusherEvents.RegisterExistingKeepsList | src/events/PusherEventService.cpp:286-292 | registering a listener that is already registered leaves the list unchanged, and the existing registration is kept |
| PusherEvents.RegisterNewAppends | src/events/PusherEventService.cpp:294-297 | a new listener's registration is appended at the end; the listener is then registered; no other listener changes status; identities stay unique |
| PusherEvents.RemoveFirstShape | src/events/PusherEventService.cpp:300-311 | unregistering removes exactly the first registration of the listener and keeps the others in order; it is a no-op when the listener is absent |
| PusherEvents.RemoveFirstUnregisters | src/events/PusherEventService.cpp:300-311 | under unique identities, the listener is not registered afterwards, all other listeners keep their status, and identities stay unique |
| PusherEvents.DispatchAppend | src/events/PusherEventService.cpp:93-97 | dispatching over a concatenation delivers the first part's deliveries, then the second's (list order) |
| PusherEvents.DispatchMembers | src/events/PusherEventService.cpp:91-97 | each delivery carries the one notification, and goes to a listener whose registration accepts its type; every such listener gets one |
| PusherEvents.DispatchExactlyOnce | src/events/PusherEventService.cpp:93-97 | under unique identities, a registered listener is notified exactly once when its matcher accepts the type and never otherwise; an unregistered one never |
| PusherEvents.DeliveriesToAppend | src/events/PusherEventService.cpp:93-97 | per-listener delivery counts add up over concatenated deliveries |
| PusherEvents.FirstRegistrationWins | src/events/PusherEventService.cpp:286-297 | after registering the same listener twice, the list is as after the first registration, and a type only the second matcher accepts reaches the listener zero times |
| PusherEvents.BindCommandsSnoc | src/events/PusherEventService.cpp:382-384 | the binds for one more definition are the earlier binds followed by that definition's key |
| PusherEvents.TopicBindsNothing | src/events/PusherEventService.cpp:380-385 | every channel topic is longer than six characters, so the filter bind applies to it returns no definition |
| PusherEvents.SubscribeEffect | src/events/PusherEventService.cpp:361-369 | subscribe sends nothing exactly when there is no client or the channel is pending or subscribed; otherwise it sends one subscribe, then one bind per filtered key in order, and the channel becomes pending |
| PusherEvents.SubscribeIdempotent | src/events/PusherEventService.cpp:361-369 | a second subscribe to the same channel sends nothing and changes nothing |
| PusherEvents.UnsubscribeEffect | src/events/PusherEventService.cpp:371-378 | unsubscribe sends a request exactly when a client exists and the channel is subscribed; otherwise it changes nothing; afterwards the channel is not subscribed |
| PusherEvents.ConnectionSettingsGate | src/events/PusherEventService.cpp:196-211 | start proceeds to create a client exactly when notifications, pusher and options exist and the key and cluster are present and non-empty, and it uses that key and cluster |
| PusherEvents.ConnectionStateAction | src/events/PusherEventService.cpp:127-131 | CONNECTED runs the connected handler when one is set, DISCONNECTED the disconnected one; every other state runs nothing |
| PusherEvents.PusherEventService.constructor | src/events/PusherEventService.cpp:175-179 | a new service has no platform, no listeners, no client and no handlers |
| PusherEvents.PusherEventService.WithPlatform | src/events/PusherEventService.cpp:181-187 | a new service holds the given platform and has no listeners, no client and no handlers |
| PusherEvents.PusherEventService.Start | src/events/PusherEventService.cpp:193-219 | shutdown always runs first; a fresh, connecting client exists afterwards only when the settings gate passes and the encryption flag is given; a missing flag is the bad_optional_access case, which creates nothing |
| PusherEvents.PusherEventService.StartWith | src/events/PusherEventService.cpp:221-224 | stores the platform, then behaves as start |
| PusherEvents.PusherEventService.InitClient | src/events/PusherEventService.cpp:115-147 | a new client in the connecting state replaces any earlier one, and a connect command with the key and options is sent |
| PusherEvents.PusherEventService.Shutdown | src/events/PusherEventService.cpp:226-231 | a disconnect is sent exactly when a client exists; nothing else changes |
| PusherEvents.PusherEventService.IsConnected | src/events/PusherEventService.cpp:233-236 | true exactly when a client exists and its state is CONNECTED |
| PusherEvents.PusherEventService.SetConnectedHandler | src/events/PusherEventService.cpp:247-249 | a connected handler is set |
| PusherEvents.PusherEventService.SetDisconnectedHandler | src/events/PusherEventService.cpp:251-253 | a disconnected handler is set |
| PusherEvents.PusherEventService.OnConnectionStateChange | src/events/PusherEventService.cpp:120-132 | the handler installed by init_client runs the connected handler exactly on CONNECTED with one set, the disconnected handler exactly on DISCONNECTED with one set, and nothing otherwise |
| PusherEvents.PusherEventService.TransportStateChanged | src/events/PusherEventService.cpp:120-132 | the client's connection state becomes the reported one, and the installed handler takes the action ConnectionStateAction gives |
| PusherEvents.PusherEventService.TransportSubscribed | src/events/PusherEventService.cpp:361-378 | a pending channel becomes subscribed, which subscribe and unsubscribe then read; any other channel state is left as it was |
| PusherEvents.PusherEventService.IsRegistered | src/events/PusherEventService.cpp:238-245 | true exactly when some registration in the list belongs to the listener |
| PusherEvents.PusherEventService.CacheRegistration | src/events/PusherEventService.cpp:285-298 | the list becomes AfterRegister of the old list: unchanged when the listener is registered, extended at the end otherwise; the result is the listener's first registration; identities stay unique |
| PusherEvents.PusherEventService.RegisterListener | src/events/PusherEventService.cpp:259-262 | caches a registration whose matcher accepts every type |
| PusherEvents.PusherEventService.RegisterListenerWithMatcher | src/events/PusherEventService.cpp:264-269 | caches a registration with the given matcher |
| PusherEvents.PusherEventService.RegisterListenerIncludingTypes | src/events/PusherEventService.cpp:271-276 | caches a registration accepting exactly the listed types |
| PusherEvents.PusherEventService.RegisterListenerExcludingTypes | src/events/PusherEventService.cpp:278-283 | caches a registration accepting exactly the unlisted types |
| PusherEvents.PusherEventService.UnregisterListener | src/events/PusherEventService.cpp:300-311 | the list loses exactly the first registration of the listener, which is then no longer registered; identities stay unique |
| PusherEvents.PusherEventService.OnEvent | src/events/PusherEventService.cpp:54-98 | nothing is delivered when there are no listeners, the event has no name, or the key resolves to UNKNOWN; otherwise the deliveries are Dispatch of the list, for one notification with the resolved type, the channel and the data, each defaulting to "" |
| PusherEvents.PusherEventService.Notify | src/events/PusherEventService.cpp:93-97 | the loop delivers to every accepting registration, in list order |
| PusherEvents.PusherEventService.Subscribe | src/events/PusherEventService.cpp:361-369 | the client and the trace change as AfterSubscribe and SubscribeCommands say |
| PusherEvents.PusherEventService.Unsubscribe | src/events/PusherEventService.cpp:371-378 | the client and the trace change as AfterUnsubscribe and UnsubscribeCommands say |
| PusherEvents.PusherEventService.Bind | src/events/PusherEventService.cpp:380-385 | one bind is sent per definition the filter returns for `[channel]`, in filter order |
| PusherEvents.PusherEventService.SubscribeToChannel | src/events/PusherEventService.cpp:313-358 | without a platform the call throws and changes nothing; otherwise it subscribes to the channel's topic |
| PusherEvents.PusherEventService.UnsubscribeToChannel | src/events/PusherEventService.cpp:313-358 | without a platform the call throws and changes nothing; otherwise it unsubscribes from the channel's topic |
| PusherEvents.PusherEventService.IsSubscribedToChannel | src/events/PusherEventService.cpp:321-323 | with a client, the answer is whether the topic is subscribed; without a platform the call throws |
| TrustedPlatform.AuthenticatedIffVisibleChar | src/http/TrustedPlatformHandler.cpp:7-10 | a token authenticates exactly when it is present and holds a non-whitespace character; an absent or empty token never does |
| TrustedPlatform.AuthenticatedExamples | src/http/TrustedPlatformHandler.cpp:7-10 | two literal tokens: `" \t\r\n"` does not authenticate, `" x "` does |
| TrustedPlatform.TrailingWhitespaceIrrelevant | src/http/TrustedPlatformHandler.cpp:7-10 | appending whitespace to a token does not change whether it authenticates |
| TrustedPlatform.TrustedPlatformHandler.constructor | src/http/TrustedPlatformHandler.cpp:9 | a new handler holds no token, which is_authenticated treats as unauthenticated (the constructor itself is not in this file) |
| TrustedPlatform.TrustedPlatformHandler.IsAuthenticated | src/http/TrustedPlatformHandler.cpp:7-10 | true exactly when a token is stored and some character of it is not whitespace; the token is unchanged |
| TrustedPlatform.TrustedPlatformHandler.SetAuthToken | src/http/TrustedPlatformHandler.cpp:12-15 | the stored token becomes the given one |
| TrustedPlatform.TrustedPlatformHandler.GetAuthToken | src/http/TrustedPlatformHandler.cpp:17-20 | returns the stored token and changes nothing |
| TrustedPlatform.SetThenGet | src/http/TrustedPlatformHandler.cpp:12-20 | get returns the token just set; a second set overwrites the first; a blank token leaves the handler unauthenticated |

## Left out

- Logging through `logger_provider` has no behaviour to verify and is not modelled.
- The error handler and its forwarding (`set_error_handler`, and the error callback in `init_client`) are not modelled. They only forward an exception to an opaque callback.
- `PusherEventServiceBuilder` is not modelled. It is construction that depends on the build configuration.
- The Pusher client, the websocket transport and the `connect()` handshake are not part of this model. They appear only as the abstract `ClientState` and the command trace. A new client is assumed to start in `Connecting`. The `listener` object that `start` creates and `bind` passes is not modelled.
- PusherEvents.PusherEventService.Shutdown: sends a disconnect but does not change the client's connection state. That state changes only when the client reports through `TransportStateChanged`. So "`is_connected` is false right after `shutdown`" is not claimed.
- The channel classes are not part of this model. These are `ProjectChannel`, `PlayerChannel`, `AssetChannel` and `WalletChannel`.
  - `ChannelTopic` renders the documented shape `family.platform-id.identifiers`. The only fact proved about topic strings is their length (`TopicBindsNothing`).
  - Validation of channel identifiers is not modelled.
- The matcher construction in `EventListenerRegistration` is not part of this model: `with_matcher`, `with_allowed_events`, `with_ignored_events`. Matchers are opaque `EventType -> bool` values. The three register variants use the documented semantics: every type, the listed types, the unlisted types.
- EventTypeDef.cpp is not part of this model. Three assumptions follow from that:
  - A definition's name is the spelling of its enumerator, as in `APP_CREATED`.
  - `values()` lists the map's entries in key order, which is the order of the table.
  - The lookups return the first match, or UNKNOWN's definition when none matches.
- PusherEvents.PusherEventService.Bind: follows the code, which passes the raw topic as the one requested channel (src/events/PusherEventService.cpp:382). The function it calls there, `filter_by_channel_type`, is not declared in EventTypeDef.hpp, which declares `filter_by_channel_types`; the model takes it to be that function. The table's channel families are "", "app", "player", "asset" and "wallet", while topics look like `project.<id>.<n>`, so as modelled subscribing binds no event key (`TopicBindsNothing`). Whatever topic-to-family mapping was meant is not modelled.
- EventTypes.FilterByChannelTypes: is modelled as an exact string intersection of the entry's families with the request, and it keeps UNKNOWN's entry when "" is requested (`FilterKeepsUnknownIff`). The design documentation describes it as returning only non-UNKNOWN definitions; EventTypeDef.cpp, which would settle this, is not part of this model.
- The order of the table, and so of `values()`, is the declaration order of the `EventType` enumeration. That enumeration's header is not part of this model; the order of the map's initialiser in EventTypeDef.hpp is taken to be that order.
- The source names each type twice per entry of the `EventTypeDef` map, once as the key and once as `create`'s first argument (as at src/events/EventTypeDef.hpp:53); the two agree in all 30 entries. The model writes the table once, keyed by type, so the two coincide by construction there; `DefinitionStoredUnderOwnType` states that of the model and does not check the source's duplicated names.
- The mutex in `TrustedPlatformHandler` is not modelled. It is locking only.
- PusherEvents.PusherEventService.OnEvent: the model is sequential. `on_event` runs on the Pusher client's thread and walks the listener list by reference (src/events/PusherEventService.cpp:72, 93-97), while `cache_registration` appends to it (295) and `unregister_listener` erases from it (309) on the caller's thread, with no lock. A listener callback (95) that registers or unregisters a listener would also invalidate the loop's iterator. The model covers neither a concurrent change of the registry nor such a re-entrant change during the loop, and the source guards against neither; `deliveries == Dispatch(listeners, ...)` holds only when the list does not change during dispatch.
- PusherEvents.PusherEventService.SetConnectedHandler: a handler is modelled as present or absent. The source stores any `std::function` (src/events/PusherEventService.cpp:153-159); an empty one still counts as present, and calling it at line 128 or 130 throws `std::bad_function_call` inside the client's callback. The model assumes handlers are non-empty, and the same holds for SetDisconnectedHandler.
- TrustedPlatform.TrustedPlatformHandler.GetAuthToken: returns a copy of the stored token. The source returns a const reference to the field (src/http/TrustedPlatformHandler.cpp:17-20), which outlives the lock and reflects later writes. That aliasing is not modelled.
- `is_empty_or_whitespace` (from the string utilities) is not part of this model. It is taken to mean that every character is one of the six characters `std::isspace` accepts in the "C" locale.
- Listener identity is a number. The source's address comparison and the shared ownership of registrations are not modelled.
- The files under include/enjinsdk/ and the unit test are not modelled. They declare only setters, serialisation and equality, or test classes whose source is absent.
