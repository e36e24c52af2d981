/** The catalog of event types (src/events/EventTypeDef.hpp).

    The source keeps a static std::map from each EventType to its definition
    (type, wire key, channel families).  Here the map is the function
    `Definition`, one case per entry of the map literal, and the map's keys in
    iteration order are `AllTypes`.  The lookups and the filter are pure
    functions over that table. */
module EventTypes {
  import opened Optional

  /** models::EventType: UNKNOWN plus the 29 known notification types. */
  datatype EventType =
      Unknown
    | AppCreated
    | AppDeleted
    | AppLinked
    | AppLocked
    | AppUnlinked
    | AppUnlocked
    | AppUpdated
    | BlockchainLogProcessed
    | MessageProcessed
    | PlayerCreated
    | PlayerDeleted
    | PlayerLinked
    | PlayerUnlinked
    | PlayerUpdated
    | AssetCreated
    | AssetMelted
    | AssetMinted
    | AssetTransferred
    | AssetUpdated
    | TradeCompleted
    | TradeCreated
    | TransactionBroadcast
    | TransactionCanceled
    | TransactionDropped
    | TransactionExecuted
    | TransactionFailed
    | TransactionPending
    | TransactionProcessing
    | TransactionUpdated

  /** The spelling of each enumerator, used as the name of its definition. */
  function TypeName(t: EventType): string {
    match t
    case Unknown => "UNKNOWN"
    case AppCreated => "APP_CREATED"
    case AppDeleted => "APP_DELETED"
    case AppLinked => "APP_LINKED"
    case AppLocked => "APP_LOCKED"
    case AppUnlinked => "APP_UNLINKED"
    case AppUnlocked => "APP_UNLOCKED"
    case AppUpdated => "APP_UPDATED"
    case BlockchainLogProcessed => "BLOCKCHAIN_LOG_PROCESSED"
    case MessageProcessed => "MESSAGE_PROCESSED"
    case PlayerCreated => "PLAYER_CREATED"
    case PlayerDeleted => "PLAYER_DELETED"
    case PlayerLinked => "PLAYER_LINKED"
    case PlayerUnlinked => "PLAYER_UNLINKED"
    case PlayerUpdated => "PLAYER_UPDATED"
    case AssetCreated => "ASSET_CREATED"
    case AssetMelted => "ASSET_MELTED"
    case AssetMinted => "ASSET_MINTED"
    case AssetTransferred => "ASSET_TRANSFERRED"
    case AssetUpdated => "ASSET_UPDATED"
    case TradeCompleted => "TRADE_COMPLETED"
    case TradeCreated => "TRADE_CREATED"
    case TransactionBroadcast => "TRANSACTION_BROADCAST"
    case TransactionCanceled => "TRANSACTION_CANCELED"
    case TransactionDropped => "TRANSACTION_DROPPED"
    case TransactionExecuted => "TRANSACTION_EXECUTED"
    case TransactionFailed => "TRANSACTION_FAILED"
    case TransactionPending => "TRANSACTION_PENDING"
    case TransactionProcessing => "TRANSACTION_PROCESSING"
    case TransactionUpdated => "TRANSACTION_UPDATED"
  }

  /** One entry of the catalog: EventTypeDef's private fields. */
  datatype EventTypeDef = EventTypeDef(eventType: EventType, key: string, channels: seq<string>, name: string)

  /** EventTypeDef::create. */
  function Create(t: EventType, key: string, channels: seq<string>): EventTypeDef
  {
    EventTypeDef(t, key, channels, TypeName(t))
  }

  /** create(type, key, channels) records its arguments and names the
      definition after its type. */
  lemma CreateFields(t: EventType, key: string, channels: seq<string>)
    ensures Create(t, key, channels).eventType == t
    ensures Create(t, key, channels).key == key && Create(t, key, channels).channels == channels
    ensures Create(t, key, channels).name == TypeName(t)
  {
  }

  /** The wire-key column of the static map (src/events/EventTypeDef.hpp:49-140).
      Each key is written as KeyPrefix followed by the class name; the value is
      the source's string literal. */
  function Key(t: EventType): string {
    match t
    case Unknown => ""
    case AppCreated => KeyPrefix + "AppCreated"
    case AppDeleted => KeyPrefix + "AppDeleted"
    case AppLinked => KeyPrefix + "AppLinked"
    case AppLocked => KeyPrefix + "AppLocked"
    case AppUnlinked => KeyPrefix + "AppUnlinked"
    case AppUnlocked => KeyPrefix + "AppUnlocked"
    case AppUpdated => KeyPrefix + "AppUpdated"
    case BlockchainLogProcessed => KeyPrefix + "BlockchainLogProcessed"
    case MessageProcessed => KeyPrefix + "MessageProcessed"
    case PlayerCreated => KeyPrefix + "PlayerCreated"
    case PlayerDeleted => KeyPrefix + "PlayerDeleted"
    case PlayerLinked => KeyPrefix + "PlayerLinked"
    case PlayerUnlinked => KeyPrefix + "PlayerUnlinked"
    case PlayerUpdated => KeyPrefix + "PlayerUpdated"
    case AssetCreated => KeyPrefix + "AssetCreated"
    case AssetMelted => KeyPrefix + "AssetMelted"
    case AssetMinted => KeyPrefix + "AssetMinted"
    case AssetTransferred => KeyPrefix + "AssetTransferred"
    case AssetUpdated => KeyPrefix + "AssetUpdated"
    case TradeCompleted => KeyPrefix + "TradeCompleted"
    case TradeCreated => KeyPrefix + "TradeCreated"
    case TransactionBroadcast => KeyPrefix + "TransactionBroadcast"
    case TransactionCanceled => KeyPrefix + "TransactionCanceled"
    case TransactionDropped => KeyPrefix + "TransactionDropped"
    case TransactionExecuted => KeyPrefix + "TransactionExecuted"
    case TransactionFailed => KeyPrefix + "TransactionFailed"
    case TransactionPending => KeyPrefix + "TransactionPending"
    case TransactionProcessing => KeyPrefix + "TransactionProcessing"
    case TransactionUpdated => KeyPrefix + "TransactionUpdated"
  }
  /** The channel-family column of the static map. */
  function Channels(t: EventType): seq<string> {
    match t
    case Unknown => [""]
    case AppCreated => ["app"]
    case AppDeleted => ["app"]
    case AppLinked => ["app", "wallet"]
    case AppLocked => ["app"]
    case AppUnlinked => ["app", "wallet"]
    case AppUnlocked => ["app"]
    case AppUpdated => ["app"]
    case BlockchainLogProcessed => ["app", "asset", "wallet"]
    case MessageProcessed => ["app", "asset", "wallet"]
    case PlayerCreated => ["app", "player"]
    case PlayerDeleted => ["app", "player"]
    case PlayerLinked => ["app", "player", "wallet"]
    case PlayerUnlinked => ["app", "player", "wallet"]
    case PlayerUpdated => ["app", "player"]
    case AssetCreated => ["app", "asset", "wallet"]
    case AssetMelted => ["app", "asset", "wallet"]
    case AssetMinted => ["app", "asset", "wallet"]
    case AssetTransferred => ["app", "asset", "wallet"]
    case AssetUpdated => ["app", "asset", "wallet"]
    case TradeCompleted => ["app", "asset", "wallet"]
    case TradeCreated => ["app", "asset", "wallet"]
    case TransactionBroadcast => ["app", "asset", "wallet"]
    case TransactionCanceled => ["app", "asset", "wallet"]
    case TransactionDropped => ["app", "asset", "wallet"]
    case TransactionExecuted => ["app", "asset", "wallet"]
    case TransactionFailed => ["app", "asset", "wallet"]
    case TransactionPending => ["app", "asset", "wallet"]
    case TransactionProcessing => ["app", "asset", "wallet"]
    case TransactionUpdated => ["app", "asset", "wallet"]
  }
  /** The static map: the entry stored under type t is create(t, Key(t), Channels(t)). */
  function Definition(t: EventType): EventTypeDef
  {
    Create(t, Key(t), Channels(t))
  }

  /** The keys of the static map in iteration (declaration) order. */
  const AllTypes: seq<EventType> := [
    Unknown,
    AppCreated,
    AppDeleted,
    AppLinked,
    AppLocked,
    AppUnlinked,
    AppUnlocked,
    AppUpdated,
    BlockchainLogProcessed,
    MessageProcessed,
    PlayerCreated,
    PlayerDeleted,
    PlayerLinked,
    PlayerUnlinked,
    PlayerUpdated,
    AssetCreated,
    AssetMelted,
    AssetMinted,
    AssetTransferred,
    AssetUpdated,
    TradeCompleted,
    TradeCreated,
    TransactionBroadcast,
    TransactionCanceled,
    TransactionDropped,
    TransactionExecuted,
    TransactionFailed,
    TransactionPending,
    TransactionProcessing,
    TransactionUpdated
  ]

  /** The position of each type among the map's keys (its enumerator's value). */
  function Ordinal(t: EventType): nat {
    match t
    case Unknown => 0
    case AppCreated => 1
    case AppDeleted => 2
    case AppLinked => 3
    case AppLocked => 4
    case AppUnlinked => 5
    case AppUnlocked => 6
    case AppUpdated => 7
    case BlockchainLogProcessed => 8
    case MessageProcessed => 9
    case PlayerCreated => 10
    case PlayerDeleted => 11
    case PlayerLinked => 12
    case PlayerUnlinked => 13
    case PlayerUpdated => 14
    case AssetCreated => 15
    case AssetMelted => 16
    case AssetMinted => 17
    case AssetTransferred => 18
    case AssetUpdated => 19
    case TradeCompleted => 20
    case TradeCreated => 21
    case TransactionBroadcast => 22
    case TransactionCanceled => 23
    case TransactionDropped => 24
    case TransactionExecuted => 25
    case TransactionFailed => 26
    case TransactionPending => 27
    case TransactionProcessing => 28
    case TransactionUpdated => 29
  }

  /** The namespace every known wire key starts with (one backslash after each word). */
  const KeyPrefix: string := "EnjinCloud\\Events\\"

  /** Reference definition of the class name that follows KeyPrefix in a known key. */
  function ClassName(t: EventType): string {
    match t
    case Unknown => ""
    case AppCreated => "AppCreated"
    case AppDeleted => "AppDeleted"
    case AppLinked => "AppLinked"
    case AppLocked => "AppLocked"
    case AppUnlinked => "AppUnlinked"
    case AppUnlocked => "AppUnlocked"
    case AppUpdated => "AppUpdated"
    case BlockchainLogProcessed => "BlockchainLogProcessed"
    case MessageProcessed => "MessageProcessed"
    case PlayerCreated => "PlayerCreated"
    case PlayerDeleted => "PlayerDeleted"
    case PlayerLinked => "PlayerLinked"
    case PlayerUnlinked => "PlayerUnlinked"
    case PlayerUpdated => "PlayerUpdated"
    case AssetCreated => "AssetCreated"
    case AssetMelted => "AssetMelted"
    case AssetMinted => "AssetMinted"
    case AssetTransferred => "AssetTransferred"
    case AssetUpdated => "AssetUpdated"
    case TradeCompleted => "TradeCompleted"
    case TradeCreated => "TradeCreated"
    case TransactionBroadcast => "TransactionBroadcast"
    case TransactionCanceled => "TransactionCanceled"
    case TransactionDropped => "TransactionDropped"
    case TransactionExecuted => "TransactionExecuted"
    case TransactionFailed => "TransactionFailed"
    case TransactionPending => "TransactionPending"
    case TransactionProcessing => "TransactionProcessing"
    case TransactionUpdated => "TransactionUpdated"
  }

  /** The five player notification types. */
  predicate IsPlayerType(t: EventType)
  {
    t.PlayerCreated? || t.PlayerDeleted? || t.PlayerLinked? || t.PlayerUnlinked? || t.PlayerUpdated?
  }

  /** EventTypeDef::values: the values of the static map in key order. */
  function Values(): (vs: seq<EventTypeDef>)
    ensures |vs| == |AllTypes|
    ensures forall i :: 0 <= i < |vs| ==> vs[i] == Definition(AllTypes[i])
  {
    seq(|AllTypes|, i requires 0 <= i < |AllTypes| => Definition(AllTypes[i]))
  }

  /** The index of the first of `defs` that satisfies `p`, if any does. */
  function FindFirst(defs: seq<EventTypeDef>, p: EventTypeDef -> bool): (r: Option<nat>)
    ensures r.Some? ==> r.value < |defs| && p(defs[r.value])
    ensures r.Some? ==> forall j :: 0 <= j < r.value ==> !p(defs[j])
    ensures r.None? ==> forall j :: 0 <= j < |defs| ==> !p(defs[j])
  {
    if defs == [] then None
    else if p(defs[0]) then Some(0)
    else match FindFirst(defs[1..], p)
      case None => None
      case Some(k) => Some(k + 1)
  }

  /** EventTypeDef::get_from_key: the definition with wire key `key`, or UNKNOWN's. */
  function GetFromKey(key: string): (d: EventTypeDef)
    ensures d in Values()
    ensures d.key == key || d == Definition(Unknown)
    ensures (forall t :: Definition(t).key != key) ==> d == Definition(Unknown)
  {
    match FindFirst(Values(), (d: EventTypeDef) => d.key == key)
    case Some(k) => Values()[k]
    case None => Definition(Unknown)
  }

  /** EventTypeDef::get_from_name: the definition named `name`, or UNKNOWN's. */
  function GetFromName(name: string): (d: EventTypeDef)
    ensures d in Values()
    ensures d.name == name || d == Definition(Unknown)
    ensures (forall t :: Definition(t).name != name) ==> d == Definition(Unknown)
  {
    match FindFirst(Values(), (d: EventTypeDef) => d.name == name)
    case Some(k) => Values()[k]
    case None => Definition(Unknown)
  }

  /** EventTypeDef::in: the definition's type occurs in `types`. */
  function In(d: EventTypeDef, types: seq<EventType>): (b: bool)
    ensures b <==> exists i :: 0 <= i < |types| && types[i] == d.eventType
  {
    if types == [] then false else types[0] == d.eventType || In(d, types[1..])
  }

  /** Some channel family in `channels` is one of `requested`. */
  predicate SharesChannel(channels: seq<string>, requested: seq<string>)
  {
    exists i :: 0 <= i < |channels| && channels[i] in requested
  }

  /** `a` is `b` with some elements left out, order kept. */
  predicate SubsequenceOf<T(==)>(a: seq<T>, b: seq<T>)
    decreases |b|
  {
    if a == [] then true
    else if b == [] then false
    else if a[0] == b[0] then SubsequenceOf(a[1..], b[1..])
    else SubsequenceOf(a, b[1..])
  }

  /** The definitions of `defs` that apply to one of the `requested` channel
      families, in their order in `defs`. */
  function FilterDefs(defs: seq<EventTypeDef>, requested: seq<string>): seq<EventTypeDef>
  {
    if defs == [] then []
    else if SharesChannel(defs[0].channels, requested) then [defs[0]] + FilterDefs(defs[1..], requested)
    else FilterDefs(defs[1..], requested)
  }

  /** A definition is kept exactly when it is among `defs` and shares a
      channel family with the request, and the kept ones keep their order. */
  lemma {:induction false} FilterDefsKeeps(defs: seq<EventTypeDef>, requested: seq<string>)
    ensures forall d :: d in FilterDefs(defs, requested) <==> d in defs && SharesChannel(d.channels, requested)
    ensures SubsequenceOf(FilterDefs(defs, requested), defs)
    ensures |FilterDefs(defs, requested)| <= |defs|
  {
    if defs != [] {
      FilterDefsKeeps(defs[1..], requested);
      assert forall d :: d in defs <==> d == defs[0] || d in defs[1..];
    }
  }

  /** EventTypeDef::filter_by_channel_types. */
  function FilterByChannelTypes(requested: seq<string>): (r: seq<EventTypeDef>)
    ensures |r| <= |AllTypes|
    ensures forall i :: 0 <= i < |r| ==> SharesChannel(r[i].channels, requested)
  {
    FilterDefsKeeps(Values(), requested);
    FilterDefs(Values(), requested)
  }

  /** The filter's result is a subsequence of values(), and it keeps a
      definition exactly when that shares a channel family with the request. */
  lemma FilterByChannelTypesKeeps(requested: seq<string>)
    ensures forall d :: d in FilterByChannelTypes(requested) <==> d in Values() && SharesChannel(d.channels, requested)
    ensures SubsequenceOf(FilterByChannelTypes(requested), Values())
  {
    FilterDefsKeeps(Values(), requested);
  }

  // ---------------------------------------------------------------------
  // Properties of the table

  /** values() lists each type's definition at the type's ordinal, and the
      definition at position i has ordinal i. */
  lemma ValuesByOrdinal(t: EventType, i: nat)
    requires i < |Values()|
    ensures Ordinal(t) < |Values()| && Values()[Ordinal(t)] == Definition(t)
    ensures Ordinal(Values()[i].eventType) == i
  {
    AllTypesListsEachType(t);
    AllTypesDistinct(i);
  }

  /** Every event type is a key of the map, at the position Ordinal gives. */
  lemma AllTypesListsEachType(t: EventType)
    ensures Ordinal(t) < |AllTypes| && AllTypes[Ordinal(t)] == t
  {
  }

  /** AllTypesDistinct for positions 0 to 9. */
  lemma AllTypesDistinctFrom0(i: nat)
    requires 0 <= i < 10
    ensures Ordinal(AllTypes[i]) == i
  {
  }

  /** AllTypesDistinct for positions 10 to 19. */
  lemma AllTypesDistinctFrom10(i: nat)
    requires 10 <= i < 20
    ensures Ordinal(AllTypes[i]) == i
  {
  }

  /** AllTypesDistinct for positions 20 to 29. */
  lemma AllTypesDistinctFrom20(i: nat)
    requires 20 <= i < 30
    ensures Ordinal(AllTypes[i]) == i
  {
  }

  /** No type is a key of the map twice: position i holds the type of ordinal i. */
  lemma AllTypesDistinct(i: nat)
    requires i < |AllTypes|
    ensures Ordinal(AllTypes[i]) == i
  {
    if i < 10 {
      AllTypesDistinctFrom0(i);
    } else if i < 20 {
      AllTypesDistinctFrom10(i);
    } else {
      AllTypesDistinctFrom20(i);
    }
  }

  /** Each entry is stored under the type it was created with. */
  lemma DefinitionStoredUnderOwnType(t: EventType)
    ensures Definition(t).eventType == t
  {
  }

  /** Every known wire key is KeyPrefix followed by the type's class name. */
  lemma KeyFormat(t: EventType)
    requires t != Unknown
    ensures Definition(t).key == KeyPrefix + ClassName(t)
  {
  }

  /** Distinct types have distinct class names, for a first type at positions 0 to 5. */
  lemma ClassNamesDistinctFrom0(t1: EventType, t2: EventType)
    requires 0 <= Ordinal(t1) < 6 && t1 != t2
    ensures ClassName(t1) != ClassName(t2)
  {
  }

  /** Distinct types have distinct class names, for a first type at positions 6 to 11. */
  lemma ClassNamesDistinctFrom6(t1: EventType, t2: EventType)
    requires 6 <= Ordinal(t1) < 12 && t1 != t2
    ensures ClassName(t1) != ClassName(t2)
  {
  }

  /** Distinct types have distinct class names, for a first type at positions 12 to 17. */
  lemma ClassNamesDistinctFrom12(t1: EventType, t2: EventType)
    requires 12 <= Ordinal(t1) < 18 && t1 != t2
    ensures ClassName(t1) != ClassName(t2)
  {
  }

  /** Distinct types have distinct class names, for a first type at positions 18 to 23. */
  lemma ClassNamesDistinctFrom18(t1: EventType, t2: EventType)
    requires 18 <= Ordinal(t1) < 24 && t1 != t2
    ensures ClassName(t1) != ClassName(t2)
  {
  }

  /** Distinct types have distinct class names, for a first type at positions 24 to 29. */
  lemma ClassNamesDistinctFrom24(t1: EventType, t2: EventType)
    requires 24 <= Ordinal(t1) < 30 && t1 != t2
    ensures ClassName(t1) != ClassName(t2)
  {
  }

  /** Distinct types have distinct class names: proved a group of first types at a time. */
  lemma ClassNamesDistinct(t1: EventType, t2: EventType)
    requires t1 != t2
    ensures ClassName(t1) != ClassName(t2)
  {
    if Ordinal(t1) < 6 {
      ClassNamesDistinctFrom0(t1, t2);
    } else if Ordinal(t1) < 12 {
      ClassNamesDistinctFrom6(t1, t2);
    } else if Ordinal(t1) < 18 {
      ClassNamesDistinctFrom12(t1, t2);
    } else if Ordinal(t1) < 24 {
      ClassNamesDistinctFrom18(t1, t2);
    } else {
      ClassNamesDistinctFrom24(t1, t2);
    }
  }

  /** The wire keys of the table are pairwise distinct. */
  lemma {:induction false} KeysDistinct(t1: EventType, t2: EventType)
    requires t1 != t2
    ensures Definition(t1).key != Definition(t2).key
  {
    if t1 == Unknown || t2 == Unknown {
      var known := if t1 == Unknown then t2 else t1;
      KeyFormat(known);
      assert |Definition(known).key| > 0;
    } else {
      KeyFormat(t1);
      KeyFormat(t2);
      ClassNamesDistinct(t1, t2);
      var k1, k2 := Definition(t1).key, Definition(t2).key;
      assert k1[|KeyPrefix|..] == ClassName(t1);
      assert k2[|KeyPrefix|..] == ClassName(t2);
    }
  }

  /** UNKNOWN owns the empty key and the channel list [""]. */
  lemma UnknownDefinition()
    ensures Definition(Unknown) == EventTypeDef(Unknown, "", [""], "UNKNOWN")
    ensures forall t :: t != Unknown ==> Definition(t).key != ""
  {
    forall t | t != Unknown
      ensures Definition(t).key != ""
    {
      KeysDistinct(t, Unknown);
    }
  }

  /** When every element of `defs` satisfying `p` equals defs[i], the search finds defs[i]. */
  lemma {:induction false} FindFirstOfUnique(defs: seq<EventTypeDef>, p: EventTypeDef -> bool, i: nat)
    requires i < |defs| && p(defs[i])
    requires forall j :: 0 <= j < |defs| && p(defs[j]) ==> defs[j] == defs[i]
    ensures FindFirst(defs, p).Some? && defs[FindFirst(defs, p).value] == defs[i]
  {
    if i > 0 && !p(defs[0]) {
      FindFirstOfUnique(defs[1..], p, i - 1);
    }
  }

  /** Looking up a table definition's key yields that same definition. */
  lemma {:induction false} GetFromKeyRoundTrip(t: EventType)
    ensures GetFromKey(Definition(t).key) == Definition(t)
  {
    var key := Definition(t).key;
    AllTypesListsEachType(t);
    var vs := Values();
    forall j | 0 <= j < |vs| && vs[j].key == key
      ensures vs[j] == vs[Ordinal(t)]
    {
      if AllTypes[j] != t {
        KeysDistinct(AllTypes[j], t);
      }
    }
    FindFirstOfUnique(vs, (d: EventTypeDef) => d.key == key, Ordinal(t));
  }

  /** An event without a name arrives with key "": it resolves to UNKNOWN. */
  lemma GetFromKeyOfEmptyIsUnknown()
    ensures GetFromKey("") == Definition(Unknown)
  {
    GetFromKeyRoundTrip(Unknown);
  }

  /** A key resolves to a known type exactly when some known definition owns it. */
  lemma GetFromKeyKnownIff(key: string)
    ensures GetFromKey(key).eventType != Unknown <==>
            exists t :: t != Unknown && Definition(t).key == key
  {
    var d := GetFromKey(key);
    if d.eventType != Unknown {
      var k :| 0 <= k < |Values()| && Values()[k] == d;
      assert Definition(AllTypes[k]).key == key;
    } else {
      forall t | t != Unknown
        ensures Definition(t).key != key
      {
        if Definition(t).key == key {
          GetFromKeyRoundTrip(t);
        }
      }
    }
  }

  /** Distinct types have distinct names, for a first type at positions 0 to 5. */
  lemma TypeNamesDistinctFrom0(t1: EventType, t2: EventType)
    requires 0 <= Ordinal(t1) < 6 && t1 != t2
    ensures TypeName(t1) != TypeName(t2)
  {
  }

  /** Distinct types have distinct names, for a first type at positions 6 to 11. */
  lemma TypeNamesDistinctFrom6(t1: EventType, t2: EventType)
    requires 6 <= Ordinal(t1) < 12 && t1 != t2
    ensures TypeName(t1) != TypeName(t2)
  {
  }

  /** Distinct types have distinct names, for a first type at positions 12 to 17. */
  lemma TypeNamesDistinctFrom12(t1: EventType, t2: EventType)
    requires 12 <= Ordinal(t1) < 18 && t1 != t2
    ensures TypeName(t1) != TypeName(t2)
  {
  }

  /** Distinct types have distinct names, for a first type at positions 18 to 23. */
  lemma TypeNamesDistinctFrom18(t1: EventType, t2: EventType)
    requires 18 <= Ordinal(t1) < 24 && t1 != t2
    ensures TypeName(t1) != TypeName(t2)
  {
  }

  /** Distinct types have distinct names, for a first type at positions 24 to 29. */
  lemma TypeNamesDistinctFrom24(t1: EventType, t2: EventType)
    requires 24 <= Ordinal(t1) < 30 && t1 != t2
    ensures TypeName(t1) != TypeName(t2)
  {
  }

  /** Distinct types have distinct names: proved a group of first types at a time. */
  lemma TypeNamesDistinct(t1: EventType, t2: EventType)
    requires t1 != t2
    ensures TypeName(t1) != TypeName(t2)
  {
    if Ordinal(t1) < 6 {
      TypeNamesDistinctFrom0(t1, t2);
    } else if Ordinal(t1) < 12 {
      TypeNamesDistinctFrom6(t1, t2);
    } else if Ordinal(t1) < 18 {
      TypeNamesDistinctFrom12(t1, t2);
    } else if Ordinal(t1) < 24 {
      TypeNamesDistinctFrom18(t1, t2);
    } else {
      TypeNamesDistinctFrom24(t1, t2);
    }
  }

  /** Looking up a table definition's name yields that same definition. */
  lemma {:induction false} GetFromNameRoundTrip(t: EventType)
    ensures GetFromName(Definition(t).name) == Definition(t)
  {
    var name := Definition(t).name;
    AllTypesListsEachType(t);
    var vs := Values();
    assert vs[Ordinal(t)].name == name;
    var d := GetFromName(name);
    if d != Definition(t) {
      assert d.name == name;
      var k :| 0 <= k < |vs| && vs[k] == d;
      TypeNamesDistinct(AllTypes[k], t);
    }
  }

  /** Every known type arrives on the "app" channel family. */
  lemma AppChannelForKnownTypes(t: EventType)
    requires t != Unknown
    ensures "app" in Definition(t).channels
  {
  }

  /** Only the five player types arrive on the "player" channel family. */
  lemma PlayerChannelOnlyForPlayerTypes(t: EventType)
    ensures "player" in Definition(t).channels <==> IsPlayerType(t)
  {
  }

  /** The player types sit at positions 10 to 14 among the map's keys. */
  lemma PlayerTypePositions(t: EventType)
    ensures IsPlayerType(t) <==> 10 <= Ordinal(t) < 15
  {
  }

  /** The definitions of the five player types, in table order. */
  const PlayerDefinitions: seq<EventTypeDef> :=
    [Definition(PlayerCreated), Definition(PlayerDeleted), Definition(PlayerLinked),
     Definition(PlayerUnlinked), Definition(PlayerUpdated)]

  /** Which positions of the table the "player" family selects, and what sits there. */
  lemma PlayerPosition(i: nat)
    requires i < |AllTypes|
    ensures SharesChannel(Values()[i].channels, ["player"]) <==> 10 <= i < 15
    ensures 10 <= i < 15 ==> Values()[i] == PlayerDefinitions[i - 10]
  {
    var t := AllTypes[i];
    AllTypesDistinct(i);
    PlayerTypePositions(t);
    PlayerChannelOnlyForPlayerTypes(t);
    assert SharesChannel(Channels(t), ["player"]) <==> "player" in Channels(t);
  }

  /** Filtering the table from position i on for "player". */
  lemma {:induction false} PlayerFilterFrom(i: nat)
    requires i <= |AllTypes|
    ensures FilterDefs(Values()[i..], ["player"]) ==
            PlayerDefinitions[(if i < 10 then 0 else if i < 15 then i - 10 else 5)..]
    decreases |AllTypes| - i
  {
    var vs := Values();
    if i < |AllTypes| {
      PlayerFilterFrom(i + 1);
      assert vs[i..][0] == vs[i] && vs[i..][1..] == vs[i + 1..];
      PlayerPosition(i);
      if 10 <= i < 15 {
        assert FilterDefs(vs[i..], ["player"]) == [vs[i]] + FilterDefs(vs[i + 1..], ["player"]);
        assert PlayerDefinitions[i - 10..] == [PlayerDefinitions[i - 10]] + PlayerDefinitions[i - 9..];
      } else {
        assert FilterDefs(vs[i..], ["player"]) == FilterDefs(vs[i + 1..], ["player"]);
      }
    }
  }

  /** Filtering on the "player" family yields the five player definitions, in table order. */
  lemma PlayerFilter()
    ensures FilterByChannelTypes(["player"]) == PlayerDefinitions
  {
    PlayerFilterFrom(0);
    assert Values()[0..] == Values();
  }

  /** Every channel family in the table is at most six characters long. */
  lemma ChannelFamiliesShort(t: EventType)
    ensures forall i :: 0 <= i < |Channels(t)| ==> |Channels(t)[i]| <= 6
  {
  }

  /** A requested channel longer than every family selects no definition. */
  lemma {:induction false} FilterOfLongChannelIsEmpty(channel: string)
    requires |channel| > 6
    ensures FilterByChannelTypes([channel]) == []
  {
    var r := FilterByChannelTypes([channel]);
    if r != [] {
      FilterByChannelTypesKeeps([channel]);
      assert r[0] in r;
      var k :| 0 <= k < |Values()| && Values()[k] == r[0];
      var t := AllTypes[k];
      ChannelFamiliesShort(t);
      assert false;
    }
  }

  /** The filter returns UNKNOWN's definition exactly when "" is requested. */
  lemma FilterKeepsUnknownIff(requested: seq<string>)
    ensures Definition(Unknown) in FilterByChannelTypes(requested) <==> "" in requested
  {
    assert Values()[0] == Definition(Unknown);
    UnknownDefinition();
    FilterByChannelTypesKeeps(requested);
    assert Definition(Unknown).channels[0] == "";
  }
}
