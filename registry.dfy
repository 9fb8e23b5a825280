/** The subscription registry: a dictionary from lower-cased player name to the record
    `{subscriber_id, room_id, player_name}`, kept in insertion order as Python dictionaries are. */
module Registry {
  import opened Common

  predicate IsUpper(c: char) { 'A' <= c <= 'Z' }

  function LowerChar(c: char): char
  {
    if IsUpper(c) then (c as int - 'A' as int + 'a' as int) as char else c
  }

  /** `_normalize_player_name`, i.e. `str.lower()`, on ASCII letters. */
  function Lower(s: string): string
  {
    seq(|s|, i requires 0 <= i < |s| => LowerChar(s[i]))
  }

  /** A name is its own key exactly when it has no upper-case letter. */
  lemma LowerFixedPoint(s: string)
    ensures Lower(s) == s <==> forall i :: 0 <= i < |s| ==> !IsUpper(s[i])
  {
    if Lower(s) == s {
      forall i | 0 <= i < |s| ensures !IsUpper(s[i]) {
        assert Lower(s)[i] == LowerChar(s[i]);
      }
    }
  }

  /** Normalising a key again changes nothing. */
  lemma LowerIdempotent(s: string)
    ensures Lower(Lower(s)) == Lower(s)
  {
    LowerFixedPoint(Lower(s));
  }

  /** One record of the registry. */
  datatype Subscription = Subscription(subscriberIds: seq<string>, roomId: string, playerName: string)

  /** The registry dictionary: its entries, and its keys in insertion order. */
  datatype Players = Players(order: seq<string>, entries: map<string, Subscription>)

  /** The shape of a Python dictionary: every key once, in some order. */
  ghost predicate IsDict(p: Players)
  {
    && (forall k :: k in p.order <==> k in p.entries)
    && (forall i, j :: 0 <= i < j < |p.order| ==> p.order[i] != p.order[j])
  }

  /** What every registry built by subscribing satisfies: each key is the lower case of the
      stored display name, and each record has at least one subscriber. */
  ghost predicate Consistent(p: Players)
  {
    forall k :: k in p.entries ==>
      p.entries[k].subscriberIds != [] && Lower(p.entries[k].playerName) == k
  }

  const Empty: Players := Players([], map[])

  /** The registry after `livePacemanSub(player_name, room_id)` from `origin`. */
  function AfterSubscribe(p: Players, playerName: string, roomId: string, origin: string): Players
  {
    var key := Lower(playerName);
    if key !in p.entries then
      Players(p.order + [key], p.entries[key := Subscription([origin], roomId, playerName)])
    else
      var sub := p.entries[key];
      Players(p.order, p.entries[key := Subscription(sub.subscriberIds + [origin], roomId, playerName)])
  }

  /** A new name gets exactly one record, holding just the origin; all other records and
      their order stay as they were. */
  lemma SubscribeNewPlayer(p: Players, playerName: string, roomId: string, origin: string)
    requires IsDict(p) && Lower(playerName) !in p.entries
    ensures var q := AfterSubscribe(p, playerName, roomId, origin);
      && q.entries.Keys == p.entries.Keys + {Lower(playerName)}
      && q.entries[Lower(playerName)] == Subscription([origin], roomId, playerName)
      && (forall k :: k in p.entries ==> q.entries[k] == p.entries[k])
      && q.order == p.order + [Lower(playerName)]
  {
  }

  /** A known name keeps its place; its subscriber list grows by exactly the origin at the end,
      even when the origin is already there, and its room and display name are overwritten. */
  lemma SubscribeKnownPlayer(p: Players, playerName: string, roomId: string, origin: string)
    requires Lower(playerName) in p.entries
    ensures var q := AfterSubscribe(p, playerName, roomId, origin);
      var key := Lower(playerName);
      && q.entries.Keys == p.entries.Keys && q.order == p.order
      && q.entries[key].subscriberIds == p.entries[key].subscriberIds + [origin]
      && multiset(q.entries[key].subscriberIds)[origin] == multiset(p.entries[key].subscriberIds)[origin] + 1
      && q.entries[key].roomId == roomId && q.entries[key].playerName == playerName
      && (forall k :: k in p.entries && k != key ==> q.entries[k] == p.entries[k])
  {
  }

  /** Subscribing adds one occurrence of the origin to the record of the name's key, whether
      the key was new or known. */
  lemma SubscribeCountsOnce(p: Players, playerName: string, roomId: string, origin: string)
    ensures var q, key := AfterSubscribe(p, playerName, roomId, origin), Lower(playerName);
      && key in q.entries
      && multiset(q.entries[key].subscriberIds)[origin]
        == (if key in p.entries then multiset(p.entries[key].subscriberIds)[origin] else 0) + 1
  {
    if Lower(playerName) in p.entries {
      SubscribeKnownPlayer(p, playerName, roomId, origin);
    }
  }

  /** Subscribing keeps the dictionary shape. */
  lemma SubscribeKeepsDict(p: Players, playerName: string, roomId: string, origin: string)
    requires IsDict(p)
    ensures IsDict(AfterSubscribe(p, playerName, roomId, origin))
  {
  }

  /** Subscribing keeps the registry's consistency. */
  lemma SubscribeKeepsConsistent(p: Players, playerName: string, roomId: string, origin: string)
    requires Consistent(p)
    ensures Consistent(AfterSubscribe(p, playerName, roomId, origin))
  {
  }

  /** One `livepacesub` command: player name, room id, and the origin it came from. */
  datatype Command = Command(playerName: string, roomId: string, origin: string)

  function SubscribeAll(p: Players, commands: seq<Command>): Players
  {
    if commands == [] then p
    else
      var c := commands[|commands| - 1];
      AfterSubscribe(SubscribeAll(p, commands[..|commands| - 1]), c.playerName, c.roomId, c.origin)
  }

  /** Subscribing never removes a key, a subscriber, or changes a key's place: every record's
      old subscriber list is a prefix of its new one. */
  lemma {:induction false} SubscribeAllGrows(p: Players, commands: seq<Command>)
    ensures var q := SubscribeAll(p, commands);
      && p.entries.Keys <= q.entries.Keys
      && p.order <= q.order
      && forall k :: k in p.entries ==> p.entries[k].subscriberIds <= q.entries[k].subscriberIds
  {
    if commands != [] {
      var c := commands[|commands| - 1];
      SubscribeAllGrows(p, commands[..|commands| - 1]);
    }
  }

  /** Any sequence of subscriptions from the empty registry (or any consistent one) yields a
      consistent dictionary: no empty subscriber list, every key the lower case of its name. */
  lemma {:induction false} SubscribeAllConsistent(p: Players, commands: seq<Command>)
    requires IsDict(p) && Consistent(p)
    ensures IsDict(SubscribeAll(p, commands)) && Consistent(SubscribeAll(p, commands))
  {
    if commands != [] {
      var c := commands[|commands| - 1];
      SubscribeAllConsistent(p, commands[..|commands| - 1]);
      SubscribeKeepsDict(SubscribeAll(p, commands[..|commands| - 1]), c.playerName, c.roomId, c.origin);
      SubscribeKeepsConsistent(SubscribeAll(p, commands[..|commands| - 1]), c.playerName, c.roomId, c.origin);
    }
  }

  /** The reply to `livepacesub`: created or updated. */
  function SubscribeReply(playerName: string, roomId: string, created: bool): string
  {
    "玩家 " + playerName + (if created then " 订阅成功" else " 订阅更新") + "，房间ID为 " + roomId + "。"
  }

  const NotSubscribedReply: string := "你还没有订阅任何玩家。"
  const ListPrefix: string := "你订阅了以下玩家："

  /** `livePacemanSubList` as written: `self.players.get(origin, [])` looks the ORIGIN up as a
      player key. A miss gives the empty list and the "not subscribed" reply. A hit gives a
      record (a non-empty dict), whose iteration yields its field names, and indexing the
      string `'subscriber_id'` with `'player_name'` raises `TypeError`. */
  function ListReplyAsWritten(p: Players, origin: string): (r: Result<string>)
    ensures r.Ok? <==> origin !in p.entries
    ensures r.Ok? ==> r.value == NotSubscribedReply
    ensures r.Err? ==> r.error == TypeError
  {
    if origin !in p.entries then Ok(NotSubscribedReply) else Err(TypeError)
  }

  /** The display names, in registry order, of the players that `origin` subscribes to. */
  function SubscribedNames(order: seq<string>, entries: map<string, Subscription>, origin: string): seq<string>
    requires forall k :: k in order ==> k in entries
  {
    if order == [] then []
    else
      var key := order[|order| - 1];
      var earlier := SubscribedNames(order[..|order| - 1], entries, origin);
      if origin in entries[key].subscriberIds then earlier + [entries[key].playerName] else earlier
  }

  /** A name is listed exactly when some record with that display name holds the origin. */
  lemma {:induction false} SubscribedNamesMembers(order: seq<string>, entries: map<string, Subscription>, origin: string, name: string)
    requires forall k :: k in order ==> k in entries
    ensures name in SubscribedNames(order, entries, origin)
      <==> exists k :: k in order && origin in entries[k].subscriberIds && entries[k].playerName == name
  {
    if order != [] {
      var key := order[|order| - 1];
      var init := order[..|order| - 1];
      SubscribedNamesMembers(init, entries, origin, name);
      assert forall k :: k in order <==> k in init || k == key;
    }
  }

  /** Nothing is listed exactly when no record holds the origin. */
  lemma {:induction false} SubscribedNamesEmpty(order: seq<string>, entries: map<string, Subscription>, origin: string)
    requires forall k :: k in order ==> k in entries
    ensures SubscribedNames(order, entries, origin) == []
      <==> forall k :: k in order ==> origin !in entries[k].subscriberIds
  {
    if order != [] {
      var init := order[..|order| - 1];
      SubscribedNamesEmpty(init, entries, origin);
      assert forall k :: k in order <==> k in init || k == order[|order| - 1];
    }
  }

  function Join(parts: seq<string>, sep: string): string
  {
    if parts == [] then "" else if |parts| == 1 then parts[0] else parts[0] + sep + Join(parts[1..], sep)
  }

  /** The listing the command evidently intends: the display names of the players the origin
      subscribes to, joined by `", "`, or the "not subscribed" reply when there are none. */
  function ListReply(p: Players, origin: string): (r: string)
    requires IsDict(p)
    ensures r == NotSubscribedReply <==> forall k :: k in p.order ==> origin !in p.entries[k].subscriberIds
  {
    var names := SubscribedNames(p.order, p.entries, origin);
    SubscribedNamesEmpty(p.order, p.entries, origin);
    assert (ListPrefix + Join(names, ", "))[1] != NotSubscribedReply[1];
    if names == [] then NotSubscribedReply else ListPrefix + Join(names, ", ")
  }

  /** After subscribing, the origin's listing names the player as last supplied. */
  lemma SubscribeThenListed(p: Players, playerName: string, roomId: string, origin: string)
    requires IsDict(p)
    ensures var q := AfterSubscribe(p, playerName, roomId, origin);
      IsDict(q) && playerName in SubscribedNames(q.order, q.entries, origin)
  {
    var q := AfterSubscribe(p, playerName, roomId, origin);
    var key := Lower(playerName);
    SubscribeKeepsDict(p, playerName, roomId, origin);
    assert key in q.order && origin in q.entries[key].subscriberIds && q.entries[key].playerName == playerName;
    SubscribedNamesMembers(q.order, q.entries, origin, playerName);
  }

  /** The listing as written misses a real subscription: a chat origin that has just subscribed
      to "Foo" is told it has no subscriptions, while the intended listing names "Foo". */
  lemma ListAsWrittenMissesSubscription()
    ensures var q := AfterSubscribe(Empty, "Foo", "1", "group:42");
      && ListReplyAsWritten(q, "group:42") == Ok(NotSubscribedReply)
      && ListReply(q, "group:42") == ListPrefix + "Foo"
  {
    FooSubscribed();
    var q := Players(["foo"], map["foo" := Subscription(["group:42"], "1", "Foo")]);
    ListedFoo(q);
  }

  lemma FooSubscribed()
    ensures AfterSubscribe(Empty, "Foo", "1", "group:42")
      == Players(["foo"], map["foo" := Subscription(["group:42"], "1", "Foo")])
  {
    assert Lower("Foo") == "foo";
  }

  lemma ListedFoo(q: Players)
    requires q == Players(["foo"], map["foo" := Subscription(["group:42"], "1", "Foo")])
    ensures IsDict(q) && SubscribedNames(q.order, q.entries, "group:42") == ["Foo"]
  {
    assert q.order[..0] == [];
  }
}
