/** The plugin object: its registry field and the three operations that use it. */
module Plugin {
  import opened Common
  import opened Message
  import opened Registry
  import opened Notify

  class LivePaceman {
    /** `self.players`, mutated in place by the subscribe command. */
    var players: Players

    ghost predicate Valid()
      reads this
    {
      IsDict(players)
    }

    /** Starts from the registry read at start-up (an empty one when nothing could be read). */
    constructor (loaded: Players)
      requires IsDict(loaded)
      ensures Valid() && players == loaded
    {
      players := loaded;
    }

    /** `livePacemanSub`: a new lower-cased name gets a fresh record at the end of the
        dictionary; a known one gets the origin appended to its subscriber list (no
        de-duplication) and its room id and display name overwritten. */
    method Subscribe(playerName: string, roomId: string, origin: string) returns (reply: string)
      requires Valid()
      modifies this
      ensures Valid()
      ensures players == AfterSubscribe(old(players), playerName, roomId, origin)
      ensures reply == SubscribeReply(playerName, roomId, Lower(playerName) !in old(players).entries)
    {
      var key := Lower(playerName);
      if key !in players.entries {
        players := Players(players.order + [key],
                           players.entries[key := Subscription([origin], roomId, playerName)]);
        reply := SubscribeReply(playerName, roomId, true);
      } else {
        var sub := players.entries[key];
        sub := sub.(subscriberIds := sub.subscriberIds + [origin]);
        sub := sub.(roomId := roomId);
        sub := sub.(playerName := playerName);
        players := players.(entries := players.entries[key := sub]);
        reply := SubscribeReply(playerName, roomId, false);
      }
      SubscribeKeepsDict(old(players), playerName, roomId, origin);
    }

    /** `livePacemanSubList`, as written: the origin is looked up as a player key, with the
        outcome `Registry.ListReplyAsWritten` describes. */
    method ListSubscriptions(origin: string) returns (reply: Result<string>)
      ensures reply == ListReplyAsWritten(players, origin)
    {
      reply := ListReplyAsWritten(players, origin);
    }

    /** The inner loop of `_notify_player`: one send per subscriber, in list order. */
    static method SendToSubscribers(subscribers: seq<string>, message: string) returns (sent: seq<Send>)
      ensures sent == FanOut(subscribers, message)
    {
      sent := [];
      var j := 0;
      while j < |subscribers|
        invariant 0 <= j <= |subscribers|
        invariant sent == FanOut(subscribers[..j], message)
      {
        assert subscribers[..j + 1][..j] == subscribers[..j];
        sent := sent + [Send(subscribers[j], message)];
        j := j + 1;
      }
      assert subscribers[..j] == subscribers;
    }

    /** `_notify_player` over one snapshot: for each key in dictionary order that equals a
        nickname, build the message from its first run and send it to each subscriber in
        list order. An empty event list raises and ends the pass. The registry is only read. */
    method NotifyPlayer(data: seq<Run>) returns (sends: seq<Send>, failed: bool)
      requires Valid()
      ensures Plan(sends, failed) == PlanFor(players.order, players.entries, data)
    {
      var currentPlayers := Nicknames(data);
      var keys, entries := players.order, players.entries;
      sends, failed := [], false;
      var i := 0;
      while i < |keys|
        invariant 0 <= i <= |keys|
        invariant !failed
        invariant Plan(sends, false) == PlanFor(keys[..i], entries, data)
      {
        var key := keys[i];
        if key in currentPlayers {
          var built := BuildMessage(key, FirstRun(data, key));
          if built.Err? {
            PlanForStep(keys, entries, data, i);
            failed := true;
            break;
          }
          var message := built.value;
          var subscribers := entries[key].subscriberIds;
          var sent := SendToSubscribers(subscribers, message);
          sends := sends + sent;
          assert PlayerSends(key, entries[key], data) == Ok(sent);
        }
        PlanForStep(keys, entries, data, i);
        i := i + 1;
      }
      if failed {
        PlanFailureIsFinal(keys, entries, data, i + 1);
      } else {
        assert keys[..i] == keys;
      }
    }
  }
}
