/** What one pass of `_notify_player` sends, as a function of the registry and the snapshot
    of live runs. */
module Notify {
  import opened Common
  import opened Message
  import opened Registry

  /** One call of the transport: destination and text. */
  datatype Send = Send(destination: string, message: string)

  /** The sends of one pass, in order, and whether the pass was cut short by an exception. */
  datatype Plan = Plan(sends: seq<Send>, failed: bool)

  /** `[player["nickname"] for player in data]`. */
  function Nicknames(data: seq<Run>): (names: seq<string>)
    ensures |names| == |data| && forall i :: 0 <= i < |data| ==> names[i] == data[i].nickname
  {
    if data == [] then [] else [data[0].nickname] + Nicknames(data[1..])
  }

  /** The position of the first run under that nickname. */
  function FirstIndex(data: seq<Run>, key: string): (i: nat)
    requires key in Nicknames(data)
    ensures i < |data| && data[i].nickname == key
    ensures forall j :: 0 <= j < i ==> data[j].nickname != key
  {
    if data[0].nickname == key then 0
    else
      assert Nicknames(data) == [data[0].nickname] + Nicknames(data[1..]);
      1 + FirstIndex(data[1..], key)
  }

  /** `[item for item in data if item["nickname"] == key][0]`: the first run under that name. */
  function FirstRun(data: seq<Run>, key: string): Run
    requires key in Nicknames(data)
  {
    data[FirstIndex(data, key)]
  }

  /** The inner loop: the message once to each subscriber, in list order. */
  function FanOut(subscribers: seq<string>, message: string): (sends: seq<Send>)
    ensures |sends| == |subscribers|
    ensures forall i :: 0 <= i < |sends| ==> sends[i] == Send(subscribers[i], message)
  {
    if subscribers == [] then []
    else FanOut(subscribers[..|subscribers| - 1], message) + [Send(subscribers[|subscribers| - 1], message)]
  }

  /** The sends for one registry key. The key itself, lower-cased, is compared with the raw
      nicknames, so matching is case-sensitive; the message is built from the first run under
      that nickname, and names the key, not the stored display name. */
  function PlayerSends(key: string, sub: Subscription, data: seq<Run>): Result<seq<Send>>
  {
    if key !in Nicknames(data) then Ok([])
    else
      var built := BuildMessage(key, FirstRun(data, key));
      if built.Err? then Err(built.error) else Ok(FanOut(sub.subscriberIds, built.value))
  }

  /** The pass over the registry keys in order. An exception (an empty event list) abandons
      the keys after it; what was sent before stays sent. */
  function PlanFor(keys: seq<string>, entries: map<string, Subscription>, data: seq<Run>): Plan
    requires forall k :: k in keys ==> k in entries
  {
    if keys == [] then Plan([], false)
    else
      var earlier := PlanFor(keys[..|keys| - 1], entries, data);
      var key := keys[|keys| - 1];
      if earlier.failed then earlier
      else
        var step := PlayerSends(key, entries[key], data);
        if step.Err? then Plan(earlier.sends, true) else Plan(earlier.sends + step.value, false)
  }

  /** A key takes part when it equals some nickname in the snapshot. */
  predicate Tracked(key: string, data: seq<Run>) { key in Nicknames(data) }

  /** `send` is one the key's turn produces: to one of its subscribers, with the message built
      from the first run under that nickname. */
  predicate SentFor(send: Send, key: string, entries: map<string, Subscription>, data: seq<Run>)
    requires key in entries
  {
    && Tracked(key, data)
    && send.destination in entries[key].subscriberIds
    && BuildMessage(key, FirstRun(data, key)) == Ok(send.message)
  }

  /** Every send goes to a subscriber of a registry key that equals a snapshot nickname, with
      the message of that key's first run. */
  lemma {:induction false} PlanSendsOnlyTracked(keys: seq<string>, entries: map<string, Subscription>, data: seq<Run>)
    requires forall k :: k in keys ==> k in entries
    ensures forall s :: s in PlanFor(keys, entries, data).sends ==>
      exists k :: k in keys && SentFor(s, k, entries, data)
  {
    if keys != [] {
      var init, key := keys[..|keys| - 1], keys[|keys| - 1];
      PlanSendsOnlyTracked(init, entries, data);
      assert forall k :: k in init ==> k in keys;
      var earlier := PlanFor(init, entries, data);
      if !earlier.failed {
        var step := PlayerSends(key, entries[key], data);
        if step.Ok? {
          forall s | s in step.value ensures SentFor(s, key, entries, data) {
            var i :| 0 <= i < |step.value| && step.value[i] == s;
          }
        }
      }
    }
  }

  /** The pass is cut short exactly when some tracked key's first run has no events. */
  lemma {:induction false} PlanFailsIff(keys: seq<string>, entries: map<string, Subscription>, data: seq<Run>)
    requires forall k :: k in keys ==> k in entries
    ensures PlanFor(keys, entries, data).failed
      <==> exists k :: k in keys && Tracked(k, data) && FirstRun(data, k).eventList == []
  {
    if keys != [] {
      var init, key := keys[..|keys| - 1], keys[|keys| - 1];
      PlanFailsIff(init, entries, data);
      assert forall k :: k in keys <==> k in init || k == key;
      var earlier := PlanFor(init, entries, data);
      if !earlier.failed {
        assert PlanFor(keys, entries, data).failed <==> PlayerSends(key, entries[key], data).Err?;
        assert PlayerSends(key, entries[key], data).Err?
          <==> Tracked(key, data) && FirstRun(data, key).eventList == [];
      }
    }
  }

  /** When the pass completes, every subscriber of every tracked key gets that key's message. */
  lemma {:induction false} PlanReachesEverySubscriber(keys: seq<string>, entries: map<string, Subscription>, data: seq<Run>)
    requires forall k :: k in keys ==> k in entries
    requires !PlanFor(keys, entries, data).failed
    ensures forall k, d :: k in keys && Tracked(k, data) && d in entries[k].subscriberIds ==>
      && BuildMessage(k, FirstRun(data, k)).Ok?
      && Send(d, BuildMessage(k, FirstRun(data, k)).value) in PlanFor(keys, entries, data).sends
  {
    if keys != [] {
      var init, key := keys[..|keys| - 1], keys[|keys| - 1];
      PlanReachesEverySubscriber(init, entries, data);
      assert forall k :: k in keys <==> k in init || k == key;
      if Tracked(key, data) {
        var step := PlayerSends(key, entries[key], data).value;
        forall d | d in entries[key].subscriberIds
          ensures Send(d, BuildMessage(key, FirstRun(data, key)).value) in step
        {
          var i :| 0 <= i < |entries[key].subscriberIds| && entries[key].subscriberIds[i] == d;
          assert step[i] == Send(d, BuildMessage(key, FirstRun(data, key)).value);
        }
      }
    }
  }

  /** Keys that match no nickname produce nothing: with no tracked key the pass is silent. */
  lemma {:induction false} PlanSilentWithoutMatches(keys: seq<string>, entries: map<string, Subscription>, data: seq<Run>)
    requires forall k :: k in keys ==> k in entries
    requires forall k :: k in keys ==> !Tracked(k, data)
    ensures PlanFor(keys, entries, data) == Plan([], false)
  {
    if keys != [] {
      var init, key := keys[..|keys| - 1], keys[|keys| - 1];
      assert forall k :: k in init ==> k in keys;
      PlanSilentWithoutMatches(init, entries, data);
      assert PlayerSends(key, entries[key], data) == Ok([]);
    }
  }

  /** Matching is case-sensitive: the key "foo" does not match a run by "Foo". */
  lemma CaseSensitiveMatch()
    ensures PlanFor(["foo"], map["foo" := Subscription(["group:42"], "1", "Foo")],
                    [Run("Foo", "1.16.1", [Event("rsg.enter_end", 600000, 540000)])])
      == Plan([], false)
  {
    var data := [Run("Foo", "1.16.1", [Event("rsg.enter_end", 600000, 540000)])];
    assert Nicknames(data) == ["Foo"];
    assert "foo" != "Foo" by { assert "foo"[0] != "Foo"[0]; }
    assert ["foo"][..0] == [];
  }

  /** One more key of the pass: its sends follow the earlier ones, or its exception ends the pass. */
  lemma PlanForStep(keys: seq<string>, entries: map<string, Subscription>, data: seq<Run>, i: nat)
    requires forall k :: k in keys ==> k in entries
    requires i < |keys| && !PlanFor(keys[..i], entries, data).failed
    ensures var step := PlayerSends(keys[i], entries[keys[i]], data);
      var earlier := PlanFor(keys[..i], entries, data);
      PlanFor(keys[..i + 1], entries, data)
        == if step.Err? then Plan(earlier.sends, true) else Plan(earlier.sends + step.value, false)
  {
    assert keys[..i + 1][..i] == keys[..i];
  }

  /** Once a pass has been cut short, the keys after it change nothing. */
  lemma {:induction false} PlanFailureIsFinal(keys: seq<string>, entries: map<string, Subscription>, data: seq<Run>, n: nat)
    requires forall k :: k in keys ==> k in entries
    requires n <= |keys| && PlanFor(keys[..n], entries, data).failed
    ensures PlanFor(keys, entries, data) == PlanFor(keys[..n], entries, data)
    decreases |keys|
  {
    if n < |keys| {
      var init := keys[..|keys| - 1];
      assert init[..n] == keys[..n];
      PlanFailureIsFinal(init, entries, data, n);
    } else {
      assert keys[..n] == keys;
    }
  }

  /** In one fan-out, a destination receives the message once per occurrence in the list. */
  lemma {:induction false} FanOutCount(subscribers: seq<string>, message: string, destination: string)
    ensures multiset(FanOut(subscribers, message))[Send(destination, message)]
      == multiset(subscribers)[destination]
  {
    if subscribers != [] {
      var init, last := subscribers[..|subscribers| - 1], subscribers[|subscribers| - 1];
      FanOutCount(init, message, destination);
      assert subscribers == init + [last];
    }
  }

  /** Re-subscribing from the same origin, under any casing of the name and from any registry,
      adds two occurrences of the origin to the key's record, so in that key's turn of every
      later pass the origin receives the message two more times than before. */
  lemma ResubscribeNotifiesTwice(p: Players, name1: string, name2: string, room1: string, room2: string,
                                 origin: string, data: seq<Run>)
    requires Lower(name1) == Lower(name2)
    requires Tracked(Lower(name1), data) && FirstRun(data, Lower(name1)).eventList != []
    ensures var key := Lower(name1);
      var before := if key in p.entries then multiset(p.entries[key].subscriberIds)[origin] else 0;
      var q := AfterSubscribe(AfterSubscribe(p, name1, room1, origin), name2, room2, origin);
      var m := BuildMessage(key, FirstRun(data, key));
      && key in q.entries && m.Ok?
      && PlayerSends(key, q.entries[key], data).Ok?
      && multiset(PlayerSends(key, q.entries[key], data).value)[Send(origin, m.value)] == before + 2
  {
    var key := Lower(name1);
    var q1 := AfterSubscribe(p, name1, room1, origin);
    var q := AfterSubscribe(q1, name2, room2, origin);
    SubscribeCountsOnce(p, name1, room1, origin);
    SubscribeCountsOnce(q1, name2, room2, origin);
    var m := BuildMessage(key, FirstRun(data, key)).value;
    assert PlayerSends(key, q.entries[key], data) == Ok(FanOut(q.entries[key].subscriberIds, m));
    FanOutCount(q.entries[key].subscriberIds, m, origin);
  }
}
