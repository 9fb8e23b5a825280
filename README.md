# Live pace notifications for an AstrBot plugin, modelled in Dafny

This project models the core of the `livepaceman` AstrBot plugin (`main.py`). The plugin lets
chat users subscribe to Minecraft speed-run players and relays each player's latest live
progress event from the paceman.gg live-runs feed to every subscriber. Four parts are modelled:

- **Time formatting** (`time_format.dfy`, module `TimeFormat`). `_format_time` turns integer
  milliseconds into `m:ss.mmm`. Python floors `//` and `%`; with the positive divisors used here
  Dafny's Euclidean operators agree, so negative times are modelled too.
- **Message rendering** (`message.dfy`, module `Message`). `_build_message` takes the last event
  of a run, maps its id through the four `rsg.*` ids plus a wildcard, and fills a four-line
  template. An empty event list raises `IndexError`; this is modelled as `Err(IndexError)`.
  `ParseMessage` reads a message back, so the round trip shows that the template loses nothing.
- **Subscription registry** (`registry.dfy`, module `Registry`). This is the dictionary from
  lower-cased player name to `{subscriber_id, room_id, player_name}`. Python dictionaries keep
  insertion order, and that order decides the order of notifications, so the registry is a map
  plus its key order (`Players`). It also covers subscribing, and the list command as written
  and as intended.
- **Notification planning** (`notify.dfy`, module `Notify`). `_notify_player` is modelled as a
  function from registry and snapshot to the ordered list of `(destination, message)` sends,
  with a flag for a pass that an exception cut short.

`plugin.dfy` (module `Plugin`) holds the plugin object `LivePaceman`. Its field `players` is the
registry. `Subscribe` updates it in place. `ListSubscriptions` and `NotifyPlayer` only read it.
`NotifyPlayer` runs the same nested loops as the source and is proved equal to the planning
function. `common.dfy` holds `Option`, `Result` and the Python exceptions the modelled code can raise on
well-typed data (IndexError and TypeError).

The model follows the code's own behaviour. Re-subscribing appends the origin again, with no
de-duplication. The code has no version or in-game-time gate, keeps no last-notified state and
has no room-change command. The list command looks the origin up as a player key (see Findings).

## Model

| member | source | states |
|---|---|---|
| TimeFormat.Split | main.py:86-88 | seconds lie in 0..59, milliseconds in 0..999, and minutes*60000 + seconds*1000 + ms equals the input |
| TimeFormat.SplitUnique | main.py:86-88 | any parts meeting those bounds and that equation are the ones computed: the decomposition is unique |
| TimeFormat.SecondsAndMillisWidth | main.py:89 | seconds under 60 pad to exactly 2 digits and milliseconds under 1000 to exactly 3 |
| TimeFormat.FormatTime | main.py:84-89 | the shape of the text: at least 8 characters, `:` seven from the end, `.` four from the end, only digits, `-`, `:` and `.` (the field values are stated by `FormatTimeFields`) |
| TimeFormat.FormatTimeFields | main.py:84-89 | the text before the `:` reads back as the minutes of `Split`, the two digits between `:` and `.` as its seconds, and the three digits after `.` as its milliseconds |
| TimeFormat.NatToDecimalNoLeadingZero | main.py:89 | the decimal text of a natural number starts with `0` only when the number is zero |
| TimeFormat.FormatTimeMinutesCanonical | main.py:89 | the minutes before the `:` are written as `str(minutes)` writes them: a text starting with `0` is just `0`, and a minus sign is followed by a non-zero digit |
| TimeFormat.FormatTimeRoundTrip | main.py:84-89 | reading the rendered text back (decimal minutes, `:`, 2-digit seconds, `.`, 3-digit ms) yields exactly the input milliseconds |
| TimeFormat.FormatTimeInjective | main.py:84-89 | two different millisecond counts never render to the same text |
| TimeFormat.FormatTimeExample | main.py:84-89 | 497451 ms renders as `8:17.451` |
| TimeFormat.FormatTimeZero | main.py:84-89 | 0 ms renders as `0:00.000` |
| Message.UnknownLabelExactlyOutsideTable | main.py:95-105 | an event id gets the label 未知事件 if and only if it is not one of the four `rsg.*` ids |
| Message.ParseLabelInverse | main.py:95-105 | the five labels are pairwise distinct: each label determines its event kind |
| Message.BuildMessage | main.py:91-92 | building fails, with IndexError, exactly when the run's event list is empty |
| Message.ParseRender | main.py:106-109 | the four-line template is read back field by field when the player and version hold no line break and the two times are rendered times (they parse as times, hold no line break, and the rta holds no space) |
| Message.BuildMessageRoundTrip | main.py:91-110 | from a built message one reads back the player, the game version, the rta and igt of the LAST event, and that event's kind |
| Registry.LowerFixedPoint | main.py:37-38 | a name is its own key if and only if it has no upper-case letter |
| Registry.LowerIdempotent | main.py:37-38 | normalising a key again leaves it unchanged |
| Registry.SubscribeNewPlayer | main.py:53-60 | an absent key gains exactly one record `([origin], room_id, player_name)` at the end of the key order; all other records are unchanged |
| Registry.SubscribeKnownPlayer | main.py:62-65 | a present key keeps its place; its subscriber list becomes the old one plus the origin at the end, so the origin's count grows by one even if already there; room id and display name are overwritten; other records are unchanged |
| Registry.SubscribeCountsOnce | main.py:53-65 | one subscribe adds exactly one occurrence of the origin to the record of the name's key, whether the key was new or known |
| Registry.SubscribeKeepsDict | main.py:53-65 | subscribing keeps each key exactly once in the key order, matching the map's keys |
| Registry.SubscribeKeepsConsistent | main.py:53-65 | subscribing keeps every key equal to the lower case of its stored name and every subscriber list non-empty |
| Registry.SubscribeAllGrows | main.py:46-68 | after any sequence of subscribes no key is removed, the old key order is a prefix of the new, and each old subscriber list is a prefix of the new |
| Registry.SubscribeAllConsistent | main.py:46-68 | any sequence of subscribes from a consistent registry (the empty one included) keeps it a consistent dictionary |
| Registry.ListReplyAsWritten | main.py:70-77 | the list command replies "not subscribed" exactly when the origin is not a top-level key, and raises TypeError when it is |
| Registry.SubscribedNamesMembers | main.py:77 | the intended listing names a display name if and only if some record with that name holds the origin |
| Registry.SubscribedNamesEmpty | main.py:74-75 | the intended listing is empty if and only if no record holds the origin |
| Registry.ListReply | main.py:72-77 | the intended reply is "not subscribed" if and only if no record holds the origin |
| Registry.SubscribeThenListed | main.py:46-77 | after an origin subscribes to a player, the intended listing for that origin names the player as supplied |
| Registry.ListAsWrittenMissesSubscription | main.py:72-75 | an origin that has just subscribed to "Foo" is told by the command as written that it has no subscriptions, while the intended listing names "Foo" |
| Notify.Nicknames | main.py:114 | the list of current players has one nickname per run, in snapshot order |
| Notify.FirstIndex | main.py:120 | the chosen run (first of the filtered list) has the key as nickname and no earlier run in the snapshot has that nickname |
| Notify.FanOut | main.py:122-125 | one send per subscriber, in list order, each carrying the same message |
| Notify.PlanSendsOnlyTracked | main.py:118-125 | every send goes to a subscriber of a registry key equal to a snapshot nickname, with the message built from that key's first run |
| Notify.PlanReachesEverySubscriber | main.py:118-125 | when the pass completes, every subscriber of every matching key receives that key's message |
| Notify.PlanFailsIff | main.py:117-128 | the pass is cut short exactly when some matching key's first run has an empty event list |
| Notify.PlanFailureIsFinal | main.py:117-128 | once the pass is cut short, the remaining keys add no sends |
| Notify.PlanSilentWithoutMatches | main.py:118-119 | keys absent from the snapshot produce no sends: with no matching key the pass sends nothing |
| Notify.CaseSensitiveMatch | main.py:119-120 | the key `foo` does not match a run by `Foo`: matching is case-sensitive |
| Notify.FanOutCount | main.py:122-125 | in one fan-out, a destination receives the message exactly as many times as it occurs in the subscriber list |
| Notify.ResubscribeNotifiesTwice | main.py:53-65 | from any registry, subscribing twice from one origin (under any two casings of the name) makes that origin receive the message of that key's turn two more times than before, for any snapshot in which the key is tracked and its first run has events |
| Plugin.LivePaceman.constructor | main.py:16-18 | the plugin starts from the registry it was given |
| Plugin.LivePaceman.Subscribe | main.py:46-68 | the registry becomes the one `AfterSubscribe` describes, stays a dictionary, and the reply says created or updated with the name and room id as supplied |
| Plugin.LivePaceman.ListSubscriptions | main.py:70-77 | the reply is the as-written outcome of the list command |
| Plugin.LivePaceman.SendToSubscribers | main.py:122-126 | the inner loop sends the message once to each subscriber, in list order |
| Plugin.LivePaceman.NotifyPlayer | main.py:112-128 | the nested loops over keys and subscribers issue exactly the planned sends, stop at the first exception, and do not modify the registry |

## Findings

| source | as written | input that shows it | evidently intended | confidence | as-written member | corrected member |
|---|---|---|---|---|---|---|
| main.py:73 | `self.players.get(subscriber_id, [])` looks the chat origin up among the PLAYER keys; on a hit the loop iterates a record's field names and raises TypeError | origin `group:42` subscribes to `Foo`, then runs the list command: reply "你还没有订阅任何玩家。" | list the display names of the players whose subscriber list holds the origin | high; not executed | Registry.ListAsWrittenMissesSubscription | Registry.SubscribeThenListed |

The as-written list command is what `Plugin.LivePaceman.ListSubscriptions` does. The corrected
listing is `Registry.ListReply` over `Registry.SubscribedNames`.

## Left out

- Loading and saving the registry as JSON (`_load_players_list`, `_save_players_list`, main.py:20-35): file I/O whose errors are only logged. The constructor takes the loaded registry as a parameter.
- Fetching the live runs over HTTP (`_fetch_live_paceman`, main.py:79-82): the snapshot is a parameter of `NotifyPlayer`.
- The transport call `context.send_message`, the one-second pause between sends and the 15-second polling loop (main.py:123-126, 130-140): the model returns the ordered sends instead of performing them.
- Concurrency between the polling task and the command handlers: a subscribe that runs during an `await` of a pass is not modelled; each operation is atomic.
- `_check_player_exists` (main.py:40-41) always returns true, so the "player does not exist" reply is dead code.
- AstrBot decorators, `yield event.plain_result(...)` plumbing and the `initialize`/`terminate` hooks: replies are returned as values.
- Registry.Lower: models `str.lower()` on ASCII letters only; full Unicode case mapping is not modelled.
- Malformed JSON from the feed or the file (missing fields, wrong types, KeyError): the data are typed records. Of the exceptions inside the notify loop, only the IndexError of an empty event list is modelled. The run's `worldId` is not read by the code and is not modelled.
- Message.BuildMessageRoundTrip: requires the player name and game version to contain no line break, because otherwise the template's lines cannot be told apart.
