/** The notification text the plugin renders for the latest event of one live run. */
module Message {
  import opened Common
  import opened TimeFormat

  /** One element of a run's `eventList`: the event id and its real and in-game times in ms. */
  datatype Event = Event(eventId: string, rta: int, igt: int)

  /** One element of the live-runs snapshot, with the fields the plugin reads. */
  datatype Run = Run(nickname: string, gameVersion: string, eventList: seq<Event>)

  /** The four progress events the plugin names, and everything else. */
  datatype EventKind = FirstPortal | EnterStronghold | EnterEnd | Credits | Unknown

  const KnownEventIds: set<string> :=
    {"rsg.first_portal", "rsg.enter_stronghold", "rsg.enter_end", "rsg.credits"}

  /** The `match` on the event id: the four `rsg.*` ids, and the wildcard case. */
  function KindOf(eventId: string): EventKind
  {
    match eventId
    case "rsg.first_portal" => FirstPortal
    case "rsg.enter_stronghold" => EnterStronghold
    case "rsg.enter_end" => EnterEnd
    case "rsg.credits" => Credits
    case _ => Unknown
  }

  /** The display label of each kind. */
  function Label(kind: EventKind): string
  {
    match kind
    case FirstPortal => "盲传"
    case EnterStronghold => "进要塞"
    case EnterEnd => "进末地"
    case Credits => "已通关"
    case Unknown => "未知事件"
  }

  /** Reads a label back to its kind. */
  function ParseLabel(display: string): Option<EventKind>
  {
    if display == "盲传" then Some(FirstPortal)
    else if display == "进要塞" then Some(EnterStronghold)
    else if display == "进末地" then Some(EnterEnd)
    else if display == "已通关" then Some(Credits)
    else if display == "未知事件" then Some(Unknown)
    else None
  }

  /** Exactly the ids outside the table get the "unknown event" label. */
  lemma UnknownLabelExactlyOutsideTable(eventId: string)
    ensures Label(KindOf(eventId)) == "未知事件" <==> eventId !in KnownEventIds
  {
  }

  /** The five labels are distinct, so a label names its kind. */
  lemma ParseLabelInverse(kind: EventKind)
    ensures ParseLabel(Label(kind)) == Some(kind)
  {
  }

  const Header: string := " 当前实时pace:"
  const VersionPrefix: string := "游戏版本: "
  const TimePrefix: string := "时间: "
  const TimeSeparator: string := " / "
  const EventPrefix: string := "事件: "

  /** The four-line template: player, game version, `rta / igt`, event display. */
  function Render(player: string, version: string, rta: string, igt: string, display: string): string
  {
    player + Header + "\n"
    + VersionPrefix + version + "\n"
    + TimePrefix + rta + TimeSeparator + igt + "\n"
    + EventPrefix + display
  }

  /** `_build_message`: renders the LAST event of the run. Python's `eventList[-1]` raises
      `IndexError` on an empty list before anything else is read. */
  function BuildMessage(player: string, run: Run): (r: Result<string>)
    ensures r.Err? <==> run.eventList == []
    ensures r.Err? ==> r.error == IndexError
  {
    if run.eventList == [] then Err(IndexError)
    else
      var last := run.eventList[|run.eventList| - 1];
      Ok(Render(player, run.gameVersion, FormatTime(last.rta), FormatTime(last.igt),
                Label(KindOf(last.eventId))))
  }

  /** What a message says. */
  datatype Notice = Notice(player: string, gameVersion: string, rta: int, igt: int, kind: EventKind)

  /** `s` cut at the first `sep`: the part before it and the part after it. */
  function SplitFirst(s: string, sep: char): (r: Option<(string, string)>)
    ensures r.None? <==> sep !in s
    ensures r.Some? ==> sep !in r.value.0 && s == r.value.0 + [sep] + r.value.1
  {
    if s == [] then None
    else if s[0] == sep then Some(([], s[1..]))
    else
      var rest := SplitFirst(s[1..], sep);
      if rest.None? then None
      else
        assert s == [s[0]] + s[1..];
        Some(([s[0]] + rest.value.0, rest.value.1))
  }

  /** The first `sep` is the one right after a prefix free of `sep`. */
  lemma SplitFirstAt(a: string, sep: char, b: string)
    requires sep !in a
    ensures SplitFirst(a + [sep] + b, sep) == Some((a, b))
  {
    var s := a + [sep] + b;
    assert s[|a|] == sep;
    var r := SplitFirst(s, sep);
    var a' := r.value.0;
    assert forall i :: 0 <= i < |a| ==> s[i] != sep;
    assert forall i :: 0 <= i < |a'| ==> s[i] != sep;
    assert s[|a'|] == sep;
    assert r.value.0 == s[..|a|] == a;
    assert r.value.1 == s[|a| + 1..] == b;
  }

  function StripPrefix(s: string, prefix: string): Option<string>
  {
    if prefix <= s then Some(s[|prefix|..]) else None
  }

  function StripSuffix(s: string, suffix: string): Option<string>
  {
    if |suffix| <= |s| && s[|s| - |suffix|..] == suffix then Some(s[..|s| - |suffix|]) else None
  }

  lemma StripPrefixOf(prefix: string, s: string)
    ensures StripPrefix(prefix + s, prefix) == Some(s)
  {
    assert (prefix + s)[|prefix|..] == s;
  }

  lemma StripSuffixOf(s: string, suffix: string)
    ensures StripSuffix(s + suffix, suffix) == Some(s)
  {
    assert (s + suffix)[|s|..] == suffix;
    assert (s + suffix)[..|s|] == s;
  }

  /** The first four lines of a text, the last one running to its end. */
  function FourLines(msg: string): Option<(string, string, string, string)>
  {
    var split1 := SplitFirst(msg, '\n');
    if split1.None? then None else
    var split2 := SplitFirst(split1.value.1, '\n');
    if split2.None? then None else
    var split3 := SplitFirst(split2.value.1, '\n');
    if split3.None? then None else
    Some((split1.value.0, split2.value.0, split3.value.0, split3.value.1))
  }

  /** Reads the third line back into its two times. */
  function ParseTimeLine(line: string): Option<(int, int)>
  {
    var times := StripPrefix(line, TimePrefix);
    if times.None? then None else
    var timeSplit := SplitFirst(times.value, ' ');
    if timeSplit.None? then None else
    var igt := StripPrefix(timeSplit.value.1, "/ ");
    if igt.None? then None else
    var rtaValue := ParseTime(timeSplit.value.0);
    var igtValue := ParseTime(igt.value);
    if rtaValue.None? || igtValue.None? then None
    else Some((rtaValue.value, igtValue.value))
  }

  /** Reads a message back into what it says; `None` when it does not have the template's shape. */
  function ParseMessage(msg: string): Option<Notice>
  {
    var lines := FourLines(msg);
    if lines.None? then None else
    var player := StripSuffix(lines.value.0, Header);
    var version := StripPrefix(lines.value.1, VersionPrefix);
    var times := ParseTimeLine(lines.value.2);
    var display := StripPrefix(lines.value.3, EventPrefix);
    if player.None? || version.None? || times.None? || display.None? then None else
    var kind := ParseLabel(display.value);
    if kind.None? then None
    else Some(Notice(player.value, version.value, times.value.0, times.value.1, kind.value))
  }

  lemma NoNewlineOrSpaceInTime(t: int)
    ensures '\n' !in FormatTime(t) && ' ' !in FormatTime(t)
  {
  }

  /** A text of four lines, the first three free of line breaks, splits into those lines. */
  lemma FourLinesOf(line1: string, line2: string, line3: string, line4: string)
    requires '\n' !in line1 && '\n' !in line2 && '\n' !in line3
    ensures FourLines(line1 + "\n" + line2 + "\n" + line3 + "\n" + line4) == Some((line1, line2, line3, line4))
  {
    var msg := line1 + "\n" + line2 + "\n" + line3 + "\n" + line4;
    assert msg == line1 + ['\n'] + (line2 + "\n" + line3 + "\n" + line4);
    assert line2 + "\n" + line3 + "\n" + line4 == line2 + ['\n'] + (line3 + "\n" + line4);
    SplitFirstAt(line1, '\n', line2 + "\n" + line3 + "\n" + line4);
    SplitFirstAt(line2, '\n', line3 + "\n" + line4);
    SplitFirstAt(line3, '\n', line4);
  }

  lemma ParseTimeLineOf(rta: string, igt: string)
    requires ' ' !in rta
    requires ParseTime(rta).Some? && ParseTime(igt).Some?
    ensures ParseTimeLine(TimePrefix + rta + TimeSeparator + igt) == Some((ParseTime(rta).value, ParseTime(igt).value))
  {
    assert TimePrefix + rta + TimeSeparator + igt == TimePrefix + (rta + [' '] + ("/ " + igt));
    StripPrefixOf(TimePrefix, rta + [' '] + ("/ " + igt));
    SplitFirstAt(rta, ' ', "/ " + igt);
    StripPrefixOf("/ ", igt);
  }

  /** The template is read back field by field when the free-text fields hold no line break
      and the times hold neither a line break nor a space. */
  lemma ParseRender(player: string, version: string, rta: string, igt: string, kind: EventKind)
    requires '\n' !in player && '\n' !in version
    requires '\n' !in rta && ' ' !in rta && '\n' !in igt
    requires ParseTime(rta).Some? && ParseTime(igt).Some?
    ensures ParseMessage(Render(player, version, rta, igt, Label(kind)))
      == Some(Notice(player, version, ParseTime(rta).value, ParseTime(igt).value, kind))
  {
    var line1 := player + Header;
    var line2 := VersionPrefix + version;
    var line3 := TimePrefix + rta + TimeSeparator + igt;
    var line4 := EventPrefix + Label(kind);
    assert Render(player, version, rta, igt, Label(kind)) == line1 + "\n" + line2 + "\n" + line3 + "\n" + line4;
    FourLinesOf(line1, line2, line3, line4);
    StripSuffixOf(player, Header);
    StripPrefixOf(VersionPrefix, version);
    StripPrefixOf(EventPrefix, Label(kind));
    ParseTimeLineOf(rta, igt);
    ParseLabelInverse(kind);
  }

  /** The rendered message loses nothing: when neither the player name nor the game version
      holds a line break, the player, the version, both times of the last event and its kind
      are read back exactly. */
  lemma BuildMessageRoundTrip(player: string, run: Run)
    requires '\n' !in player && '\n' !in run.gameVersion
    requires run.eventList != []
    ensures var last := run.eventList[|run.eventList| - 1];
      ParseMessage(BuildMessage(player, run).value)
        == Some(Notice(player, run.gameVersion, last.rta, last.igt, KindOf(last.eventId)))
  {
    var last := run.eventList[|run.eventList| - 1];
    NoNewlineOrSpaceInTime(last.rta);
    NoNewlineOrSpaceInTime(last.igt);
    FormatTimeRoundTrip(last.rta);
    FormatTimeRoundTrip(last.igt);
    ParseRender(player, run.gameVersion, FormatTime(last.rta), FormatTime(last.igt), KindOf(last.eventId));
  }
}
