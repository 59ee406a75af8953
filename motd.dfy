/**
 * The message-of-the-day composer of the joinMOTD plugin: the day counter, the
 * rendering of a server entry as a clickable token, and `display_motd`, which
 * replies with three banner lines and one line per category of servers.
 */
module Motd {
  import opened Wrappers
  import opened Digits
  import opened Calendar
  import opened Servers
  import opened Grouping

  /** A piece of rich text: what it shows, what hovering shows, and the command a click runs. */
  datatype Segment = Segment(text: string, hover: Option<string>, click: Option<string>)

  /** One reply: its segments, shown one after another. */
  type Line = seq<Segment>

  function Plain(s: string): Segment {
    Segment(s, None, None)
  }

  /** Minecraft formatting codes, each a section sign (U+00A7) and a code character. */
  const GRAY := "\U{00A7}7"
  const YELLOW := "\U{00A7}e"
  const RESET := "\U{00A7}r"

  function WelcomeBanner(serverName: string): string {
    GRAY + "=======" + RESET + " Welcome back to " + YELLOW + serverName + GRAY + " =======" + RESET
  }

  function DayBanner(mainServerName: string, day: string): string {
    "今天是" + YELLOW + mainServerName + RESET + "开服的第" + YELLOW + day + RESET + "天"
  }

  const LIST_BANNER := GRAY + "-------" + RESET + " Server List " + GRAY + "-------" + RESET

  // ---------------------------------------------------------------- day counter

  /** What `get_day` returns, and whether it logged its warning. */
  datatype DayCount = DayCount(text: string, warned: bool)

  /** The configured start date, if there is one and it reads as a date. */
  function StartDate(startDay: Option<string>): (r: Option<Date>)
    ensures r.Some? ==> startDay.Some? && ValidDate(r.value)
  {
    if startDay.None? then None else ParseIsoDate(startDay.value)
  }

  /**
   * `get_day`: the whole days from the start date's midnight to `now`, in decimal
   * (negative before the start date), or `?` with a warning when there is no usable
   * start date.
   */
  function GetDay(startDay: Option<string>, now: Instant): (r: DayCount)
    requires ValidInstant(now)
    ensures r.warned <==> StartDate(startDay).None?
    ensures r.warned ==> r.text == "?"
    ensures !r.warned ==>
      r.text == IntToDecimal(DayNumber(now.date) - DayNumber(StartDate(startDay).value))
  {
    match StartDate(startDay)
    case None => DayCount("?", true)
    case Some(start) =>
      ElapsedDaysIsDayDifference(start, now);
      DayCount(IntToDecimal(ElapsedDays(start, now)), false)
  }

  /** The day count reads back as the number of days, and `?` reads as no number. */
  lemma GetDayReadsBack(startDay: Option<string>, now: Instant)
    requires ValidInstant(now)
    ensures var r := GetDay(startDay, now);
      ParseDecimal(r.text) ==
        if r.warned then None
        else Some(DayNumber(now.date) - DayNumber(StartDate(startDay).value))
  {
    var r := GetDay(startDay, now);
    if !r.warned {
      var n := DayNumber(now.date) - DayNumber(StartDate(startDay).value);
      assert r.text == IntToDecimal(n);
      DecimalRoundTrip(n);
    } else {
      assert r.text == "?";
      assert !IsDigit(r.text[0]);
    }
  }

  /** No clamping: the count is negative exactly when `now` falls before the start date. */
  lemma GetDayNegativeBeforeStart(startDay: Option<string>, now: Instant)
    requires ValidInstant(now)
    requires StartDate(startDay).Some?
    ensures var r := GetDay(startDay, now);
      !r.warned && (r.text[0] == '-' <==> Before(now.date, StartDate(startDay).value))
  {
    DayNumberOrder(now.date, StartDate(startDay).value);
  }

  lemma GetDayExample()
    ensures GetDay(Some("2025-02-01"), Instant(Date(2025, 2, 5), 0)) == DayCount("4", false)
    ensures GetDay(Some("not-a-date"), Instant(Date(2025, 2, 5), 0)) == DayCount("?", true)
    ensures GetDay(None, Instant(Date(2025, 2, 5), 0)) == DayCount("?", true)
  {
    ParseIsoDateExample();
  }

  // ---------------------------------------------------------------- rendering

  /** The prefix of a category's line. */
  function Header(category: string): (h: string)
    ensures h == "" <==> category == ""
    ensures category != "" ==> |h| == |category| + 2 && h[..|category|] == category && h[|category|..] == ": "
  {
    if |category| > 0 then category + ": " else ""
  }

  /** The command a click on a server's token runs. */
  function Command(name: string): string {
    "/server " + name
  }

  /** A token's hover text: the description, if any, above the command. */
  function HoverText(info: ServerInfo): (h: string)
    ensures h == Command(info.name) <==> info.description.None?
    ensures info.description.Some? ==> h == info.description.value + "\n" + Command(info.name)
    ensures |h| >= |Command(info.name)| && h[|h| - |Command(info.name)|..] == Command(info.name)
  {
    var command := Command(info.name);
    if info.description.Some? then info.description.value + "\n" + command else command
  }

  function Label(name: string): string {
    "[" + name + "]"
  }

  function Token(info: ServerInfo): Segment {
    Segment(Label(info.name), Some(HoverText(info)), Some(Command(info.name)))
  }

  function Tokens(infos: seq<ServerInfo>): seq<Segment>
  {
    seq(|infos|, i requires 0 <= i < |infos| => Token(infos[i]))
  }

  /** `RTextBase.join`: the parts with `sep` between each two neighbours. */
  function Join(sep: Segment, parts: seq<Segment>): seq<Segment>
  {
    if |parts| <= 1 then parts
    else Join(sep, parts[..|parts| - 1]) + [sep, parts[|parts| - 1]]
  }

  lemma {:induction false} JoinLength(sep: Segment, parts: seq<Segment>)
    ensures |Join(sep, parts)| == if parts == [] then 0 else 2 * |parts| - 1
  {
    if |parts| > 1 {
      JoinLength(sep, parts[..|parts| - 1]);
    }
  }

  /** The parts stand at the even positions of a join, the separator at the odd ones. */
  lemma {:induction false} JoinAt(sep: Segment, parts: seq<Segment>, k: int)
    requires 0 <= k < |parts|
    ensures |Join(sep, parts)| == 2 * |parts| - 1
    ensures Join(sep, parts)[2 * k] == parts[k]
    ensures k < |parts| - 1 ==> Join(sep, parts)[2 * k + 1] == sep
  {
    JoinLength(sep, parts);
    if |parts| > 1 {
      var init := parts[..|parts| - 1];
      JoinLength(sep, init);
      if k < |init| {
        JoinAt(sep, init, k);
      }
    }
  }

  /** The line shown for one category. */
  function GroupLine(category: string, infos: seq<ServerInfo>): Line {
    [Plain(Header(category))] + Join(Plain(" "), Tokens(infos))
  }

  /** The visible text of a line. */
  function LineText(l: Line): string {
    if l == [] then "" else LineText(l[..|l| - 1]) + l[|l| - 1].text
  }

  /** Reference definition of joining strings with a separator, as Python's `str.join`. */
  function JoinStrings(sep: string, parts: seq<string>): string {
    if parts == [] then ""
    else if |parts| == 1 then parts[0]
    else JoinStrings(sep, parts[..|parts| - 1]) + sep + parts[|parts| - 1]
  }

  function Labels(infos: seq<ServerInfo>): seq<string>
  {
    seq(|infos|, i requires 0 <= i < |infos| => Label(infos[i].name))
  }

  lemma {:induction false} LineTextAppend(a: Line, b: Line)
    ensures LineText(a + b) == LineText(a) + LineText(b)
    decreases |b|
  {
    if b != [] {
      var bi := b[..|b| - 1];
      assert (a + b)[..|a + b| - 1] == a + bi;
      assert (a + b)[|a + b| - 1] == b[|b| - 1];
      LineTextAppend(a, bi);
    } else {
      assert a + b == a;
    }
  }

  function Texts(l: Line): seq<string>
  {
    seq(|l|, i requires 0 <= i < |l| => l[i].text)
  }

  lemma LineTextShort(a: Segment, b: Segment)
    ensures LineText([a]) == a.text
    ensures LineText([a, b]) == a.text + b.text
  {
    assert [a][..0] == [];
    assert [a, b][..1] == [a];
  }

  lemma JoinStringsSnoc(sep: string, parts: seq<string>, p: string)
    requires parts != []
    ensures JoinStrings(sep, parts + [p]) == JoinStrings(sep, parts) + sep + p
  {
    assert (parts + [p])[..|parts|] == parts;
  }

  lemma {:induction false} JoinText(sep: string, parts: Line)
    ensures LineText(Join(Plain(sep), parts)) == JoinStrings(sep, Texts(parts))
    decreases |parts|
  {
    if |parts| == 1 {
      LineTextShort(parts[0], parts[0]);
    } else if |parts| > 1 {
      var init, last := parts[..|parts| - 1], parts[|parts| - 1];
      var joined := Join(Plain(sep), init);
      JoinText(sep, init);
      assert Join(Plain(sep), parts) == joined + [Plain(sep), last];
      LineTextAppend(joined, [Plain(sep), last]);
      LineTextShort(Plain(sep), last);
      assert Texts(parts) == Texts(init) + [last.text];
      JoinStringsSnoc(sep, Texts(init), last.text);
    }
  }

  /** A category's line reads as its header followed by the `[name]` labels joined by single spaces. */
  lemma GroupLineText(category: string, infos: seq<ServerInfo>)
    ensures LineText(GroupLine(category, infos)) == Header(category) + JoinStrings(" ", Labels(infos))
  {
    var head: Line := [Plain(Header(category))];
    var tokens := Tokens(infos);
    LineTextAppend(head, Join(Plain(" "), tokens));
    JoinText(" ", tokens);
    assert Texts(tokens) == Labels(infos) by {
      forall i | 0 <= i < |infos| ensures Texts(tokens)[i] == Labels(infos)[i] {
      }
    }
    assert head[..0] == [];
    assert LineText(head) == Header(category);
  }

  // ---------------------------------------------------------------- the whole message

  /** The three lines that open every message. */
  function Banners(config: Config, now: Instant): seq<Line>
    requires ValidInstant(now)
  {
    [ [Plain(WelcomeBanner(config.serverName))],
      [Plain(DayBanner(config.mainServerName, GetDay(config.startDay, now).text))],
      [Plain(LIST_BANNER)] ]
  }

  /** One line per category, in first-seen order, listing that category's servers. */
  function GroupLines(infos: seq<ServerInfo>): seq<Line>
  {
    var ks := Categories(infos);
    seq(|ks|, k requires 0 <= k < |ks| => GroupLine(ks[k], InCategory(infos, ks[k])))
  }

  /** Every line `display_motd` replies with, in order. */
  function MotdLines(config: Config, now: Instant): seq<Line>
    requires ValidInstant(now)
  {
    Banners(config, now) + GroupLines(Normalise(config.serverList))
  }

  /**
   * Three banner lines, then one line per distinct category in first-seen order,
   * each holding exactly that category's servers in list order.
   */
  lemma MotdShape(config: Config, now: Instant)
    requires ValidInstant(now)
    ensures var lines := MotdLines(config, now);
      var infos := Normalise(config.serverList);
      && |lines| == 3 + |Categories(infos)|
      && lines[0] == [Plain(WelcomeBanner(config.serverName))]
      && lines[1] == [Plain(DayBanner(config.mainServerName, GetDay(config.startDay, now).text))]
      && lines[2] == [Plain(LIST_BANNER)]
      && (forall k :: 0 <= k < |Categories(infos)| ==>
            lines[3 + k] == GroupLine(Categories(infos)[k], InCategory(infos, Categories(infos)[k])))
  {
  }

  /** There are never more category lines than servers, and an empty list gives only the banners. */
  lemma {:induction false} MotdLineCount(config: Config, now: Instant)
    requires ValidInstant(now)
    ensures 3 <= |MotdLines(config, now)| <= 3 + |config.serverList|
    ensures config.serverList == [] <==> |MotdLines(config, now)| == 3
  {
    var infos := Normalise(config.serverList);
    GroupingIsPermutation(infos);
    var g := Groups(infos);
    forall k | 0 <= k < |g| ensures g[k] != [] {
      CategoriesAreSeen(infos, Categories(infos)[k]);
      InCategoryMembers(infos, Categories(infos)[k]);
    }
    ConcatOfNonEmpty(g);
  }

  lemma {:induction false} ConcatOfNonEmpty<T>(g: seq<seq<T>>)
    requires forall k :: 0 <= k < |g| ==> g[k] != []
    ensures |g| <= |Concat(g)|
  {
    if g != [] {
      ConcatOfNonEmpty(g[..|g| - 1]);
    }
  }

  /** Every entry's token stands in the line of its category, at the entry's place in its group. */
  lemma GroupLinesOffer(infos: seq<ServerInfo>, i: int) returns (k: int, m: int, j: int)
    requires 0 <= i < |infos|
    ensures 0 <= k < |Categories(infos)| && Categories(infos)[k] == infos[i].category
    ensures 0 <= m < |Positions(infos, infos[i].category)| && Positions(infos, infos[i].category)[m] == i
    ensures 0 <= k < |GroupLines(infos)| && 0 <= j < |GroupLines(infos)[k]| && j == 1 + 2 * m
    ensures GroupLines(infos)[k][j] == Token(infos[i])
  {
    var c := infos[i].category;
    var ks := Categories(infos);
    assert HasCategory(infos, c);
    CategoriesAreSeen(infos, c);
    k :| 0 <= k < |ks| && ks[k] == c;
    InCategoryStable(infos, c);
    var p := Positions(infos, c);
    m :| 0 <= m < |p| && p[m] == i;
    var group := InCategory(infos, c);
    assert group[m] == infos[i];
    GroupLineAt(c, group, m);
    j := 1 + 2 * m;
    assert GroupLines(infos)[k] == GroupLine(c, group);
  }

  /** In a category's line, the token of the group's `m`-th server stands at position `1 + 2 * m`. */
  lemma GroupLineAt(category: string, infos: seq<ServerInfo>, m: int)
    requires 0 <= m < |infos|
    ensures |GroupLine(category, infos)| == 2 * |infos|
    ensures GroupLine(category, infos)[1 + 2 * m] == Token(infos[m])
    ensures m < |infos| - 1 ==> GroupLine(category, infos)[2 + 2 * m] == Plain(" ")
  {
    var tokens := Tokens(infos);
    JoinAt(Plain(" "), tokens, m);
    var line := GroupLine(category, infos);
    assert line[1..] == Join(Plain(" "), tokens);
  }

  /**
   * Every configured server is offered: its token stands in line `k`, after the three
   * banners, which is the line of the server's category.
   */
  lemma MotdOffersEveryServer(config: Config, now: Instant, i: int) returns (k: int, j: int)
    requires ValidInstant(now)
    requires 0 <= i < |config.serverList|
    ensures 3 <= k < |MotdLines(config, now)| && 0 <= j < |MotdLines(config, now)[k]|
    ensures k - 3 < |Categories(Normalise(config.serverList))|
    ensures Categories(Normalise(config.serverList))[k - 3] == FromObject(config.serverList[i]).category
    ensures MotdLines(config, now)[k][j] == Token(FromObject(config.serverList[i]))
  {
    var infos := Normalise(config.serverList);
    var g, m, j' := GroupLinesOffer(infos, i);
    assert infos[i] == FromObject(config.serverList[i]);
    var lines := MotdLines(config, now);
    assert lines == Banners(config, now) + GroupLines(infos);
    assert lines[3 + g] == GroupLines(infos)[g];
    k, j := 3 + g, j';
  }

  lemma ExampleStableGrouping()
    ensures var infos := Normalise([
        Structured(ServerInfo("A", None, "X")),
        Structured(ServerInfo("B", None, "Y")),
        Structured(ServerInfo("C", None, "X"))]);
      && Categories(infos) == ["X", "Y"]
      && InCategory(infos, "X") == [ServerInfo("A", None, "X"), ServerInfo("C", None, "X")]
      && InCategory(infos, "Y") == [ServerInfo("B", None, "Y")]
  {
    var a, b, c := ServerInfo("A", None, "X"), ServerInfo("B", None, "Y"), ServerInfo("C", None, "X");
    assert Normalise([Structured(a), Structured(b), Structured(c)]) == [a, b, c];
    SnocsOfThree(a, b, c);
    CategoriesSnoc([], a);
    CategoriesSnoc([a], b);
    CategoriesSnoc([a, b], c);
    InCategorySnoc([], a, "X");
    InCategorySnoc([a], b, "X");
    InCategorySnoc([a, b], c, "X");
    InCategorySnoc([], a, "Y");
    InCategorySnoc([a], b, "Y");
    InCategorySnoc([a, b], c, "Y");
  }

  lemma SnocsOfThree<T>(a: T, b: T, c: T)
    ensures [] + [a] == [a] && [a] + [b] == [a, b] && [a, b] + [c] == [a, b, c]
  {
  }

  function DefaultServers(): seq<ServerInfo> {
    [ServerInfo("Main", None, ""), ServerInfo("Mirror", None, ""), ServerInfo("Creative", None, "")]
  }

  lemma DefaultGrouping()
    ensures Normalise(DefaultConfig().serverList) == DefaultServers()
    ensures Categories(DefaultServers()) == [""]
    ensures InCategory(DefaultServers(), "") == DefaultServers()
  {
    var infos := DefaultServers();
    var a, b, c := infos[0], infos[1], infos[2];
    assert Normalise(DefaultConfig().serverList) == [a, b, c];
    SnocsOfThree(a, b, c);
    CategoriesSnoc([], a);
    CategoriesSnoc([a], b);
    CategoriesSnoc([a, b], c);
    InCategorySnoc([], a, "");
    InCategorySnoc([a], b, "");
    InCategorySnoc([a, b], c, "");
  }

  lemma DefaultLabels()
    ensures Labels(DefaultServers()) == ["[Main]", "[Mirror]", "[Creative]"]
  {
    var ls := Labels(DefaultServers());
    assert ls[0] == "[Main]" && ls[1] == "[Mirror]" && ls[2] == "[Creative]";
  }

  lemma JoinStringsOfThree(sep: string, a: string, b: string, c: string)
    ensures JoinStrings(sep, [a, b, c]) == a + sep + b + sep + c
  {
    SnocsOfThree(a, b, c);
    assert JoinStrings(sep, [a]) == a;
    JoinStringsSnoc(sep, [a], b);
    JoinStringsSnoc(sep, [a, b], c);
  }

  lemma DefaultLineText()
    ensures LineText(GroupLine("", DefaultServers())) == "[Main] [Mirror] [Creative]"
  {
    GroupLineText("", DefaultServers());
    DefaultLabels();
    JoinStringsOfThree(" ", "[Main]", "[Mirror]", "[Creative]");
    assert "[Main]" + " " + "[Mirror]" + " " + "[Creative]" == "[Main] [Mirror] [Creative]";
  }

  /** With the default configuration: the banners and one header-less line of three servers. */
  lemma DefaultMotd(now: Instant)
    requires ValidInstant(now)
    ensures var lines := MotdLines(DefaultConfig(), now);
      && |lines| == 4
      && LineText(lines[3]) == "[Main] [Mirror] [Creative]"
      && !GetDay(DefaultConfig().startDay, now).warned
  {
    DefaultGrouping();
    DefaultLineText();
    ParseIsoDateExample();
    assert GroupLines(DefaultServers()) == [GroupLine("", DefaultServers())];
  }

  // ---------------------------------------------------------------- display_motd

  /** The `reply` callback: every line sent so far. */
  class ReplyChannel {
    var sent: seq<Line>

    constructor ()
      ensures sent == []
    {
      sent := [];
    }

    method Reply(line: Line)
      modifies this
      ensures sent == old(sent) + [line]
    {
      sent := sent + [line];
    }
  }

  /** The server's logger, reduced to the number of warnings it has been given. */
  class Logger {
    var warnings: nat

    constructor ()
      ensures warnings == 0
    {
      warnings := 0;
    }

    method Warning()
      modifies this
      ensures warnings == old(warnings) + 1
    {
      warnings := warnings + 1;
    }
  }

  /** The `defaultdict(list)` pass of `display_motd`: categories in first-seen order, each with its entries. */
  method GroupByCategory(entries: seq<Entry>) returns (keys: seq<string>, groups: map<string, seq<ServerInfo>>)
    ensures keys == Categories(Normalise(entries))
    ensures forall c :: c in groups <==> c in keys
    ensures forall c :: c in groups ==> groups[c] == InCategory(Normalise(entries), c)
  {
    ghost var infos := Normalise(entries);
    keys, groups := [], map[];
    for i := 0 to |entries|
      invariant keys == Categories(infos[..i])
      invariant forall c :: c in groups <==> c in keys
      invariant forall c :: c in groups ==> groups[c] == InCategory(infos[..i], c)
    {
      var info := FromObject(entries[i]);
      assert infos[..i + 1][..i] == infos[..i];
      if info.category in groups {
        groups := groups[info.category := groups[info.category] + [info]];
      } else {
        CategoriesAreSeen(infos[..i], info.category);
        InCategoryMembers(infos[..i], info.category);
        keys := keys + [info.category];
        groups := groups[info.category := [info]];
      }
    }
    assert infos[..|entries|] == infos;
  }

  lemma TokensSnoc(infos: seq<ServerInfo>, i: int)
    requires 0 <= i < |infos|
    ensures Tokens(infos[..i + 1]) == Tokens(infos[..i]) + [Token(infos[i])]
  {
    assert infos[..i + 1] == infos[..i] + [infos[i]];
  }

  /** One category's line: the header, then the tokens of its servers joined by a space. */
  method RenderGroup(category: string, infos: seq<ServerInfo>) returns (line: Line)
    ensures line == GroupLine(category, infos)
  {
    var header := Plain(if |category| > 0 then category + ": " else "");
    var messages: seq<Segment> := [];
    for i := 0 to |infos|
      invariant messages == Tokens(infos[..i])
    {
      var info := infos[i];
      var command := "/server " + info.name;
      var hoverText := command;
      if info.description.Some? {
        hoverText := info.description.value + "\n" + hoverText;
      }
      assert hoverText == HoverText(info);
      TokensSnoc(infos, i);
      messages := messages + [Segment("[" + info.name + "]", Some(hoverText), Some(command))];
    }
    assert infos[..|infos|] == infos;
    line := [header] + Join(Plain(" "), messages);
  }

  lemma PrefixStep<T>(s: seq<T>, k: int)
    requires 0 <= k < |s|
    ensures s[..k + 1] == s[..k] + [s[k]]
  {
  }

  lemma AppendAssoc<T>(a: seq<T>, b: seq<T>, c: seq<T>)
    ensures a + b + c == a + (b + c)
  {
  }

  lemma AppendThree<T>(s: seq<T>, a: T, b: T, c: T)
    ensures s + [a] + [b] + [c] == s + [a, b, c]
  {
  }

  lemma GroupLineOfKey(infos: seq<ServerInfo>, keys: seq<string>, groups: map<string, seq<ServerInfo>>, k: int)
    requires keys == Categories(infos)
    requires forall c :: c in groups <==> c in keys
    requires forall c :: c in groups ==> groups[c] == InCategory(infos, c)
    requires 0 <= k < |keys|
    ensures |GroupLines(infos)| == |keys|
    ensures keys[k] in groups && GroupLine(keys[k], groups[keys[k]]) == GroupLines(infos)[k]
  {
  }

  /**
   * `display_motd`: replies with the three banners and then one line per category,
   * and logs a warning when the start date is unusable.
   */
  method DisplayMotd(config: Config, now: Instant, logger: Logger, reply: ReplyChannel)
    requires ValidInstant(now)
    modifies logger, reply
    ensures reply.sent == old(reply.sent) + MotdLines(config, now)
    ensures logger.warnings == old(logger.warnings) + if GetDay(config.startDay, now).warned then 1 else 0
  {
    ghost var sent0 := reply.sent;
    var welcome: Line := [Plain(WelcomeBanner(config.serverName))];
    reply.Reply(welcome);
    var day := GetDay(config.startDay, now);
    if day.warned {
      logger.Warning();
    }
    var dayLine: Line := [Plain(DayBanner(config.mainServerName, day.text))];
    reply.Reply(dayLine);
    var listLine: Line := [Plain(LIST_BANNER)];
    reply.Reply(listLine);
    AppendThree(sent0, welcome, dayLine, listLine);
    ghost var banners := Banners(config, now);
    assert [welcome, dayLine, listLine] == banners;

    ghost var infos := Normalise(config.serverList);
    ghost var groupLines := GroupLines(infos);
    var keys, groups := GroupByCategory(config.serverList);
    for k := 0 to |keys|
      invariant reply.sent == sent0 + banners + groupLines[..k]
      invariant logger.warnings == old(logger.warnings) + if day.warned then 1 else 0
    {
      var line := RenderGroup(keys[k], groups[keys[k]]);
      GroupLineOfKey(infos, keys, groups, k);
      reply.Reply(line);
      PrefixStep(groupLines, k);
      AppendAssoc(sent0 + banners, groupLines[..k], [line]);
    }
    assert groupLines[..|keys|] == groupLines;
    AppendAssoc(sent0, banners, groupLines);
  }
}
