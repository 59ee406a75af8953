# joinMOTD message-of-the-day composer, modelled in Dafny

joinMOTD is a plugin for the MCDReforged server host. When a player joins, or
when someone runs `!!joinMOTD`, it replies with a "message of the day":

- a welcome banner naming `serverName`;
- a banner saying how many days `mainServerName` has been open, counted from
  `start_day`, or `?` when that date is missing or unreadable (in which case a
  warning is logged);
- a "Server List" banner;
- one line per server category. Categories come in the order in which each is
  first seen in `serverList`. Each line is the header `category: ` (empty for the
  empty category) followed by one `[name]` token per server, separated by single
  spaces. Hovering a token shows the server's description, if it has one, above
  the command `/server name`. Clicking the token runs that command.

The model has six modules, one per concern:

| file | module | what it holds |
|---|---|---|
| `wrappers.dfy` | `Wrappers` | `Option`, for Python's `None` |
| `digits.dfy` | `Digits` | decimal digit strings: fixed-width fields, and `str(int)` with its inverse |
| `calendar.dfy` | `Calendar` | the parts of Python's `datetime` that `get_day` uses: a strict `YYYY-MM-DD` reader (ISO 8601 calendar date), the proleptic Gregorian day number (`toordinal`), and `timedelta.days` |
| `servers.dfy` | `Servers` | `ServerInfo`, a `serverList` item (`Entry`), `Config` and its defaults, `ServerInfo.from_object` |
| `grouping.dfy` | `Grouping` | what the `defaultdict(list)` keyed by category holds after the grouping pass, and the lemmas about it (permutation, stability, first-seen order, distinct keys) |
| `motd.dfy` | `Motd` | `get_day`, rich-text rendering, the full list of reply lines, and the imperative `display_motd` (grouping loop, rendering loop, the `reply` callback and the logger as small classes) |

Design decisions:

- **Inputs.** The configuration is passed to `DisplayMotd` as a parameter; the
  source keeps it in a module-level global. The wall clock ("now") is passed in
  too, as an `Instant`: a date plus the microseconds since its midnight.
- **Output.** `reply` is a `ReplyChannel` object whose `sent` sequence grows by
  one line per call. The logger is a `Logger` object that counts warnings.
- **Rich text.** A line is a sequence of segments. Each segment has a text, an
  optional hover text and an optional click command. A banner is one plain
  segment. A category line is its header segment followed by
  `RTextBase.join(' ', tokens)`. Minecraft formatting codes (a section sign followed by `7` for gray, `e` for yellow or `r` for reset) stay inside the
  literal strings.
- **Grouping and rendering.** Python's insertion-ordered dict is modelled as a
  sequence of keys plus a `map`. `display_motd` has three loops: the grouping
  loop over `serverList` (join_motd/__init__.py:54-56), the loop over the
  categories (line 57) and, inside it, the rendering loop over one category's
  servers (lines 60-65). The first is `GroupByCategory`, the second is
  `DisplayMotd`'s own `for` loop over the keys, and the third is `RenderGroup`.
  Each is proved against a specification function
  (`Grouping.Categories`/`Grouping.InCategory`, `Motd.GroupLines` and
  `Motd.GroupLine`), and the lemmas are proved about those functions.
- **Negative day counts.** When "now" is before `start_day`, `get_day` returns a
  negative count, and it is shown as is, with no clamping
  (`Motd.GetDayNegativeBeforeStart`).

## Model

| member | source | states |
|---|---|---|
| `Servers.FromObject` | join_motd/__init__.py:14-18 | a bare name becomes a `ServerInfo` with that name, no description and category `''`; a `ServerInfo` comes back unchanged |
| `Servers.FromObjectIdempotent` | join_motd/__init__.py:14-18 | normalising an already normalised entry changes nothing |
| `Servers.Normalise` | join_motd/__init__.py:54-55 | the grouping pass sees each `serverList` item through `ServerInfo.from_object`, in list order (definition; its use is stated by `Motd.GroupByCategory`) |
| `Servers.DefaultConfig` | join_motd/__init__.py:21-29 | the defaults: `serverName` and `mainServerName` `HLCC`, `serverList` the bare names `Main`, `Mirror`, `Creative`, `start_day` `2025-02-01` (definition; `Motd.DefaultMotd` states what they give) |
| `Motd.DefaultMotd` | join_motd/__init__.py:21-29 | with the default `Config` the start date reads, and the message is the three banners plus one header-less line reading `[Main] [Mirror] [Creative]` |
| `Calendar.ParseIsoDate` | join_motd/__init__.py:39 | a date is accepted only if it exists in the calendar: year 1 to 9999, month 1 to 12, day within the month (leap years included) |
| `Calendar.ParseFormat` | join_motd/__init__.py:39 | every valid date is read back from its `YYYY-MM-DD` form |
| `Calendar.FormatParse` | join_motd/__init__.py:39 | whatever the reader accepts is exactly the `YYYY-MM-DD` form of the date it returns |
| `Calendar.ParseIsoDateExample` | join_motd/__init__.py:39 | the default start day `2025-02-01` reads as 1 February 2025 |
| `Calendar.ParseIsoDateRejects` | join_motd/__init__.py:39 | `2025-2-1` (short fields) and `2025-02-30` (a day February does not have) are rejected |
| `Motd.StartDate` | join_motd/__init__.py:38-39 | the start date, when there is one, is a configured `start_day` that reads as a real calendar date |
| `Calendar.DayNumber` | join_motd/__init__.py:41 | the proleptic Gregorian ordinal `toordinal` on which `datetime` subtraction rests: days before the year, days before the month, the day (definition; characterised by `Calendar.NextDayNumber` and `Calendar.DayNumberOrder`) |
| `Calendar.NextDayNumber` | join_motd/__init__.py:41 | the day number used for date subtraction grows by exactly one from each calendar day to the next, across month and year ends and leap days |
| `Calendar.DayNumberOrder` | join_motd/__init__.py:41 | one date is before another exactly when its day number is smaller |
| `Calendar.ElapsedMicros` | join_motd/__init__.py:41 | `now - startday` in microseconds, with `startday` at midnight (definition; `Calendar.ElapsedDays` states the whole-day count of it) |
| `Calendar.ElapsedDays` | join_motd/__init__.py:41-42 | `(now - startday).days` is the floor of the elapsed time in days: `days * 86400000000 <= elapsed < (days + 1) * 86400000000` microseconds |
| `Calendar.ElapsedDaysIsDayDifference` | join_motd/__init__.py:39-42 | because `startday` is a midnight, the whole days elapsed equal the difference of the two day numbers, whatever the time of day of "now" |
| `Digits.NatToDecimal` | join_motd/__init__.py:42 | `str(n)` is a non-empty digit string with no leading zero whose value is `n` |
| `Digits.IntToDecimal` | join_motd/__init__.py:42 | `str(n)` starts with `-` exactly when `n` is negative |
| `Digits.DecimalRoundTrip` | join_motd/__init__.py:42 | reading `str(n)` back gives `n` |
| `Motd.GetDay` | join_motd/__init__.py:37-45 | a warning is logged exactly when `start_day` is missing or unreadable, and then the result is `?`; otherwise the result is the decimal of day number of now minus day number of the start date |
| `Motd.GetDayReadsBack` | join_motd/__init__.py:37-45 | the result reads back as the day difference, and `?` reads as no number |
| `Motd.GetDayNegativeBeforeStart` | join_motd/__init__.py:41-42 | no clamping: the count is negative exactly when now's date is before the start date |
| `Motd.GetDayExample` | join_motd/__init__.py:37-45 | start `2025-02-01`, now 5 February 2025 at midnight gives `4`; `not-a-date` and a missing start day give `?` with a warning |
| `Motd.GroupByCategory` | join_motd/__init__.py:53-56 | the grouping loop returns the first-seen categories as keys, and under each key exactly that category's normalised entries in list order |
| `Grouping.CategoriesAreSeen` | join_motd/__init__.py:53-56 | a category gets a group exactly when some entry has it |
| `Grouping.CategoriesDistinct` | join_motd/__init__.py:56-57 | no category is listed twice, so no two lines share a category |
| `Grouping.InCategoryMembers` | join_motd/__init__.py:56-57 | every entry of a group has the group's category; a group is empty exactly when no entry has that category, so no listed group is empty |
| `Grouping.InCategoryStable` | join_motd/__init__.py:54-56 | stability: a group lists exactly the entries of its category, at ascending positions of the list |
| `Grouping.CategoriesInFirstSeenOrder` | join_motd/__init__.py:53-57 | categories come in the order of each one's first entry |
| `Grouping.GroupingIsPermutation` | join_motd/__init__.py:53-56 | the groups together are a permutation of the normalised list: nothing lost, nothing duplicated, total count `len(serverList)` |
| `Motd.ExampleStableGrouping` | join_motd/__init__.py:53-57 | entries A/X, B/Y, C/X group as X then Y, with A before C in X |
| `Motd.Header` | join_motd/__init__.py:58 | the header is empty exactly when the category is; otherwise it is the category followed by `: ` |
| `Motd.HoverText` | join_motd/__init__.py:61-64 | the hover ends with the command `/server name`; it is exactly the command when there is no description, and `description + "\n" + command` when there is one |
| `Motd.Command` | join_motd/__init__.py:61 | the click command `/server <name>` (definition; `Motd.HoverText` shows it ends every hover text) |
| `Motd.Label` | join_motd/__init__.py:65 | a token's visible text `[<name>]` (definition; `Motd.GroupLineText` states the line's text in terms of it) |
| `Motd.Token` | join_motd/__init__.py:61-65 | a server's token: its label, its hover text as hover and `run_command` of its command as click action (definition; placed by `Motd.GroupLineAt` and `Motd.GroupLinesOffer`) |
| `Motd.Join` | join_motd/__init__.py:66 | `RTextBase.join(' ', messages)`: the parts with the separator between each two neighbours (definition; characterised by `Motd.JoinLength` and `Motd.JoinAt`) |
| `Motd.JoinLength` | join_motd/__init__.py:66 | joining `n` tokens gives `2n - 1` segments (none for no tokens) |
| `Motd.JoinAt` | join_motd/__init__.py:66 | in `RTextBase.join(' ', tokens)` the tokens stand at the even positions, in order, and the `' '` separator at the odd ones |
| `Motd.GroupLine` | join_motd/__init__.py:58-66 | the line replied for one category: its header, then the joined tokens of its servers (definition; characterised by `Motd.GroupLineAt` and `Motd.GroupLineText`) |
| `Motd.RenderGroup` | join_motd/__init__.py:58-66 | the rendering loop builds the header, then each entry's `[name]` token with its hover text and its `run_command` action, joined by `' '` |
| `Motd.GroupLineAt` | join_motd/__init__.py:58-66 | a category line has `2n` segments, the `m`-th server's token at `1 + 2m` and a space after every token but the last |
| `Motd.GroupLineText` | join_motd/__init__.py:58-66 | the visible text of a category line is its header followed by the `[name]` labels joined by single spaces |
| `Motd.WelcomeBanner` | join_motd/__init__.py:49 | the welcome banner naming `serverName`, with its gray, yellow and reset codes (definition) |
| `Motd.DayBanner` | join_motd/__init__.py:50 | the banner naming `mainServerName` and the day count (definition) |
| `Motd.LIST_BANNER` | join_motd/__init__.py:51 | the `Server List` banner (definition) |
| `Motd.MotdLines` | join_motd/__init__.py:48-66 | the whole message: the three banners, then one `GroupLine` per category key in first-seen order (definition; characterised by `Motd.MotdShape`, `Motd.MotdLineCount` and `Motd.MotdOffersEveryServer`) |
| `Motd.MotdShape` | join_motd/__init__.py:48-66 | the message is the welcome, day and list banners, then one line per category in first-seen order holding that category's entries |
| `Motd.MotdLineCount` | join_motd/__init__.py:49-57 | at least three lines and at most three plus one per server; exactly three when `serverList` is empty |
| `Motd.GroupLinesOffer` | join_motd/__init__.py:54-66 | every entry's token stands in the line of its own category, at position `1 + 2m`, where `m` is the entry's place among that category's entries |
| `Motd.MotdOffersEveryServer` | join_motd/__init__.py:53-66 | every configured server is offered as a clickable token, after the banners, in the line of its own category |
| `Motd.DisplayMotd` | join_motd/__init__.py:48-66 | `display_motd` appends exactly the message's lines to what `reply` has sent, and logs one warning exactly when the start date is unusable |
| `Motd.ReplyChannel.Reply` | join_motd/__init__.py:48 | a reply appends one line to what was sent |
| `Motd.Logger.Warning` | join_motd/__init__.py:44 | a warning adds one to the logger's count |

## Left out

- The host framework's API is not modelled, because it is foreign code the model cannot see. This covers `on_player_joined` and `on_load` (join_motd/__init__.py:69-77): `server.tell`, `src.reply`, `register_help_message`, `register_command`, `Literal` and the `!!joinMOTD` prefix. Both callbacks only call `display_motd` with a reply function. The model's `ReplyChannel` stands for that function.
- Loading the configuration is not modelled, because it is I/O through an unseen library. This covers `load_config_simple`, `ConfigFilePath` and the JSON/`Serializable` machinery. `Config` is a plain value passed in, instead of the module-level `config` global.
- `datetime.now()` and the wall clock are not modelled: "now" is a parameter, and a valid one (a real date, with a time of day below 24 hours) is required.
- `Calendar.ParseIsoDate`, `Calendar.FormatParse`, `Calendar.ParseIsoDateRejects`: the live parser, `strptime` with `'%Y-%m-%d'`, is more lenient than the model. It also accepts one-digit months and days, space-padded days and non-ASCII decimal digits. The model accepts exactly four, two and two ASCII digits, each range-checked. So `FormatParse` (only the canonical form is accepted) and the `2025-2-1` half of `ParseIsoDateRejects` hold of the model's strict reader, not of `strptime`, which accepts `2025-2-1`.
- A `start_day` that is neither a string nor `null` (a JSON number, say) makes `strptime` raise, which also gives `?`. The model's `startDay` is only ever a string or missing.
- The warning's message text (`Failed to parse start_day: ...`) is not kept: `Logger` only counts warnings.
- `RText`/`RTextList` rendering and colour codes are not modelled. A line is a flat sequence of segments, so the nesting `header + RTextList(...)` creates is flattened. Only the `run_command` click action is modelled.
- `Servers.FromObject`: `str(obj)` of a bare item that is not a string (a JSON number, say) is not modelled. The model's `Entry.Bare` always holds a string.
- Determinism (the same configuration and "now" give the same lines) holds because every line is defined by functions. No separate lemma states it.
