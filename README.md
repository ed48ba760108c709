# chiadog wallet notifications and daily stats, in Dafny

This project models the part of chiadog that follows the wallet log and
reports coins:

- **`WalletDelCoinParser`**: turns the removed-coin lines of a wallet log
  into `WalletDelCoinMessage`s (timestamp, amount in mojos).
- **`WalletAddCoinHandler` and `WalletDelCoinHandler`**: each adds up the
  amounts in one block of log text and raises a single user notification
  ("Just received … XCH 💰" / "Just sent … XCH 💰"). The notification is
  raised only when the total is strictly above `min_mojos_amount`. If a
  stats manager is present, the coins are handed to it first.
- **`StatsManager`**:
  - Keeps the registration list of stat accumulators.
  - Fans every parsed message out to the accumulators that declare its
    consumer role.
  - At the configured time of day, and then every `frequency_hours`, sends
    one digest. The digest holds every accumulator's summary, and each
    accumulator is reset as its summary is read.
- **`WalletAddCoinStats` and `WalletDelCoinStats`**: the two accumulators
  that keep a running total of received and sent mojos.

Amounts are rendered as XCH text by `Decimal.FormatXch`. It is the
`f"{mojos / 1e12:.12f}".rstrip("0").rstrip(".")` of the source, computed
exactly. It is proved to be lossless: `XchToMojos` reads it back. It is
also proved to be canonical: `IsXchText` and `XchTextUnique` show it is the
only text of its shape that denotes the amount.

Time is whole seconds. "Today at HH:MM" is the start of the day that `now`
falls in plus HH:MM. The clock is a `now` parameter of each operation that
reads it. The events handed to the notifier are recorded in the manager's
`sent` field.

Modules:

| module | file |
|---|---|
| `Base` | `base.dfy` (Option, Result) |
| `Decimal` | `decimal.dfy` (digits, `int()`, the XCH text and its reading) |
| `Messages` | `messages.dfy` (messages, consumer roles, delivery, events) |
| `WalletDelCoinParser` | `wallet_del_coin_parser.dfy` |
| `StatAccumulators` | `stat_accumulators.dfy` |
| `Schedule` | `schedule.dfy` (notify time, first fire time, the polling step) |
| `DailyStats` | `stats_manager.dfy` (the `StatsManager` class and the digest text) |
| `WalletHandlers` | `wallet_handlers.dfy` |

Paths below are relative to the repository root. Abbreviations:

- `parser.py` is `src/chia_log/parsers/wallet_del_coin_parser.py`;
- `add_stats.py` and `del_stats.py` are the two files under
  `src/chia_log/handlers/daily_stats/stat_accumulators/`;
- `stats_manager.py` is `src/chia_log/handlers/daily_stats/stats_manager.py`;
- `add_handler.py` and `del_handler.py` are the two handler files under
  `src/chia_log/handlers/`.

The table itself gives full paths.

## Model

| member | source | states |
|---|---|---|
| Decimal.PyInt | src/chia_log/parsers/wallet_del_coin_parser.py:46 | Python's `int()` on text: surrounding white space, an optional sign, then one or more digits; no value where `int()` raises ValueError |
| Decimal.FormatXch | src/chia_log/handlers/daily_stats/stat_accumulators/wallet_add_coin_stats.py:21-22 | the XCH text of an amount of mojos: the amount with twelve fraction digits, then trailing zeros and a trailing point stripped, computed on integers; its properties are the FormatXch rows below |
| Decimal.XchToMojos | src/chia_log/handlers/wallet_add_coin_handler.py:42-43 | reads XCH text (digits, optionally a point and one to twelve digits) back as mojos, undoing the division by 10^12; the independent partner FormatXch is proved against |
| Decimal.PyIntOfDigitRun | src/chia_log/parsers/wallet_del_coin_parser.py:46 | `int()` of what a `[0-9]*` group captured is the decimal value of the digits, and raises when the group is empty |
| Decimal.ValueOfDigits | src/chia_log/parsers/wallet_del_coin_parser.py:46 | the digits `str(n)` prints are read back by `int()` as `n` |
| Decimal.FormatXchRoundTrip | src/chia_log/handlers/daily_stats/stat_accumulators/wallet_add_coin_stats.py:21-22 | the XCH text of an amount reads back as exactly that many mojos: no mojo is lost by the rendering |
| Decimal.FormatXchShape | src/chia_log/handlers/daily_stats/stat_accumulators/wallet_add_coin_stats.py:22 | the text never ends in a point; it has a point exactly when the amount is not a whole number of XCH, and then it does not end in a zero (the two `rstrip`s) |
| Decimal.FormatXchIsXchText | src/chia_log/handlers/daily_stats/stat_accumulators/wallet_add_coin_stats.py:22 | the text is whole XCH without a leading zero, optionally followed by a point and one to twelve fraction digits, the last of them non-zero |
| Decimal.XchTextUnique | src/chia_log/handlers/daily_stats/stat_accumulators/wallet_add_coin_stats.py:21-22 | any text of that shape that reads back as an amount is the rendering of that amount, so the rendering is canonical |
| Decimal.FormatWholeXch | src/chia_log/handlers/daily_stats/stat_accumulators/wallet_add_coin_stats.py:22 | a whole number of XCH renders as its plain digits, without a point |
| Decimal.FormatFractionalXch | src/chia_log/handlers/daily_stats/stat_accumulators/wallet_add_coin_stats.py:22 | any other amount renders as its whole XCH, a point, and one to twelve fraction digits ending in a non-zero digit, which together add back up to the amount |
| Decimal.FormatWholeExamples | src/chia_log/handlers/wallet_add_coin_handler.py:41-43 | 0 mojos render as "0" and 2·10^12 mojos as "2" |
| Decimal.FormatOneAndThreeQuarters | src/chia_log/handlers/wallet_del_coin_handler.py:41-43 | 1.75·10^12 mojos render as "1.75" |
| Decimal.FormatSmallValues | src/chia_log/handlers/wallet_add_coin_handler.py:41-43 | 4849173605 mojos render as "0.004849173605", with all twelve fraction digits kept |
| Messages.Delivered | src/chia_log/handlers/daily_stats/stats_manager.py:86-92 | what one accumulator receives from a batch: the messages whose consumer role it declares, in batch order |
| Messages.TotalMojos | src/chia_log/handlers/wallet_add_coin_handler.py:36-39 | the sum of the amounts of a run of coins, the total the handlers and the wallet accumulators keep |
| Messages.DeliveredCounts | src/chia_log/handlers/daily_stats/stats_manager.py:86-92 | an accumulator receives each message as often as it occurs in the batch when it declares the message's consumer role, and never otherwise |
| Messages.DeliveredInOrder | src/chia_log/handlers/daily_stats/stats_manager.py:86-92 | what an accumulator receives is a subsequence of the batch, in batch order |
| Messages.DeliveredAppend | src/chia_log/handlers/daily_stats/stats_manager.py:86-92 | delivering two batches one after the other is delivering their concatenation |
| Messages.DeliveredOfOneRole | src/chia_log/handlers/daily_stats/stats_manager.py:97-100 | a batch of one kind reaches an accumulator whole if it declares that kind, and not at all otherwise |
| Messages.WalletDelivery | src/chia_log/handlers/daily_stats/stats_manager.py:86-92 | in `consume_wallet_messages` added coins reach only added-coin consumers and deleted coins only deleted-coin consumers, the added ones first |
| Messages.TotalMojosAppend | src/chia_log/handlers/daily_stats/stat_accumulators/wallet_add_coin_stats.py:17-18 | the total of two runs of coins is the sum of their totals, so a running total can be kept across calls |
| WalletDelCoinParser.ReadAll | src/chia_log/parsers/wallet_del_coin_parser.py:40-50 | the result of `parse` for a list of matches: the messages of all matches in order, or the error of the first match that cannot be read |
| WalletDelCoinParser.ReadMatch | src/chia_log/parsers/wallet_del_coin_parser.py:43-48 | one match yields a message exactly when its timestamp parses and its amount group is non-empty; the message carries the parsed time and the amount the digits denote; otherwise the error says which part failed, the timestamp being read first |
| WalletDelCoinParser.ReadAmount | src/chia_log/parsers/wallet_del_coin_parser.py:46 | an amount written with `str(n)` is read as `n` |
| WalletDelCoinParser.ReadAmountLeadingZeros | src/chia_log/parsers/wallet_del_coin_parser.py:46 | leading zeros in the amount do not change it |
| WalletDelCoinParser.Parse | src/chia_log/parsers/wallet_del_coin_parser.py:33-50 | `parse` returns exactly what `ReadAll` specifies: one message per match, in order, or the first failure |
| WalletDelCoinParser.ReadAllPointwise | src/chia_log/parsers/wallet_del_coin_parser.py:40-50 | the block parses exactly when every match can be read, and then message i is the message of match i |
| WalletDelCoinParser.ReadAllFailsAt | src/chia_log/parsers/wallet_del_coin_parser.py:42-48 | a failure is the error of the first match that cannot be read, every earlier match being readable |
| WalletDelCoinParser.ReadAllStops | src/chia_log/parsers/wallet_del_coin_parser.py:42-48 | once a match fails, the matches after it do not change the outcome |
| WalletDelCoinParser.ParseEdgeCases | src/chia_log/parsers/wallet_del_coin_parser.py:40-50 | text without a match gives no message; a match with an empty amount makes the whole block fail, whatever follows it |
| WalletDelCoinParser.LeadingDigitsOf | src/chia_log/parsers/wallet_del_coin_parser.py:30 | a greedy `\d*` takes exactly the digit run in front of a non-digit |
| WalletDelCoinParser.ReadRemovalMarkers | src/chia_log/parsers/wallet_del_coin_parser.py:30 | recognises the `spent_height: Some(d1), created_height: Some(d2)` tail of the pattern and returns the two heights and the rest of the text |
| WalletDelCoinParser.ReadRemovalMarkersRoundTrip | src/chia_log/parsers/wallet_del_coin_parser.py:30 | the tail `spent_height: Some(d1), created_height: Some(d2)` is recognised with the heights it was written with, whatever follows it |
| WalletDelCoinParser.ReadRemovalMarkersSound | src/chia_log/parsers/wallet_del_coin_parser.py:30 | only text that begins with that tail is recognised |
| WalletDelCoinParser.AddedCoinTailRejected | src/chia_log/parsers/wallet_del_coin_parser.py:30 | an added coin's tail, whose spent height is `None`, is not taken for a removal |
| StatAccumulators.SummaryLine | src/chia_log/handlers/daily_stats/stat_accumulators/wallet_add_coin_stats.py:23 | a summary line: the caption, the XCH text of the total, then " XCH" |
| StatAccumulators.SummaryLineReadBack | src/chia_log/handlers/daily_stats/stat_accumulators/wallet_add_coin_stats.py:20-23 | a summary line is the caption, then the canonical XCH text of the total, then " XCH"; the text reads back as the total |
| StatAccumulators.SummaryLineInjective | src/chia_log/handlers/daily_stats/stat_accumulators/wallet_del_coin_stats.py:20-23 | two totals give the same summary line only if they are equal |
| StatAccumulators.ZeroSummaryLine | src/chia_log/handlers/daily_stats/stat_accumulators/wallet_add_coin_stats.py:20-23 | a zero total, as a fresh or just-reset accumulator holds, reports "0 XCH" |
| StatAccumulators.WalletAddCoinStats.constructor | src/chia_log/handlers/daily_stats/stat_accumulators/wallet_add_coin_stats.py:9-11 | a new accumulator has consumed nothing, has a zero total, and its reset time is now |
| StatAccumulators.WalletAddCoinStats.Reset | src/chia_log/handlers/daily_stats/stat_accumulators/wallet_add_coin_stats.py:13-15 | after a reset the accumulator is in its initial state, stamped with the time of the reset |
| StatAccumulators.WalletAddCoinStats.Consume | src/chia_log/handlers/daily_stats/stat_accumulators/wallet_add_coin_stats.py:17-18 | consuming a coin adds its amount to the total; the total stays the sum of all coins consumed since the last reset |
| StatAccumulators.WalletAddCoinStats.GetSummary | src/chia_log/handlers/daily_stats/stat_accumulators/wallet_add_coin_stats.py:20-23 | the summary starts with "Received 💰: ", ends with " XCH", and the amount between them reads back as the total |
| StatAccumulators.WalletDelCoinStats.constructor | src/chia_log/handlers/daily_stats/stat_accumulators/wallet_del_coin_stats.py:9-11 | as for the added-coin accumulator |
| StatAccumulators.WalletDelCoinStats.Reset | src/chia_log/handlers/daily_stats/stat_accumulators/wallet_del_coin_stats.py:13-15 | as for the added-coin accumulator |
| StatAccumulators.WalletDelCoinStats.Consume | src/chia_log/handlers/daily_stats/stat_accumulators/wallet_del_coin_stats.py:17-18 | as for the added-coin accumulator, with deleted coins |
| StatAccumulators.WalletDelCoinStats.GetSummary | src/chia_log/handlers/daily_stats/stat_accumulators/wallet_del_coin_stats.py:20-23 | the summary starts with "Sent 💸: ", ends with " XCH", and the amount reads back as the total |
| StatAccumulators.ForeignStats.constructor | src/chia_log/handlers/daily_stats/stats_manager.py:59-65 | an accumulator other than the wallet ones starts with the consumer roles and summary it is given, nothing consumed, and its reset time now |
| StatAccumulators.ForeignStats.Consume | src/chia_log/handlers/daily_stats/__init__.py:13-46 | such an accumulator only receives messages of a role it declares, and appends each to what it consumed, keeping its reset time |
| StatAccumulators.ForeignStats.Reset | src/chia_log/handlers/daily_stats/__init__.py:55-56 | a reset forgets what it consumed and stamps the reset time |
| StatAccumulators.SummaryOfWindow | src/chia_log/handlers/daily_stats/stat_accumulators/wallet_add_coin_stats.py:17-23 | an accumulator's summary depends only on what it consumed since its last reset |
| StatAccumulators.Feed | src/chia_log/handlers/daily_stats/stats_manager.py:88-89 | consuming a batch appends it, in order, to what the accumulator consumed since its last reset, and leaves the reset time alone |
| Schedule.ParseNotifyTimeAsWritten | src/chia_log/handlers/daily_stats/stats_manager.py:146-155 | `_parse_notify_time` as written: an int gives that hour and minute 0; a string not starting with a clock time gives the default 21:00; a clock time takes its minute from the last two characters of the whole string |
| Schedule.ParseNotifyTime | src/chia_log/handlers/daily_stats/stats_manager.py:146-155 | the corrected parse: an int gives that hour and minute 0; text not starting with HH:MM (00:00–23:59) gives 21:00; otherwise the hour and minute it spells, always a valid time |
| Schedule.ParseNotifyTimeOfClock | src/chia_log/handlers/daily_stats/stats_manager.py:151-153 | every HH:MM prefix is read back as the time it spells, whatever follows it |
| Schedule.ParseNotifyTimeAsWrittenOfClock | src/chia_log/handlers/daily_stats/stats_manager.py:151-153 | the version as written agrees when nothing follows HH:MM |
| Schedule.AsWrittenReadsSeconds | src/chia_log/handlers/daily_stats/stats_manager.py:153 | "21:30:15" gives 21:15 as written, 21:30 corrected |
| Schedule.AsWrittenRaisesOnSuffix | src/chia_log/handlers/daily_stats/stats_manager.py:153 | "21:30x" raises as written and gives 21:30 corrected |
| Schedule.AsWrittenMinuteOutOfDay | src/chia_log/handlers/daily_stats/stats_manager.py:153 | as written, "21:3099" gives minute 99 and "21:30-5" minute -5, neither of which `datetime.replace` accepts |
| Schedule.InDay | src/chia_log/handlers/daily_stats/stats_manager.py:72-74 | the hours and minutes `datetime.replace` accepts: 0..23 and 0..59 |
| Schedule.Anchor | src/chia_log/handlers/daily_stats/stats_manager.py:72-74 | the anchor falls within today, at the given hour and minute, with zero seconds |
| Schedule.FirstSummaryTime | src/chia_log/handlers/daily_stats/stats_manager.py:75-76 | the first fire time is the anchor plus a whole number of frequencies, not before now, and one frequency earlier would be before now |
| Schedule.FirstSummaryTimeIsLeast | src/chia_log/handlers/daily_stats/stats_manager.py:75-76 | no earlier aligned time would do |
| Schedule.TickNext | src/chia_log/handlers/daily_stats/stats_manager.py:138-140 | one poll never moves the next-summary time backwards for a non-negative frequency, and a schedule at most one frequency behind the poll is not behind it afterwards |
| Schedule.TicksStayAligned | src/chia_log/handlers/daily_stats/stats_manager.py:136-141 | after any run of polls the next-summary time has moved by exactly one frequency per digest sent |
| Schedule.TicksKeepUp | src/chia_log/handlers/daily_stats/stats_manager.py:136-141 | when polls are at most a frequency apart, the next-summary time never falls a full frequency behind the last poll and never moves back |
| DailyStats.HeaderText | src/chia_log/handlers/daily_stats/stats_manager.py:127 | the first line of the digest, with the frequency in hours written as `str()` writes it |
| DailyStats.Digest | src/chia_log/handlers/daily_stats/stats_manager.py:127-129 | the digest text: the header line, a newline, then a newline and a summary per accumulator |
| DailyStats.LinesSnoc | src/chia_log/handlers/daily_stats/stats_manager.py:128-129 | adding a summary to the digest appends a newline and that summary |
| DailyStats.SplitLinesOf | src/chia_log/handlers/daily_stats/stats_manager.py:127-129 | splitting a first line followed by newline-prefixed lines at the newlines gives back those lines |
| DailyStats.DigestLines | src/chia_log/handlers/daily_stats/stats_manager.py:127-129 | the digest is the header line, an empty line, then one line per accumulator in registration order |
| DailyStats.SummaryLineHasNoNewline | src/chia_log/handlers/daily_stats/stat_accumulators/wallet_add_coin_stats.py:23 | a wallet summary is one line, so it occupies exactly one line of the digest |
| DailyStats.StatsManager.constructor | src/chia_log/handlers/daily_stats/stats_manager.py:48-81 | given the parsed notify time (an hour and minute `replace` accepts when enabled): a disabled manager registers nothing and starts no loop; an enabled one registers the two wallet accumulators, then the others in order, all empty, and sets the first fire time to the least aligned time not before now; the loop starts running |
| DailyStats.StatsManager.Register | src/chia_log/handlers/daily_stats/stats_manager.py:56-66 | the registration list is the added-coin accumulator, the removed-coin one, then the others in the order given, all fresh, distinct and empty |
| DailyStats.StatsManager.RegisterForeign | src/chia_log/handlers/daily_stats/stats_manager.py:59-65 | the other accumulators are fresh, distinct, empty, and keep their roles and summary functions in the order given |
| DailyStats.Create | src/chia_log/handlers/daily_stats/stats_manager.py:45-74 | `__init__` as written, on `_parse_notify_time` as written: it raises, whether or not stats are enabled, when `int()` of the last two characters of a clock setting raises; an enabled manager also raises when the parsed hour is outside 0..23 or the minute outside 0..59, the hour being checked first; otherwise the manager is built with the as-written notify time |
| DailyStats.CreateCorrected | src/chia_log/handlers/daily_stats/stats_manager.py:45-74 | with the corrected parse: only an enabled manager with an int hour outside 0..23 fails; otherwise the manager is built with the corrected notify time |
| DailyStats.StatsManager.ConsumeWalletMessages | src/chia_log/handlers/daily_stats/stats_manager.py:83-92 | each accumulator receives the added coins if it consumes them, then the deleted coins if it consumes those; nothing else changes, and a disabled manager does nothing |
| DailyStats.StatsManager.ConsumeOneKind | src/chia_log/handlers/daily_stats/stats_manager.py:94-124 | a batch of one kind reaches, whole and in order, every accumulator declaring that kind, and no other |
| DailyStats.StatsManager.ConsumeHarvesterMessages | src/chia_log/handlers/daily_stats/stats_manager.py:94-100 | harvester messages reach the harvester-activity consumers only; reset times are kept |
| DailyStats.StatsManager.ConsumePartialMessages | src/chia_log/handlers/daily_stats/stats_manager.py:102-108 | partial messages reach the partial consumers only; reset times are kept |
| DailyStats.StatsManager.ConsumeBlockMessages | src/chia_log/handlers/daily_stats/stats_manager.py:110-116 | block messages reach the block consumers only; reset times are kept |
| DailyStats.StatsManager.ConsumeSignagePointMessages | src/chia_log/handlers/daily_stats/stats_manager.py:118-124 | signage-point messages reach the signage consumers only; reset times are kept |
| DailyStats.StatsManager.SendDailyNotification | src/chia_log/handlers/daily_stats/stats_manager.py:126-134 | exactly one digest event is sent, holding the summaries from before the call in registration order; afterwards every accumulator is empty and stamped with now |
| DailyStats.StatsManager.SummarizeAndReset | src/chia_log/handlers/daily_stats/stats_manager.py:127-130 | the loop builds the digest of the summaries as they were before it reset anything |
| DailyStats.StatsManager.Tick | src/chia_log/handlers/daily_stats/stats_manager.py:136-141 | one poll fires exactly when the loop is running and now is strictly after the next-summary time; a fire sends the digest, resets every accumulator at now and moves that time by one frequency, keeping it aligned with the anchor; otherwise nothing changes |
| DailyStats.StatsManager.Stop | src/chia_log/handlers/daily_stats/stats_manager.py:143-144 | after `stop` no poll fires |
| WalletHandlers.CoinText | src/chia_log/handlers/wallet_add_coin_handler.py:49 | the notification text: the prefix, the XCH text of the total, then " XCH 💰" |
| WalletHandlers.CoinEvent | src/chia_log/handlers/wallet_add_coin_handler.py:44-51 | the notification: a low-priority wallet user event carrying that text |
| WalletHandlers.CoinTextReadBack | src/chia_log/handlers/wallet_add_coin_handler.py:41-51 | the notification is the prefix, the canonical XCH text of the total, then " XCH 💰"; the amount reads back as the total |
| WalletHandlers.CoinTextInjective | src/chia_log/handlers/wallet_del_coin_handler.py:41-51 | two totals give the same notification text only if they are equal |
| WalletHandlers.NominalSentText | src/chia_log/handlers/wallet_del_coin_handler.py:41-51 | 1.75·10^12 mojos sent give "Just sent 1.75 XCH 💰" |
| WalletHandlers.SmallValuesSentText | src/chia_log/handlers/wallet_del_coin_handler.py:41-51 | 4849173605 mojos sent give "Just sent 0.004849173605 XCH 💰" |
| WalletHandlers.SmallValuesReceivedText | src/chia_log/handlers/wallet_add_coin_handler.py:41-51 | 4849173605 mojos received give "Just received 0.004849173605 XCH 💰" |
| WalletHandlers.NominalReceivedText | src/chia_log/handlers/wallet_add_coin_handler.py:41-51 | 2·10^12 mojos received give "Just received 2 XCH 💰" |
| WalletHandlers.NotifyingIsMonotone | src/chia_log/handlers/wallet_add_coin_handler.py:36-41 | amounts are never negative, so a batch that notifies still notifies with more coins in it |
| WalletHandlers.ReadAllTotal | src/chia_log/handlers/wallet_del_coin_handler.py:36-40 | the total of a parsed block is the sum of the amounts its matches captured |
| WalletHandlers.Notify | src/chia_log/handlers/wallet_add_coin_handler.py:36-58 | at most one event; there is one exactly when the total is strictly above the threshold, and it is a low-priority wallet user event carrying the total |
| WalletHandlers.WalletAddCoinHandler.Handle | src/chia_log/handlers/wallet_add_coin_handler.py:30-58 | the manager's accumulators receive the coins as added coins and no deleted ones, and keep their reset times; then at most one "Just received" event, raised exactly when the total exceeds the threshold |
| WalletHandlers.WalletDelCoinHandler.HandleAsWritten | src/chia_log/handlers/wallet_del_coin_handler.py:30-58 | a parse error is raised as such; with a manager a block that parses raises at the manager call; without one, the total is reported as in `Handle` |
| WalletHandlers.WalletDelCoinHandler.Handle | src/chia_log/handlers/wallet_del_coin_handler.py:30-58 | with the manager call corrected: a block that does not parse raises its parse error and changes no accumulator; otherwise the coins reach the accumulators as deleted coins, reset times kept, then at most one "Just sent" event, raised exactly when the total exceeds the threshold |
| WalletHandlers.WalletDelCoinHandler.HandleParsed | src/chia_log/handlers/wallet_del_coin_handler.py:33-58 | once the block has parsed: the coins reach the manager's accumulators as deleted coins, reset times kept, then at most one "Just sent" event, raised exactly when the total exceeds the threshold |

## Left out

- Threads and sleeping: `_run_loop` is modelled as one poll (`Tick`), and
  every operation runs to completion before the next starts. The loop
  thread, `sleep(1)` and the races between threads are not modelled: the
  race between `stop` and a poll, and the `consume_*` calls of the handler
  threads against `_send_daily_notification`, which takes no lock, so a
  coin consumed between an accumulator's `get_summary()` and its `reset()`
  (stats_manager.py:129-130) is in no digest.
- The clock: `datetime.now()` is a parameter. Within the loop that sets the
  first fire time it is read once, where the source reads it on every pass.
  Time is in whole seconds and "today" is measured in days since the epoch,
  with no time zones and no daylight saving.
- DailyStats.StatsManager.constructor: requires a positive frequency when
  the anchor is already past, so it models neither failure of the loop at
  stats_manager.py:75-76. With a frequency of zero the loop never ends.
  With a negative frequency each pass moves the time backwards until it
  falls below `datetime.min`, and `+=` then raises OverflowError.
- DailyStats.Create: requires the same positive frequency for an enabled
  manager whose as-written notify time is already past today, and so
  leaves out the same hang at zero and OverflowError below zero.
- DailyStats.CreateCorrected: the same requirement on the corrected
  notify time, leaving out the same two failures.
- Schedule.FirstSummaryTime: times are unbounded integer seconds, so the
  `datetime` range (years 1 to 9999) is not modelled. A `+=` at
  stats_manager.py:76 that leaves it raises OverflowError, for example
  with a frequency above about 7·10^7 hours, while the model returns a
  time.
- DailyStats.StatsManager.Tick: the same unbounded time; the `+=` at
  stats_manager.py:140 raises OverflowError once it leaves the `datetime`
  range, while the model moves the time on.
- Decimal.FormatXch: computes the rendering exactly. The source divides
  as a double and formats that. The two agree while the double is within
  half of the twelfth decimal of the true value, which holds for totals
  below 8192 XCH (2^13), where half a unit in the last place of the
  quotient is at most 2^-41. Larger totals can differ in the last digits,
  and that float rounding is not modelled.
- The log pattern engine: the parser takes the sequence of pattern matches
  (timestamp text, amount digits). Only the removal tail of the pattern is
  modelled as a recogniser (`ReadRemovalMarkers`). `dateutil`'s date
  parser is the `readTime` parameter.
- Schedule.ParseNotifyTimeAsWritten: the clock pattern takes ASCII digits
  only, where `\d` and `int()` also take Unicode digits; "1٢:30" is 12:30
  in the source and 21:00 in the model.
- Schedule.ParseNotifyTime: the same ASCII-only clock pattern, with the
  same "1٢:30" example.
- WalletDelCoinParser.LeadingDigitsOf: the run takes ASCII digits only,
  where `\d` also takes Unicode digits.
- WalletDelCoinParser.ReadRemovalMarkers: the height groups take ASCII
  digits only, where `\d` also takes Unicode digits.
- Decimal.PyInt: models `int()` on ASCII text. Unicode digits, Unicode
  white space and `_` separators are not modelled. The amount's `[0-9]*`
  group never captures them, but Python's `\d` matches any Unicode decimal
  digit: the height groups of the removal tail (`ReadRemovalMarkers`) and
  the clock pattern of `_parse_notify_time` (`Schedule.IsClockPrefix`)
  accept ASCII digits only. A setting such as "1٢:30" is 12:30 in the
  source and falls back to 21:00 in the model.
- The added-coin parser (`wallet_add_coin_parser.py`) is not part of this
  model. `WalletAddCoinHandler.Handle` takes the messages it returns.
- The other accumulators (found proofs, partials, blocks, search times,
  plot counts, eligible plots, signage points) are not part of this model.
  Each is represented by `ForeignStats`: the consumer roles it declares
  and a summary that depends only on what it consumed since its last
  reset. Their messages are `Record`s.
- The notifier is represented by the `sent` field, which records the events
  the manager hands over. Handlers return their events. Logging and the
  `confuse` configuration are left out; the settings are plain parameters.
- The add-coin handler passes `""` as the deleted coins. It iterates as an
  empty list and is modelled as `[]`.
- Amounts are Python integers, which are unbounded, and so are the
  model's (`nat`).
- The mutable default dict of `_parse_notify_time` is modelled as the
  constant `DefaultNotifyTime`. The source never mutates it.

## Findings

| source | as written | input that shows it | evidently intended | confidence | as-written member | corrected member |
|---|---|---|---|---|---|---|
| src/chia_log/handlers/daily_stats/stats_manager.py:153 | the minute is `int(value[-2:])`, the last two characters of the whole setting, while the pattern only checks the first five | `time_of_day: "21:30:15"` gives 21:15; `"21:30x"` raises ValueError | the minute of the matched HH:MM, i.e. characters 3–4 | high, not executed | Schedule.AsWrittenReadsSeconds | Schedule.ParseNotifyTime |
| src/chia_log/handlers/wallet_del_coin_handler.py:34 | `consume_wallet_messages(deleted_coin_messages)` passes one argument to a method that takes two (stats_manager.py:83) | any block that parses, handled with a stats manager, raises TypeError, and the sent coins never reach the daily stats | `consume_wallet_messages([], deleted_coin_messages)`, mirroring the add-coin handler | high, not executed | WalletHandlers.WalletDelCoinHandler.HandleAsWritten | WalletHandlers.WalletDelCoinHandler.Handle |
