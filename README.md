# ARK levelling bot: XP economy model

This project models the XP economy of a Discord bot (`bot.js`) for an ARK
community in Dafny. Members earn XP for chat messages and for every minute
in a voice channel. Per-channel saturation counters lower the rate of
dense activity and recover with idle hours. A displayed server tag doubles
the gain, and the first chat message of each Berlin calendar day earns a
flat 10 XP. Levels are looked up in the ARK experience table. The bot also
keeps a survival scoreboard: one score per user and difficulty, grouped
into six difficulty buckets and ordered by time survived.

Modules:

- `LevelCurve` (`LevelCurve.dfy`): the ARK XP table, `getXPRequiredForLevel`,
  and `getLevelFromXP`, both as a specification function and as the
  source's descending loop.
- `Decay` (`Decay.dfy`): the chat and voice counter transitions, their
  reduction factors, the gains with the 0.0001 floor, and the tag
  multiplier.
- `Words` (`Words.dfy`): the word count of a message, which is the number
  of whitespace-separated tokens.
- `Ledger` (`Ledger.dfy`): a guild's `users`, `lastMessages` and
  `lastVoiceActivity` maps.
  - The `GuildLedger` class holds them; `AddXp` and `AddVoiceXp` update
    them in place.
  - Each transaction is also a pure transition on one user's records:
    `ChatAccrual` and `VoiceAccrual`.
  - The lemmas are stated about those transitions.
- `Sorting` (`Sorting.dfy`): `Array.prototype.sort` with the bot's
  descending comparators, as a stable insertion sort on sequences.
- `Boards` (`Boards.dfy`): the level scoreboard (top 15 by level, then
  XP), the `/level` rank and the `/voicecooldown` readout.
- `Scoreboard` (`Scoreboard.dfy`): `upsertEntry`, and the grouping and
  sorting half of `getScoreboardText`.

Representation choices:

- The clock (`now`, integer milliseconds), the Berlin date (`today`) and
  whether the user displays the server tag (`tagged`) are inputs.
- XP amounts are exact reals.
- `Math.floor(elapsed / oneHour)` is Dafny's `/` on `int`. For a positive
  divisor it rounds toward minus infinity, as `Math.floor` does.

Points of the code that the model follows as written:

- The XP table at bot.js:87-99 has 220 thresholds, although the comment
  at bot.js:86 says levels 1-180. `ArkIsCurve` proves the length.
- The voice reduction floor is 0.001 (bot.js:263), the same as the chat
  floor (bot.js:222, 231).
- The voice counter is `min(50, max(0, prev - 5·hours + 1))` (bot.js:401,
  404): the `+1` is inside `max(0, …)`. After a long idle gap the current
  minute is therefore not counted (`FirstVoiceMinute`).
- After an idle gap the chat factor doubles once per idle hour
  (bot.js:224-235). This is applied to a counter that addXP has already
  reduced by the same hours (bot.js:322-325). Five burst messages and three
  idle hours therefore give 0.08, not 0.01 (`ChatRecoveryAfterThreeHours`).

## Model

| member | source | states |
|---|---|---|
| LevelCurve.ArkIsCurve | bot.js:87-99 | ARK_XP_TABLE has 220 entries, starts at 0, rises strictly, and level 2 needs 26 XP |
| LevelCurve.ArkLevelTwentyBoundary | bot.js:87-99 | in the ARK table, XP in [1727, 1932) is level 19, XP in [1932, 2151) is level 20, and level 20 needs 1932 XP |
| LevelCurve.XpRequiredForLevel | bot.js:194-198 | levels at or below 0 need 0 XP, levels at or beyond the table's length need its last threshold, and level L in between needs entry L - 1 |
| LevelCurve.ThresholdMonotone | bot.js:194-198 | on a level curve a higher level never needs less XP, and no level needs more than the last threshold |
| LevelCurve.ScanDown | bot.js:200-207 | the downward scan answers the highest level whose threshold xp reaches, or 1 when none is reached |
| LevelCurve.LevelFor | bot.js:200-207 | the level is between 1 and the table length; for xp >= 0 on a level curve, xp reaches its threshold and not the next level's |
| LevelCurve.GetLevelFromXp | bot.js:200-207 | the descending loop with early return computes LevelFor |
| LevelCurve.LevelForUnique | bot.js:200-207 | on a level curve, the level whose threshold xp reaches and whose successor's it does not is the answer |
| LevelCurve.LevelForMonotone | bot.js:200-207 | more XP never yields a lower level, on any table |
| LevelCurve.LevelOfThreshold | bot.js:194-207 | round trip: getLevelFromXP(getXPRequiredForLevel(L)) == L for every level of the curve |
| LevelCurve.LevelBelowThreshold | bot.js:194-207 | XP just short of level L's threshold is level L - 1 |
| Decay.TagMultiplier | bot.js:133-140 | the multiplier is at least 1, and above 1 exactly when the server tag is displayed |
| Decay.ChatCounterNext | bot.js:311-326 | a message within 5 minutes raises the counter by 1; otherwise each whole idle hour lowers it by 1, and it is 0 exactly when the idle hours are at least the old count |
| Decay.ChatReduction | bot.js:216-235 | the chat factor lies between the 0.001 floor and 1 |
| Decay.ChatGain | bot.js:209-248 | the chat gain is at least 0.0001 and at most the larger of 0.0001 and 0.1 per word times the tag multiplier |
| Decay.ChatBurstHitsFloor | bot.js:216-221 | from a counter of 3 on, inside the burst window the factor is exactly 0.001 |
| Decay.ChatGainUnfloored | bot.js:209-248 | with at least one word the gain is exactly words × 0.1 × factor × tag multiplier |
| Decay.ChatGainTagDoubles | bot.js:127-140 | a displayed server tag doubles the chat gain exactly |
| Decay.ChatRecoveryAfterThreeHours | bot.js:222-235 | counter 5 after three idle hours becomes 2, and its factor is 0.01 doubled three times, 0.08 |
| Decay.ChatRestedFullRate | bot.js:222-235 | a rested counter gives factor 1 after any gap of at least five minutes |
| Decay.VoiceCounterNext | bot.js:392-404 | the voice counter is at most 50; within the hour it is min(50, prev + 1); it is 0 exactly when the recovery overshoots, and otherwise min(50, prev - 5 × idle hours + 1) |
| Decay.VoiceRecoveryMonotone | bot.js:392-404 | a longer absence never leaves a higher voice counter |
| Decay.VoicePenaltyRemaining | bot.js:1268-1277 | the readout never exceeds the stored counter, and equals it within the hour |
| Decay.VoiceCounterAgainstPenalty | bot.js:392-404 | the next counter is the readout plus one, capped at 50, unless the recovery overshoots zero |
| Decay.VoiceReduction | bot.js:250-264 | the voice factor lies between 0.001 and 1, and is exactly 1 below five minutes |
| Decay.VoiceGain | bot.js:250-275 | the voice gain lies between 0.0001 and 2 |
| Decay.VoiceFloorOnlyAtCap | bot.js:256-264 | below the cap the factor is exactly 0.5 per whole window; the 0.001 floor is reached exactly at 50 minutes |
| Decay.VoiceGainUnfloored | bot.js:250-275 | the voice gain is the factor times the tag multiplier and never hits the 0.0001 floor |
| Decay.VoiceGainTagDoubles | bot.js:127-140 | a displayed server tag doubles the voice gain exactly |
| Words.Tokens | bot.js:825 | each word is non-empty and without whitespace, there are as many as word starts, and joined they give every non-whitespace character |
| Words.TokensLeadingSpace | bot.js:825 | whitespace at the start of a message yields no word |
| Words.TokensFirstWord | bot.js:825 | a whitespace-free run ended by whitespace is the first word, followed by the words of the rest; with TokensLeadingSpace this fixes every word boundary |
| Words.TokensSolid | bot.js:825 | a non-empty whitespace-free message is exactly one word |
| Words.WordCount | bot.js:825-826 | the count is the number of places where a word starts, and 0 exactly when the message is all whitespace |
| Ledger.GrantsDailyBonus | bot.js:331-337 | the gate is closed exactly when the bonus was already granted on today's date, so a user who never got it is granted it |
| Ledger.ChatAccrual | bot.js:285-362 | addXP on one user: the counter transition, the gain computed from the new counter, the bonus, XP, level, message count, timestamp and result |
| Ledger.VoiceAccrual | bot.js:364-431 | addVoiceXP on one user: counter at most 50, gain in [0.0001, 2], XP, level and timestamp; message count and bonus date unchanged |
| Ledger.AccrueChat | bot.js:311-346 | the step-by-step body of addXP produces exactly ChatAccrual |
| Ledger.AccrueVoice | bot.js:389-416 | the step-by-step body of addVoiceXP produces exactly VoiceAccrual |
| Ledger.NewUserConsistent | bot.js:290-298 | a new user record (0 XP, level 1) has the level of its XP |
| Ledger.ChatAccrualKeepsConsistent | bot.js:339-341 | addXP keeps a record's level equal to the level of its XP, strictly raises its XP and never lowers its level |
| Ledger.VoiceAccrualKeepsConsistent | bot.js:409-411 | addVoiceXP keeps a record's level equal to the level of its XP, strictly raises its XP and never lowers its level |
| Ledger.ChatKeepsAllConsistent | bot.js:285-362 | one chat message keeps every record of a consistent users map consistent, a new user included |
| Ledger.VoiceKeepsAllConsistent | bot.js:364-431 | one voice minute keeps every record of a consistent users map consistent, a new user included |
| Ledger.DailyBonusOncePerDay | bot.js:331-337 | a message earns its chat gain plus 10 XP exactly when the gate opens; a second message on the same date earns only its chat gain; one on another date earns the bonus again |
| Ledger.FirstMessageScenario | bot.js:285-362 | a new user's first ten-word message earns 11 XP and stays at level 1 |
| Ledger.LevelUpScenario | bot.js:339-357 | 1931 XP plus a rested fifteen-word message gives 1932.5 XP, a level-up from 19 to 20, and a consistent record |
| Ledger.FirstVoiceMinute | bot.js:392-404 | a new user's first voice minute an hour or more after the epoch stores counter 0 and earns the full rate |
| Ledger.ReplayChatMonotone | bot.js:339-342 | along any chat history XP grows by at least 0.0001 per message, the level never falls, the count rises by one per message, and consistency holds |
| Ledger.GuildLedger.constructor | bot.js:113-124 | a guild getServerLevels has not seen starts with empty maps and the ARK table, and is valid |
| Ledger.GuildLedger.AddXp | bot.js:285-362 | writes the user's ChatAccrual record and activity, leaves every other user and the voice map alone, and keeps the ledger valid |
| Ledger.GuildLedger.AddVoiceXp | bot.js:364-431 | writes the user's VoiceAccrual record and activity, leaves every other user and the chat map alone, and keeps the ledger valid |
| Ledger.GuildLedger.OnMessage | bot.js:824-831 | for a message that passed the bot-author and direct-message filter: a message without words changes nothing; any other message is one addXP with its word count |
| Sorting.Sort | bot.js:154-158 | the sort returns a permutation of its input: the same elements, each as often |
| Sorting.SortSorted | bot.js:154-158 | the sort leaves no element followed by one whose key is ahead of it |
| Sorting.SortStable | bot.js:154-158 | elements with equal keys keep their original order |
| Sorting.Take | bot.js:159 | slice(0, n) keeps the first min(n, length) elements |
| Boards.LevelboardCompare | bot.js:155-158 | the level comparator is negative exactly when a has a higher level, or the same level and more XP |
| Boards.LevelboardOf | bot.js:148-159 | a guild without users gets the placeholder; otherwise min(15, users) rows are shown |
| Boards.LevelboardIsTop | bot.js:153-159 | the rows are sorted, drawn from the users, and no user left off is ahead of a user shown |
| Boards.LevelboardKeepsTies | bot.js:153-159 | users tied on level and XP are shown in users-object order, the earliest of them first |
| Boards.RankCompare | bot.js:1046 | the rank comparator is negative exactly when a has more XP |
| Boards.IndexOf | bot.js:1047 | findIndex returns -1 when the id is absent, otherwise its first position |
| Boards.Rank | bot.js:1045-1047 | the rank is at most the number of users, and a non-zero rank names the position of the user in XP order |
| Boards.RankPlaces | bot.js:1045-1047 | the rank is 0 exactly for a user without a record; users ranked above have at least the user's XP and those below at most |
| Boards.RankLeader | bot.js:1045-1047 | the user with strictly the most XP is ranked 1 |
| Boards.VoiceCooldown | bot.js:1268-1277 | 0 without a voice record; otherwise never more than the stored counter |
| Boards.VoiceCooldownPredictsNextMinute | bot.js:1268-1277 | the next stored voice counter is the readout plus one, capped at 50, or 0 when the recovery overshoots |
| Scoreboard.UpperChar | bot.js:444 | upper-casing leaves no lower-case letter and changes only lower-case letters |
| Scoreboard.Upper | bot.js:444 | toUpperCase keeps the length and upper-cases each character |
| Scoreboard.UpperIdempotent | bot.js:444 | upper-casing twice equals upper-casing once |
| Scoreboard.DifficultiesAreUpper | bot.js:451 | every listed difficulty is already upper case |
| Scoreboard.DifficultiesDistinct | bot.js:451 | the six difficulties are distinct |
| Scoreboard.Drop | bot.js:436 | the filter keeps only entries that are not the user's entry for the difficulty |
| Scoreboard.DropKeepsOrder | bot.js:436 | the filter keeps the surviving entries in their order |
| Scoreboard.DropCounts | bot.js:436 | the filter removes every matching entry and keeps every copy of every other |
| Scoreboard.DropIdempotent | bot.js:436 | filtering twice removes nothing more |
| Scoreboard.Upserted | bot.js:433-447 | the new entry, with upper-cased difficulty, is last, and the list grows by at most one |
| Scoreboard.UpsertLeavesOne | bot.js:433-447 | for an upper-case difficulty, exactly one entry for the user and difficulty remains, the last one |
| Scoreboard.UpsertKeepsOthers | bot.js:433-447 | every other entry keeps its order and its multiplicity |
| Scoreboard.ResubmitReplaces | bot.js:433-447 | submitting twice for one difficulty leaves the same list as submitting only the second score |
| Scoreboard.ServerScoreboard.constructor | bot.js:45-50 | a server without a scoreboard starts with no entries |
| Scoreboard.ServerScoreboard.UpsertEntry | bot.js:433-447 | the scoreboard's entries become Upserted of the old entries |
| Scoreboard.ScoreCompare | bot.js:467-470 | the bucket comparator is negative exactly when a survived longer |
| Scoreboard.Bucket | bot.js:458-463 | a bucket holds exactly the entries whose upper-cased difficulty is its name |
| Scoreboard.BucketCounts | bot.js:458-463 | a bucket holds each entry of its difficulty as often as it was submitted, and no other entry |
| Scoreboard.BucketInOrder | bot.js:458-463 | a bucket keeps its entries in submission order |
| Scoreboard.GroupEntries | bot.js:455-463 | the six buckets hold each entry of a known difficulty, in submission order; other entries are dropped |
| Scoreboard.GroupAndSort | bot.js:450-472 | the grouped map has exactly the six difficulties, each the sorted bucket |
| Scoreboard.SortBuckets | bot.js:465-472 | every named bucket is sorted and every other bucket is left as it was |
| Scoreboard.ScoreboardBucket | bot.js:465-472 | a shown bucket holds exactly its difficulty's entries, longest time first, ties in submission order |

## Left out

- File load and save (`loadLevels`, `saveLevels`, the scoreboard file) and token reading. A guild's record is the in-memory `GuildLedger` or `ServerScoreboard`.
- The Discord client: events, slash-command parsing, message fetch and edit, role assignment, username fetches, and the recovery scan of old scoreboard messages. These are foreign asynchronous calls.
- The first filter of messageCreate (bot.js:822), which drops messages written by bots and messages outside a guild. The author and channel are Discord objects; `OnMessage` starts after this filter.
- Timers: the per-minute voice interval and the interaction de-duplication timeouts. `AddVoiceXp` is one tick.
- `Date.now()` and `getCurrentGermanDate()`: `now` and `today` are parameters. The Berlin time-zone conversion is not modelled.
- Ledger.ChatAccrual: one `now` serves both clock reads of a chat message. addXP reads the clock for the counter (bot.js:287) and calculateXPGain reads it again for the factor (bot.js:214). When the two reads fall on either side of an hour boundary, the source doubles the factor once more than the counter was reduced. The model does not capture this.
- `hasServerTag`: whether the user displays this guild's tag (and whether a user object was passed) is the `tagged` input.
- Ledger.AccrualResult: the `Math.round(x * 10000) / 10000` rounding of the returned gain and total is not modelled. The result carries the exact values, because the rounding only affects display.
- Floating point: XP is an exact real, so the IEEE-754 rounding of `0.1 * words` and of repeated additions is not captured.
- Integer widths: day, hour and minute are unbounded integers (the command limits hour to 0-23 and minute to 0-59). `parseInt` of values that are already integers is the identity.
- User ids are natural numbers, standing for the bot's decimal id strings; `Object.entries` order is given as the order of the input sequence.
- Lazy creation: addXP and addVoiceXP first store a fresh record and then mutate it. The model reads a missing record as the fresh one and writes the final record once, which leaves the same final state.
- addVoiceXP's fresh record has no `lastDailyBonus` field; it is `None`, which the daily-bonus gate treats the same way.
- Ledger.GuildLedger: carries the level table as a constant field equal to ARK_XP_TABLE. The accrual lemmas are stated for any level curve, and the scenario lemmas for any curve with the ARK thresholds they use.
- Sorting.Sort: the engine's in-place sort is modelled on sequences as a stable insertion sort. The in-place mutation of the arrays is not captured.
- Scoreboard.Upper: only ASCII letters are upper-cased. `toUpperCase` also maps other Unicode letters.
- Scoreboard.UpsertLeavesOne: stated for an upper-case difficulty, which every `/score` choice is. A lower-case difficulty would not remove an existing upper-case entry.
- The text layout of the scoreboards and of `/level` (padding, widths, progress bar, modifier display) is not modelled. Only the order and the rank are.
- The server's scoreboard message and channel ids, and the level scoreboard's, are not modelled.
- Ledger.GuildLedger: the `lastVoiceActivity` map exists from the start; addVoiceXP's creation of a missing map is folded in.
