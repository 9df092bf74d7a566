# Weekly check-in accounting of a Discord study bot, in Dafny

The bot keeps `weekly_counts`, an in-memory dictionary from a member's user id
to the number of solved problems the member checked in this week. Members add
to it with `!solve <url>`, which is accepted only in the verify channel and
only for URLs starting with `http`. An administrator empties it with
`!resetweek`, and a weekly task empties it every Sunday at 23:59. `!settle`
settles the week over the members stored in `weekly_counts`, that is, those
with at least one accepted check-in since the last reset; the server's member
list is never consulted, so a member with no check-in this week pays nothing.
A stored member with at least 5 check-ins is a receiver. Every other stored
member pays 1000 for each check-in short of 5. The total is split equally
among the receivers by floor division, and the remainder is not paid out.

This project models that core and proves its properties:

- `ledger.dfy` (module `Ledger`): the ledger as a map with a default of 0.
  It also keeps the key order that a Python dict preserves, and the invariant
  that no stored count is 0.
- `settlement.dfy` (module `Settlement`): the classification loop as a
  function (`Classify`), the report with its terminal cases (`Compute`), and
  lemmas about the partition, the total and the payout.
- `schedule.dfy` (module `Schedule`): the first run of the weekly auto-reset.
  It is computed on an integer clock.
- `bot.dfy` (module `Bot`): the module-level state (`VERIFY_CHANNEL_ID` and
  `weekly_counts`) as a class `Bot`, with the commands `Solve`, `ResetWeek`,
  `WeeklyAutoReset` and `Settle`. It also holds the check-in gate, and a
  lemma that any series of requests adds exactly the accepted ones.

Modelling choices:

- User and channel ids are integers. A member's display name is used only
  for messages, so the model keeps user ids where the source keeps names
  (in `payers` and `receivers`).
- `VERIFY_CHANNEL_ID` has no value in the source file. It is a constructor
  parameter of `Bot`.
- `target = 5` and `penalty_per_miss = 1000` are the constants
  `Bot.Target` and `Bot.PenaltyPerMiss`. The settlement functions take them
  as parameters.
- `settle` walks `weekly_counts.items()` in insertion order. The class keeps
  that order in `order`, and `Items()` lists the entries in it.
- Time is an integer number of microseconds on the local clock of the bot's
  time zone. The epoch is a Monday 00:00:00.000000. The weekday is
  `(t / Day) % 7` and the time of day is `t % Day`. Floor division matches
  Python's `datetime` arithmetic for negative instants as well.
- The source's `settle` is one function. The model splits it into the loop
  (`Bot.ClassifyWeek`) and the reporting (`Bot.Settle`). The computed report
  is the same.

The live `settle` carries an administrator-permission decorator and no
channel check (bot.py:301-303), and the model follows that. The code keeps
no history replay, so a restart starts from an empty ledger, and the model
has no replay either.

## Model

| member | source | states |
|---|---|---|
| `Ledger.Increment` | bot.py:271-272 | the author's count (absent counts as 0) goes up by exactly 1; every other member's count is unchanged; the author becomes a key |
| `Ledger.ItemsOf` | bot.py:316 | the ledger items are one `(user, count)` pair per key, in insertion order, with the stored count |
| `Ledger.ItemsOfWellFormed` | bot.py:316-318 | on a well-formed ledger the items are exactly the stored members with their counts, and no member appears twice |
| `Ledger.ItemsOfEmpty` | bot.py:304-306 | a well-formed ledger has no items exactly when the dictionary is empty |
| `Bot.Gate` | bot.py:259-267 | a request is accepted iff it is on the verify channel and its URL starts with "http"; a wrong channel is reported as such whatever the URL |
| `Bot.Step` | bot.py:259-272 | a rejected request leaves the ledger unchanged; an accepted one adds 1 to its author's count and nothing to anyone else's |
| `Bot.RunCountsAccepted` | bot.py:259-272 | after any series of `solve` requests, each member's count is the old count plus the number of that member's accepted requests |
| `Bot.Bot.constructor` | bot.py:192-196 | the bot starts with the configured verify channel and an empty, well-formed ledger |
| `Bot.Bot.Solve` | bot.py:252-277 | wrong channel, then a malformed URL, are rejected with the ledger unchanged; otherwise the ledger is `Step` of the old one, the reply carries the author's new count (old + 1), and a new author is appended to the key order |
| `Bot.Bot.ResetWeek` | bot.py:372-377 | the ledger is empty afterwards and every lookup yields 0 |
| `Bot.Bot.WeeklyAutoReset` | bot.py:210-214 | the ledger is empty afterwards and every lookup yields 0 |
| `Bot.Bot.ClassifyWeek` | bot.py:311-326 | the loop over the ledger produces exactly the partition and total of `Settlement.Classify` on the ledger items, with target 5 and penalty 1000 |
| `Bot.Bot.Settle` | bot.py:303-342 | the report equals `Settlement.Compute` of the ledger items with target 5 and penalty 1000 |
| `Bot.SettlementCoversLedger` | bot.py:316-326 | in a paid-out settlement every ledger member is a receiver iff its count is at least the target, and a payer iff it is below |
| `Bot.LedgerPayersCheckedIn` | bot.py:271-326 | every payer is a stored member with at least one check-in and below target, so owes at most (target − 1) × penalty; a member without a check-in is never charged |
| `Settlement.Classify` | bot.py:311-326 | each item goes into exactly one of the two lists, so their lengths add up to the number of items; the total is the sum of the payer amounts |
| `Settlement.TotalOwedAppend` | bot.py:325 | adding a payer adds its amount to the total |
| `Settlement.ClassifyPrefix` | bot.py:316-326 | the tally after i+1 loop passes is one more pass (`Place`) applied to the tally after i passes |
| `Settlement.ClassifyPayersOweShortfall` | bot.py:320-326 | every payer is below target and owes (target − count) × penalty |
| `Settlement.ClassifyPlacesEveryItem` | bot.py:316-326 | an item at or above target is among the receivers; any other item is among the payers with the amount owed for its shortfall |
| `Settlement.ClassifyAddsOnlyItems` | bot.py:316-326 | every receiver is an item at or above target; every payer is an item (same user and count) below target |
| `Settlement.ClassifyPartitions` | bot.py:316-326 | when no member appears twice, each member is a receiver iff its count meets the target and a payer iff it does not |
| `Settlement.OwedAtMostFullShortfall` | bot.py:323-324 | a member with at least one check-in owes at most (target − 1) × penalty |
| `Settlement.ShortfallCostsAtLeastPenalty` | bot.py:323-324 | missing at least one check-in costs at least one penalty |
| `Settlement.TotalOwedZero` | bot.py:325 | a sum of positive amounts is 0 exactly when there are no amounts |
| `Settlement.NoPenaltyIffNoPayers` | bot.py:316-331 | with a positive penalty, the total penalty is 0 exactly when there are no payers |
| `Settlement.PerPerson` | bot.py:341-342 | the floor share times the number of receivers is at most the total, and one more unit each would exceed it (the dropped remainder is below the number of receivers) |
| `Settlement.Compute` | bot.py:304-342 | "no records" exactly for an empty ledger; "no receivers" only with a positive total; a payout only with a positive total and at least one receiver, satisfying the floor-division bounds; which case is chosen is stated by `Settlement.ComputeSelectsCase` |
| `Settlement.ComputeSelectsCase` | bot.py:304-342 | with a positive penalty: "no penalty" exactly when the ledger is non-empty and everybody met the target; "no receivers" exactly when it is non-empty and nobody did; a payout exactly when some met it and some did not; the reported total, payers and receivers are those of the classification |
| `Settlement.MixedWeekExample` | bot.py:308-342 | members with 5, 3, 7 and 1 check-ins: payers owe 2000 and 4000, total 6000, two receivers get 3000 each |
| `Settlement.NobodyMetTargetExample` | bot.py:333-339 | members with 1 and 2 check-ins: total 7000 with no receivers and no division |
| `Settlement.EverybodyMetTargetExample` | bot.py:328-331 | members with 5 and 6 check-ins: no penalty |
| `Schedule.NextRun` | bot.py:234-242 | the first auto-reset is a Sunday at 23:59:00.000000, strictly after `now` and at most 7 days after it |
| `Schedule.AtTimeOfDay` | bot.py:236-238 | setting the time of day on a given day gives an instant on that day at that time |
| `Schedule.ResetInstantOffset` | bot.py:234-238 | an instant is a Sunday 23:59:00 exactly when it lies that fixed offset into its week |
| `Schedule.ResetInstantsWeeksApart` | bot.py:240-242 | two distinct reset instants are at least a week apart |
| `Schedule.NextRunIsEarliest` | bot.py:234-242 | no Sunday 23:59:00 lies strictly between `now` and the computed first run |
| `Schedule.NextRunOnResetInstant` | bot.py:240-242 | a `now` exactly at Sunday 23:59:00 schedules the run one week later, never at `now` |

## Left out

- Discord I/O is not modelled: replies (`ctx.send`, `channel.send`), `bot.get_channel`, member name lookup with `ctx.guild.get_member`, `bot.run`, and the login in `on_ready`. These are calls into the platform library.
- The message text of `week` and `settle` (bot.py:289-295, 344-366) is not modelled. It is Korean string rendering of data that `Settlement.Report` already holds. `week` does no computation beyond listing `Bot.Bot.Items`.
- The scheduling runtime is not modelled: `tasks.loop(hours=168)`, `asyncio.sleep` and `wait_until_ready`. Only the next-run arithmetic is.
- Time zones are not modelled: the `Asia/Seoul` zone versus the local-time fallback (bot.py:176-179, 227-232). The clock is an abstract integer clock in the bot's zone, with no daylight-saving jumps. The float `total_seconds()` is used only for the sleep and is not modelled.
- The `@commands.has_permissions(administrator=True)` checks on `settle` and `resetweek` are not modelled. The framework decides them before the command body runs.
- The certificate environment setup (bot.py:170-174) is not modelled. It is process configuration.
- A `!solve` with no argument at all is not modelled. The command framework rejects it before `solve` runs, so the ledger is unchanged.
- The commented-out earlier draft (bot.py:1-164) is not modelled. It is not live code.
