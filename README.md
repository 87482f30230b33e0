# Redbelly node monitor: derived metrics, threshold rules and report order

`monitor_script.py` polls a Redbelly node's status server and prints a report.
This project models what happens to each snapshot the monitor receives:

- **Rolling window.** The module-level list `blockChanges` holds
  `(currentBlock, lastCommittedBlockAt)` pairs. Each poll appends one pair and,
  once the list is longer than 10, drops the oldest one.
  - Modelled by `Window.Push` and `Window.History`.
  - In place, by the class `Monitor.Engine`: its `history` field is reassigned
    by `Record`, and its ghost `observed` field remembers every sample.
- **Block rate.** `get_block_ps` is `Window.BlockRate`, over `real`.
- **Derived values.** These are block and superblock lag, the three "time
  since" durations, the certificate's remaining validity and the balance in
  RBNT (module `Rules`, balance arithmetic in module `Balance`).
  - Timestamps are integers in microseconds since the Unix epoch, UTC. That is
    the resolution of Python's `datetime`.
  - An empty timestamp field becomes the epoch (`Rules.Instant`).
  - The current time is a parameter `now`.
- **Rules.** The eight threshold rules are `Rules.StaleBlockRule` …
  `Rules.ExpiringSoonRule`. Each yields its warning or nothing.
  `Rules.Triggered` is all of them in report order.
- **Report.** It is a sequence of `Dashboard.Line` values: the polled URL, five
  sections with their information lines and warnings, and the binary version.
  - `Monitor.Engine.Evaluate` builds it by appending, section by section, as
    `monitor` does.
  - It is proved equal to the specification function `Dashboard.Report`.
  - Lemmas about `Report` give the section order, the warnings it contains and
    its first and last lines.

### Behaviour of the code the model keeps

- **Balance conversion rounds very large balances.** `monitor` divides
  `Decimal(wei)` by `Decimal(10**18)` under Python's default decimal context,
  which keeps 28 significant digits and rounds half to even.
  - Below 10^28 wei the quotient is exact, and the rule is the integer
    comparison `minimum * 10^18 > wei` (`Balance.BelowMinimumExact`).
  - Above that the quotient is rounded (`Balance.RoundedMagnitude`,
    `Balance.ScaledBalance`). `Balance.RoundingHidesShortfall` shows that
    10^29 - 1 wei, against a minimum of 10^11 RBNT, raises no warning.
- **An expired certificate raises both certificate warnings.** The two checks
  are independent `if`s, so a validity at or below zero raises "expired" and
  also "expires soon", in that order.
- **The superblock-sync rule reads the governor sync time.** It compares the
  time since the last governor sync, not the last bootnode sync, with two
  minutes.

## Model

| member | source | states |
|---|---|---|
| Window.Push | monitor_script.py:51-53 | the new sample is last; the samples before it are the old window, minus its oldest sample if the window was full; a window of at most 10 stays at most 10 |
| Window.PushKeepsLastN | monitor_script.py:51-53 | pushing onto the last 10 observations gives the last 10 of the extended observations |
| Window.History | monitor_script.py:51-53 | the window after a sequence of polls from an empty list, one `Push` per poll; no contract of its own, its content is stated by `Window.HistoryIsLastN` |
| Window.HistoryIsLastN | monitor_script.py:51-53 | after any sequence of polls from an empty list, the window is exactly the last (at most) 10 samples, in append order |
| Window.BlockRate | monitor_script.py:14-20 | zero when the first and last samples have the same time; otherwise the rate times the elapsed seconds is the height difference, so it never divides by zero |
| Window.BlockRateEndpointsOnly | monitor_script.py:15-16 | two windows with the same first and last samples have the same rate, whatever lies between |
| Window.BlockRateZeroElapsed | monitor_script.py:18-19 | equal first and last commit times give rate 0 whatever the heights |
| Balance.RoundHalfEven | monitor_script.py:63 | the chosen multiple is within half a step of the amount, and an exact tie goes to the even multiple |
| Balance.RoundedMagnitude | monitor_script.py:63 | the magnitude is kept when it has at most 28 digits; otherwise, with q = 10^(digits - 28), it is the half-to-even rounding of the amount to a multiple of q, within q/2 of it, and never zero for a nonzero amount |
| Balance.ScaledBalance | monitor_script.py:63 | the converted balance (in wei) has the amount's sign and the rounded magnitude, differs from the amount by exactly the rounding error of the magnitude, and equals the amount below 10^28 wei |
| Balance.ScaledBalanceRelativeError | monitor_script.py:63 | for every amount, the conversion error relative to the amount is at most 5 * 10^-28 |
| Balance.BelowMinimum | monitor_script.py:104 | the balance rule, minimum times 10^18 greater than the converted balance; no contract of its own, stated by `Balance.BelowMinimumExact`, `Balance.BalanceBoundary` and `Balance.RoundingHidesShortfall` |
| Balance.BelowMinimumExact | monitor_script.py:104-105 | below 10^28 wei the balance rule is exactly `minimum * 10^18 > wei` |
| Balance.BalanceBoundary | monitor_script.py:104-105 | a balance of exactly 10 RBNT against a minimum of 10 does not warn; one wei less does |
| Balance.RoundingHidesShortfall | monitor_script.py:63 | 10^29 - 1 wei converts to exactly 10^11 RBNT, so a minimum of 10^11 does not warn although the balance is below it |
| Rules.Instant | monitor_script.py:44 | a timestamp field as an instant, the epoch when empty (also lines 48, 55, 60); no contract of its own, its use is stated by `Rules.EmptyStampsAreStale` |
| Rules.SinceLastBlock | monitor_script.py:45 | `now` minus the last commit time; no contract of its own, the stale-block clause of `Rules.TriggeredRules` states the rule over it |
| Rules.SinceGovernorSync | monitor_script.py:49 | `now` minus the last governor sync; no contract of its own, the governor-sync and superblock-sync clauses of `Rules.TriggeredRules` state the rules over it |
| Rules.SinceBootnodeSync | monitor_script.py:57 | `now` minus the last bootnode sync; no contract of its own, and `Rules.SuperblockSyncIgnoresBootnodes` states that no rule reads it |
| Rules.CertificateRemaining | monitor_script.py:61 | the certificate's validity end minus `now`; no contract of its own, the certificate clauses of `Rules.TriggeredRules` and `Rules.CertificateBoundaries` state the rules over it |
| Rules.BlocksBehind | monitor_script.py:50 | the governors' last block minus the current block; no contract of its own, the lag clauses of `Rules.TriggeredRules` and `Rules.LagScenarios` state the rule over it |
| Rules.SuperblocksBehind | monitor_script.py:58 | the bootnodes' last superblock minus the current superblock; no contract of its own, the lag clauses of `Rules.TriggeredRules` state the rule over it |
| Rules.Observe | monitor_script.py:51 | the (current block, last commit time) sample one poll appends; no contract of its own, `Monitor.Engine.Evaluate` states that the window gains exactly it |
| Rules.StaleBlockRule | monitor_script.py:76-77 | the stale-block warning when more than 5 minutes have passed since the last block, else nothing; no contract of its own, stated by `Rules.TriggeredRules` |
| Rules.BehindGovernorsRule | monitor_script.py:80-81 | the lag warning with the lag when more than 100 blocks behind, else nothing; no contract of its own, stated by `Rules.TriggeredRules` and `Rules.TriggeredValues` |
| Rules.GovernorSyncRule | monitor_script.py:86-87 | the governor-sync warning when the last governor sync is more than 1 minute old, else nothing; no contract of its own, stated by `Rules.TriggeredRules` |
| Rules.BehindBootnodesRule | monitor_script.py:91-92 | the lag warning with the lag when more than 100 superblocks behind, else nothing; no contract of its own, stated by `Rules.TriggeredRules` and `Rules.TriggeredValues` |
| Rules.SuperblockSyncRule | monitor_script.py:98-99 | the superblock-sync warning when the last governor sync is more than 2 minutes old, else nothing; no contract of its own, stated by `Rules.TriggeredRules` and `Rules.SuperblockSyncIgnoresBootnodes` |
| Rules.LowBalanceRule | monitor_script.py:104-105 | the balance warning with the minimum when the balance rule holds, else nothing; no contract of its own, stated by `Rules.TriggeredRules`, `Rules.TriggeredValues` and `Rules.LowBalanceExact` |
| Rules.ExpiredRule | monitor_script.py:111-112 | the expired warning when no validity is left, else nothing; no contract of its own, stated by `Rules.TriggeredRules` and `Rules.CertificateBoundaries` |
| Rules.ExpiringSoonRule | monitor_script.py:114-115 | the expiring-soon warning when at most seven days of validity are left, else nothing; no contract of its own, stated by `Rules.TriggeredRules` and `Rules.CertificateBoundaries` |
| Rules.Triggered | monitor_script.py:76-115 | the eight rules' warnings in report order; no contract of its own, stated by `Rules.TriggeredRules`, `Rules.TriggeredValues` and `Rules.ExpiredRaisesBoth` |
| Rules.TriggeredRules | monitor_script.py:76-115 | each of the eight warnings is raised iff its threshold is crossed: strict `>` for the three durations and the two lags, `>` of minimum over converted balance, `<=` for the two certificate limits; and a lag or balance warning of any value appears iff its rule fires |
| Rules.TriggeredValues | monitor_script.py:80-105 | every lag warning raised carries the current lag, and every balance warning the configured minimum, so none with another value appears |
| Rules.NoLagNoWarning | monitor_script.py:80-92 | a node not behind its governors or bootnodes gets no lag warning |
| Rules.LagScenarios | monitor_script.py:80-81 | 150 blocks behind warns with the count 150; 150 blocks ahead raises no lag warning |
| Rules.ExpiredRaisesBoth | monitor_script.py:111-115 | an expired certificate makes the last two warnings "expired" then "expires soon" |
| Rules.CertificateBoundaries | monitor_script.py:111-115 | zero validity left is expired; one second under seven days is only expiring soon; one second over raises neither |
| Rules.SuperblockSyncIgnoresBootnodes | monitor_script.py:98-99 | changing the bootnode sync time changes no warning |
| Rules.EmptyStampsAreStale | monitor_script.py:44-61 | an empty field stands for the epoch, so each rule reading it fires once `now` is past that rule's own limit: the stale-block rule after 5 minutes, governor sync after 1, superblock sync after 2, expired from the epoch, expiring soon from seven days before it |
| Rules.LowBalanceExact | monitor_script.py:104-105 | below 10^28 wei the balance warning, and a balance warning of any value, is raised iff `minimum * 10^18 > wei` |
| Dashboard.Report | monitor_script.py:36-118 | the report of one poll: the URL line, the five sections, the version line; no contract of its own, stated by `Dashboard.ReportEnds`, `Dashboard.ReportHeaders` and `Dashboard.ReportWarnings`, and `Monitor.Engine.Evaluate` is proved to build it |
| Dashboard.SectionShapes | monitor_script.py:66-115 | each section carries only its own header and exactly its rules' warnings, in rule order |
| Dashboard.ReportEnds | monitor_script.py:36-118 | the report opens with the polled URL and closes with the binary version |
| Dashboard.ReportHeaders | monitor_script.py:66-107 | the report's headers are sync, block, superblock, signing address and certificate, in that order |
| Dashboard.ReportWarnings | monitor_script.py:76-115 | the report's warning lines are exactly the triggered warnings, in rule order |
| Monitor.Engine.constructor | monitor_script.py:9 | the window starts empty |
| Monitor.Engine.Record | monitor_script.py:51-53 | the window becomes the push of the sample onto the old window, which is the last 10 of all samples observed |
| Monitor.Engine.Evaluate | monitor_script.py:43-118 | records this snapshot's sample, then returns the report built from the snapshot, the minimum, `now` and the rate of the updated window |
| Monitor.SyncLines | monitor_script.py:66-70 | the sync section: its header and the recovery state |
| Monitor.BlockLines | monitor_script.py:72-87 | the block section, with the stale-block, lag and governor-sync warnings after their lines |
| Monitor.SuperblockLines | monitor_script.py:89-99 | the superblock section, with the lag and superblock-sync warnings after their lines |
| Monitor.SigningLines | monitor_script.py:101-105 | the signing address section, with the low-balance warning |
| Monitor.CertificateLines | monitor_script.py:107-115 | the certificate section, with the expired and then the expiring-soon warning |

## Left out

- HTTP transport and JSON decoding (`requests.get`, `raise_for_status`, `response.json()`): network I/O. The decoded response is the input `Rules.Snapshot`.
- `bool(...)`, `int(...)` and `str(...)` conversions of wire values, and decoding failures: the snapshot holds already-typed values. A failing conversion ends the process; the window is appended before some fields are converted, which the model does not capture.
- ISO-8601 parsing by `dateutil` and time-zone handling (`.replace(tzinfo=...)`, `.astimezone()`): foreign library behaviour. Timestamps are given in UTC microseconds.
- The local-time offset of `datetime.fromtimestamp(0)`: an empty timestamp is the UTC epoch.
- The clock: `datetime.now` is read four times in the source; the model takes one `now` parameter for the whole poll.
- Window.BlockRate: computed over `real`; the float conversion and IEEE rounding of the division are not modelled.
- Decimal overflow beyond the default context's exponent range (quotients near 10^999999): not modelled, as no wei amount comes near it.
- Rendered text: f-strings, ANSI colour codes and `datetime`/`timedelta` formatting. Lines carry their values as data instead.
- `clear_screen`, `run_loop` (sleep loop, interrupt handling, exit) and `parse_args`: terminal, process and command-line glue.
