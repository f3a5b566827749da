# Per-session event aggregation and funnel count

This project models the counting logic of a clickstream analysis. The input
is an e-commerce event log. Each row ties a `user_session` to an `event_type`
such as `view`, `cart` or `purchase`. Two files contain the same logic:

- `functions.py` has two functions.
  - `ops_per_session` groups the rows by session. For each session it builds
    a dictionary that maps each event type to its number of occurrences. It
    also stores the session's events, in row order, under the key `'seq'`.
  - `complete_funnels` counts the dictionaries that have exactly three keys.
- `rq1.py` runs the same grouping as a top-level script, but without the
  `'seq'` list. It then counts the sessions whose dictionary has exactly
  three keys, that is, exactly three distinct event types.

Modules:

- `EventLog` (`event_log.dfy`) holds the log and the reference definitions.
  - A log is a `seq<Row>` in row order.
  - `Sessions` is the set of sessions in the log.
  - `EventsOf(rows, s)` is the order-preserving filter that pandas writes as
    `dataset[dataset.user_session == s].event_type`.
  - `Tally` folds the counting step `Bump` over a sequence. `Bump` is the
    `+= 1`-or-create-with-1 step.
  - `SumValues` is the sum of a map's values.
- `Functions` (`functions.py`) models the inner dictionary as
  `Entry(counts, sequence)`: `counts` is the event-count map, `sequence` the
  `'seq'` list. Python's `len` of the inner dictionary is modelled by `Len`,
  the size of `counts.Keys + {"seq"}`.
- `Rq1` (`rq1.py`) models the script's dictionary as
  `map<string, map<string, nat>>`.

Both loops over the session set pick the next session with `:|`, so the
methods are proved for every order in which the set can be walked. Their
postconditions fix the resulting dictionary as a function of the rows
alone. This proves that the result does not depend on the set's iteration
order. Each session's entry is written only while that session is scanned:
`ScanSession` and `CountSession` change only the key of that session.

In both files, the body of the outer loop is a separate method:
`Functions.ScanSession` and `Rq1.CountSession`. Each scans one session's
events.

A quirk of `functions.py` is kept as it is. When `complete_funnels` is
applied to the output of `ops_per_session`, it counts the sessions with
exactly TWO distinct event types, because `'seq'` is the third key it sees.
`Functions.CompleteFunnelsOfOps` proves this. The two example lemmas show
concretely that a view-and-cart session counts and a view-cart-purchase
session does not. In `rq1.py`, "exactly three keys" means any three
distinct event types, not necessarily view, cart and purchase.

Events are taken in row order; nothing sorts them by timestamp. Each
session's rows are found by filtering the whole log again.

## Model

| member | source | states |
|---|---|---|
| `EventLog.Bump` | functions.py:12-15 | the counting step adds the event as a key, sets its count to one more than before or to 1 when it is new, and leaves every other count unchanged |
| `EventLog.EventsOfAppend` | functions.py:9 | the per-session filter keeps row order: filtering a concatenated log gives the concatenation of the filtered parts |
| `EventLog.EventsOfOccurrences` | functions.py:9 | each event type occurs in a session's filtered events exactly as often as the row (session, event) occurs in the log |
| `EventLog.EventsOfNonEmpty` | functions.py:4-9 | a session has at least one filtered event if and only if it occurs in the log |
| `EventLog.TallyCounts` | functions.py:12-15 | after counting a sequence, an event is a key if and only if it occurs in the sequence, and its count is its number of occurrences, at least one |
| `EventLog.TallyTotal` | functions.py:12-15 | the counts of a counted sequence add up to its length |
| `EventLog.SessionSizesTotal` | functions.py:8-10 | the numbers of rows of all sessions add up to the number of rows of the log |
| `Functions.Len` | functions.py:28 | the inner dictionary's length is its number of count keys plus one when no count key is `"seq"` |
| `Functions.OpsPerSession` | functions.py:3-22 | for every walking order of the session set, the result is `PerSession(rows)`: one entry per session, whose counts are the tally of its events and whose `'seq'` is its events in row order |
| `Functions.ScanSession` | functions.py:10-20 | scanning one new session's events creates its entry with the tally and the list of those events, and leaves every other entry unchanged |
| `Functions.CompleteFunnels` | functions.py:24-31 | the result is the number of entries with exactly three keys, so it lies between 0 and the number of entries |
| `Functions.PerSessionKeys` | functions.py:4-20 | the result has an entry for a session if and only if some row belongs to that session |
| `Functions.PerSessionSequence` | functions.py:9-20 | a session's `'seq'` is non-empty, holds only events of that session's rows, and holds each of them as often as the (session, event) row occurs in the log |
| `Functions.PerSessionCounts` | functions.py:12-19 | an event type is a key if and only if the session performed it; its count is at least one, equals its occurrences in `'seq'`, and equals the number of (session, event) rows |
| `Functions.PerSessionTotals` | functions.py:8-20 | a session's counts add up to the length of its `'seq'`, and the `'seq'` lengths of all sessions add up to the number of rows |
| `Functions.PerSessionLen` | functions.py:17-20 | a session's dictionary has one key per distinct event type plus the `'seq'` key |
| `Functions.CompleteFunnelsOfOps` | functions.py:18-29 | applied to the output of `ops_per_session`, the counted sessions are exactly those with two distinct event types |
| `Functions.TwoKindsCountAsComplete` | functions.py:18-29 | a session with only `view` and `cart` is counted as complete |
| `Functions.ThreeKindsDoNotCount` | functions.py:18-29 | a session with `view`, `cart` and `purchase` is not counted as complete |
| `Rq1.Aggregate` | rq1.py:10-25 | for every walking order of the session set, the dictionary maps each session of the log to the tally of its events |
| `Rq1.CountSession` | rq1.py:16-25 | scanning one new session's events creates its dictionary with the tally of those events, and leaves every other session unchanged |
| `Rq1.CountComplete` | rq1.py:27-29 | `complete` is the number of sessions whose dictionary has exactly three keys, at most the number of sessions |
| `Rq1.Run` | rq1.py:10-29 | the script's count is the number of sessions with exactly three distinct event types, at most the number of sessions |
| `Rq1.SessionCountsMeaning` | rq1.py:16-25 | an event type is a key of a session's dictionary if and only if the session performed it; its count is at least one and equals the number of (session, event) rows |
| `Rq1.SessionCountsSize` | rq1.py:19-25 | the length of a session's dictionary is its number of distinct event types |
| `Rq1.SessionCountsTotal` | rq1.py:15-25 | the counts over all sessions and event types add up to the number of rows |
| `Rq1.CompleteOfCounts` | rq1.py:27-29 | the sessions with a three-key dictionary are those with exactly three distinct event types |
| `Rq1.SameCountsAsOps` | rq1.py:15-25 | the script's dictionary is the counts part of the result of `ops_per_session` |

## Left out

- `RQ3.py` is not part of this model. It consists of a CSV load, an interactive prompt, pandas group-by means over floating-point prices, sorting, and plotting.
- From `rq1.py`, the CSV load (line 6), `dataset.head()` (line 8), the `print` (line 31) and the normalised bar plot (lines 33-34) are left out. They are I/O and floating-point rendering. The rows are a parameter instead.
- The pandas filter (`functions.py:9`, `rq1.py:16`) is modelled by the function `EventLog.EventsOf`, not as a loop. Its cost, one rescan of the whole log per session, is left out: only the result is modelled.
- Missing sessions (pandas NaN, which is never equal to itself) are left out. Sessions are ordinary comparable strings.
- Functions.OpsPerSession: requires that no event type is the string `"seq"`, and Functions.ScanSession requires the same of the session's events. Such an event would collide with the `'seq'` key, and Python would then raise a `TypeError` or overwrite a count.
- The insertion order of the Python dictionaries is left out. The model's maps are unordered, and no result depends on that order.
- The inner dictionaries are objects that Python mutates in place through `d[session]`. The model replaces the session's entry with a new value, which gives the same result because nothing else refers to it.
