# Daily Activity Feed — the two-day event log

The Daily Activity Feed service keeps a log of activity events (type, title,
text, optional image) in two buckets, "today" and "yesterday", each newest
first, stored as one JSON file. Every request reads the file, works on the
loaded store and writes it back:

- the **rollover** (`cleanup_old_events`) runs first on every append and every
  query: if the newest "today" event carries a date other than the current
  one, the whole "today" bucket replaces "yesterday" and "today" is emptied;
  then "yesterday" keeps only the events dated exactly one day before the
  current date;
- **adding an event** stamps it with the current time of day and date and
  inserts it at the head of "today", without any bound on the bucket's size;
- the two **day queries** answer with the bucket's date, its length and its
  events;
- **clearing a day** refuses any selector other than "today" or "yesterday"
  with status 400, and otherwise empties that bucket, with no rollover.

The model has four modules, one per concern:

- `Events` (events.dfy): events as submitted and as stored, the two-bucket
  store and one reading of the clock (current date, the date before it, the
  time of day). The value under an event's "date" key is one of: absent, a
  date string, or some other JSON value. The rollover treats the three
  differently.
- `Rollover` (rollover.dfy): the rollover as pure functions (`RollOver` and
  the "yesterday" filter `KeepDated`) and the lemmas about them.
- `Feed` (feed.dfy): what an append and a clear do to the store when every
  write succeeds. This module also holds the lemmas that relate several
  requests.
- `ActivityFeed` (activity_feed.dfy): the service itself. The class
  `FeedService` has one field, `persisted`, the content of the store file:
  missing, unreadable, or a saved store. Each handler is a method that loads
  from that field, changes the local store step by step as the source does,
  and writes back. The clock reading and the outcome of each file write are
  method parameters. A write can complete, be refused before the file is
  opened (the file is unchanged), or be cut off after opening for writing
  has emptied the file (the file is then unreadable).

Consequences of the source's design that the model proves rather than
hides:

- The rollover looks only at the newest "today" event. When that event is
  dated today or has no date, "today" is kept whole, including any events of
  an older date behind it (`RollOverStays`). Both buckets are current after
  a rollover or an append when "today" held events of one date before it
  (`RollOverEstablishesCurrent`, `PostEstablishesCurrent`).
- Clearing runs no rollover. When the next rollover would migrate "today",
  clearing "yesterday" first has no effect at all on what the next request
  sees (`ClearedYesterdayRefills`). Clearing "today" at that moment erases
  what the "yesterday" query would have shown; that answer is built from
  the old "yesterday" instead (`ClearedTodayLosesYesterday`).
- When the rollover's write is refused before the file is opened, a query
  answers from the un-rolled file. When the write is interrupted, the file
  no longer parses and the query answers from the empty store. The query
  methods promise the filtered "yesterday" only when the write completed.

The service has no capacity bound and no eviction: an append always inserts
at the head. Clearing answers with the cleared day only, not with a count of
removed events.

## Model

| member | source | states |
|---|---|---|
| `ActivityFeed.Loaded` | daily_activity_feed/app.py:33-43 | a missing or unparseable store file reads as the empty store `{today: [], yesterday: []}`; a saved store reads back as itself |
| `ActivityFeed.AfterWrite` | daily_activity_feed/app.py:46-52 | save/load round trip: after a completed write the file reads back as exactly the written store; a refused write leaves the file unchanged; an interrupted write loses the store |
| `ActivityFeed.FeedService.LoadEvents` | daily_activity_feed/app.py:33-43 | returns what the store file reads as |
| `ActivityFeed.FeedService.SaveEvents` | daily_activity_feed/app.py:46-52 | the file afterwards is the outcome of writing the store; after a completed write it reads back as that store |
| `Events.Stamp` | daily_activity_feed/app.py:103-109 | the stored event keeps every submitted field and carries the current date and time of day |
| `Rollover.HeadDate` | daily_activity_feed/app.py:66-67 | the newest "today" event counts as dated today exactly when its date is today's or it has no "date" key |
| `Rollover.KeepDated` | daily_activity_feed/app.py:72-76 | an event survives the filter iff it was in the bucket and is dated exactly the given date; every copy of a surviving event is kept, nothing is added |
| `Rollover.KeepDatedKeepsOrder` | daily_activity_feed/app.py:73-76 | the surviving events keep their relative order (the result is a subsequence of the bucket) |
| `Rollover.KeepDatedAllDated` | daily_activity_feed/app.py:73-76 | a bucket whose events all carry the filter date passes through unchanged |
| `Rollover.RollOver` | daily_activity_feed/app.py:55-78 | after the rollover every "yesterday" event is dated the day before the current date, and "today" is either emptied or unchanged |
| `Rollover.RollOverMigrates` | daily_activity_feed/app.py:64-76 | when the newest "today" event carries a date (or another JSON value) other than today's, "today" becomes empty; "yesterday" holds exactly the old "today" events dated the previous day, each as many times as it occurred, in order, and the old "yesterday" is discarded |
| `Rollover.RollOverStays` | daily_activity_feed/app.py:64-76 | when "today" is empty, or its newest event is dated today or has no date, "today" is unchanged; "yesterday" keeps exactly its events of the previous day, each as many times as it occurred, in order |
| `Rollover.RollOverIdempotent` | daily_activity_feed/app.py:55-78 | a second rollover with the same clock reading changes nothing |
| `Rollover.RollOverEstablishesCurrent` | daily_activity_feed/app.py:64-76 | if "today" holds events of one date, after the rollover all "today" events are dated today and all "yesterday" events the day before |
| `ActivityFeed.RolledFile` | daily_activity_feed/app.py:55-78 | after the rollover's completed write, the file reads back as the rollover of what it held |
| `ActivityFeed.FeedService.CleanupOldEvents` | daily_activity_feed/app.py:55-78 | load, migrate if the newest "today" event is from another date, filter "yesterday", write; after a completed write every stored "yesterday" event is dated the previous day |
| `Feed.Insert` | daily_activity_feed/app.py:111-114 | the new event is at index 0 of "today", the old "today" follows it unchanged, the length grows by exactly one, "yesterday" is untouched |
| `Feed.Post` | daily_activity_feed/app.py:96-119 | an append puts the stamped event at the head of the rolled-over "today" and leaves the rolled-over "yesterday" |
| `Feed.PostIsRolledOver` | daily_activity_feed/app.py:97-117 | a store just written by an append is a fixed point of the rollover with the same clock: the next query sees what the append stored |
| `Feed.PostEstablishesCurrent` | daily_activity_feed/app.py:97-117 | if "today" holds events of one date, after an append both buckets are current and "today" again holds events of one date |
| `Feed.PostAllOnRolled` | daily_activity_feed/app.py:111-114 | appends to a rolled-over store stack the stamped events at the head of "today" in reverse submission order, "yesterday" unchanged |
| `Feed.PostAllNewestFirst` | daily_activity_feed/app.py:97-117 | a run of appends within one day leaves "today" as the submitted events in reverse submission order followed by what the first rollover kept, and "yesterday" as that rollover left it |
| `ActivityFeed.FeedService.AddEvent` | daily_activity_feed/app.py:93-122 | returns the stamped event; the file is the rollover's write followed by the write of the reloaded store with that event at the head of "today"; when both writes complete, the file holds `Post` of the old store |
| `ActivityFeed.FeedService.GetTodayEvents` | daily_activity_feed/app.py:125-134 | answers with the current date, the "today" bucket as reloaded after the rollover, and its length as the count |
| `ActivityFeed.FeedService.GetYesterdayEvents` | daily_activity_feed/app.py:137-147 | answers with the previous date, the reloaded "yesterday" bucket and its length; after a completed write every returned event is dated the previous day |
| `Feed.ClearDay` | daily_activity_feed/app.py:150-160 | a selector other than "today"/"yesterday" is refused with status 400; a valid one empties that bucket and leaves the other unchanged, with no rollover |
| `Feed.ClearedYesterdayRefills` | daily_activity_feed/app.py:150-160 | since clearing does no rollover, clearing "yesterday" before a migrating rollover leaves the next rollover's result unchanged, for every store |
| `Feed.ClearedTodayLosesYesterday` | daily_activity_feed/app.py:150-160 | clearing "today" before a migrating rollover leaves both buckets built from the old "yesterday" alone, instead of "yesterday" built from the old "today", for every store |
| `ActivityFeed.FeedService.ClearEvents` | daily_activity_feed/app.py:150-160 | an invalid selector is refused with 400 and the file is untouched; a valid one writes the store with that bucket emptied and answers with the day |

## Left out

- HTTP routing, request-body validation by the web framework, the health endpoint and the server start-up are not modelled. The start-up hook only calls the rollover, which `CleanupOldEvents` models.
- JSON encoding and decoding and real file I/O are not modelled. The file is the `persisted` field and write outcomes are parameters. Console messages on read or write errors are dropped.
- A store file whose JSON lacks the "today" or "yesterday" key is read as one with that bucket empty. Every reader in the source treats a missing key as an empty list. JSON of another shape (a bucket that is not a list, an event that is not an object) is not modelled (most requests raise on it).
- Event objects in the file may carry keys other than the six modelled (type, title, text, image, timestamp, date). Those extra keys are not modelled.
- `ActivityFeed.FeedService.AddEvent`: the status-500 response is not modelled. No step of the modelled append can fail, because file errors are reported on the console and the request goes on.
- The clock is read once per request and passed in as the current date, the date before it and the time of day. The source reads the clock separately in the rollover and in the handler, so a request that straddles midnight is not modelled. No calendar arithmetic is modelled, because dates are only compared for equality.
- Concurrent requests are not modelled. The source has no locking.
