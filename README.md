# sl-monitor in Dafny

sl-monitor polls Stockholm's public transport (SL) for disruptions on bus line 29, the
Näsbyparkslinjen. It tells the user when a disruption appears, changes or ends. The repository
ships three independent variants of one polling script. Their rules differ, so the model keeps
them apart, one module each:

- `Gtfs` (`sl_monitor_gtfs.py`) reads GTFS-Realtime service alerts. It keeps the alerts with an
  informed entity whose route id contains "29" (so "SL:29", but also "129" or "290"), and compares their alert ids with the ids saved by the
  previous run. It announces new, updated and resolved alerts on the desktop, and new and
  updated alerts also by e-mail.
- `Simple` (`sl_monitor_simple.py`) reads SL's traffic-situation JSON. Failing that, it reads a
  text test on the scraped traffic page. Only the number of line-29 records is compared with
  the previous run. New and resolved disruptions are e-mailed.
- `UltraSimple` (`sl_monitor_ultra_simple.py`) flags the lower-cased traffic page when it
  mentions line 29 anywhere and a disruption word anywhere; the two need not be near each other. It keeps a little context around each mention
  and compares a single flag with the previous run. New and resolved disruptions are e-mailed.

Shared pieces sit in two small modules:

- `Common` holds `Option`, the notification channels, a delivery (`Dispatch`) and the
  configuration constants: the line number, the line name and the traffic-page address.
- `Text` holds Python's string operations as the scripts use them: `in` on strings,
  `lower()`, slicing with an ellipsis, `str(n)`, `join`, `split`, and the enumerate-and-append
  shape every message body has.

Each variant has a `Monitor` class with two fields:

- `stateFile` is the content of `sl_state.json`, or `None` when the file is missing or cannot
  be read.
- `outbox` lists every delivery attempted so far.

`RunCycle` is one call of `run()`. It is proved to leave exactly the state and deliveries
computed by the variant's specification functions. Its steps are:

- filter the fetched data into records;
- classify the change against the saved state;
- decide the notice;
- compose the title and body;
- choose the channels;
- save the new state.

The filters and message builders that grow lists and strings in loops are methods. Each is
proved equal to a recursive specification function. The listed properties are proved about
those functions.

## Model

| member | source | states |
|---|---|---|
| Text.Lower | sl_monitor_ultra_simple.py:46 | lower-casing keeps the length and folds every position independently |
| Text.LowerHasNoCapital | sl_monitor_simple.py:90 | lower-cased text never contains a capital letter such as 'N' |
| Text.Ellipsize | sl_monitor_gtfs.py:177-179 | text of at most n code points is unchanged; longer text becomes its first n code points followed by "..." |
| Text.Clip | sl_monitor_ultra_simple.py:71 | `s[:n]` is the prefix of s of length min(n, len(s)) |
| Text.JoinSplit | sl_monitor_ultra_simple.py:61 | joining the pieces of `split(sep)` with sep gives back the text; no piece contains sep |
| Text.NumberedSplit | sl_monitor_gtfs.py:172 | enumerating a concatenation enumerates each part, with the numbering continued |
| Text.NumberedContains | sl_monitor_gtfs.py:172 | the block of every element, numbered by its position, occurs in the enumerated text |
| Text.Affixes | sl_monitor_gtfs.py:206 | a concatenation starts with its first part and ends with its second |
| Text.ContainsNeedsChar | sl_monitor_simple.py:90 | text lacking a character of the needle does not contain the needle |
| Gtfs.RouteMatchesIffSubstring | sl_monitor_gtfs.py:99-104 | a route matches exactly when "29" occurs in its id, so "SL:29" and "129" match and "2" does not |
| Gtfs.Chosen | sl_monitor_gtfs.py:111-119 | when every translation text is empty the result is ""; a non-empty result is the text of one of the translations |
| Gtfs.EmptySwedishErases | sl_monitor_gtfs.py:113-114 | an "sv" translation with empty text replaces whatever was chosen before it by "" |
| Gtfs.ChosenWithoutSwedish | sl_monitor_gtfs.py:111-119 | without an "sv" translation the first non-empty translation text is kept |
| Gtfs.ChosenSwedish | sl_monitor_gtfs.py:111-119 | a non-empty "sv" translation overrides every text before it and wins when no later "sv" follows |
| Gtfs.PickTranslation | sl_monitor_gtfs.py:112-114 | the translation loop computes the chosen text |
| Gtfs.ScanInformedEntities | sl_monitor_gtfs.py:95-104 | the informed-entity loop answers true exactly when some selector has a route id matching line 29 |
| Gtfs.ConvertPeriods | sl_monitor_gtfs.py:122-129 | every active period is rendered in order; an absent start or end becomes "" |
| Gtfs.BuildRecord | sl_monitor_gtfs.py:107-138 | the record built for a kept alert is its id, the chosen header or "Störning", the chosen description, its periods, and cause and effect defaulting to 0 |
| Gtfs.Filtered | sl_monitor_gtfs.py:86-142 | no more records than entities; every record is the record of a kept entity (an alert with a route id containing "29"), and every kept entity yields its record: header "Störning" when empty, cause and effect 0 when absent |
| Gtfs.RecordsExactlyStep | sl_monitor_gtfs.py:88-140 | one more entity keeps the record list exact, adding its record only when the entity is kept |
| Gtfs.FilteredCount | sl_monitor_gtfs.py:88-140 | there is exactly one record per kept entity |
| Gtfs.FilteredAppend | sl_monitor_gtfs.py:88-140 | filtering works entity by entity, in feed order |
| Gtfs.FilterLine29 | sl_monitor_gtfs.py:81-142 | the nested loops return exactly the filtered records of the feed |
| Gtfs.Classify | sl_monitor_gtfs.py:294-317 | new iff some current id was not seen; updated iff records exist and their ids are a proper subset of the previous ids; ongoing iff the id sets are equal; resolved iff no records but previous ids; quiet iff both empty |
| Gtfs.Unseen | sl_monitor_gtfs.py:304 | a record is kept exactly when its id is not among the previous ids |
| Gtfs.UnseenAppend | sl_monitor_gtfs.py:304 | the unseen records keep feed order |
| Gtfs.SelectNewIds | sl_monitor_gtfs.py:299-304 | selecting by `current_ids - previous_ids` keeps exactly the unseen records |
| Gtfs.Decide | sl_monitor_gtfs.py:302-317 | no notice iff ongoing or quiet; a new notice carries the non-empty unseen records; an update carries all current records; a resolution carries none |
| Gtfs.NewMasksResolution | sl_monitor_gtfs.py:299-309 | a new alert together with a vanished one is reported as new only |
| Gtfs.TitleCases | sl_monitor_gtfs.py:195-202 | new, updated, ongoing and resolved have four distinct titles; any other type gets the resolved title |
| Gtfs.TitleNamesLine | sl_monitor_gtfs.py:195-202 | every title names line 29 |
| Gtfs.FormattedAppend | sl_monitor_gtfs.py:172-189 | the message of a longer record list extends the shorter one by the next blocks, numbered on from 1 |
| Gtfs.AppendPeriods | sl_monitor_gtfs.py:182-187 | the period loop appends a "Från:" and a "Till:" line per period, omitting empty bounds |
| Gtfs.AppendBlockHead | sl_monitor_gtfs.py:173-180 | appends the record number, the header, and the description cut to 300 characters when present |
| Gtfs.FormatDisruptionMessage | sl_monitor_gtfs.py:168-191 | the message is the blocks of all records, numbered from 1 |
| Gtfs.Body | sl_monitor_gtfs.py:204-208 | the message opens with the title on its own line; with records it ends with the traffic-page address, without them with "Alla störningar på Näsbyparkslinjen har lösts!" |
| Gtfs.BodyListsRecords | sl_monitor_gtfs.py:204-206 | the block of every record, numbered by its position from 1, occurs in the message |
| Gtfs.Outgoing | sl_monitor_gtfs.py:193-217 | two deliveries (desktop, then e-mail) for new and updated, one (desktop) for ongoing and resolved; every delivery has the type's title and body, and the fixed "har lösts!" body when there are no records |
| Gtfs.AlertIds | sl_monitor_gtfs.py:159 | the saved ids are the records' ids, position by position |
| Gtfs.PreviousIds | sl_monitor_gtfs.py:294-295 | a missing or unreadable state file, or one without "alert_ids", gives no previous ids |
| Gtfs.AlertIdsCollectIds | sl_monitor_gtfs.py:159 | the saved id list holds exactly the ids of the records |
| Gtfs.SaveState | sl_monitor_gtfs.py:154-160 | the state holds the time stamp and the records, and its ids load back as the id set of the records |
| Gtfs.RerunIsSilent | sl_monitor_gtfs.py:294-320 | a second run on the same records after a saved run sends nothing |
| Gtfs.Monitor.SendNotification | sl_monitor_gtfs.py:193-217 | appends exactly the deliveries the notice calls for |
| Gtfs.Monitor.RunCycle | sl_monitor_gtfs.py:279-321 | a failed fetch changes nothing; otherwise the state holds the current records and their ids, and the deliveries are those of the decided notice |
| Simple.LineNameTestIsDead | sl_monitor_simple.py:90 | the mixed-case line-name test against lower-cased text never succeeds |
| Simple.ScrapePage | sl_monitor_simple.py:85-104 | the page is flagged iff "29" occurs and the lower-cased page says "störning" or "förseningar" |
| Simple.Matching | sl_monitor_simple.py:137-149 | no more records than events; every record comes from an event whose Message or Expanded names the line, and every such event yields its record |
| Simple.MatchingCount | sl_monitor_simple.py:137-149 | there is exactly one record per event that names the line |
| Simple.AppendMatching | sl_monitor_simple.py:136-149 | the event loop appends the records of the matching events, in order |
| Simple.PerBusRepeats | sl_monitor_simple.py:133-149 | an item's matching events are reported once per "bus" entry of its traffic types |
| Simple.BusCountCounts | sl_monitor_simple.py:133-135 | an item has a positive number of "bus" entries exactly when some entry is "bus" |
| Simple.RepeatMembers | sl_monitor_simple.py:133-149 | a list repeated n times holds exactly the list's elements when n is positive, and nothing otherwise |
| Simple.ItemRecords | sl_monitor_simple.py:132-149 | an item contributes a record exactly when it has a "bus" entry and the record is that of one of its matching events |
| Simple.ApiRecords | sl_monitor_simple.py:129-149 | a record is returned exactly when some response item contributes it |
| Simple.Filtered | sl_monitor_simple.py:111-151 | a scrape gives one placeholder record, stamped with the given time, iff flagged, and none otherwise; an API answer gives exactly the records its items contribute, and none without "ResponseData" |
| Simple.FilterLine29 | sl_monitor_simple.py:111-151 | the three nested loops return exactly the filtered records; a scrape yields one placeholder record iff flagged |
| Simple.Classify | sl_monitor_simple.py:256-279 | new iff records now and a previous count of 0; updated iff records now and a different non-zero previous count; ongoing iff equal positive counts; resolved iff none now and a positive previous count |
| Simple.Decide | sl_monitor_simple.py:260-279 | no notice iff ongoing or quiet; a resolution carries no records, every other notice all current records |
| Simple.TitleCases | sl_monitor_simple.py:179-184 | new and resolved have their own titles, distinct from the generic one every other type, updated included, shares |
| Simple.TitleNamesLine | sl_monitor_simple.py:179-184 | every title names line 29 |
| Simple.Message | sl_monitor_simple.py:186-198 | the message opens with the title and a blank line; with records it ends with the traffic-page address, without them with "Alla störningar på Näsbyparkslinjen har lösts!" |
| Simple.MessageListsRecords | sl_monitor_simple.py:186-196 | the entry of every record, numbered by its position from 1, occurs in the message |
| Simple.AppendEntry | sl_monitor_simple.py:189-195 | appends the record's number and header line, its details cut to 200 characters when present, and a blank line |
| Simple.ComposeMessage | sl_monitor_simple.py:186-198 | the message loop numbers records from 1 and cuts details to 200 characters, or gives the fixed "har lösts!" text |
| Simple.Outgoing | sl_monitor_simple.py:177-204 | exactly one e-mail for new and resolved, none for any other type; it carries the type's title and message |
| Simple.PreviousCount | sl_monitor_simple.py:255-256 | a missing or unreadable state file, or one without "count", gives a previous count of 0 |
| Simple.SaveState | sl_monitor_simple.py:163-169 | the state holds the time stamp and the records, and its count loads back as the number of records |
| Simple.SameCountIsSilent | sl_monitor_simple.py:256-282 | after a saved run, a list of the same length sends nothing, even when every record differs |
| Simple.CountChangeIsUnmailedUpdate | sl_monitor_simple.py:265-268 | a changed positive count is an update, and an update is not e-mailed |
| Simple.Monitor.SendNotification | sl_monitor_simple.py:177-204 | appends exactly the deliveries the notice calls for |
| Simple.Monitor.RunCycle | sl_monitor_simple.py:237-283 | a failed fetch changes nothing; otherwise the state holds the current records (a placeholder stamped by the filter's clock reading), their count and save_state's own clock reading, and the deliveries are those of the decided notice |
| UltraSimple.KeptUpTo | sl_monitor_ultra_simple.py:64-71 | every kept entry is the excerpt of a line containing "29" or "näsbypark" whose window is longer than 50 characters, and every such line's excerpt is kept; entries are 51 to 300 characters long |
| UltraSimple.Excerpt | sl_monitor_ultra_simple.py:67-71 | the excerpt of a qualifying line is more than 50 and at most 300 characters long |
| UltraSimple.KeepsExactlyStep | sl_monitor_ultra_simple.py:64-71 | one more line keeps the entry list exact, adding its excerpt only when the line qualifies |
| UltraSimple.KeptCount | sl_monitor_ultra_simple.py:64-71 | there is exactly one entry per qualifying line |
| UltraSimple.ContextOf | sl_monitor_ultra_simple.py:75 | one or two entries: the first two kept windows, or "Störning upptäckt" when none was kept |
| UltraSimple.ScanOf | sl_monitor_ultra_simple.py:46-83 | flagged iff the lower-cased page mentions the line and a disruption word; a flagged page has 1 or 2 context entries of at most 300 characters |
| UltraSimple.CollectContext | sl_monitor_ultra_simple.py:61-71 | the context loop keeps exactly the windows of the specification |
| UltraSimple.CheckForDisruptions | sl_monitor_ultra_simple.py:46-83 | the check computes the specified scan |
| UltraSimple.Classify | sl_monitor_ultra_simple.py:173-209 | new iff flagged now and not before; resolved iff flagged before and not now; otherwise ongoing or quiet |
| UltraSimple.NewBody | sl_monitor_ultra_simple.py:178-187 | the "new" body opens by naming the line and ends with "Upptäckt: " and the detection time |
| UltraSimple.ResolvedBody | sl_monitor_ultra_simple.py:196-199 | the "resolved" body opens by calling the line's disruption resolved and ends with "Löst: " and the resolution time |
| UltraSimple.NewBodyListsContext | sl_monitor_ultra_simple.py:178-187 | every context entry appears in the "new" body as its own "- " line |
| UltraSimple.ComposeNewBody | sl_monitor_ultra_simple.py:178-187 | the `+=` steps build the specified "new" body |
| UltraSimple.Outgoing | sl_monitor_ultra_simple.py:173-201 | exactly one e-mail for a new or resolved disruption, none otherwise |
| UltraSimple.HadDisruption | sl_monitor_ultra_simple.py:169 | the previous flag is true only when a readable file saved true |
| UltraSimple.FlagRoundTrip | sl_monitor_ultra_simple.py:105-110 | the saved flag reads back; the same verdict next time sends nothing, the opposite one exactly one e-mail |
| UltraSimple.Monitor.Notify | sl_monitor_ultra_simple.py:173-201 | appends exactly the e-mails for the transition |
| UltraSimple.Monitor.RunCycle | sl_monitor_ultra_simple.py:153-215 | a failed fetch changes nothing; otherwise the state holds the current flag, and the e-mails are those of the transition |

## Left out

- Fetching is not modelled. This covers HTTP requests, status codes, timeouts and User-Agent
  headers. The fetched feed, JSON object or page is a parameter, and `None` stands for a
  failed fetch.
- The API-key and fallback chain of `fetch_disruptions` in `sl_monitor_simple.py` is not
  modelled. `Simple.Fetched` is whichever answer that chain returned.
- Protobuf decoding and `response.json()` are not modelled. Feeds and JSON trees are
  datatypes, and `Option` fields stand for `HasField` and `.get`. JSON values of unexpected
  types, and the exceptions they would raise, are not modelled.
- Reading and writing `sl_state.json`, `mkdir`, the log file and `print` are not modelled. A
  failed write is not modelled: the state is always saved.
- E-mail configuration, SMTP and MIME are not modelled. So are the desktop commands and the
  desktop message cut to five lines and 300 characters. A delivery records its channel, title
  and body as attempted, whether or not e-mail is configured.
- Clocks are not modelled. `datetime.now()` and the `strftime` stamps are opaque string
  parameters, one per clock reading. `datetime.fromtimestamp(t).isoformat()` is the parameter
  `iso`.
- Gtfs.FilterLine29: treats `datetime.fromtimestamp` as total. For a period bound it cannot
  convert (a year beyond 9999, such as 253402300800 or more) Python raises, and `run()` ends
  with nothing sent and no state saved; the model instead renders the bound with `iso`.
- Gtfs.Monitor.RunCycle: for the same reason, a feed with such a bound leads in the model to a
  saved state and possibly deliveries, where the script stops with an exception.
- Text.Lower: folds only ASCII capitals and the Latin-1 capitals À–Þ, not all of Unicode.
  Every fact that needs more, such as the dead line-name test, needs only that no capital
  'N' survives.
- Simple.ComposeMessage: the `'Störning'` default for a missing header is not modelled.
  Every record `filter_line_29` builds has a header, so the default never applies.
- The `__main__` entry points and the scheduling of runs are not modelled.
