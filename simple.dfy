/** The simplified variant (sl_monitor_simple.py): disruptions come from SL's
    traffic-situation JSON or, failing that, from a text test on the scraped
    traffic page; only the NUMBER of line-29 records is compared with the
    previous run, and new and resolved disruptions are e-mailed. */
module Simple {
  import opened Common
  import opened Text

  // ---------------------------------------------------------------------------
  // SL's traffic-situation JSON, as far as filter_line_29 reads it. A key that
  // `.get()` may miss is an Option.

  datatype Event = Event(
    message: Option<string>,
    expanded: Option<string>,
    severityCode: Option<int>,
    created: Option<string>)
  datatype TrafficType = TrafficType(typeName: Option<string>)
  datatype Item = Item(trafficTypes: Option<seq<TrafficType>>, events: Option<seq<Event>>)

  /** What fetch_disruptions hands on: the verdict of the scraped page
      (`{"has_disruption": …, "source": "website_scraping"}`) or the API's
      JSON object, whose `ResponseData` key may be absent. */
  datatype Fetched = Scraped(hasDisruption: bool) | Api(responseData: Option<seq<Item>>)

  /** A disruption record; `severity` is absent from the scraped placeholder. */
  datatype Record = Record(header: string, details: string, severity: Option<int>, timestamp: string)

  // ---------------------------------------------------------------------------
  // The text test of scrape_sl_website.

  /** The line-name half of the page test looks for the mixed-case
      "Näsbyparkslinjen" in lower-cased text, which never contains 'N'. */
  lemma LineNameTestIsDead(content: string)
    ensures !Contains(Lower(content), LineName)
  {
    LowerHasNoCapital(content, 'N');
    assert LineName[0] == 'N';
    ContainsNeedsChar(Lower(content), LineName, 'N');
  }

  /** scrape_sl_website on a page fetched with status 200: the page is flagged
      exactly when "29" occurs in it and its lower-cased text speaks of a
      "störning" or of "förseningar". */
  function ScrapePage(content: string): (f: Fetched)
    ensures f.Scraped?
    ensures f.hasDisruption <==>
      Contains(content, "29") && (Contains(Lower(content), "störning") || Contains(Lower(content), "förseningar"))
  {
    LineNameTestIsDead(content);
    var mentions29 := Contains(content, LineToMonitor) || Contains(Lower(content), LineName);
    var hasDisruption := Contains(Lower(content), "störning") || Contains(Lower(content), "förseningar");
    Scraped(mentions29 && hasDisruption)
  }

  // ---------------------------------------------------------------------------
  // filter_line_29.

  const PlaceholderHeader := "Möjlig störning upptäckt"
  const PlaceholderDetails := "Linje 29 nämns på SL:s störningssida. Kontrollera sl.se för detaljer."

  /** An event whose Message or Expanded text names line 29 or, ignoring
      case, the line's name. */
  predicate EventMentionsLine(e: Event) {
    var message := e.message.GetOr("");
    var expanded := e.expanded.GetOr("");
    Contains(message, LineToMonitor) || Contains(expanded, LineToMonitor)
    || Contains(Lower(message), Lower(LineName)) || Contains(Lower(expanded), Lower(LineName))
  }

  function RecordOf(e: Event): Record {
    Record(e.message.GetOr(""), e.expanded.GetOr(""), Some(e.severityCode.GetOr(0)), e.created.GetOr(""))
  }

  /** The records of the events that mention the line, in order: every record
      comes from such an event, and every such event yields its record. */
  function Matching(events: seq<Event>): (r: seq<Record>)
    ensures |r| <= |events|
    ensures forall d :: d in r ==> exists e :: e in events && EventMentionsLine(e) && d == RecordOf(e)
    ensures forall e :: e in events && EventMentionsLine(e) ==> RecordOf(e) in r
    decreases |events|
  {
    if events == [] then []
    else
      var init := events[..|events| - 1];
      var e := events[|events| - 1];
      assert forall x :: x in events ==> x in init || x == e;
      Matching(init) + (if EventMentionsLine(e) then [RecordOf(e)] else [])
  }

  /** The number of events that mention the line. */
  function MentionCount(events: seq<Event>): nat
    decreases |events|
  {
    if events == [] then 0
    else MentionCount(events[..|events| - 1]) + (if EventMentionsLine(events[|events| - 1]) then 1 else 0)
  }

  /** Exactly one record per event that mentions the line. */
  lemma {:induction false} MatchingCount(events: seq<Event>)
    ensures |Matching(events)| == MentionCount(events)
    decreases |events|
  {
    if events != [] {
      MatchingCount(events[..|events| - 1]);
    }
  }

  predicate IsBus(t: TrafficType) {
    t.typeName == Some("bus")
  }

  /** An item with at least one "bus" entry among its traffic types. */
  predicate HasBus(item: Item) {
    item.trafficTypes.Some? && exists t :: t in item.trafficTypes.value && IsBus(t)
  }

  /** The records one item contributes: its matching events once for every
      "bus" entry among its traffic types. */
  function PerBus(types: seq<TrafficType>, events: seq<Event>): seq<Record>
    decreases |types|
  {
    if types == [] then []
    else
      PerBus(types[..|types| - 1], events) + (if IsBus(types[|types| - 1]) then Matching(events) else [])
  }

  /** The records of one item: those of its matching events when it lists a
      "bus" entry, none otherwise. */
  function ItemRecords(item: Item): (r: seq<Record>)
    ensures forall d :: d in r <==> HasBus(item) && d in Matching(item.events.GetOr([]))
  {
    if item.trafficTypes.Some? then
      var types := item.trafficTypes.value;
      var events := item.events.GetOr([]);
      PerBusRepeats(types, events);
      BusCountCounts(types);
      RepeatMembers(Matching(events), BusCount(types));
      PerBus(types, events)
    else []
  }

  /** The records of the response items, item by item: a record is reported
      exactly when one of the items contributes it. */
  function ApiRecords(items: seq<Item>): (r: seq<Record>)
    ensures forall d :: d in r <==> exists i :: 0 <= i < |items| && d in ItemRecords(items[i])
    decreases |items|
  {
    if items == [] then []
    else
      var init := items[..|items| - 1];
      assert forall i :: 0 <= i < |init| ==> init[i] == items[i];
      ApiRecords(init) + ItemRecords(items[|items| - 1])
  }

  /** The records filter_line_29 returns; `now` is the placeholder's time stamp.
      A scrape gives the placeholder exactly when it flagged the page; the API
      answer gives the records its items contribute. */
  function Filtered(data: Fetched, now: string): (r: seq<Record>)
    ensures data.Scraped? ==>
      |r| == (if data.hasDisruption then 1 else 0)
      && forall d :: d in r ==> d == Record(PlaceholderHeader, PlaceholderDetails, None, now)
    ensures data.Api? ==> forall d :: d in r <==>
      data.responseData.Some? && exists i :: 0 <= i < |data.responseData.value| && d in ItemRecords(data.responseData.value[i])
  {
    match data
    case Scraped(flagged) => if flagged then [Record(PlaceholderHeader, PlaceholderDetails, None, now)] else []
    case Api(responseData) => if responseData.Some? then ApiRecords(responseData.value) else []
  }

  /** The number of "bus" entries among the traffic types. */
  function BusCount(types: seq<TrafficType>): nat
    decreases |types|
  {
    if types == [] then 0 else BusCount(types[..|types| - 1]) + (if IsBus(types[|types| - 1]) then 1 else 0)
  }

  /** Some entry is "bus" exactly when the count of "bus" entries is positive. */
  lemma {:induction false} BusCountCounts(types: seq<TrafficType>)
    ensures BusCount(types) > 0 <==> exists t :: t in types && IsBus(t)
    decreases |types|
  {
    if types != [] {
      var init := types[..|types| - 1];
      BusCountCounts(init);
      assert forall t :: t in types <==> t in init || t == types[|types| - 1];
    }
  }

  /** `s` repeated `n` times. */
  function Repeat<T>(s: seq<T>, n: nat): seq<T> {
    if n == 0 then [] else Repeat(s, n - 1) + s
  }

  /** A repetition holds the repeated elements, and nothing when repeated zero times. */
  lemma {:induction false} RepeatMembers<T>(s: seq<T>, n: nat)
    ensures forall x :: x in Repeat(s, n) <==> n > 0 && x in s
    decreases n
  {
    if n > 0 {
      RepeatMembers(s, n - 1);
    }
  }

  /** An item's matching events are reported once per "bus" entry of the item,
      so an item listing "bus" twice reports each of its events twice. */
  lemma {:induction false} PerBusRepeats(types: seq<TrafficType>, events: seq<Event>)
    ensures PerBus(types, events) == Repeat(Matching(events), BusCount(types))
    decreases |types|
  {
    if types != [] {
      PerBusRepeats(types[..|types| - 1], events);
    }
  }

  /** The event loop of filter_line_29 for one "bus" entry: the records of
      the events that mention the line, appended in order. */
  method AppendMatching(prefix: seq<Record>, events: seq<Event>) returns (disruptions: seq<Record>)
    ensures disruptions == prefix + Matching(events)
  {
    disruptions := prefix;
    for k := 0 to |events|
      invariant disruptions == prefix + Matching(events[..k])
    {
      var event := events[k];
      var message := event.message.GetOr("");
      var expanded := event.expanded.GetOr("");
      assert events[..k + 1][..k] == events[..k];
      if Contains(message, LineToMonitor) || Contains(expanded, LineToMonitor)
         || Contains(Lower(message), Lower(LineName)) || Contains(Lower(expanded), Lower(LineName)) {
        AppendAssoc(prefix, Matching(events[..k]), [RecordOf(event)]);
        disruptions := disruptions + [Record(message, expanded, Some(event.severityCode.GetOr(0)), event.created.GetOr(""))];
      }
    }
    assert events[..|events|] == events;
  }

  /** filter_line_29. */
  method FilterLine29(data: Fetched, now: string) returns (disruptions: seq<Record>)
    ensures disruptions == Filtered(data, now)
    ensures data.Scraped? ==> |disruptions| == if data.hasDisruption then 1 else 0
  {
    if data.Scraped? {
      if data.hasDisruption {
        return [Record(PlaceholderHeader, PlaceholderDetails, None, now)];
      }
      return [];
    }

    disruptions := [];
    if data.responseData.Some? {
      var items := data.responseData.value;
      for i := 0 to |items|
        invariant disruptions == ApiRecords(items[..i])
      {
        var item := items[i];
        assert items[..i + 1][..i] == items[..i];
        ghost var done := disruptions;
        if item.trafficTypes.Some? {
          var types := item.trafficTypes.value;
          var events := item.events.GetOr([]);
          for j := 0 to |types|
            invariant disruptions == done + PerBus(types[..j], events)
          {
            assert types[..j + 1][..j] == types[..j];
            if types[j].typeName == Some("bus") {
              disruptions := AppendMatching(disruptions, events);
              AppendAssoc(done, PerBus(types[..j], events), Matching(events));
            }
          }
          assert types[..|types|] == types;
        }
      }
      assert items[..|items|] == items;
    }
  }

  // ---------------------------------------------------------------------------
  // Reconciliation by count.

  /** The change one cycle reports; NoDisruption is the quiet "no disruptions
      before or now" case. */
  datatype Transition = New | Updated | Ongoing | Resolved | NoDisruption

  /** The branch run() takes for the previous and the current count. */
  function Classify(previousCount: int, currentCount: nat): (t: Transition)
    ensures t == New <==> currentCount > 0 && previousCount == 0
    ensures t == Updated <==> currentCount > 0 && previousCount != 0 && currentCount != previousCount
    ensures t == Ongoing <==> currentCount > 0 && currentCount == previousCount
    ensures t == Resolved <==> currentCount == 0 && previousCount > 0
    ensures t == NoDisruption <==> currentCount == 0 && previousCount <= 0
  {
    if currentCount > 0 then
      if previousCount == 0 then New
      else if currentCount != previousCount then Updated
      else Ongoing
    else if previousCount > 0 then Resolved
    else NoDisruption
  }

  /** A notification: its type and the records it reports. */
  datatype Notice = Notice(kind: Transition, records: seq<Record>)

  /** What run() sends: every current record for a new or updated state,
      no records for a resolution, nothing otherwise. */
  function Decide(previousCount: int, current: seq<Record>): (n: Option<Notice>)
    ensures n.None? <==> Classify(previousCount, |current|) in {Ongoing, NoDisruption}
    ensures n.Some? ==> n.value.kind == Classify(previousCount, |current|)
    ensures n.Some? ==> n.value.records == if n.value.kind == Resolved then [] else current
  {
    match Classify(previousCount, |current|)
    case New => Some(Notice(New, current))
    case Updated => Some(Notice(Updated, current))
    case Resolved => Some(Notice(Resolved, []))
    case _ => None
  }

  // ---------------------------------------------------------------------------
  // Composing the notification.

  /** The title send_notification picks for a notification type. */
  function Title(kind: Transition): string {
    match kind
    case New => "⚠️ NY störning på linje " + LineToMonitor + " (" + LineName + ")"
    case Resolved => "✅ Störning löst på linje " + LineToMonitor
    case _ => "ℹ️ Störning på linje " + LineToMonitor
  }

  /** New and resolved disruptions have their own titles; every other type,
      an update included, shares the generic one. */
  lemma TitleCases(kind: Transition)
    ensures kind !in {New, Resolved} ==> Title(kind) == Title(Updated)
    ensures Title(New) != Title(Resolved) && Title(New) != Title(Updated) && Title(Resolved) != Title(Updated)
  {
    assert Title(New)[0] == '⚠' && Title(Resolved)[0] == '✅' && Title(Updated)[0] == 'ℹ';
  }

  /** Every title names the line. */
  lemma TitleNamesLine(kind: Transition)
    ensures Contains(Title(kind), LineToMonitor)
  {
    match kind
    case New =>
      var named := "⚠️ NY störning på linje " + LineToMonitor;
      ContainsSuffix("⚠️ NY störning på linje ", LineToMonitor);
      ContainsAppend(named, " (", LineToMonitor);
      ContainsAppend(named + " (", LineName, LineToMonitor);
      ContainsAppend(named + " (" + LineName, ")", LineToMonitor);
    case Resolved => ContainsSuffix("✅ Störning löst på linje ", LineToMonitor);
    case _ => ContainsSuffix("ℹ️ Störning på linje ", LineToMonitor);
  }

  /** The lines send_notification writes for record number `idx`: the header,
      then the details cut to 200 characters when there are any. */
  function Entry(idx: nat, d: Record): string {
    (NatToString(idx) + ". " + d.header + "\n")
    + (if d.details != "" then "   " + Ellipsize(d.details, 200) + "\n" else "")
    + "\n"
  }

  /** The message send_notification logs and e-mails: the title and a blank
      line, then either the numbered records followed by the traffic-page
      address, or the fixed "all resolved" sentence. */
  function Message(title: string, disruptions: seq<Record>): (m: string)
    ensures StartsWith(m, title + "\n\n")
    ensures disruptions != [] ==> EndsWith(m, "\nKontrollera: " + TrafficUrl)
    ensures disruptions == [] ==> EndsWith(m, AllResolved)
  {
    var head := title + "\n\n";
    if disruptions != [] then
      var entries := Numbered(Entry, disruptions, 1);
      var tail := "\nKontrollera: " + TrafficUrl;
      Affixes(head, entries);
      StartsWithExtend(head + entries, head, tail);
      Affixes(head + entries, tail);
      head + entries + tail
    else
      Affixes(head, AllResolved);
      head + AllResolved
  }

  /** Every record's entry, numbered by its position from 1, is in the message. */
  lemma MessageListsRecords(title: string, disruptions: seq<Record>, i: nat)
    requires i < |disruptions|
    ensures Contains(Message(title, disruptions), Entry(i + 1, disruptions[i]))
  {
    var entries := Numbered(Entry, disruptions, 1);
    var entry := Entry(i + 1, disruptions[i]);
    NumberedContains(Entry, disruptions, 1, i);
    ContainsPrepend(title + "\n\n", entries, entry);
    ContainsAppend(title + "\n\n" + entries, "\nKontrollera: " + TrafficUrl, entry);
  }

  /** The lines send_notification appends for record number `idx`. */
  method AppendEntry(prefix: string, idx: nat, d: Record) returns (message: string)
    ensures message == prefix + Entry(idx, d)
  {
    ghost var headerLine := NatToString(idx) + ". " + d.header + "\n";
    ghost var detailsLine := if d.details != "" then "   " + Ellipsize(d.details, 200) + "\n" else "";
    message := prefix + (NatToString(idx) + ". " + d.header + "\n");
    if d.details != "" {
      var details := d.details;
      if |details| > 200 {
        details := details[..200] + "...";
      }
      message := message + ("   " + details + "\n");
    }
    message := message + "\n";
    assert message == prefix + headerLine + detailsLine + "\n";
    AppendAssoc(prefix, headerLine, detailsLine);
    AppendAssoc(prefix, headerLine + detailsLine, "\n");
  }

  /** The message part of send_notification. */
  method ComposeMessage(title: string, disruptions: seq<Record>) returns (message: string)
    ensures message == Message(title, disruptions)
  {
    if disruptions == [] {
      message := title + "\n\n" + AllResolved;
      return;
    }
    message := title + "\n\n";
    for i := 0 to |disruptions|
      invariant message == title + "\n\n" + Numbered(Entry, disruptions[..i], 1)
    {
      var d := disruptions[i];
      message := AppendEntry(message, i + 1, d);
      NumberedSnoc(Entry, disruptions[..i], d, 1);
      AppendAssoc(title + "\n\n", Numbered(Entry, disruptions[..i], 1), Entry(i + 1, d));
      assert disruptions[..i + 1] == disruptions[..i] + [d];
    }
    assert disruptions[..|disruptions|] == disruptions;
    message := message + ("\nKontrollera: " + TrafficUrl);
  }

  /** The deliveries send_notification attempts: one e-mail for a new or a
      resolved disruption, nothing for any other type. */
  function Outgoing(n: Notice): (r: seq<Dispatch>)
    ensures |r| == if n.kind in {New, Resolved} then 1 else 0
    ensures forall x :: x in r ==> x == Dispatch(Email, Title(n.kind), Message(Title(n.kind), n.records))
  {
    if n.kind in {New, Resolved} then [Dispatch(Email, Title(n.kind), Message(Title(n.kind), n.records))] else []
  }

  // ---------------------------------------------------------------------------
  // The state file.

  /** The JSON object in sl_state.json; `count` is None when the key is absent
      (a file written by another variant of the monitor). */
  datatype SavedState = SavedState(timestamp: string, disruptions: seq<Record>, count: Option<int>)

  /** `load_previous_state().get("count", 0)`: a missing or unreadable file
      (`None`) and a file without the key both give 0. */
  function PreviousCount(file: Option<SavedState>): (c: int)
    ensures file.None? ==> c == 0
    ensures file.Some? && file.value.count.None? ==> c == 0
  {
    if file.Some? then file.value.count.GetOr(0) else 0
  }

  /** What save_state writes: the time stamp, the records, and a count that
      loads back as the number of records. */
  function SaveState(now: string, disruptions: seq<Record>): (r: SavedState)
    ensures r.timestamp == now && r.disruptions == disruptions
    ensures PreviousCount(Some(r)) == |disruptions|
  {
    SavedState(now, disruptions, Some(|disruptions|))
  }

  /** Only the count is compared: after a saved run, any list of the same
      positive length sends nothing, even when every record differs. */
  lemma SameCountIsSilent(now: string, saved: seq<Record>, current: seq<Record>)
    requires |saved| == |current|
    ensures Decide(PreviousCount(Some(SaveState(now, saved))), current).None?
  {
  }

  /** Any change in the number of records after a saved run with records is
      an update, and an update is not e-mailed. */
  lemma CountChangeIsUnmailedUpdate(now: string, saved: seq<Record>, current: seq<Record>)
    requires saved != [] && current != [] && |saved| != |current|
    ensures Decide(PreviousCount(Some(SaveState(now, saved))), current) == Some(Notice(Updated, current))
    ensures Outgoing(Notice(Updated, current)) == []
  {
  }

  // ---------------------------------------------------------------------------
  // The monitor.

  /** SLMonitorSimple with the state file it owns and the e-mails it has sent. */
  class Monitor {
    /** sl_state.json; None when it is missing or cannot be read. */
    var stateFile: Option<SavedState>
    /** Every delivery attempted so far, in order. */
    var outbox: seq<Dispatch>

    constructor (stateFile: Option<SavedState>)
      ensures this.stateFile == stateFile && outbox == []
    {
      this.stateFile := stateFile;
      outbox := [];
    }

    /** send_notification. */
    method SendNotification(disruptions: seq<Record>, kind: Transition)
      modifies this`outbox
      ensures outbox == old(outbox) + Outgoing(Notice(kind, disruptions))
    {
      var title := Title(kind);
      var message := ComposeMessage(title, disruptions);
      if kind == New || kind == Resolved {
        outbox := outbox + [Dispatch(Email, title, message)];
      }
    }

    /** run(): one polling cycle. `data` is None when every fetch failed;
        `recordStamp` is the clock reading filter_line_29 gives a placeholder
        record and `now` the one save_state writes. */
    method RunCycle(data: Option<Fetched>, recordStamp: string, now: string)
      modifies this
      ensures data.None? ==> stateFile == old(stateFile) && outbox == old(outbox)
      ensures data.Some? ==>
        var current := Filtered(data.value, recordStamp);
        && stateFile == Some(SaveState(now, current))
        && outbox == old(outbox) + match Decide(PreviousCount(old(stateFile)), current)
                                   case None => []
                                   case Some(n) => Outgoing(n)
    {
      if data.None? {
        return;
      }
      var currentDisruptions := FilterLine29(data.value, recordStamp);

      var previousCount := PreviousCount(stateFile);
      var currentCount := |currentDisruptions|;

      if currentCount > 0 {
        if previousCount == 0 {
          SendNotification(currentDisruptions, New);
        } else if currentCount != previousCount {
          SendNotification(currentDisruptions, Updated);
        }
      } else if previousCount > 0 {
        SendNotification([], Resolved);
      }

      stateFile := Some(SaveState(now, currentDisruptions));
    }
  }
}
