/** The GTFS-Realtime variant (sl_monitor_gtfs.py): service alerts from a
    GTFS-Realtime feed are narrowed to those naming a route id that contains
    "29" (line 29, but also e.g. 129 or 290), compared by alert id with the
    ids persisted by the previous run, and a desktop notification (plus an
    e-mail for new and updated alerts) is composed for the change. */
module Gtfs {
  import opened Common
  import opened Text

  // ---------------------------------------------------------------------------
  // The parts of a GTFS-Realtime FeedMessage that filter_line_29 reads.
  // An absent optional protobuf field (`HasField` false) is `None`.

  datatype Translation = Translation(text: string, language: string)
  datatype EntitySelector = EntitySelector(routeId: Option<string>)
  /** POSIX times, in seconds. */
  datatype TimeRange = TimeRange(start: Option<nat>, end: Option<nat>)
  datatype Alert = Alert(
    activePeriod: seq<TimeRange>,
    informedEntity: seq<EntitySelector>,
    cause: Option<int>,
    effect: Option<int>,
    headerText: Option<seq<Translation>>,
    descriptionText: Option<seq<Translation>>)
  datatype FeedEntity = FeedEntity(id: string, alert: Option<Alert>)
  datatype FeedMessage = FeedMessage(entity: seq<FeedEntity>)

  // ---------------------------------------------------------------------------
  // Disruption records, as filter_line_29 builds them and save_state stores them.

  /** An active period with its bounds already rendered as ISO-8601 text; an absent bound is "". */
  datatype Period = Period(start: string, end: string)

  datatype Disruption = Disruption(
    alertId: string,
    header: string,
    description: string,
    activePeriods: seq<Period>,
    cause: int,
    effect: int)

  // ---------------------------------------------------------------------------
  // Filtering the feed.

  /** The route test of filter_line_29: the route id contains "29" or equals it. */
  predicate RouteMatches(routeId: string) {
    Contains(routeId, LineToMonitor) || routeId == LineToMonitor
  }

  /** An informed entity whose route id contains "29". */
  predicate Selects(sel: EntitySelector) {
    sel.routeId.Some? && RouteMatches(sel.routeId.value)
  }

  predicate AffectsLine(alert: Alert) {
    exists sel :: sel in alert.informedEntity && Selects(sel)
  }

  /** The feed entities filter_line_29 turns into records. */
  predicate Kept(e: FeedEntity) {
    e.alert.Some? && AffectsLine(e.alert.value)
  }

  /** The equality half of the route test adds nothing: a route is matched
      exactly when "29" occurs in its id, so "SL:29" and "129" both match. */
  lemma RouteMatchesIffSubstring(routeId: string)
    ensures RouteMatches(routeId) <==> Contains(routeId, "29")
    ensures RouteMatches("SL:29") && RouteMatches("129") && !RouteMatches("2")
  {
    assert Contains("29", "29");
    assert "SL:29"[1..] == "L:29" && "L:29"[1..] == ":29" && ":29"[1..] == "29";
    assert "129"[1..] == "29";
  }

  /** The text the translation loop settles on: a translation replaces the text
      chosen so far when it is Swedish or when nothing non-empty is chosen yet. */
  function Chosen(ts: seq<Translation>): (r: string)
    ensures (forall i :: 0 <= i < |ts| ==> ts[i].text == "") ==> r == ""
    ensures r != "" ==> exists i :: 0 <= i < |ts| && ts[i].text == r
    decreases |ts|
  {
    if ts == [] then ""
    else
      var init := ts[..|ts| - 1];
      var before := Chosen(init);
      var t := ts[|ts| - 1];
      assert forall i :: 0 <= i < |init| ==> init[i] == ts[i];
      if t.language == "sv" || before == "" then t.text else before
  }

  /** A Swedish translation with empty text erases whatever was chosen before
      it, so a header that is empty in Swedish falls back to "Störning". */
  lemma EmptySwedishErases(ts: seq<Translation>, t: Translation)
    requires t.language == "sv" && t.text == ""
    ensures Chosen(ts + [t]) == ""
  {
    assert (ts + [t])[..|ts + [t]| - 1] == ts;
  }

  /** The first non-empty translation text, "" when there is none. */
  function FirstNonEmpty(ts: seq<Translation>): string
    decreases |ts|
  {
    if ts == [] then "" else if ts[0].text != "" then ts[0].text else FirstNonEmpty(ts[1..])
  }

  lemma {:induction false} FirstNonEmptySnoc(ts: seq<Translation>, t: Translation)
    ensures FirstNonEmpty(ts + [t]) == if FirstNonEmpty(ts) != "" then FirstNonEmpty(ts) else t.text
    decreases |ts|
  {
    if ts == [] {
      assert ts + [t] == [t];
    } else {
      assert (ts + [t])[1..] == ts[1..] + [t];
      FirstNonEmptySnoc(ts[1..], t);
    }
  }

  /** Without a Swedish translation the first non-empty text is kept. */
  lemma {:induction false} ChosenWithoutSwedish(ts: seq<Translation>)
    requires forall i :: 0 <= i < |ts| ==> ts[i].language != "sv"
    ensures Chosen(ts) == FirstNonEmpty(ts)
    decreases |ts|
  {
    if ts != [] {
      var init := ts[..|ts| - 1];
      ChosenWithoutSwedish(init);
      FirstNonEmptySnoc(init, ts[|ts| - 1]);
      assert init + [ts[|ts| - 1]] == ts;
    }
  }

  /** A non-empty Swedish translation overrides whatever was chosen before it,
      and stays chosen when no Swedish translation follows it. */
  lemma {:induction false} ChosenSwedish(ts: seq<Translation>, k: nat)
    requires k < |ts| && ts[k].language == "sv" && ts[k].text != ""
    requires forall i :: k < i < |ts| ==> ts[i].language != "sv"
    ensures Chosen(ts) == ts[k].text
    decreases |ts|
  {
    if k < |ts| - 1 {
      var init := ts[..|ts| - 1];
      ChosenSwedish(init, k);
    }
  }

  /** The text of an optional translated string; "" when the field is absent. */
  function TextOf(field: Option<seq<Translation>>): string {
    if field.Some? then Chosen(field.value) else ""
  }

  function PeriodOf(p: TimeRange, iso: nat -> string): Period {
    Period(if p.start.Some? then iso(p.start.value) else "",
           if p.end.Some? then iso(p.end.value) else "")
  }

  /** The record filter_line_29 builds for a kept alert; `iso` renders a POSIX
      time as `datetime.fromtimestamp(t).isoformat()` does on the host. */
  function RecordOf(id: string, alert: Alert, iso: nat -> string): Disruption {
    var header := TextOf(alert.headerText);
    Disruption(
      id,
      if header == "" then "Störning" else header,
      TextOf(alert.descriptionText),
      seq(|alert.activePeriod|, i requires 0 <= i < |alert.activePeriod| => PeriodOf(alert.activePeriod[i], iso)),
      alert.cause.GetOr(0),
      alert.effect.GetOr(0))
  }

  /** `r` holds exactly the records of the kept entities of `es`: every record
      comes from a kept entity, and every kept entity yields its record. */
  predicate RecordsExactly(es: seq<FeedEntity>, iso: nat -> string, r: seq<Disruption>) {
    && (forall d :: d in r ==> exists e :: e in es && Kept(e) && d == RecordOf(e.id, e.alert.value, iso))
    && (forall j :: 0 <= j < |es| && Kept(es[j]) ==> RecordOf(es[j].id, es[j].alert.value, iso) in r)
  }

  /** One more entity keeps the property, adding its record when it is kept. */
  lemma RecordsExactlyStep(es: seq<FeedEntity>, iso: nat -> string, rest: seq<Disruption>)
    requires es != [] && RecordsExactly(es[..|es| - 1], iso, rest)
    ensures var e := es[|es| - 1];
      RecordsExactly(es, iso, rest + (if Kept(e) then [RecordOf(e.id, e.alert.value, iso)] else []))
  {
    var init := es[..|es| - 1];
    assert forall j :: 0 <= j < |init| ==> init[j] == es[j];
    assert forall x :: x in init ==> x in es;
  }

  /** The records of the kept entities, in feed order. */
  function Filtered(es: seq<FeedEntity>, iso: nat -> string): (r: seq<Disruption>)
    ensures |r| <= |es|
    ensures RecordsExactly(es, iso, r)
    decreases |es|
  {
    if es == [] then []
    else
      var e := es[|es| - 1];
      var rest := Filtered(es[..|es| - 1], iso);
      RecordsExactlyStep(es, iso, rest);
      rest + (if Kept(e) then [RecordOf(e.id, e.alert.value, iso)] else [])
  }

  /** The number of kept entities. */
  function KeptCount(es: seq<FeedEntity>): nat
    decreases |es|
  {
    if es == [] then 0 else KeptCount(es[..|es| - 1]) + (if Kept(es[|es| - 1]) then 1 else 0)
  }

  /** Exactly one record per kept entity. */
  lemma {:induction false} FilteredCount(es: seq<FeedEntity>, iso: nat -> string)
    ensures |Filtered(es, iso)| == KeptCount(es)
    decreases |es|
  {
    if es != [] {
      FilteredCount(es[..|es| - 1], iso);
    }
  }

  /** Filtering works entity by entity: the records of a concatenated feed are
      the records of each part, in order. */
  lemma {:induction false} FilteredAppend(a: seq<FeedEntity>, b: seq<FeedEntity>, iso: nat -> string)
    ensures Filtered(a + b, iso) == Filtered(a, iso) + Filtered(b, iso)
    decreases |b|
  {
    if b == [] {
      assert a + b == a;
    } else {
      var init := b[..|b| - 1];
      var e := b[|b| - 1];
      FilteredAppend(a, init, iso);
      assert (a + b)[..|a + b| - 1] == a + init;
      assert (a + b)[|a + b| - 1] == e;
      var last := if Kept(e) then [RecordOf(e.id, e.alert.value, iso)] else [];
      assert Filtered(a + b, iso) == Filtered(a + init, iso) + last;
      assert Filtered(b, iso) == Filtered(init, iso) + last;
      AppendAssoc(Filtered(a, iso), Filtered(init, iso), last);
    }
  }

  /** The text of a translated string, as the translation loop computes it. */
  method PickTranslation(translations: seq<Translation>) returns (text: string)
    ensures text == Chosen(translations)
  {
    text := "";
    for i := 0 to |translations|
      invariant text == Chosen(translations[..i])
    {
      assert translations[..i + 1][..i] == translations[..i];
      if translations[i].language == "sv" || text == "" {
        text := translations[i].text;
      }
    }
    assert translations[..|translations|] == translations;
  }

  /** The informed-entity loop of filter_line_29: does any selector name line 29? */
  method ScanInformedEntities(informedEntity: seq<EntitySelector>) returns (affectsLine29: bool)
    ensures affectsLine29 <==> exists sel :: sel in informedEntity && Selects(sel)
  {
    affectsLine29 := false;
    var j := 0;
    while j < |informedEntity|
      invariant 0 <= j <= |informedEntity|
      invariant !affectsLine29
      invariant forall k :: 0 <= k < j ==> !Selects(informedEntity[k])
    {
      var informed := informedEntity[j];
      if informed.routeId.Some? {
        var routeId := informed.routeId.value;
        if Contains(routeId, LineToMonitor) || routeId == LineToMonitor {
          assert Selects(informed) && informed in informedEntity;
          affectsLine29 := true;
          break;
        }
      }
      j := j + 1;
    }
  }

  /** The active-period loop of filter_line_29: each range rendered in order. */
  method ConvertPeriods(ranges: seq<TimeRange>, iso: nat -> string) returns (activePeriod: seq<Period>)
    ensures |activePeriod| == |ranges|
    ensures forall k :: 0 <= k < |ranges| ==> activePeriod[k] == PeriodOf(ranges[k], iso)
  {
    activePeriod := [];
    for p := 0 to |ranges|
      invariant |activePeriod| == p
      invariant forall k :: 0 <= k < p ==> activePeriod[k] == PeriodOf(ranges[k], iso)
    {
      var period := ranges[p];
      var start := if period.start.Some? then iso(period.start.value) else "";
      var end := if period.end.Some? then iso(period.end.value) else "";
      activePeriod := activePeriod + [Period(start, end)];
    }
  }

  /** The record filter_line_29 builds for an alert it keeps. */
  method BuildRecord(id: string, alert: Alert, iso: nat -> string) returns (disruption: Disruption)
    ensures disruption == RecordOf(id, alert, iso)
  {
    var header := "";
    var description := "";
    if alert.headerText.Some? {
      header := PickTranslation(alert.headerText.value);
    }
    if alert.descriptionText.Some? {
      description := PickTranslation(alert.descriptionText.value);
    }

    var activePeriod := ConvertPeriods(alert.activePeriod, iso);

    disruption := Disruption(
      id,
      if header == "" then "Störning" else header,
      description,
      activePeriod,
      if alert.cause.Some? then alert.cause.value else 0,
      if alert.effect.Some? then alert.effect.value else 0);
  }

  /** filter_line_29: the line-29 disruption records of a feed. */
  method FilterLine29(feed: FeedMessage, iso: nat -> string) returns (lineDisruptions: seq<Disruption>)
    ensures lineDisruptions == Filtered(feed.entity, iso)
  {
    var entities := feed.entity;
    lineDisruptions := [];
    for n := 0 to |entities|
      invariant lineDisruptions == Filtered(entities[..n], iso)
    {
      var entity := entities[n];
      assert entities[..n + 1][..n] == entities[..n];
      assert Filtered(entities[..n + 1], iso) == Filtered(entities[..n], iso)
        + (if Kept(entity) then [RecordOf(entity.id, entity.alert.value, iso)] else []);
      if entity.alert.None? {
        continue;
      }
      var alert := entity.alert.value;

      var affectsLine29 := ScanInformedEntities(alert.informedEntity);

      if affectsLine29 {
        var disruption := BuildRecord(entity.id, alert, iso);
        assert Kept(entity) && disruption == RecordOf(entity.id, alert, iso);
        lineDisruptions := lineDisruptions + [disruption];
      } else {
        assert !AffectsLine(alert);
      }
    }
    assert entities[..|entities|] == entities;
  }

  // ---------------------------------------------------------------------------
  // Reconciliation with the previous run.

  /** The change one cycle reports; NoDisruption is the quiet "no disruptions
      before or now" case. */
  datatype Transition = New | Updated | Ongoing | Resolved | NoDisruption

  /** `set(d["alert_id"] for d in ds)`. */
  function IdSet(ds: seq<Disruption>): set<string> {
    set d | d in ds :: d.alertId
  }

  /** The branch run() takes for the previous ids and the current records. */
  function Classify(previousIds: set<string>, current: seq<Disruption>): (t: Transition)
    ensures t == New <==> exists d :: d in current && d.alertId !in previousIds
    ensures t == Updated <==> current != [] && IdSet(current) < previousIds
    ensures t == Ongoing <==> current != [] && IdSet(current) == previousIds
    ensures t == Resolved <==> current == [] && previousIds != {}
    ensures t == NoDisruption <==> current == [] && previousIds == {}
  {
    var currentIds := IdSet(current);
    var newIds := currentIds - previousIds;
    var resolvedIds := previousIds - currentIds;
    assert forall d :: d in current ==> d.alertId in currentIds;
    if current != [] then
      assert current[0].alertId in currentIds;
      if newIds != {} then New
      else
        assert forall x :: x in currentIds && x !in previousIds ==> x in newIds;
        assert currentIds <= previousIds;
        if resolvedIds != {} && currentIds != {} then Updated else Ongoing
    else if previousIds != {} then Resolved
    else NoDisruption
  }

  /** `[d for d in ds if d["alert_id"] in ids]`. */
  function Select(ds: seq<Disruption>, ids: set<string>): seq<Disruption>
    decreases |ds|
  {
    if ds == [] then []
    else (if ds[0].alertId in ids then [ds[0]] else []) + Select(ds[1..], ids)
  }

  /** The records whose id was not seen by the previous run, in their own order. */
  function Unseen(previousIds: set<string>, ds: seq<Disruption>): (r: seq<Disruption>)
    ensures forall d :: d in r <==> d in ds && d.alertId !in previousIds
    decreases |ds|
  {
    if ds == [] then []
    else (if ds[0].alertId !in previousIds then [ds[0]] else []) + Unseen(previousIds, ds[1..])
  }

  /** Keeping the unseen records keeps them in order: the unseen records of a
      concatenation are those of each part. */
  lemma {:induction false} UnseenAppend(previousIds: set<string>, a: seq<Disruption>, b: seq<Disruption>)
    ensures Unseen(previousIds, a + b) == Unseen(previousIds, a) + Unseen(previousIds, b)
    decreases |a|
  {
    if a == [] {
      assert a + b == b;
    } else {
      assert (a + b)[1..] == a[1..] + b;
      UnseenAppend(previousIds, a[1..], b);
    }
  }

  /** Selecting by `currentIds - previousIds` keeps exactly the unseen records. */
  lemma {:induction false} SelectNewIds(ds: seq<Disruption>, currentIds: set<string>, previousIds: set<string>)
    requires forall d :: d in ds ==> d.alertId in currentIds
    ensures Select(ds, currentIds - previousIds) == Unseen(previousIds, ds)
    decreases |ds|
  {
    if ds != [] {
      SelectNewIds(ds[1..], currentIds, previousIds);
    }
  }

  /** A notification: its type and the records it reports. */
  datatype Notice = Notice(kind: Transition, records: seq<Disruption>)

  /** What run() sends for the previous ids and the current records: nothing
      for ongoing or absent disruptions, the unseen records for a new alert,
      the whole current list for an update, no records for a resolution. */
  function Decide(previousIds: set<string>, current: seq<Disruption>): (n: Option<Notice>)
    ensures n.None? <==> Classify(previousIds, current) in {Ongoing, NoDisruption}
    ensures n.Some? ==> n.value.kind == Classify(previousIds, current)
    ensures n.Some? && n.value.kind == New ==>
      n.value.records == Unseen(previousIds, current) && n.value.records != []
    ensures n.Some? && n.value.kind == Updated ==> n.value.records == current
    ensures n.Some? && n.value.kind == Resolved ==> n.value.records == []
  {
    match Classify(previousIds, current)
    case New =>
      SelectNewIds(current, IdSet(current), previousIds);
      var d :| d in current && d.alertId !in previousIds;
      assert d in Unseen(previousIds, current);
      Some(Notice(New, Select(current, IdSet(current) - previousIds)))
    case Updated => Some(Notice(Updated, current))
    case Resolved => Some(Notice(Resolved, []))
    case _ => None
  }

  /** A new alert together with a vanished one is reported as new only: the
      vanished alert's resolution is never notified, because the next run
      compares against the ids persisted now. */
  lemma NewMasksResolution(previousIds: set<string>, current: seq<Disruption>, gone: string)
    requires exists d :: d in current && d.alertId !in previousIds
    requires gone in previousIds && gone !in IdSet(current)
    ensures Decide(previousIds, current).Some?
    ensures Decide(previousIds, current).value.kind == New
  {
  }

  // ---------------------------------------------------------------------------
  // Composing the notification.

  /** The title send_notification picks for a notification type. */
  function Title(kind: Transition): string {
    match kind
    case New => "⚠️ NY störning på linje " + LineToMonitor + " (" + LineName + ")"
    case Updated => "🔄 Uppdaterad störning på linje " + LineToMonitor
    case Ongoing => "ℹ️ Pågående störning på linje " + LineToMonitor
    case _ => "✅ Störning löst på linje " + LineToMonitor
  }

  /** The "Från:"/"Till:" lines of one period; an empty bound gives no line. */
  function PeriodLine(unused: nat, p: Period): string {
    (if p.start != "" then "   Från: " + p.start + "\n" else "")
    + (if p.end != "" then "   Till: " + p.end + "\n" else "")
  }

  /** The first lines of a record's block: its number, its header, and its
      description cut to 300 characters when there is one. */
  function BlockHead(idx: nat, d: Disruption): string {
    ("\n🔴 Störning " + NatToString(idx) + ":\n")
    + ("   " + d.header + "\n")
    + (if d.description != "" then "   " + Ellipsize(d.description, 300) + "\n" else "")
  }

  /** The block format_disruption_message writes for record number `idx`. */
  function Block(idx: nat, d: Disruption): string {
    BlockHead(idx, d) + Numbered(PeriodLine, d.activePeriods, 0) + "\n"
  }

  /** The blocks of all records, numbered from 1; appending records appends
      their blocks with the numbering continued. */
  lemma FormattedAppend(a: seq<Disruption>, b: seq<Disruption>)
    ensures Numbered(Block, a + b, 1) == Numbered(Block, a, 1) + Numbered(Block, b, |a| + 1)
    ensures |b| == 1 ==> Numbered(Block, a + b, 1) == Numbered(Block, a, 1) + Block(|a| + 1, b[0])
  {
    NumberedSplit(Block, a, b, 1);
    if |b| == 1 {
      assert b == [b[0]];
      NumberedSnoc(Block, a, b[0], 1);
    }
  }

  /** The period loop of format_disruption_message: `message` grown by the
      lines of every period, in order. */
  method AppendPeriods(prefix: string, periods: seq<Period>) returns (message: string)
    ensures message == prefix + Numbered(PeriodLine, periods, 0)
  {
    message := prefix;
    for k := 0 to |periods|
      invariant message == prefix + Numbered(PeriodLine, periods[..k], 0)
    {
      var period := periods[k];
      ghost var mid := message;
      if period.start != "" {
        message := message + ("   Från: " + period.start + "\n");
      }
      ghost var afterStart := message;
      if period.end != "" {
        message := message + ("   Till: " + period.end + "\n");
      }
      ghost var startLine := if period.start != "" then "   Från: " + period.start + "\n" else "";
      ghost var endLine := if period.end != "" then "   Till: " + period.end + "\n" else "";
      assert afterStart == mid + startLine;
      assert message == mid + startLine + endLine;
      AppendAssoc(mid, startLine, endLine);
      NumberedSnoc(PeriodLine, periods[..k], period, 0);
      AppendAssoc(prefix, Numbered(PeriodLine, periods[..k], 0), PeriodLine(k, period));
      assert periods[..k + 1] == periods[..k] + [period];
    }
    assert periods[..|periods|] == periods;
  }

  /** The head lines format_disruption_message writes for record number `idx`. */
  method AppendBlockHead(prefix: string, idx: nat, d: Disruption) returns (message: string)
    ensures message == prefix + BlockHead(idx, d)
  {
    ghost var numberLine := "\n🔴 Störning " + NatToString(idx) + ":\n";
    ghost var headerLine := "   " + d.header + "\n";
    ghost var descriptionLine := if d.description != "" then "   " + Ellipsize(d.description, 300) + "\n" else "";
    message := prefix + ("\n🔴 Störning " + NatToString(idx) + ":\n");
    message := message + ("   " + d.header + "\n");
    if d.description != "" {
      var desc := d.description;
      if |desc| > 300 {
        desc := desc[..300] + "...";
      }
      message := message + ("   " + desc + "\n");
    }
    assert message == prefix + numberLine + headerLine + descriptionLine;
    AppendAssoc(prefix, numberLine, headerLine);
    AppendAssoc(prefix, numberLine + headerLine, descriptionLine);
  }

  /** format_disruption_message. */
  method FormatDisruptionMessage(disruptions: seq<Disruption>) returns (message: string)
    ensures message == Numbered(Block, disruptions, 1)
  {
    message := "";
    for i := 0 to |disruptions|
      invariant message == Numbered(Block, disruptions[..i], 1)
    {
      var d := disruptions[i];
      ghost var before := message;
      message := AppendBlockHead(message, i + 1, d);
      message := AppendPeriods(message, d.activePeriods);
      message := message + "\n";
      ghost var periodLines := Numbered(PeriodLine, d.activePeriods, 0);
      AppendAssoc(before, BlockHead(i + 1, d), periodLines);
      AppendAssoc(before, BlockHead(i + 1, d) + periodLines, "\n");
      assert message == before + Block(i + 1, d);
      FormattedAppend(disruptions[..i], [d]);
      assert disruptions[..i + 1] == disruptions[..i] + [d];
    }
    assert disruptions[..|disruptions|] == disruptions;
  }

  /** Each of the four types has its own title, and any other type is titled
      as a resolution. */
  lemma TitleCases(kind: Transition)
    ensures kind !in {New, Updated, Ongoing} ==> Title(kind) == Title(Resolved)
    ensures Title(New) != Title(Updated) && Title(New) != Title(Ongoing) && Title(New) != Title(Resolved)
    ensures Title(Updated) != Title(Ongoing) && Title(Updated) != Title(Resolved)
    ensures Title(Ongoing) != Title(Resolved)
  {
    assert Title(New)[0] == '⚠' && Title(Updated)[0] == '🔄' && Title(Ongoing)[0] == 'ℹ' && Title(Resolved)[0] == '✅';
  }

  /** Every title names the line. */
  lemma TitleNamesLine(kind: Transition)
    ensures Contains(Title(kind), LineToMonitor)
  {
    match kind
    case New =>
      var named := "⚠️ NY störning på linje " + LineToMonitor;
      ContainsSuffix("⚠️ NY störning på linje ", LineToMonitor);
      ContainsAppend(named, " (", LineToMonitor);
      ContainsAppend(named + " (", LineName, LineToMonitor);
      ContainsAppend(named + " (" + LineName, ")", LineToMonitor);
    case Updated => ContainsSuffix("🔄 Uppdaterad störning på linje ", LineToMonitor);
    case Ongoing => ContainsSuffix("ℹ️ Pågående störning på linje ", LineToMonitor);
    case _ => ContainsSuffix("✅ Störning löst på linje ", LineToMonitor);
  }

  /** The full message send_notification logs and sends: the title on its own
      line, then either the records followed by the traffic-page address, or
      the fixed "all resolved" sentence. */
  function Body(n: Notice): (b: string)
    ensures StartsWith(b, Title(n.kind) + "\n")
    ensures n.records != [] ==> EndsWith(b, "\nKontrollera: " + TrafficUrl)
    ensures n.records == [] ==> EndsWith(b, AllResolved)
  {
    var head := Title(n.kind) + "\n";
    if n.records != [] then
      var blocks := Numbered(Block, n.records, 1);
      var tail := "\nKontrollera: " + TrafficUrl;
      Affixes(head, blocks);
      StartsWithExtend(head + blocks, head, tail);
      Affixes(head + blocks, tail);
      head + blocks + tail
    else
      var opening := Title(n.kind) + "\n\n";
      assert opening[..|head|] == head;
      StartsWithExtend(opening, head, AllResolved);
      Affixes(opening, AllResolved);
      Title(n.kind) + "\n\n" + AllResolved
  }

  /** Every record's block, numbered by its position from 1, is in the body. */
  lemma BodyListsRecords(n: Notice, i: nat)
    requires i < |n.records|
    ensures Contains(Body(n), Block(i + 1, n.records[i]))
  {
    var blocks := Numbered(Block, n.records, 1);
    var block := Block(i + 1, n.records[i]);
    NumberedContains(Block, n.records, 1, i);
    ContainsPrepend(Title(n.kind) + "\n", blocks, block);
    ContainsAppend(Title(n.kind) + "\n" + blocks, "\nKontrollera: " + TrafficUrl, block);
    assert Body(n) == Title(n.kind) + "\n" + blocks + ("\nKontrollera: " + TrafficUrl);
  }

  /** The deliveries send_notification attempts: the desktop for every type,
      then e-mail for new and updated alerts only, all with the same title and body. */
  function Outgoing(n: Notice): (r: seq<Dispatch>)
    ensures |r| == (if n.kind in {New, Updated} then 2 else 1)
    ensures r[0].channel == Desktop && (|r| == 2 ==> r[1].channel == Email)
    ensures (exists x :: x in r && x.channel == Email) <==> n.kind in {New, Updated}
    ensures forall x :: x in r ==> x.title == Title(n.kind) && x.body == Body(n)
    ensures n.records == [] ==> forall x :: x in r ==> x.body == Title(n.kind) + "\n\n" + AllResolved
  {
    var title := Title(n.kind);
    var body := Body(n);
    [Dispatch(Desktop, title, body)] + (if n.kind in {New, Updated} then [Dispatch(Email, title, body)] else [])
  }

  // ---------------------------------------------------------------------------
  // The state file.

  /** The JSON object in sl_state.json; `alertIds` is None when the key is
      absent (a file written by another variant of the monitor). */
  datatype SavedState = SavedState(timestamp: string, disruptions: seq<Disruption>, alertIds: Option<seq<string>>)

  /** `[d.get("alert_id") for d in ds]`. */
  function AlertIds(ds: seq<Disruption>): (ids: seq<string>)
    ensures |ids| == |ds| && forall i :: 0 <= i < |ds| ==> ids[i] == ds[i].alertId
  {
    seq(|ds|, i requires 0 <= i < |ds| => ds[i].alertId)
  }

  /** The ids of the records, as a set, are those of `[d.get("alert_id") for d in ds]`. */
  lemma AlertIdsCollectIds(ds: seq<Disruption>)
    ensures (set id | id in AlertIds(ds)) == IdSet(ds)
  {
    var ids := AlertIds(ds);
    forall id | id in IdSet(ds) ensures id in ids {
      var d :| d in ds && d.alertId == id;
      var i :| 0 <= i < |ds| && ds[i] == d;
      assert ids[i] == id;
    }
    forall id | id in ids ensures id in IdSet(ds) {
      var i :| 0 <= i < |ids| && ids[i] == id;
      assert ds[i] in ds;
    }
  }

  /** What save_state writes: the time stamp, the records, and ids that load
      back as the id set of the records. */
  function SaveState(now: string, disruptions: seq<Disruption>): (r: SavedState)
    ensures r.timestamp == now && r.disruptions == disruptions
    ensures PreviousIds(Some(r)) == IdSet(disruptions)
  {
    AlertIdsCollectIds(disruptions);
    SavedState(now, disruptions, Some(AlertIds(disruptions)))
  }

  /** `set(load_previous_state().get("alert_ids", []))`; a missing or unreadable
      file (`None`) loads as `{}`, and so does a file without the key. */
  function PreviousIds(file: Option<SavedState>): (ids: set<string>)
    ensures file.None? ==> ids == {}
    ensures file.Some? && file.value.alertIds.None? ==> ids == {}
  {
    if file.Some? && file.value.alertIds.Some? then (set id | id in file.value.alertIds.value) else {}
  }

  /** A second run on the same records after a saved run sends nothing. */
  lemma RerunIsSilent(now: string, current: seq<Disruption>)
    ensures Decide(PreviousIds(Some(SaveState(now, current))), current).None?
  {
  }

  // ---------------------------------------------------------------------------
  // The monitor.

  /** SLMonitorGTFS with the state file it owns and the notifications it has
      handed to the desktop and e-mail channels. */
  class Monitor {
    /** sl_state.json; None when it is missing or cannot be read. */
    var stateFile: Option<SavedState>
    /** Every delivery attempted so far, in order. */
    var outbox: seq<Dispatch>

    constructor (stateFile: Option<SavedState>)
      ensures this.stateFile == stateFile && outbox == []
    {
      this.stateFile := stateFile;
      outbox := [];
    }

    /** send_notification: the title for the type, the body, then the deliveries. */
    method SendNotification(disruptions: seq<Disruption>, kind: Transition)
      modifies this`outbox
      ensures outbox == old(outbox) + Outgoing(Notice(kind, disruptions))
    {
      var title := Title(kind);
      var fullMessage;
      if disruptions != [] {
        var message := FormatDisruptionMessage(disruptions);
        fullMessage := title + "\n" + message + ("\nKontrollera: " + TrafficUrl);
      } else {
        fullMessage := title + "\n\n" + AllResolved;
      }
      outbox := outbox + [Dispatch(Desktop, title, fullMessage)];
      if kind == New || kind == Updated {
        outbox := outbox + [Dispatch(Email, title, fullMessage)];
      }
    }

    /** run(): one polling cycle. `feed` is None when the fetch failed; `now`
        is the time stamp written to the state file. */
    method RunCycle(feed: Option<FeedMessage>, now: string, iso: nat -> string)
      modifies this
      ensures feed.None? ==> stateFile == old(stateFile) && outbox == old(outbox)
      ensures feed.Some? ==>
        var current := Filtered(feed.value.entity, iso);
        && stateFile == Some(SaveState(now, current))
        && outbox == old(outbox) + match Decide(PreviousIds(old(stateFile)), current)
                                   case None => []
                                   case Some(n) => Outgoing(n)
    {
      if feed.None? {
        return;
      }
      var currentDisruptions := FilterLine29(feed.value, iso);

      var previousIds := PreviousIds(stateFile);
      var currentIds := IdSet(currentDisruptions);
      var newIds := currentIds - previousIds;
      var resolvedIds := previousIds - currentIds;

      if currentDisruptions != [] {
        if newIds != {} {
          var newDisruptions := Select(currentDisruptions, newIds);
          SendNotification(newDisruptions, New);
        } else if resolvedIds != {} && currentIds != {} {
          SendNotification(currentDisruptions, Updated);
        }
      } else if previousIds != {} {
        SendNotification([], Resolved);
      }

      stateFile := Some(SaveState(now, currentDisruptions));
    }
  }
}
