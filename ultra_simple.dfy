/** The ultra-simple variant (sl_monitor_ultra_simple.py): the lower-cased
    traffic page is flagged when it mentions line 29 anywhere and a disruption
    word anywhere (the two need not be near each other), a little context
    around each mention is kept, and a single boolean is compared with the
    previous run to e-mail new and resolved disruptions. */
module UltraSimple {
  import opened Common
  import opened Text

  // ---------------------------------------------------------------------------
  // check_for_disruptions.

  /** The words any one of which makes the page count as reporting a disruption. */
  const DisruptionWords: seq<string> :=
    ["störning", "förseningar", "inställd", "ersättningsbuss", "trafik", "problem", "avbrott"]

  /** The lower-cased page mentions line 29 or Näsbyparken. */
  predicate MentionsLine(content: string) {
    Contains(content, "linje 29") || Contains(content, " 29 ") || Contains(content, "linje29")
    || Contains(content, "näsbypark")
  }

  predicate HasDisruptionWord(content: string) {
    exists w :: w in DisruptionWords && Contains(content, w)
  }

  /** A page line around which context is collected. */
  predicate LineOfInterest(line: string) {
    Contains(line, LineToMonitor) || Contains(line, "näsbypark")
  }

  function Max(a: int, b: int): int { if a < b then b else a }
  function Min(a: int, b: int): int { if a < b then a else b }

  /** Line `i` with up to two lines on either side, joined by spaces. */
  function Window(lines: seq<string>, i: nat): string
    requires i < |lines|
  {
    Join(" ", lines[Max(0, i - 2)..Min(|lines|, i + 3)])
  }

  /** A line whose window is kept. */
  predicate Qualifies(lines: seq<string>, i: nat)
    requires i < |lines|
  {
    LineOfInterest(lines[i]) && |Window(lines, i)| > 50
  }

  /** The entry kept for line `i`: its window cut to 300 characters. */
  function Excerpt(lines: seq<string>, i: nat): (c: string)
    requires i < |lines|
    ensures Qualifies(lines, i) ==> 50 < |c| <= 300
  {
    Clip(Window(lines, i), 300)
  }

  /** The entries kept from the first `k` lines are exactly the excerpts of
      the qualifying lines among them. */
  predicate KeepsExactly(lines: seq<string>, k: nat, r: seq<string>)
    requires k <= |lines|
  {
    && (forall c :: c in r ==> exists i :: 0 <= i < k && Qualifies(lines, i) && c == Excerpt(lines, i))
    && (forall i :: 0 <= i < k && Qualifies(lines, i) ==> Excerpt(lines, i) in r)
  }

  /** One more line keeps the property, adding its excerpt when it qualifies. */
  lemma KeepsExactlyStep(lines: seq<string>, k: nat, rest: seq<string>)
    requires k < |lines| && KeepsExactly(lines, k, rest)
    ensures KeepsExactly(lines, k + 1, rest + (if Qualifies(lines, k) then [Excerpt(lines, k)] else []))
  {
  }

  /** The context kept from the first `k` lines: for each line of interest
      whose window is longer than 50 characters, that window cut to 300.
      Every entry is such a window, and every such window is an entry. */
  function KeptUpTo(lines: seq<string>, k: nat): (r: seq<string>)
    requires k <= |lines|
    ensures forall c :: c in r ==> 50 < |c| <= 300
    ensures KeepsExactly(lines, k, r)
    decreases k
  {
    if k == 0 then []
    else
      var i := k - 1;
      var rest := KeptUpTo(lines, i);
      KeepsExactlyStep(lines, i, rest);
      rest + (if Qualifies(lines, i) then [Excerpt(lines, i)] else [])
  }

  /** The number of lines among the first `k` whose window is kept. */
  function QualifyingCount(lines: seq<string>, k: nat): nat
    requires k <= |lines|
    decreases k
  {
    if k == 0 then 0 else QualifyingCount(lines, k - 1) + (if Qualifies(lines, k - 1) then 1 else 0)
  }

  /** Exactly one entry per line whose window is kept. */
  lemma {:induction false} KeptCount(lines: seq<string>, k: nat)
    requires k <= |lines|
    ensures |KeptUpTo(lines, k)| == QualifyingCount(lines, k)
    decreases k
  {
    if k > 0 {
      KeptCount(lines, k - 1);
    }
  }

  /** The context a flagged page reports: the first two kept windows, or a
      fixed phrase when none was kept. */
  function ContextOf(relevant: seq<string>): (r: seq<string>)
    ensures 1 <= |r| <= 2
    ensures relevant == [] ==> r == ["Störning upptäckt"]
    ensures relevant != [] ==> |r| == Min(2, |relevant|) && r == relevant[..|r|]
  {
    if relevant != [] then (if |relevant| <= 2 then relevant else relevant[..2]) else ["Störning upptäckt"]
  }

  /** The result of a successful check: the flag, and the context of a flagged page. */
  datatype Scan = Scan(hasDisruption: bool, context: seq<string>)

  /** check_for_disruptions on a page fetched with status 200. A flagged page
      carries one or two context entries of at most 300 characters each. */
  function ScanOf(page: string): (s: Scan)
    ensures s.hasDisruption <==> MentionsLine(Lower(page)) && HasDisruptionWord(Lower(page))
    ensures s.hasDisruption ==> 1 <= |s.context| <= 2 && forall c :: c in s.context ==> |c| <= 300
    ensures !s.hasDisruption ==> s.context == []
  {
    var content := Lower(page);
    if MentionsLine(content) && HasDisruptionWord(content) then
      var lines := Split(content, '\n');
      Scan(true, ContextOf(KeptUpTo(lines, |lines|)))
    else
      Scan(false, [])
  }

  /** The context loop of check_for_disruptions over the page's lines. */
  method CollectContext(lines: seq<string>) returns (relevantContext: seq<string>)
    ensures relevantContext == KeptUpTo(lines, |lines|)
  {
    relevantContext := [];
    for i := 0 to |lines|
      invariant relevantContext == KeptUpTo(lines, i)
    {
      var line := lines[i];
      if Contains(line, LineToMonitor) || Contains(line, "näsbypark") {
        var contextStart := Max(0, i - 2);
        var contextEnd := Min(|lines|, i + 3);
        var context := Join(" ", lines[contextStart..contextEnd]);
        if |context| > 50 {
          relevantContext := relevantContext + [Clip(context, 300)];
          assert Clip(context, 300) == Excerpt(lines, i);
        }
      }
    }
  }

  /** check_for_disruptions, after the page has been fetched. */
  method CheckForDisruptions(page: string) returns (scan: Scan)
    ensures scan == ScanOf(page)
  {
    var content := Lower(page);
    var hasLine29 := Contains(content, "linje 29") || Contains(content, " 29 ") || Contains(content, "linje29");
    var hasNasbyparken := Contains(content, "näsbypark");
    var hasDisruptionWords := HasDisruptionWord(content);
    assert hasLine29 || hasNasbyparken <==> MentionsLine(content);

    if (hasLine29 || hasNasbyparken) && hasDisruptionWords {
      var lines := Split(content, '\n');
      var relevantContext := CollectContext(lines);
      var context := if relevantContext != [] then
                       (if |relevantContext| <= 2 then relevantContext else relevantContext[..2])
                     else ["Störning upptäckt"];
      assert context == ContextOf(relevantContext);
      scan := Scan(true, context);
    } else {
      scan := Scan(false, []);
    }
  }

  // ---------------------------------------------------------------------------
  // Reconciliation by a single flag.

  datatype Transition = New | Resolved | Ongoing | NoDisruption

  /** The branch run() takes for the previous and the current flag. */
  function Classify(hadDisruptionBefore: bool, hasDisruptionNow: bool): (t: Transition)
    ensures t == New <==> hasDisruptionNow && !hadDisruptionBefore
    ensures t == Resolved <==> !hasDisruptionNow && hadDisruptionBefore
    ensures t == Ongoing <==> hasDisruptionNow && hadDisruptionBefore
    ensures t == NoDisruption <==> !hasDisruptionNow && !hadDisruptionBefore
  {
    if hasDisruptionNow && !hadDisruptionBefore then New
    else if !hasDisruptionNow && hadDisruptionBefore then Resolved
    else if hasDisruptionNow then Ongoing
    else NoDisruption
  }

  // ---------------------------------------------------------------------------
  // Composing the e-mails.

  const NewSubject := "⚠️ Störning på linje " + LineToMonitor + " (" + LineName + ")"
  const ResolvedSubject := "✅ Störning löst - Linje " + LineToMonitor

  /** One context entry of the "new" e-mail. */
  function Bullet(unused: nat, context: string): string {
    "- " + context + "\n"
  }

  /** The "Information från SL:" part: every context entry as a bullet, in order. */
  function Information(context: seq<string>): string {
    if context != [] then "Information från SL:\n" + Numbered(Bullet, context, 0) + "\n" else ""
  }

  const NewOpening := "Störning upptäckt på linje " + LineToMonitor + " - " + LineName + "\n\n"
  const ResolvedOpening := "Störningen på linje " + LineToMonitor + " (" + LineName + ") verkar vara löst!\n\n"

  /** The body of the "new" e-mail: it opens by naming the line and ends with
      the detection time `stamp`, as displayed. */
  function NewBody(context: seq<string>, stamp: string): (b: string)
    ensures StartsWith(b, NewOpening)
    ensures EndsWith(b, "Upptäckt: " + stamp)
  {
    var front := NewOpening + Information(context) + ("Kontrollera: " + TrafficUrl + "\n\n");
    var last := "Upptäckt: " + stamp;
    Affixes(NewOpening, Information(context));
    StartsWithExtend(NewOpening + Information(context), NewOpening, "Kontrollera: " + TrafficUrl + "\n\n");
    StartsWithExtend(front, NewOpening, last);
    Affixes(front, last);
    front + last
  }

  /** The body of the "resolved" e-mail: it opens by calling the line's
      disruption resolved and ends with the resolution time `stamp`, as displayed. */
  function ResolvedBody(stamp: string): (b: string)
    ensures StartsWith(b, ResolvedOpening)
    ensures EndsWith(b, "Löst: " + stamp)
  {
    var rest := "Linje " + LineToMonitor + " nämns inte längre bland störningar på SL:s sida.\n\n"
      + "Kontrollera: " + TrafficUrl + "\n\n";
    var last := "Löst: " + stamp;
    Affixes(ResolvedOpening, rest);
    StartsWithExtend(ResolvedOpening + rest, ResolvedOpening, last);
    Affixes(ResolvedOpening + rest, last);
    ResolvedOpening + rest + last
  }

  /** Every context entry appears in the "new" body as its own bullet line. */
  lemma NewBodyListsContext(context: seq<string>, stamp: string, i: nat)
    requires i < |context|
    ensures Contains(NewBody(context, stamp), "- " + context[i] + "\n")
  {
    var bullet := "- " + context[i] + "\n";
    var bullets := Numbered(Bullet, context, 0);
    NumberedContains(Bullet, context, 0, i);
    ContainsPrepend("Information från SL:\n", bullets, bullet);
    ContainsAppend("Information från SL:\n" + bullets, "\n", bullet);
    ContainsPrepend(NewOpening, Information(context), bullet);
    ContainsAppend(NewOpening + Information(context), "Kontrollera: " + TrafficUrl + "\n\n", bullet);
    ContainsAppend(NewOpening + Information(context) + ("Kontrollera: " + TrafficUrl + "\n\n"), "Upptäckt: " + stamp, bullet);
  }

  /** The "new" body as run() builds it with `+=`. */
  method ComposeNewBody(context: seq<string>, stamp: string) returns (body: string)
    ensures body == NewBody(context, stamp)
  {
    body := "Störning upptäckt på linje " + LineToMonitor + " - " + LineName + "\n\n";
    ghost var opening := body;
    assert opening == NewOpening;
    if context != [] {
      body := body + "Information från SL:\n";
      for i := 0 to |context|
        invariant body == opening + "Information från SL:\n" + Numbered(Bullet, context[..i], 0)
      {
        NumberedSnoc(Bullet, context[..i], context[i], 0);
        AppendAssoc(opening + "Information från SL:\n", Numbered(Bullet, context[..i], 0), Bullet(i, context[i]));
        body := body + ("- " + context[i] + "\n");
        assert context[..i + 1] == context[..i] + [context[i]];
      }
      assert context[..|context|] == context;
      body := body + "\n";
      AppendAssoc(opening, "Information från SL:\n", Numbered(Bullet, context, 0));
      AppendAssoc(opening, "Information från SL:\n" + Numbered(Bullet, context, 0), "\n");
    }
    assert body == opening + Information(context);
    body := body + ("Kontrollera: " + TrafficUrl + "\n\n");
    body := body + ("Upptäckt: " + stamp);
  }

  /** The e-mails run() sends for a transition: one for a new disruption, one
      for a resolved one, none otherwise. */
  function Outgoing(t: Transition, scan: Scan, stamp: string): (r: seq<Dispatch>)
    ensures |r| == if t in {New, Resolved} then 1 else 0
    ensures forall x :: x in r ==> x.channel == Email
    ensures t == New ==> r[0] == Dispatch(Email, NewSubject, NewBody(scan.context, stamp))
    ensures t == Resolved ==> r[0] == Dispatch(Email, ResolvedSubject, ResolvedBody(stamp))
  {
    match t
    case New => [Dispatch(Email, NewSubject, NewBody(scan.context, stamp))]
    case Resolved => [Dispatch(Email, ResolvedSubject, ResolvedBody(stamp))]
    case _ => []
  }

  // ---------------------------------------------------------------------------
  // The state file.

  /** The JSON object in sl_state.json; `hadDisruption` is None when the key
      is absent (a file written by another variant of the monitor). */
  datatype SavedState = SavedState(timestamp: string, hadDisruption: Option<bool>)

  /** `load_previous_state().get("had_disruption", False)`: a missing or
      unreadable file (`None`) and an absent key all read as False. */
  function HadDisruption(file: Option<SavedState>): (had: bool)
    ensures had ==> file.Some? && file.value.hadDisruption == Some(true)
  {
    file.Some? && file.value.hadDisruption.GetOr(false)
  }

  /** After a saved run, the same verdict sends nothing, and the opposite
      verdict sends exactly one e-mail. */
  lemma FlagRoundTrip(now: string, flag: bool, stamp: string, scan: Scan)
    ensures HadDisruption(Some(SavedState(now, Some(flag)))) == flag
    ensures Outgoing(Classify(HadDisruption(Some(SavedState(now, Some(flag)))), flag), scan, stamp) == []
    ensures |Outgoing(Classify(HadDisruption(Some(SavedState(now, Some(flag)))), !flag), scan, stamp)| == 1
  {
  }

  // ---------------------------------------------------------------------------
  // The monitor.

  /** SLMonitorUltraSimple with the state file it owns and the e-mails it has sent. */
  class Monitor {
    /** sl_state.json; None when it is missing or cannot be read. */
    var stateFile: Option<SavedState>
    /** Every e-mail attempted so far, in order. */
    var outbox: seq<Dispatch>

    constructor (stateFile: Option<SavedState>)
      ensures this.stateFile == stateFile && outbox == []
    {
      this.stateFile := stateFile;
      outbox := [];
    }

    /** The e-mail step of run(): what it sends for the previous flag and the scan. */
    method Notify(hadDisruptionBefore: bool, result: Scan, stamp: string)
      modifies this`outbox
      ensures outbox == old(outbox) + Outgoing(Classify(hadDisruptionBefore, result.hasDisruption), result, stamp)
    {
      var hasDisruptionNow := result.hasDisruption;
      if hasDisruptionNow && !hadDisruptionBefore {
        var body := ComposeNewBody(result.context, stamp);
        outbox := outbox + [Dispatch(Email, NewSubject, body)];
      } else if !hasDisruptionNow && hadDisruptionBefore {
        outbox := outbox + [Dispatch(Email, ResolvedSubject, ResolvedBody(stamp))];
      }
    }

    /** run(): one polling cycle. `page` is None when the page could not be
        fetched; `stamp` is the time shown in an e-mail, `now` the time stamp
        of the state file. */
    method RunCycle(page: Option<string>, stamp: string, now: string)
      modifies this
      ensures page.None? ==> stateFile == old(stateFile) && outbox == old(outbox)
      ensures page.Some? ==>
        var scan := ScanOf(page.value);
        && stateFile == Some(SavedState(now, Some(scan.hasDisruption)))
        && outbox == old(outbox) + Outgoing(Classify(HadDisruption(old(stateFile)), scan.hasDisruption), scan, stamp)
    {
      if page.None? {
        return;
      }
      var result := CheckForDisruptions(page.value);

      var hadDisruptionBefore := HadDisruption(stateFile);
      var hasDisruptionNow := result.hasDisruption;
      Notify(hadDisruptionBefore, result, stamp);

      stateFile := Some(SavedState(now, Some(hasDisruptionNow)));
    }
  }
}
