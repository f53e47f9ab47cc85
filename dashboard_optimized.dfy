/**
 The optimized dashboard: the owner/department/status filter behind the KPI
 cards and the urgent-issues table, the trend percentage, the suggestion
 panel fed by the suggestion service, and the colour bands of the chatbot.
 */
module DashboardOptimized {
  import opened Table
  import opened Sorting

  /** The reference date of this dashboard (`current_date`). */
  const Today := Date(2025, 6, 17)

  /** The three filter controls, after a missing value has become the empty list. */
  datatype Selection = Selection(aos: seq<string>, depts: seq<string>, statuses: seq<string>)

  /** The owner and status mask. */
  function OwnerAndStatus(sel: Selection): Row -> bool
  {
    (r: Row) => r.v.ownerId in sel.aos && r.v.status in sel.statuses
  }

  /** The department mask, applied only when departments are selected. */
  function InDepts(sel: Selection): Row -> bool
  {
    (r: Row) => r.v.deptName in sel.depts
  }

  /** `filtered_df`: owner and status first, then department when any is selected. */
  function Filtered(rows: seq<Row>, sel: Selection): seq<Row>
  {
    var byOwner := Filter(rows, OwnerAndStatus(sel));
    if |sel.depts| > 0 then Filter(byOwner, InDepts(sel)) else byOwner
  }

  /** A row is kept exactly when its owner and status are selected and, if any department is
      selected, its department is. */
  lemma FilteredSpec(rows: seq<Row>, sel: Selection)
    ensures forall r :: r in Filtered(rows, sel) <==>
      r in rows && r.v.ownerId in sel.aos && r.v.status in sel.statuses
      && (|sel.depts| > 0 ==> r.v.deptName in sel.depts)
  {
  }

  // ---------------------------------------------------------------------
  // KPI cards

  /** The KPI area: the prompt, the no-match note, or the six figures and the trend. */
  datatype Kpis =
    | SelectFiltersPrompt
    | NoMatchingData
    | Cards(total: nat, criticalHigh: nat, criticalHighOver30: nat,
            avgRisk: real, avgCvss: real, open: nat, totalTrend: real)

  function IsOpenStatus(): Row -> bool
  {
    (r: Row) => r.v.status == "Open"
  }

  function IsCriticalHighFlag(): Row -> bool
  {
    (r: Row) => r.flags.isCriticalHigh
  }

  function IsCriticalHighOver30Flag(): Row -> bool
  {
    (r: Row) => r.flags.isCriticalHighOver30
  }

  /** Rows first detected in a month before the current one (`Detection_Month < '2025-06'`). */
  function DetectedBefore(month: Date): Row -> bool
  {
    (r: Row) => MonthBefore(r.v.firstDetected, month)
  }

  /** `(total - prev) / prev * 100`, or 0 when there is no previous count. */
  function TrendPercent(total: nat, prevTotal: nat): real
  {
    if prevTotal > 0 then (total as real - prevTotal as real) / prevTotal as real * 100.0 else 0.0
  }

  /** `update_kpi_cards`. The previous-period count is taken over the whole table, and falls
      back to the current total when no earlier month has rows. */
  function KpiCards(rows: seq<Row>, sel: Selection): Kpis
  {
    if |sel.aos| == 0 || |sel.statuses| == 0 then SelectFiltersPrompt
    else
      var f := Filtered(rows, sel);
      if |f| == 0 then NoMatchingData
      else
        var prev := Count(rows, DetectedBefore(Today));
        var prevTotal := if prev > 0 then prev else |f|;
        Cards(|f|, Count(f, IsCriticalHighFlag()), Count(f, IsCriticalHighOver30Flag()),
              MeanOf(RiskColumn(f)), MeanOf(CvssColumn(f)), Count(f, IsOpenStatus()),
              TrendPercent(|f|, prevTotal))
  }

  /** The prompt appears exactly when no owner or no status is selected; otherwise the cards
      count the filtered rows, with urgent ≤ critical/high ≤ total and open ≤ total, and the
      trend is 0 when no earlier month has rows. */
  lemma KpiCardsSpec(rows: seq<Row>, sel: Selection)
    requires Derived(rows)
    ensures var k := KpiCards(rows, sel);
      && (k == SelectFiltersPrompt <==> |sel.aos| == 0 || |sel.statuses| == 0)
      && (k == NoMatchingData <==> |sel.aos| > 0 && |sel.statuses| > 0 && |Filtered(rows, sel)| == 0)
      && (k.Cards? ==>
            && k.total == |Filtered(rows, sel)| > 0
            && k.criticalHighOver30 <= k.criticalHigh <= k.total
            && k.open <= k.total
            && (Count(rows, DetectedBefore(Today)) == 0 ==> k.totalTrend == 0.0))
  {
    if |sel.aos| > 0 && |sel.statuses| > 0 {
      var f := Filtered(rows, sel);
      FilterPreservesDerived(rows, OwnerAndStatus(sel));
      if |sel.depts| > 0 {
        FilterPreservesDerived(Filter(rows, OwnerAndStatus(sel)), InDepts(sel));
      }
      CountMonotone(f, IsCriticalHighOver30Flag(), IsCriticalHighFlag());
    }
  }

  /** The arrow and colour of a KPI delta: up in red for a rise, down in green for a fall,
      a dash for no change, nothing when there is no delta. */
  datatype DeltaStyle = NoDelta | RiseRed | FallGreen | FlatGrey

  function DeltaStyleOf(delta: Option<real>): (s: DeltaStyle)
    ensures s == NoDelta <==> delta.None?
    ensures s == RiseRed <==> delta.Some? && delta.value > 0.0
    ensures s == FallGreen <==> delta.Some? && delta.value < 0.0
    ensures s == FlatGrey <==> delta == Some(0.0)
  {
    match delta
    case None => NoDelta
    case Some(d) => if d > 0.0 then RiseRed else if d < 0.0 then FallGreen else FlatGrey
  }

  // ---------------------------------------------------------------------
  // Urgent-issues table

  /** Critical/high over 30 days, or CVSS above 8, or risk above 8. */
  predicate IsUrgentRow(r: Row)
  {
    r.flags.isCriticalHighOver30 || r.v.cvss > 8.0 || r.v.risk > 8.0
  }

  function UrgentMask(sel: Selection): Row -> bool
  {
    (r: Row) => r.v.ownerId in sel.aos && r.v.status in sel.statuses && IsUrgentRow(r)
  }

  /** Days_Open in descending order with NaN placed last. */
  predicate DaysBefore(a: Option<real>, b: Option<real>)
  {
    a.Some? && (b.None? || a.value > b.value)
  }

  /** `sort_values(['CVSS_Score', 'Risk_Score', 'Days_Open'], ascending=False)`: `a` comes
      strictly before `b`. */
  predicate UrgentBefore(a: Row, b: Row)
  {
    || a.v.cvss > b.v.cvss
    || (a.v.cvss == b.v.cvss && a.v.risk > b.v.risk)
    || (a.v.cvss == b.v.cvss && a.v.risk == b.v.risk && DaysBefore(a.flags.daysOpen, b.flags.daysOpen))
  }

  function UrgentOrder(): (Row, Row) -> bool
  {
    (a: Row, b: Row) => UrgentBefore(a, b)
  }

  lemma UrgentOrderIsStrictWeakOrder()
    ensures StrictWeakOrder(UrgentOrder())
  {
  }

  /** The candidate rows of the urgent table, before sorting. */
  function UrgentCandidates(rows: seq<Row>, sel: Selection): seq<Row>
  {
    var f := Filter(rows, UrgentMask(sel));
    if |sel.depts| > 0 then Filter(f, InDepts(sel)) else f
  }

  const UrgentTableCap := 20

  /** `update_urgent_table`: no rows without an owner or a status; otherwise the urgent rows of
      the selection, most urgent first, at most twenty. */
  function UrgentTable(rows: seq<Row>, sel: Selection): seq<Row>
  {
    if |sel.aos| == 0 || |sel.statuses| == 0 then []
    else PrefixSlice(Sort(UrgentCandidates(rows, sel), UrgentOrder()), UrgentTableCap)
  }

  /** Every shown row is an urgent row of the selection. */
  lemma UrgentTableRowsSelected(rows: seq<Row>, sel: Selection)
    ensures forall r :: r in UrgentTable(rows, sel) ==>
      && r in rows && r.v.ownerId in sel.aos && r.v.status in sel.statuses
      && (|sel.depts| > 0 ==> r.v.deptName in sel.depts) && IsUrgentRow(r)
  {
    var c := UrgentCandidates(rows, sel);
    var sorted := Sort(c, UrgentOrder());
    forall r | r in UrgentTable(rows, sel)
      ensures r in c
    {
      assert r in sorted;
      assert r in multiset(sorted);
    }
  }

  /** At most twenty rows are shown, in non-increasing (CVSS, risk, Days_Open) order, taken
      from the front of a reordering of the candidates, so no row left out ranks strictly
      above a shown one. */
  lemma UrgentTableSpec(rows: seq<Row>, sel: Selection)
    requires |sel.aos| > 0 && |sel.statuses| > 0
    ensures var t := UrgentTable(rows, sel); var sorted := Sort(UrgentCandidates(rows, sel), UrgentOrder());
      && |t| <= UrgentTableCap
      && t <= sorted
      && multiset(sorted) == multiset(UrgentCandidates(rows, sel))
      && (forall i, j :: 0 <= i < j < |t| ==> !UrgentBefore(t[j], t[i]))
      && (forall i, j :: 0 <= i < |t| <= j < |sorted| ==> !UrgentBefore(sorted[j], sorted[i]))
  {
    var c := UrgentCandidates(rows, sel);
    UrgentOrderIsStrictWeakOrder();
    SortIsSorted(c, UrgentOrder());
  }

  // ---------------------------------------------------------------------
  // Suggestions panel

  /** The per-owner summary sent to the suggestion service. */
  datatype OwnerSummary = OwnerSummary(
    aoId: string, aoName: string, total: nat, criticalHigh: nat, over30: nat,
    avgRisk: real, avgCvss: real, open: nat, deptName: string)

  function OwnerIs(id: string): Row -> bool
  {
    (r: Row) => r.v.ownerId == id
  }

  function IsOver30Flag(): Row -> bool
  {
    (r: Row) => r.flags.isOver30
  }

  function SummaryOf(own: seq<Row>, id: string): OwnerSummary
    requires |own| > 0
  {
    OwnerSummary(id, own[0].v.ownerName, |own|, Count(own, IsCriticalHighFlag()), Count(own, IsOver30Flag()),
                 MeanOf(RiskColumn(own)), MeanOf(CvssColumn(own)), Count(own, IsOpenStatus()), own[0].v.deptName)
  }

  /** `ao_data`: one summary per selected owner that has rows, in selection order. */
  function Summaries(rows: seq<Row>, selected: seq<string>): seq<OwnerSummary>
  {
    if selected == [] then []
    else
      var id := selected[|selected| - 1];
      var own := Filter(rows, OwnerIs(id));
      Summaries(rows, selected[..|selected| - 1]) + (if |own| > 0 then [SummaryOf(own, id)] else [])
  }

  /** The loop building `ao_data`. */
  method BuildSummaries(rows: seq<Row>, selected: seq<string>) returns (data: seq<OwnerSummary>)
    ensures data == Summaries(rows, selected)
  {
    data := [];
    for i := 0 to |selected|
      invariant data == Summaries(rows, selected[..i])
    {
      assert selected[..i + 1][..i] == selected[..i];
      var own := Filter(rows, OwnerIs(selected[i]));
      if |own| > 0 {
        data := data + [SummaryOf(own, selected[i])];
      }
    }
    assert selected[..|selected|] == selected;
  }

  /** A summary of a selected owner with rows, its counts within its total. */
  predicate SummaryFits(rows: seq<Row>, selected: seq<string>, s: OwnerSummary)
  {
    && s.aoId in selected && s.total == Count(rows, OwnerIs(s.aoId)) > 0
    && s.criticalHigh <= s.total && s.over30 <= s.total && s.open <= s.total
  }

  lemma {:induction false} SummariesSound(rows: seq<Row>, selected: seq<string>)
    ensures |Summaries(rows, selected)| <= |selected|
    ensures forall k :: 0 <= k < |Summaries(rows, selected)| ==> SummaryFits(rows, selected, Summaries(rows, selected)[k])
  {
    if selected != [] {
      var init := selected[..|selected| - 1];
      var id := selected[|selected| - 1];
      SummariesSound(rows, init);
      assert selected == init + [id];
      var prev := Summaries(rows, init);
      var data := Summaries(rows, selected);
      forall k | 0 <= k < |data| ensures SummaryFits(rows, selected, data[k]) {
        if k < |prev| {
          assert data[k] == prev[k];
          assert SummaryFits(rows, init, prev[k]);
          assert prev[k].aoId in init;
        } else {
          assert data[k] == SummaryOf(Filter(rows, OwnerIs(id)), id);
        }
      }
    }
  }

  lemma {:induction false} SummariesComplete(rows: seq<Row>, selected: seq<string>)
    ensures forall id :: id in selected && Count(rows, OwnerIs(id)) > 0 ==>
              exists k :: 0 <= k < |Summaries(rows, selected)| && Summaries(rows, selected)[k].aoId == id
  {
    if selected != [] {
      var init := selected[..|selected| - 1];
      var last := selected[|selected| - 1];
      SummariesComplete(rows, init);
      assert selected == init + [last];
      var prev := Summaries(rows, init);
      var data := Summaries(rows, selected);
      forall other | other in selected && Count(rows, OwnerIs(other)) > 0
        ensures exists k :: 0 <= k < |Summaries(rows, selected)| && Summaries(rows, selected)[k].aoId == other
      {
        if other in init {
          var k :| 0 <= k < |prev| && prev[k].aoId == other;
          assert data[k] == prev[k];
        } else {
          assert other == last;
          assert |Filter(rows, OwnerIs(last))| > 0;
          assert data[|prev|].aoId == other;
        }
      }
      assert forall x :: x in selected && Count(rows, OwnerIs(x)) > 0 ==>
        exists k :: 0 <= k < |Summaries(rows, selected)| && Summaries(rows, selected)[k].aoId == x;
    }
  }

  /** Each summary belongs to a selected owner with rows and counts within its total; every
      selected owner with rows has a summary. */
  lemma SummariesSpec(rows: seq<Row>, selected: seq<string>)
    ensures var data := Summaries(rows, selected);
      && |data| <= |selected|
      && (forall k :: 0 <= k < |data| ==>
            data[k].aoId in selected && data[k].total == Count(rows, OwnerIs(data[k].aoId)) > 0
            && data[k].criticalHigh <= data[k].total && data[k].over30 <= data[k].total
            && data[k].open <= data[k].total)
      && (forall id :: id in selected && Count(rows, OwnerIs(id)) > 0 ==>
            exists k :: 0 <= k < |data| && data[k].aoId == id)
  {
    SummariesSound(rows, selected);
    SummariesComplete(rows, selected);
  }

  /** One suggestion of the service's reply: its `text` and `template` fields, if present. */
  datatype SuggestionJson = SuggestionJson(text: Option<string>, template: Option<string>)

  /** What `safe_api_call` gives back: an error message, or the body with its `suggestions`. */
  datatype ServiceReply = CallFailed(message: string) | Answered(suggestions: Option<seq<SuggestionJson>>)

  /** The suggestions area. */
  datatype Panel =
    | SelectOwnersPrompt
    | ErrorNote(message: string)
    | NoSuggestions
    | Insights(texts: seq<string>)

  /** `suggestion.get('text', suggestion.get('template', 'No suggestion text'))`. */
  function CardText(s: SuggestionJson): string
  {
    if s.text.Some? then s.text.value
    else if s.template.Some? then s.template.value
    else "No suggestion text"
  }

  function CardTexts(ss: seq<SuggestionJson>): (texts: seq<string>)
    ensures |texts| == |ss|
    ensures forall k :: 0 <= k < |ss| ==> texts[k] == CardText(ss[k])
  {
    if ss == [] then [] else CardTexts(ss[..|ss| - 1]) + [CardText(ss[|ss| - 1])]
  }

  const PanelCap := 5

  /** `update_suggestions` once the reply is in. */
  function SuggestionPanel(selected: seq<string>, reply: ServiceReply): Panel
  {
    if |selected| == 0 then SelectOwnersPrompt
    else match reply
      case CallFailed(message) => ErrorNote(message)
      case Answered(suggestions) =>
        if suggestions.None? || |suggestions.value| == 0 then NoSuggestions
        else Insights(CardTexts(PrefixSlice(suggestions.value, PanelCap)))
  }

  /** At most five insights, the first ones of the reply, each showing the suggestion's text,
      else its template, else a fixed note. */
  lemma SuggestionPanelSpec(selected: seq<string>, reply: ServiceReply)
    ensures var p := SuggestionPanel(selected, reply);
      && (p.Insights? ==>
            && reply.Answered? && reply.suggestions.Some?
            && 1 <= |p.texts| <= PanelCap
            && |p.texts| <= |reply.suggestions.value|
            && forall k :: 0 <= k < |p.texts| ==> p.texts[k] == CardText(reply.suggestions.value[k]))
      && (p == NoSuggestions <==>
            |selected| > 0 && reply.Answered? && (reply.suggestions.None? || |reply.suggestions.value| == 0))
  {
  }

  // ---------------------------------------------------------------------
  // Chatbot

  /** The request sent to the chatbot endpoint: the question and the first selected owner. */
  datatype ChatRequest = ChatRequest(question: string, aoId: Option<string>)

  function ChatRequestOf(question: string, selected: seq<string>): (q: ChatRequest)
    ensures q.question == question
    ensures q.aoId.Some? <==> |selected| > 0
    ensures q.aoId.Some? ==> q.aoId.value == selected[0]
  {
    ChatRequest(question, if |selected| > 0 then Some(selected[0]) else None)
  }

  datatype Colour = Green | Amber | Red

  /** A missing confidence counts as 0.8. */
  function ConfidenceColour(confidence: Option<real>): (c: Colour)
    ensures var v := if confidence.Some? then confidence.value else 0.8;
      && (c == Green <==> v > 0.8)
      && (c == Amber <==> 0.6 < v <= 0.8)
      && (c == Red <==> v <= 0.6)
  {
    var v := if confidence.Some? then confidence.value else 0.8;
    if v > 0.8 then Green else if v > 0.6 then Amber else Red
  }

  /** The chatbot's reply: the answer text and its confidence, or the error of the call. */
  datatype ChatReply = ChatCallFailed(message: string) | ChatAnswered(response: Option<string>, confidence: Option<real>)

  datatype ChatPanel =
    | Greeting
    | ChatError(message: string)
    | CouldNotAnswer
    | Answer(text: string, colour: Colour)

  /** `update_chatbot_response`: the greeting without a click or without input, the call's
      error, an apology for an empty answer, else the answer with its confidence colour. */
  function ChatbotPanel(clicks: nat, input: Option<string>, reply: ChatReply): (p: ChatPanel)
    ensures p == Greeting <==> clicks == 0 || input.None? || input.value == ""
    ensures p.ChatError? <==> p != Greeting && reply.ChatCallFailed?
    ensures p.ChatError? ==> p.message == reply.message
    ensures p == CouldNotAnswer <==>
              p != Greeting && reply.ChatAnswered? && (reply.response.None? || reply.response.value == "")
    ensures p.Answer? <==>
              p != Greeting && reply.ChatAnswered? && reply.response.Some? && reply.response.value != ""
    ensures p.Answer? ==> p.text == reply.response.value && p.colour == ConfidenceColour(reply.confidence)
    ensures p.Answer? && reply.confidence.None? ==> p.colour == Amber
  {
    if clicks == 0 || input.None? || input.value == "" then Greeting
    else match reply
      case ChatCallFailed(message) => ChatError(message)
      case ChatAnswered(response, confidence) =>
        if response.None? || response.value == "" then CouldNotAnswer
        else Answer(response.value, ConfidenceColour(confidence))
  }
}
