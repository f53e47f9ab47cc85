/**
 The first suggestion service: per-owner metrics computed on every request,
 a bank of ten templates with their own thresholds, ranking by similarity
 alone, and the endpoint's mapping of failures to HTTP statuses.
 */
module SuggestionApi {
  import opened Table
  import opened Sorting
  import opened OwnerMetrics
  import opened TemplateBank

  /** The `metrics` dictionary. `worst_app` is always a key (its value may be None);
      `best_app` is a key only when it holds a non-empty name. */
  datatype Metrics = Metrics(
    criticalHigh: nat, oldVulns: nat, highRisk: nat,
    avgDaysToClose: Option<real>, deptAvg: Option<real>, repeatCount: Option<real>,
    worstApp: Option<string>, deptName: string, bestApp: Option<string>)

  /** `if best_app:` — None and the empty name are both false. */
  function Truthy(name: Option<string>): Option<string>
  {
    if name.Some? && name.value != "" then name else None
  }

  /** The metrics of an owner with at least one row. */
  function MetricsOf(rows: seq<Row>, own: seq<Row>): Metrics
    requires |own| > 0
  {
    var apps := AppTable(own);
    var deptAvg := Mean(DaysToCloseColumn(rows));
    Metrics(Count(own, IsCriticalHigh()), Count(own, IsOver30()), Count(own, IsHighRisk()),
            Mean(DaysToCloseColumn(own)), deptAvg, Mean(RepeatsColumn(own)),
            WorstApp(apps), own[0].v.deptName, Truthy(BestApp(apps, deptAvg)))
  }

  // ---------------------------------------------------------------------
  // Templates

  const Priorities: seq<string> :=
    ["urgent", "urgent", "medium", "urgent", "medium", "medium", "medium", "medium", "good", "good"]

  /** The `condition` of template `t`; a comparison with NaN is false. */
  predicate Applies(t: nat, m: Metrics)
  {
    if t == 0 then m.criticalHigh > 3
    else if t == 1 then m.oldVulns > 5
    else if t == 2 then GtOpt(m.avgDaysToClose, m.deptAvg)
    else if t == 3 then m.highRisk > 2
    else if t == 4 then true
    else if t == 5 then Gt(m.avgDaysToClose, 25.0)
    else if t == 6 then Gt(m.repeatCount, 1.0)
    else if t == 7 then m.criticalHigh > 0
    else if t == 8 then m.bestApp.Some?
    else if t == 9 then Lt(m.avgDaysToClose, 20.0)
    else false
  }

  /** Every key a template names is present: `worst_app` always is, `best_app` when the
      condition of template 8 holds. So `format` never raises here. */
  predicate Formattable(t: nat, m: Metrics)
  {
    t == 8 ==> m.bestApp.Some?
  }

  predicate Kept(t: nat, m: Metrics)
  {
    Applies(t, m) && Formattable(t, m)
  }

  function KeptIn(m: Metrics): nat -> bool
  {
    (t: nat) => Kept(t, m)
  }

  datatype Suggestion = Suggestion(template: nat, priority: string, relevance: real)

  /** Candidates scored by the similarity of their text, in bank order. */
  function Scored(ids: seq<nat>, similarity: nat -> real): (c: seq<Suggestion>)
    requires forall k :: 0 <= k < |ids| ==> ids[k] < |Priorities|
    ensures |c| == |ids|
    ensures forall k :: 0 <= k < |ids| ==> c[k] == Suggestion(ids[k], Priorities[ids[k]], similarity(ids[k]))
  {
    seq(|ids|, k requires 0 <= k < |ids| => Suggestion(ids[k], Priorities[ids[k]], similarity(ids[k])))
  }

  function ByRelevance(): Suggestion -> real
  {
    (s: Suggestion) => s.relevance
  }

  /** The applicable templates, scored and sorted by relevance, top five. */
  function Ranked(m: Metrics, similarity: nat -> real): seq<Suggestion>
  {
    PrefixSlice(SortByKeyDesc(Scored(Selected(KeptIn(m), |Priorities|), similarity), ByRelevance()), 5)
  }

  /** Whether the model is loaded, whether encoding raises, and otherwise the similarity of
      each template's text to the owner context. */
  datatype Scoring = NoModel | ScoringRaises | Scores(similarity: nat -> real)

  /** What `generate_suggestions_for_ao` returns, or the exception it lets escape. */
  datatype Outcome =
    | Unavailable                     // {"error": "... temporarily unavailable."}
    | NoData                          // {"error": "No data available ..."}
    | Raised                          // encoding or similarity raised
    | Generated(aoName: string, suggestions: seq<Suggestion>, metrics: Metrics)

  function SuggestionsFor(rows: seq<Row>, id: string, scoring: Scoring): Outcome
  {
    if scoring.NoModel? then Unavailable
    else
      var own := OwnerRows(rows, id);
      if |own| == 0 then NoData
      else if scoring.ScoringRaises? then Raised
      else
        var m := MetricsOf(rows, own);
        Generated(own[0].v.ownerName, Ranked(m, scoring.similarity), m)
  }

  /** The metrics block of `generate_suggestions_for_ao`. */
  method CalculateMetrics(rows: seq<Row>, own: seq<Row>) returns (m: Metrics)
    requires |own| > 0
    ensures m == MetricsOf(rows, own)
  {
    var apps := BuildAppMetrics(own);
    var deptAvg := Mean(DaysToCloseColumn(rows));
    m := Metrics(Count(own, IsCriticalHigh()), Count(own, IsOver30()), Count(own, IsHighRisk()),
                 Mean(DaysToCloseColumn(own)), deptAvg, Mean(RepeatsColumn(own)),
                 WorstApp(apps), own[0].v.deptName, Truthy(BestApp(apps, deptAvg)));
  }

  /** The loop over the template bank, keeping the templates whose condition holds. */
  method CollectTemplates(m: Metrics) returns (ids: seq<nat>)
    ensures ids == Selected(KeptIn(m), |Priorities|)
  {
    ids := [];
    var t := 0;
    while t < |Priorities|
      invariant 0 <= t <= |Priorities|
      invariant ids == Selected(KeptIn(m), t)
    {
      if Kept(t, m) {
        ids := ids + [t];
      }
      t := t + 1;
    }
  }

  /** `generate_suggestions_for_ao`: metrics, the candidate loop, scoring and sorting. */
  method GenerateSuggestionsForAo(rows: seq<Row>, id: string, scoring: Scoring) returns (r: Outcome)
    ensures r == SuggestionsFor(rows, id, scoring)
  {
    if scoring.NoModel? {
      return Unavailable;
    }
    var own := OwnerRows(rows, id);
    if |own| == 0 {
      return NoData;
    }
    var m := CalculateMetrics(rows, own);
    var ids := CollectTemplates(m);
    if scoring.ScoringRaises? {
      return Raised;
    }
    var c := Scored(ids, scoring.similarity);
    c := SortByKeyDesc(c, ByRelevance());
    r := Generated(own[0].v.ownerName, PrefixSlice(c, 5), m);
  }

  /** Errors come in this order: no model first, then an owner without rows. */
  lemma ErrorOrder(rows: seq<Row>, id: string, scoring: Scoring)
    ensures scoring.NoModel? <==> SuggestionsFor(rows, id, scoring) == Unavailable
    ensures SuggestionsFor(rows, id, scoring) == NoData <==>
              !scoring.NoModel? && forall r :: r in rows ==> r.v.ownerId != id
  {
    var own := OwnerRows(rows, id);
    if |own| > 0 {
      assert own[0] in own;
    }
  }

  /** Exactly the applicable templates are candidates, each once and in bank order; the
      always-applicable template 4 is among them. */
  lemma CandidatesSpec(m: Metrics)
    ensures var ids := Selected(KeptIn(m), |Priorities|);
      && (forall t :: 0 <= t < |Priorities| ==> (Applies(t, m) <==> t in ids))
      && Ascending(ids)
      && 4 in ids
  {
    SelectedSpec(KeptIn(m), |Priorities|);
  }

  /** Sorting by relevance and keeping the first five of a non-empty candidate list: one to
      five suggestions, non-increasing in relevance, drawn from the list. */
  lemma TopFiveByRelevance(c: seq<Suggestion>)
    requires |c| >= 1
    ensures var r := PrefixSlice(SortByKeyDesc(c, ByRelevance()), 5);
      && 1 <= |r| <= 5
      && (forall i, j :: 0 <= i < j < |r| ==> r[i].relevance >= r[j].relevance)
      && multiset(r) <= multiset(c)
  {
    TopKeys(c, ByRelevance(), 5);
    var r := PrefixSlice(SortByKeyDesc(c, ByRelevance()), 5);
    forall i, j | 0 <= i < j < |r| ensures r[i].relevance >= r[j].relevance {
      assert ByRelevance()(r[i]) >= ByRelevance()(r[j]);
    }
  }

  /** No suggestion left out of the first five by relevance is more relevant than one kept. */
  lemma TopFiveMaximal(c: seq<Suggestion>)
    ensures var r := PrefixSlice(SortByKeyDesc(c, ByRelevance()), 5);
      forall x, k :: x in multiset(c) - multiset(r) && 0 <= k < |r| ==> x.relevance <= r[k].relevance
  {
    TopKeysMaximal(c, ByRelevance(), 5);
    var r := PrefixSlice(SortByKeyDesc(c, ByRelevance()), 5);
    forall x, k | x in multiset(c) - multiset(r) && 0 <= k < |r| ensures x.relevance <= r[k].relevance {
      assert ByRelevance()(x) <= ByRelevance()(r[k]);
    }
  }

  /** At least one and at most five suggestions are returned, by relevance, drawn from the
      scored candidates, and no scored candidate left out is more relevant than one returned. */
  lemma RankedSpec(m: Metrics, similarity: nat -> real)
    ensures var r := Ranked(m, similarity); var c := Scored(Selected(KeptIn(m), |Priorities|), similarity);
      && 1 <= |r| <= 5
      && (forall i, j :: 0 <= i < j < |r| ==> r[i].relevance >= r[j].relevance)
      && multiset(r) <= multiset(c)
      && forall x, k :: x in multiset(c) - multiset(r) && 0 <= k < |r| ==> x.relevance <= r[k].relevance
  {
    CandidatesSpec(m);
    TopFiveByRelevance(Scored(Selected(KeptIn(m), |Priorities|), similarity));
    TopFiveMaximal(Scored(Selected(KeptIn(m), |Priorities|), similarity));
  }

  /** `'best_app' in metrics` exactly when a first qualifying application exists and its
      name is not empty. */
  lemma BestAppKeySpec(rows: seq<Row>, own: seq<Row>)
    requires |own| > 0
    ensures var m := MetricsOf(rows, own); var apps := AppTable(own);
      m.bestApp.Some? <==>
        exists k :: 0 <= k < |apps| && Qualifies(apps[k], m.deptAvg) && apps[k].app != ""
                    && forall j :: 0 <= j < k ==> !Qualifies(apps[j], m.deptAvg)
  {
    var m := MetricsOf(rows, own);
    var apps := AppTable(own);
    assert m.bestApp == Truthy(BestApp(apps, m.deptAvg));
    TruthyBestApp(apps, m.deptAvg);
  }

  /** `if best_app:` passes exactly when the first qualifying entry exists and has a name. */
  lemma TruthyBestApp(apps: seq<AppEntry>, deptAvg: Option<real>)
    ensures Truthy(BestApp(apps, deptAvg)).Some? <==>
              exists k :: 0 <= k < |apps| && Qualifies(apps[k], deptAvg) && apps[k].app != ""
                          && forall j :: 0 <= j < k ==> !Qualifies(apps[j], deptAvg)
  {
    var b := BestApp(apps, deptAvg);
    if b.Some? {
      var k :| 0 <= k < |apps| && apps[k].app == b.value && Qualifies(apps[k], deptAvg)
               && forall j :: 0 <= j < k ==> !Qualifies(apps[j], deptAvg);
      if exists k' :: 0 <= k' < |apps| && Qualifies(apps[k'], deptAvg) && apps[k'].app != ""
                      && forall j :: 0 <= j < k' ==> !Qualifies(apps[j], deptAvg) {
        var k' :| 0 <= k' < |apps| && Qualifies(apps[k'], deptAvg) && apps[k'].app != ""
                  && forall j :: 0 <= j < k' ==> !Qualifies(apps[j], deptAvg);
        assert k' == k;
      }
    }
  }

  // ---------------------------------------------------------------------
  // The endpoint

  datatype Body = Body(aoId: string, aoName: string, suggestions: seq<Suggestion>, metrics: Metrics)

  /** `GET /suggestions/{ao_id}`: 404 for an owner not in the table (checked first), 500 when
      the result carries an error, and 500 for an escaped exception. */
  function GetSuggestions(rows: seq<Row>, id: string, scoring: Scoring): (r: Response<Body>)
    ensures r == HttpError(404) <==> id !in OwnerColumn(rows)
  {
    if id !in OwnerColumn(rows) then HttpError(404)
    else
      match SuggestionsFor(rows, id, scoring)
      case Generated(name, s, m) => Ok(Body(id, name, s, m))
      case _ => HttpError(500)
  }

  /** Behind the endpoint the "no data" error cannot occur: an owner that passes the 404 check
      has rows. Failures are then exactly a missing model or a raising model. */
  lemma EndpointNeverSeesNoData(rows: seq<Row>, id: string, scoring: Scoring)
    requires id in OwnerColumn(rows)
    ensures SuggestionsFor(rows, id, scoring) != NoData
    ensures GetSuggestions(rows, id, scoring).HttpError? <==> !scoring.Scores?
  {
    var k :| 0 <= k < |rows| && OwnerColumn(rows)[k] == id;
    assert rows[k] in rows;
    ErrorOrder(rows, id, scoring);
    if scoring.Scores? {
      var own := OwnerRows(rows, id);
      assert rows[k] in own;
    }
  }
}
