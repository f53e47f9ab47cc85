/**
 The optimised suggestion service: the five-minute table cache, per-owner
 metrics, the weighted template bank and its ranking, the multi-owner
 merge and the knowledge-base chatbot.

 The sentence-embedding model is not modelled; where the service would
 score texts, a `Scoring` value says whether a model is loaded, whether
 scoring raised, and otherwise which cosine similarity each text received.
 */
module ApiOptimized {
  import opened Table
  import opened Sorting
  import opened OwnerMetrics
  import opened TemplateBank

  /** The reference date of this service (`current_date`). */
  const Today := Date(2025, 6, 17)

  /** `CACHE_DURATION`, in seconds. */
  const CacheDuration: real := 300.0

  // ---------------------------------------------------------------------
  // load_data: the table cache

  /** The module-level globals `_data_cache` and `_cache_timestamp`. */
  class DataCache {
    var data: Option<seq<Row>>
    var timestamp: Option<real>

    /** Both globals are set together. */
    predicate Valid()
      reads this
    {
      data.Some? <==> timestamp.Some?
    }

    /** The cache may be served at time `now`. */
    predicate Fresh(now: real)
      reads this
    {
      data.Some? && timestamp.Some? && now - timestamp.value < CacheDuration
    }

    constructor()
      ensures Valid() && data.None? && timestamp.None?
    {
      data := None;
      timestamp := None;
    }

    /** `load_data()`. `sheet` is what reading the spreadsheet yields at this call,
        `None` when reading fails. */
    method LoadData(now: real, sheet: Option<seq<Vulnerability>>) returns (r: Response<seq<Row>>)
      requires Valid()
      modifies this
      ensures Valid()
      ensures old(Fresh(now)) ==> r == Ok(old(data).value) && data == old(data) && timestamp == old(timestamp)
      ensures !old(Fresh(now)) && sheet.None? ==>
                r == HttpError(500) && data == old(data) && timestamp == old(timestamp)
      ensures !old(Fresh(now)) && sheet.Some? ==>
                && r.Ok? && data == Some(r.value) && timestamp == Some(now)
                && |r.value| == |sheet.value|
                && (forall i :: 0 <= i < |r.value| ==> r.value[i].v == sheet.value[i])
                && (forall i :: 0 <= i < |r.value| ==> FlagsFollowDefinitions(r.value[i], Today))
                && Derived(r.value)
      ensures !old(Fresh(now)) && sheet.Some? ==> forall t :: now <= t < now + CacheDuration ==> Fresh(t)
    {
      if data.Some? && timestamp.Some? && now - timestamp.value < CacheDuration {
        return Ok(data.value);
      }
      if sheet.None? {
        return HttpError(500);
      }
      var a := NewTable(sheet.value);
      AddDerivedColumns(a, Today);
      data := Some(a[..]);
      timestamp := Some(now);
      r := Ok(a[..]);
    }
  }

  // ---------------------------------------------------------------------
  // calculate_metrics_for_ao

  /** The `metrics` dictionary. `worst_app` and `best_app` are keys that may be absent. */
  datatype Metrics = Metrics(
    aoId: string, aoName: string,
    criticalHigh: nat, oldVulns: nat, highRisk: nat,
    avgDaysToClose: Option<real>, deptAvg: Option<real>, repeatCount: Option<real>,
    total: nat, open: nat, deptName: string,
    worstApp: Option<string>, bestApp: Option<string>)

  /** What `calculate_metrics_for_ao` computes: 404 for an owner without rows. */
  function MetricsFor(rows: seq<Row>, id: string): Response<Metrics>
  {
    var own := OwnerRows(rows, id);
    if |own| == 0 then HttpError(404)
    else
      var apps := AppTable(own);
      var deptAvg := Mean(DaysToCloseColumn(rows));
      Ok(Metrics(id, own[0].v.ownerName,
                 Count(own, IsCriticalHigh()), Count(own, IsOver30()), Count(own, IsHighRisk()),
                 Mean(DaysToCloseColumn(own)), deptAvg, Mean(RepeatsColumn(own)),
                 |own|, Count(own, IsOpen()), own[0].v.deptName,
                 WorstApp(apps), BestApp(apps, deptAvg)))
  }

  /** The metrics loop, building `app_metrics` entry by entry. */
  method CalculateMetricsForAo(rows: seq<Row>, id: string) returns (r: Response<Metrics>)
    ensures r == MetricsFor(rows, id)
  {
    var own := OwnerRows(rows, id);
    if |own| == 0 {
      return HttpError(404);
    }
    var apps := BuildAppMetrics(own);
    var deptAvg := Mean(DaysToCloseColumn(rows));
    var worst := WorstApp(apps);
    var best := BestApp(apps, deptAvg);
    r := Ok(Metrics(id, own[0].v.ownerName,
                    Count(own, IsCriticalHigh()), Count(own, IsOver30()), Count(own, IsHighRisk()),
                    Mean(DaysToCloseColumn(own)), deptAvg, Mean(RepeatsColumn(own)),
                    |own|, Count(own, IsOpen()), own[0].v.deptName, worst, best));
  }

  /** An owner without rows is refused with 404, and only such an owner. */
  lemma MetricsNotFoundIffNoRows(rows: seq<Row>, id: string)
    ensures MetricsFor(rows, id).HttpError? <==> forall r :: r in rows ==> r.v.ownerId != id
    ensures MetricsFor(rows, id).HttpError? ==> MetricsFor(rows, id).status == 404
  {
    var own := OwnerRows(rows, id);
    if |own| > 0 {
      assert own[0] in own;
    }
  }

  /** The department average is taken over the whole table, so it does not depend on the owner. */
  lemma DeptAvgIndependentOfOwner(rows: seq<Row>, a: string, b: string)
    requires MetricsFor(rows, a).Ok? && MetricsFor(rows, b).Ok?
    ensures MetricsFor(rows, a).value.deptAvg == MetricsFor(rows, b).value.deptAvg
  {
  }

  /** The owner's counts: the per-application critical/high counts sum to the owner's,
      and the worst application is always present and is the first maximum of the key. */
  lemma MetricsForSpec(rows: seq<Row>, id: string)
    requires MetricsFor(rows, id).Ok?
    ensures var m := MetricsFor(rows, id).value; var apps := AppTable(OwnerRows(rows, id));
      && m.criticalHigh == SumCriticalHigh(apps)
      && m.open <= m.total && m.criticalHigh <= m.total && m.oldVulns <= m.total && m.highRisk <= m.total
      && m.worstApp.Some?
      && (exists k: nat :: IsFirstMaximum(apps, k) && apps[k].app == m.worstApp.value)
      && (m.bestApp.Some? <==> exists k :: 0 <= k < |apps| && Qualifies(apps[k], m.deptAvg))
  {
    var own := OwnerRows(rows, id);
    AppCountsPartitionOwnerCount(own);
    var apps := AppTable(own);
    assert |apps| > 0 by {
      assert own[0] in own;
      assert own[0].v.appName in AppColumn(own) by {
        assert AppColumn(own)[0] == own[0].v.appName;
      }
    }
  }

  // ---------------------------------------------------------------------
  // The template bank

  datatype Template = Template(priority: string, weight: real)

  /** Priority and weight of the ten templates, in bank order. */
  const Templates: seq<Template> := [
    Template("urgent", 1.0),   // [CRITICAL]
    Template("urgent", 0.9),   // [URGENT] old vulnerabilities
    Template("medium", 0.7),   // [WARNING] slower than the department
    Template("urgent", 0.8),   // [URGENT] high risk
    Template("medium", 0.6),   // [RECOMMENDATION] worst application
    Template("medium", 0.5),   // [OPTIMIZATION]
    Template("medium", 0.6),   // [TRAINING]
    Template("medium", 0.4),   // [STRATEGIC]
    Template("good", 0.3),     // [EXCELLENCE] best application
    Template("good", 0.2)      // [SUCCESS]
  ]

  /** The `condition` of template `t`; a comparison with NaN is false. */
  predicate Applies(t: nat, m: Metrics)
  {
    if t == 0 then m.criticalHigh > 5
    else if t == 1 then m.oldVulns > 3
    else if t == 2 then m.avgDaysToClose.Some? && m.deptAvg.Some? && m.avgDaysToClose.value > m.deptAvg.value + 5.0
    else if t == 3 then m.highRisk > 1
    else if t == 4 then m.worstApp.Some? && m.worstApp.value != "Unknown"
    else if t == 5 then Gt(m.avgDaysToClose, 20.0)
    else if t == 6 then Gt(m.repeatCount, 1.5)
    else if t == 7 then m.criticalHigh > 0
    else if t == 8 then m.bestApp.Some?
    else if t == 9 then Lt(m.avgDaysToClose, 15.0)
    else false
  }

  /** `template.format(**metrics)` succeeds: every key the text names is in `metrics`. */
  predicate Formattable(t: nat, m: Metrics)
  {
    (t == 4 ==> m.worstApp.Some?) && (t == 8 ==> m.bestApp.Some?)
  }

  /** One suggestion; the text is identified by its template. */
  datatype Suggestion = Suggestion(template: nat, priority: string, weight: real, relevance: real)

  /** A suggestion as first appended, with relevance 0. */
  function Unscored(t: nat): Suggestion
    requires t < |Templates|
  {
    Suggestion(t, Templates[t].priority, Templates[t].weight, 0.0)
  }

  /** A template that both applies and formats. */
  predicate Kept(t: nat, m: Metrics)
  {
    Applies(t, m) && Formattable(t, m)
  }

  function KeptIn(m: Metrics): nat -> bool
  {
    (t: nat) => Kept(t, m)
  }

  /** The suggestions for the given template positions, unscored. */
  function UnscoredAll(ids: seq<nat>): (c: seq<Suggestion>)
    requires forall k :: 0 <= k < |ids| ==> ids[k] < |Templates|
    ensures |c| == |ids| && forall k :: 0 <= k < |ids| ==> c[k] == Unscored(ids[k])
  {
    if ids == [] then []
    else UnscoredAll(ids[..|ids| - 1]) + [Unscored(ids[|ids| - 1])]
  }

  /** `applicable_suggestions` before ranking. */
  function Candidates(m: Metrics): seq<Suggestion>
  {
    UnscoredAll(Selected(KeptIn(m), |Templates|))
  }

  /** The loop over `suggestion_templates` appending to `applicable_suggestions`. */
  method CollectCandidates(m: Metrics) returns (cands: seq<Suggestion>)
    ensures cands == Candidates(m)
  {
    cands := [];
    var t := 0;
    while t < |Templates|
      invariant 0 <= t <= |Templates|
      invariant cands == UnscoredAll(Selected(KeptIn(m), t))
    {
      ghost var ids := Selected(KeptIn(m), t);
      if Kept(t, m) {
        assert (ids + [t])[..|ids|] == ids;
        cands := cands + [Unscored(t)];
      }
      t := t + 1;
    }
  }

  /** The candidates are exactly the applicable templates (formatting never fails once the
      condition holds), each once, in bank order, each with relevance 0. */
  lemma CandidatesSpec(m: Metrics)
    ensures var ids := Selected(KeptIn(m), |Templates|); var c := Candidates(m);
      && |c| == |ids| <= |Templates|
      && (forall k :: 0 <= k < |c| ==> c[k] == Unscored(ids[k]))
      && Ascending(ids)
      && (forall t :: 0 <= t < |Templates| ==> (Applies(t, m) <==> t in ids))
  {
    var ids := Selected(KeptIn(m), |Templates|);
    SelectedSpec(KeptIn(m), |Templates|);
    forall t | 0 <= t < |Templates| ensures Applies(t, m) <==> t in ids {
      assert KeptIn(m)(t) == Kept(t, m);
    }
  }

  lemma ExcellenceCondition(m: Metrics)
    ensures Applies(8, m) <==> m.bestApp.Some?
  {
  }

  /** "[EXCELLENCE]" is offered exactly when some application has no critical/high finding
      and a mean below the department mean. */
  lemma ExcellenceIffBestAppExists(rows: seq<Row>, id: string)
    requires MetricsFor(rows, id).Ok?
    ensures var m := MetricsFor(rows, id).value; var apps := AppTable(OwnerRows(rows, id));
      Applies(8, m) <==> exists k :: 0 <= k < |apps| && Qualifies(apps[k], m.deptAvg)
  {
    var m := MetricsFor(rows, id).value;
    var apps := AppTable(OwnerRows(rows, id));
    assert m.bestApp == BestApp(apps, m.deptAvg);
    ExcellenceCondition(m);
  }

  // ---------------------------------------------------------------------
  // Ranking

  /** Whether the model is loaded and what scoring produced. `similarity(t)` is the cosine
      similarity between the owner context and the text of template `t`. */
  datatype Scoring = NoModel | ScoringFails | Scores(similarity: nat -> real)

  function Combined(): Suggestion -> real
  {
    (s: Suggestion) => s.relevance * s.weight
  }

  function ByWeight(): Suggestion -> real
  {
    (s: Suggestion) => s.weight
  }

  function ByRelevance(): Suggestion -> real
  {
    (s: Suggestion) => s.relevance
  }

  /** Every suggestion gets the similarity of its text. */
  function Rescore(c: seq<Suggestion>, similarity: nat -> real): (r: seq<Suggestion>)
    ensures |r| == |c|
  {
    seq(|c|, i requires 0 <= i < |c| => c[i].(relevance := similarity(c[i].template)))
  }

  /** The order the candidates end in. */
  function Rank(c: seq<Suggestion>, scoring: Scoring): seq<Suggestion>
  {
    match scoring
    case NoModel => c
    case ScoringFails => SortByKeyDesc(c, ByWeight())
    case Scores(similarity) => SortByKeyDesc(Rescore(c, similarity), Combined())
  }

  /** With scores: a permutation of the rescored candidates, by relevance×weight, stable.
      When scoring raises: a permutation by weight. Without a model: bank order, relevance 0. */
  lemma RankSpec(c: seq<Suggestion>, scoring: Scoring)
    ensures var r := Rank(c, scoring);
      && |r| == |c|
      && (scoring.Scores? ==>
            && multiset(r) == multiset(Rescore(c, scoring.similarity))
            && (forall i, j :: 0 <= i < j < |r| ==> r[i].relevance * r[i].weight >= r[j].relevance * r[j].weight)
            && (forall s: Suggestion :: WithKey(r, Combined(), Combined()(s)) == WithKey(Rescore(c, scoring.similarity), Combined(), Combined()(s))))
      && (scoring.ScoringFails? ==>
            && multiset(r) == multiset(c)
            && (forall i, j :: 0 <= i < j < |r| ==> r[i].weight >= r[j].weight)
            && (forall s: Suggestion :: WithKey(r, ByWeight(), ByWeight()(s)) == WithKey(c, ByWeight(), ByWeight()(s))))
      && (scoring.NoModel? ==> r == c)
  {
    match scoring
    case NoModel =>
    case ScoringFails =>
      SortByKeyDescSpec(c, ByWeight());
    case Scores(similarity) =>
      SortByKeyDescSpec(Rescore(c, similarity), Combined());
  }

  /** The response body of one owner. */
  datatype SuggestionResult = SuggestionResult(metrics: Metrics, suggestions: seq<Suggestion>)

  /** `applicable_suggestions[:5]` after ranking. */
  function TopSuggestions(m: Metrics, scoring: Scoring): (s: seq<Suggestion>)
    ensures |s| <= 5
    ensures s <= Rank(Candidates(m), scoring)
  {
    PrefixSlice(Rank(Candidates(m), scoring), 5)
  }

  /** Scoring, sorting and truncation once the metrics are known. */
  method RankCandidates(m: Metrics, scoring: Scoring) returns (top: seq<Suggestion>)
    ensures top == TopSuggestions(m, scoring)
  {
    var c := CollectCandidates(m);
    if scoring.Scores? && |c| > 0 {
      var i := 0;
      while i < |c|
        invariant 0 <= i <= |c| == |Candidates(m)|
        invariant forall k :: 0 <= k < i ==> c[k] == Rescore(Candidates(m), scoring.similarity)[k]
        invariant forall k :: i <= k < |c| ==> c[k] == Candidates(m)[k]
      {
        c := c[i := c[i].(relevance := scoring.similarity(c[i].template))];
        i := i + 1;
      }
      assert c == Rescore(Candidates(m), scoring.similarity);
      c := SortByKeyDesc(c, Combined());
    } else if scoring.ScoringFails? && |c| > 0 {
      c := SortByKeyDesc(c, ByWeight());
    } else if scoring.Scores? {
      assert Rescore(c, scoring.similarity) == [];
    }
    top := PrefixSlice(c, 5);
  }

  /** `generate_suggestions_for_ao` as written: the 404 raised for an unknown owner is caught by
      the handler's `except Exception` and re-raised as 500. */
  method GenerateSuggestionsForAoAsWritten(rows: seq<Row>, id: string, scoring: Scoring)
    returns (r: Response<SuggestionResult>)
    ensures MetricsFor(rows, id).HttpError? ==> r == HttpError(500)
    ensures MetricsFor(rows, id).Ok? ==>
              r == Ok(SuggestionResult(MetricsFor(rows, id).value, TopSuggestions(MetricsFor(rows, id).value, scoring)))
  {
    var metrics := CalculateMetricsForAo(rows, id);
    if metrics.HttpError? {
      return HttpError(500);
    }
    var top := RankCandidates(metrics.value, scoring);
    r := Ok(SuggestionResult(metrics.value, top));
  }

  /** `generate_suggestions_for_ao` with the owner's 404 passed through, as the raise in
      `calculate_metrics_for_ao` intends. */
  method GenerateSuggestionsForAo(rows: seq<Row>, id: string, scoring: Scoring)
    returns (r: Response<SuggestionResult>)
    ensures r == SuggestionsFor(rows, id, scoring)
  {
    var metrics := CalculateMetricsForAo(rows, id);
    if metrics.HttpError? {
      return HttpError(metrics.status);
    }
    var top := RankCandidates(metrics.value, scoring);
    r := Ok(SuggestionResult(metrics.value, top));
  }

  /** The intended outcome of one owner's request. */
  function SuggestionsFor(rows: seq<Row>, id: string, scoring: Scoring): Response<SuggestionResult>
  {
    match MetricsFor(rows, id)
    case HttpError(status) => HttpError(status)
    case Ok(m) => Ok(SuggestionResult(m, TopSuggestions(m, scoring)))
  }

  /** An unknown owner gets 404 from the corrected handler, where the handler as written answers 500. */
  lemma UnknownOwnerStatus(rows: seq<Row>, id: string, scoring: Scoring)
    requires forall r :: r in rows ==> r.v.ownerId != id
    ensures SuggestionsFor(rows, id, scoring) == HttpError(404)
  {
    MetricsNotFoundIffNoRows(rows, id);
  }

  // ---------------------------------------------------------------------
  // get_multiple_suggestions

  /** One element of the request's `aos` list. */
  datatype AoEntry = AoEntry(aoId: Option<string>, aoName: Option<string>)

  datatype MultiResult = MultiResult(suggestions: seq<Suggestion>, totalAos: nat)

  /** Owners named in the list, in order; entries without `ao_id` are skipped. */
  function NamedOwners(aos: seq<AoEntry>): (ids: seq<string>)
    ensures |ids| <= |aos|
  {
    if aos == [] then []
    else NamedOwners(aos[..|aos| - 1]) + (if aos[|aos| - 1].aoId.Some? then [aos[|aos| - 1].aoId.value] else [])
  }

  /** `generate_suggestions_for_ao` on the table `rows`, as a function of the owner. */
  function Generator(rows: seq<Row>, scoring: string -> Scoring): string -> Response<SuggestionResult>
  {
    (id: string) => SuggestionsFor(rows, id, scoring(id))
  }

  /** The per-owner outcomes, in request order. */
  function Outcomes(ids: seq<string>, generate: string -> Response<SuggestionResult>): (outs: seq<Response<SuggestionResult>>)
    ensures |outs| == |ids|
  {
    if ids == [] then []
    else Outcomes(ids[..|ids| - 1], generate) + [generate(ids[|ids| - 1])]
  }

  /** The concatenated suggestions, or 500 as soon as one owner's generation fails. */
  function Merge(outs: seq<Response<SuggestionResult>>): Response<seq<Suggestion>>
  {
    if outs == [] then Ok([])
    else
      match Merge(outs[..|outs| - 1])
      case HttpError(s) => HttpError(s)
      case Ok(prev) =>
        match outs[|outs| - 1]
        case HttpError(_) => HttpError(500)
        case Ok(res) => Ok(prev + res.suggestions)
  }

  /** The merged response: sorted by relevance alone, at most ten, with the number of owners processed. */
  function MultiOf(outs: seq<Response<SuggestionResult>>): Response<MultiResult>
  {
    match Merge(outs)
    case HttpError(s) => HttpError(s)
    case Ok(all) => Ok(MultiResult(PrefixSlice(SortByKeyDesc(all, ByRelevance()), 10), |outs|))
  }

  function MultiFor(rows: seq<Row>, aos: seq<AoEntry>, scoring: string -> Scoring): Response<MultiResult>
  {
    MultiOf(Outcomes(NamedOwners(aos), Generator(rows, scoring)))
  }

  lemma NamedOwnersStep(aos: seq<AoEntry>, i: nat)
    requires i < |aos|
    ensures NamedOwners(aos[..i + 1]) == NamedOwners(aos[..i]) + (if aos[i].aoId.Some? then [aos[i].aoId.value] else [])
  {
    assert aos[..i + 1][..i] == aos[..i];
  }

  lemma {:induction false} NamedOwnersPrefix(aos: seq<AoEntry>, i: nat)
    requires i <= |aos|
    ensures NamedOwners(aos[..i]) <= NamedOwners(aos)
    decreases |aos| - i
  {
    if i < |aos| {
      NamedOwnersStep(aos, i);
      NamedOwnersPrefix(aos, i + 1);
    } else {
      assert aos[..i] == aos;
    }
  }

  lemma OutcomesStep(ids: seq<string>, id: string, generate: string -> Response<SuggestionResult>)
    ensures Outcomes(ids + [id], generate) == Outcomes(ids, generate) + [generate(id)]
  {
    assert (ids + [id])[..|ids|] == ids;
  }

  lemma {:induction false} OutcomesPrefix(ids: seq<string>, jds: seq<string>, generate: string -> Response<SuggestionResult>)
    requires ids <= jds
    ensures Outcomes(jds, generate)[..|ids|] == Outcomes(ids, generate)
  {
    if |jds| > |ids| {
      var init := jds[..|jds| - 1];
      assert ids <= init;
      OutcomesPrefix(ids, init, generate);
      assert Outcomes(jds, generate)[..|init|] == Outcomes(init, generate);
    } else {
      assert ids == jds;
    }
  }

  lemma MergeStep(outs: seq<Response<SuggestionResult>>, o: Response<SuggestionResult>)
    ensures Merge(outs + [o]) ==
      match Merge(outs)
      case HttpError(s) => HttpError(s)
      case Ok(prev) =>
        match o
        case HttpError(_) => HttpError(500)
        case Ok(res) => Ok(prev + res.suggestions)
  {
    assert (outs + [o])[..|outs|] == outs;
  }

  lemma {:induction false} MergeFailureSticks(outs: seq<Response<SuggestionResult>>, k: nat)
    requires k <= |outs|
    requires Merge(outs[..k]) == HttpError(500)
    ensures Merge(outs) == HttpError(500)
    decreases |outs| - k
  {
    if k < |outs| {
      assert outs[..k + 1] == outs[..k] + [outs[k]];
      MergeStep(outs[..k], outs[k]);
      MergeFailureSticks(outs, k + 1);
    } else {
      assert outs[..k] == outs;
    }
  }

  /** One more entry of the request: the merge so far grows by the entry's outcome. */
  lemma MergeEntry(aos: seq<AoEntry>, i: nat, generate: string -> Response<SuggestionResult>, all: seq<Suggestion>)
    requires i < |aos|
    requires Merge(Outcomes(NamedOwners(aos[..i]), generate)) == Ok(all)
    ensures aos[i].aoId.None? ==> Merge(Outcomes(NamedOwners(aos[..i + 1]), generate)) == Ok(all)
    ensures aos[i].aoId.Some? && generate(aos[i].aoId.value).Ok? ==>
              Merge(Outcomes(NamedOwners(aos[..i + 1]), generate)) == Ok(all + generate(aos[i].aoId.value).value.suggestions)
    ensures aos[i].aoId.Some? && generate(aos[i].aoId.value).HttpError? ==>
              MultiOf(Outcomes(NamedOwners(aos), generate)) == HttpError(500)
    ensures |NamedOwners(aos[..i + 1])| == |NamedOwners(aos[..i])| + (if aos[i].aoId.Some? then 1 else 0)
  {
    NamedOwnersStep(aos, i);
    var ids := NamedOwners(aos[..i]);
    if aos[i].aoId.Some? {
      var id := aos[i].aoId.value;
      OutcomesStep(ids, id, generate);
      MergeStep(Outcomes(ids, generate), generate(id));
      if generate(id).HttpError? {
        NamedOwnersPrefix(aos, i + 1);
        OutcomesPrefix(NamedOwners(aos[..i + 1]), NamedOwners(aos), generate);
        MergeFailureSticks(Outcomes(NamedOwners(aos), generate), |NamedOwners(aos[..i + 1])|);
      }
    } else {
      assert NamedOwners(aos[..i + 1]) == ids;
    }
  }

  /** The loop of `get_multiple_suggestions`, for any per-owner generation `generate`. */
  method MergeOwnerSuggestions(aos: seq<AoEntry>, generate: string -> Response<SuggestionResult>)
    returns (r: Response<MultiResult>)
    ensures r == MultiOf(Outcomes(NamedOwners(aos), generate))
  {
    var all: seq<Suggestion> := [];
    var processed := 0;
    var i := 0;
    while i < |aos|
      invariant 0 <= i <= |aos|
      invariant Merge(Outcomes(NamedOwners(aos[..i]), generate)) == Ok(all)
      invariant processed == |NamedOwners(aos[..i])|
    {
      MergeEntry(aos, i, generate, all);
      if aos[i].aoId.Some? {
        var one := generate(aos[i].aoId.value);
        if one.HttpError? {
          return HttpError(500);
        }
        all := all + one.value.suggestions;
        processed := processed + 1;
      }
      i := i + 1;
    }
    assert aos[..i] == aos;
    r := Ok(MultiResult(PrefixSlice(SortByKeyDesc(all, ByRelevance()), 10), processed));
  }

  /** `get_multiple_suggestions`: `scoring(id)` is what scoring yields for owner `id`. */
  method GetMultipleSuggestions(rows: seq<Row>, aos: seq<AoEntry>, scoring: string -> Scoring)
    returns (r: Response<MultiResult>)
    ensures r == MultiFor(rows, aos, scoring)
  {
    r := MergeOwnerSuggestions(aos, Generator(rows, scoring));
  }

  /** The ten most relevant of `all`: at most ten, non-increasing in relevance, drawn from
      `all`. */
  lemma TopTenByRelevance(all: seq<Suggestion>)
    ensures var r := PrefixSlice(SortByKeyDesc(all, ByRelevance()), 10);
      && |r| <= 10
      && (forall i, j :: 0 <= i < j < |r| ==> r[i].relevance >= r[j].relevance)
      && multiset(r) <= multiset(all)
  {
    TopKeys(all, ByRelevance(), 10);
    var r := PrefixSlice(SortByKeyDesc(all, ByRelevance()), 10);
    forall i, j | 0 <= i < j < |r| ensures r[i].relevance >= r[j].relevance {
      assert ByRelevance()(r[i]) >= ByRelevance()(r[j]);
    }
  }

  /** No suggestion left out of the first ten by relevance is more relevant than one kept. */
  lemma TopTenMaximal(all: seq<Suggestion>)
    ensures var r := PrefixSlice(SortByKeyDesc(all, ByRelevance()), 10);
      forall x, k :: x in multiset(all) - multiset(r) && 0 <= k < |r| ==> x.relevance <= r[k].relevance
  {
    TopKeysMaximal(all, ByRelevance(), 10);
    var r := PrefixSlice(SortByKeyDesc(all, ByRelevance()), 10);
    forall x, k | x in multiset(all) - multiset(r) && 0 <= k < |r| ensures x.relevance <= r[k].relevance {
      assert ByRelevance()(x) <= ByRelevance()(r[k]);
    }
  }

  /** The merged list is sorted by relevance, holds at most ten suggestions drawn from the
      per-owner lists, leaves out none more relevant than one it keeps, and counts every owner
      processed. */
  lemma MultiSpec(outs: seq<Response<SuggestionResult>>)
    requires MultiOf(outs).Ok?
    ensures var res := MultiOf(outs).value;
      && |res.suggestions| <= 10
      && (forall i, j :: 0 <= i < j < |res.suggestions| ==> res.suggestions[i].relevance >= res.suggestions[j].relevance)
      && res.totalAos == |outs|
      && multiset(res.suggestions) <= multiset(Merge(outs).value)
      && forall x, k :: x in multiset(Merge(outs).value) - multiset(res.suggestions) && 0 <= k < |res.suggestions| ==>
           x.relevance <= res.suggestions[k].relevance
  {
    TopTenByRelevance(Merge(outs).value);
    TopTenMaximal(Merge(outs).value);
  }

  /** The merge fails exactly when some owner's generation failed, and then with 500. */
  lemma {:induction false} MergeFailsIffSomeOwnerFails(outs: seq<Response<SuggestionResult>>)
    ensures Merge(outs).HttpError? <==> exists k :: 0 <= k < |outs| && outs[k].HttpError?
    ensures Merge(outs).HttpError? ==> Merge(outs).status == 500
  {
    if outs != [] {
      var init := outs[..|outs| - 1];
      MergeFailsIffSomeOwnerFails(init);
      if exists k :: 0 <= k < |init| && init[k].HttpError? {
        var k :| 0 <= k < |init| && init[k].HttpError?;
        assert outs[k] == init[k];
      }
      if exists k :: 0 <= k < |outs| && outs[k].HttpError? {
        var k :| 0 <= k < |outs| && outs[k].HttpError?;
        if k < |init| {
          assert init[k] == outs[k];
        }
      }
    }
  }

  // ---------------------------------------------------------------------
  // chatbot_query

  /** Number of entries in `knowledge_base`. */
  const KnowledgeBaseSize := 6

  /** The answer of knowledge-base entry `entry`, or the fixed fallback text. */
  datatype ChatReply = Answer(entry: nat, confidence: real) | Fallback(confidence: real)

  /** Whether the model is loaded, whether scoring raised, and otherwise the similarity of the
      question to each knowledge-base question. */
  datatype ChatScoring = ChatNoModel | ChatFails | ChatScores(score: nat -> real)

  /** `chatbot_query`: the first best-scoring entry above 0.3, else the fallback. */
  method ChatbotQuery(scoring: ChatScoring) returns (r: Response<ChatReply>)
    ensures scoring.ChatNoModel? ==> r == HttpError(503)
    ensures scoring.ChatFails? ==> r == HttpError(500)
    ensures scoring.ChatScores? ==> r.Ok?
    ensures scoring.ChatScores? && r.value.Answer? ==>
              var k, score := r.value.entry, scoring.score;
              && k < KnowledgeBaseSize
              && r.value.confidence == score(k) > 0.3
              && (forall j :: 0 <= j < KnowledgeBaseSize ==> score(j) <= score(k))
              && (forall j :: 0 <= j < k ==> score(j) < score(k))
    ensures scoring.ChatScores? && r.value.Fallback? ==>
              r.value.confidence == 0.0 && forall j :: 0 <= j < KnowledgeBaseSize ==> scoring.score(j) <= 0.3
  {
    if scoring.ChatNoModel? {
      return HttpError(503);
    }
    if scoring.ChatFails? {
      return HttpError(500);
    }
    var score := scoring.score;
    var best: Option<nat> := None;
    var bestScore: real := -1.0;
    var k := 0;
    while k < KnowledgeBaseSize
      invariant 0 <= k <= KnowledgeBaseSize
      invariant best.None? ==> bestScore == -1.0 && forall j :: 0 <= j < k ==> score(j) <= -1.0
      invariant best.Some? ==>
        && best.value < k && bestScore == score(best.value)
        && (forall j :: 0 <= j < k ==> score(j) <= bestScore)
        && (forall j :: 0 <= j < best.value ==> score(j) < bestScore)
    {
      if score(k) > bestScore {
        bestScore := score(k);
        best := Some(k);
      }
      k := k + 1;
    }
    if best.Some? && bestScore > 0.3 {
      r := Ok(Answer(best.value, bestScore));
    } else {
      r := Ok(Fallback(0.0));
    }
  }
}
