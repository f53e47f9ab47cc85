/**
 The first dashboard: eight suggestion templates filled from one owner's
 figures and ranked by similarity (three shown), and the single-value owner,
 department and status filters behind its charts and urgent table.
 */
module DashboardClassic {
  import opened Table
  import opened Sorting

  const TemplateCount := 8

  /** One entry of `formatted_suggestions`: the filled-in template, or the template itself when
      `format` raised. */
  datatype Entry = Formatted(template: nat) | Raw(template: nat)

  /** The loop over the eight templates; `formats(t)` says whether filling template `t` in
      succeeded. */
  method FormatTemplates(formats: nat -> bool) returns (entries: seq<Entry>)
    ensures |entries| == TemplateCount
    ensures forall t :: 0 <= t < TemplateCount ==>
              entries[t] == (if formats(t) then Formatted(t) else Raw(t))
  {
    entries := [];
    for t := 0 to TemplateCount
      invariant |entries| == t
      invariant forall k :: 0 <= k < t ==> entries[k] == (if formats(k) then Formatted(k) else Raw(k))
    {
      if formats(t) {
        entries := entries + [Formatted(t)];
      } else {
        entries := entries + [Raw(t)];
      }
    }
  }

  /** `[0, 1, ..., n - 1]`. */
  function Indices(n: nat): (s: seq<nat>)
    ensures |s| == n && forall i :: 0 <= i < n ==> s[i] == i
  {
    seq(n, i requires 0 <= i < n => i)
  }

  function Reverse<T>(s: seq<T>): (r: seq<T>)
    ensures |r| == |s| && forall i :: 0 <= i < |s| ==> r[i] == s[|s| - 1 - i]
  {
    seq(|s|, i requires 0 <= i < |s| => s[|s| - 1 - i])
  }

  /** `argsort` order: ascending similarity. */
  function BySimilarity(similarity: nat -> real): (nat, nat) -> bool
  {
    (a: nat, b: nat) => similarity(a) < similarity(b)
  }

  lemma BySimilarityIsStrictWeakOrder(similarity: nat -> real)
    ensures StrictWeakOrder(BySimilarity(similarity))
  {
  }

  /** `similarities.argsort()[-3:][::-1]`: the last three positions of the ascending
      order, the most similar first. */
  function TopThree(similarity: nat -> real): seq<nat>
  {
    var order := Sort(Indices(TemplateCount), BySimilarity(similarity));
    Reverse(order[TemplateCount - 3..])
  }

  /** Three different templates, in non-increasing similarity. */
  lemma TopThreeSpec(similarity: nat -> real)
    ensures var top := TopThree(similarity);
      && |top| == 3
      && (forall k :: 0 <= k < 3 ==> top[k] < TemplateCount)
      && NoDuplicates(top)
      && (forall k, l :: 0 <= k < l < 3 ==> similarity(top[k]) >= similarity(top[l]))
  {
    var idx := Indices(TemplateCount);
    var order := Sort(idx, BySimilarity(similarity));
    BySimilarityIsStrictWeakOrder(similarity);
    SortIsSorted(idx, BySimilarity(similarity));
    PermutationNoDuplicates(idx, order);
    var top := TopThree(similarity);
    forall k | 0 <= k < 3 ensures top[k] < TemplateCount {
      assert top[k] == order[TemplateCount - 1 - k];
      assert top[k] in multiset(idx);
    }
  }

  /** No template left out is more similar than any chosen one. */
  lemma TopThreeMaximal(similarity: nat -> real)
    ensures var top := TopThree(similarity);
      forall t, k :: 0 <= t < TemplateCount && t !in top && 0 <= k < 3 ==> similarity(t) <= similarity(top[k])
  {
    var idx := Indices(TemplateCount);
    var order := Sort(idx, BySimilarity(similarity));
    assert SortedBy(order, BySimilarity(similarity)) by {
      BySimilarityIsStrictWeakOrder(similarity);
      SortIsSorted(idx, BySimilarity(similarity));
    }
    forall t | 0 <= t < TemplateCount
      ensures t in order
    {
      assert idx[t] == t;
      assert t in multiset(order);
    }
    LastThreeMaximal(order, similarity);
  }

  /** In an order sorted by similarity, the last three are at least as similar as any other
      element. */
  lemma LastThreeMaximal(order: seq<nat>, similarity: nat -> real)
    requires |order| == TemplateCount && SortedBy(order, BySimilarity(similarity))
    ensures var top := Reverse(order[TemplateCount - 3..]);
      forall t, k :: t in order && t !in top && 0 <= k < 3 ==> similarity(t) <= similarity(top[k])
  {
    var top := Reverse(order[TemplateCount - 3..]);
    assert top[0] == order[7] && top[1] == order[6] && top[2] == order[5];
    forall t, k | t in order && t !in top && 0 <= k < 3
      ensures similarity(t) <= similarity(top[k])
    {
      var p :| 0 <= p < |order| && order[p] == t;
      assert p < TemplateCount - 3;
      SortedSimilarity(order, similarity, p, TemplateCount - 1 - k);
    }
  }

  lemma SortedSimilarity(order: seq<nat>, similarity: nat -> real, p: nat, q: nat)
    requires SortedBy(order, BySimilarity(similarity)) && p < q < |order|
    ensures similarity(order[p]) <= similarity(order[q])
  {
    assert !BySimilarity(similarity)(order[q], order[p]);
  }

  /** Whether the sentence model loaded, and then the similarity of each entry to the owner's
      context. */
  datatype Scoring = NoModel | Scores(similarity: nat -> real)

  /** What `generate_suggestions` returns; `Top` holds the chosen entries, joined by blank
      lines in the source. */
  datatype Outcome = Unavailable | NoData | Top(entries: seq<Entry>)

  function OwnerIs(id: string): Row -> bool
  {
    (r: Row) => r.v.ownerId == id
  }

  function Pick(entries: seq<Entry>, ids: seq<nat>): (r: seq<Entry>)
    requires forall k :: 0 <= k < |ids| ==> ids[k] < |entries|
    ensures |r| == |ids| && forall k :: 0 <= k < |ids| ==> r[k] == entries[ids[k]]
  {
    seq(|ids|, k requires 0 <= k < |ids| => entries[ids[k]])
  }

  /** `generate_suggestions(ao_id)`: model check, owner check, the eight entries, the top three. */
  method GenerateSuggestions(rows: seq<Row>, id: string, scoring: Scoring, formats: nat -> bool)
    returns (r: Outcome)
    ensures scoring.NoModel? <==> r == Unavailable
    ensures r == NoData <==> scoring.Scores? && Count(rows, OwnerIs(id)) == 0
    ensures r.Top? ==> |r.entries| == 3 && forall k :: 0 <= k < 3 ==>
              var t := TopThree(scoring.similarity)[k];
              r.entries[k] == (if formats(t) then Formatted(t) else Raw(t))
  {
    if scoring.NoModel? {
      return Unavailable;
    }
    var own := Filter(rows, OwnerIs(id));
    if |own| == 0 {
      return NoData;
    }
    var entries := FormatTemplates(formats);
    var top := TopThree(scoring.similarity);
    TopThreeSpec(scoring.similarity);
    r := Top(Pick(entries, top));
  }

  // ---------------------------------------------------------------------
  // Chart filters

  /** `update_charts` filtering: each control narrows the rows only when it holds a value (an
      empty string is no value). */
  function ChartRows(rows: seq<Row>, ao: Option<string>, dept: Option<string>, statuses: seq<string>): seq<Row>
  {
    var byOwner := if ao.Some? && ao.value != "" then Filter(rows, (r: Row) => r.v.ownerId == ao.value) else rows;
    var byDept := if dept.Some? && dept.value != "" then Filter(byOwner, (r: Row) => r.v.deptName == dept.value) else byOwner;
    if |statuses| > 0 then Filter(byDept, (r: Row) => r.v.status in statuses) else byDept
  }

  lemma ChartRowsSpec(rows: seq<Row>, ao: Option<string>, dept: Option<string>, statuses: seq<string>)
    ensures forall r :: r in ChartRows(rows, ao, dept, statuses) <==>
      && r in rows
      && (ao.Some? && ao.value != "" ==> r.v.ownerId == ao.value)
      && (dept.Some? && dept.value != "" ==> r.v.deptName == dept.value)
      && (|statuses| > 0 ==> r.v.status in statuses)
  {
  }

  /** The urgent table: critical/high over 30 days, or high risk. */
  function UrgentRows(filtered: seq<Row>): seq<Row>
  {
    Filter(filtered, (r: Row) => r.flags.isCriticalHighOver30 || r.flags.isHighRisk)
  }

  /** The urgent table holds exactly the filtered rows whose urgency level is not Normal. */
  lemma UrgentRowsAreNotNormal(filtered: seq<Row>)
    ensures forall r :: r in UrgentRows(filtered) <==> r in filtered && UrgencyOf(r.flags) != Normal
  {
    forall r | r in filtered {
      UrgencyClasses(r.flags);
    }
  }
}
