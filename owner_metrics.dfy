/**
 The per-owner aggregation both suggestion services share: the owner's rows,
 the per-application table (`app_metrics`, applications in order of first
 appearance), the worst application (Python `max` over the key
 (critical/high count, mean days to close)) and the best application (the
 first with no critical/high finding and a mean below the global mean).
 */
module OwnerMetrics {
  import opened Table

  /** `df['Application_Owner_ID'] == ao_id`. */
  function OwnerIs(id: string): Row -> bool
  {
    (r: Row) => r.v.ownerId == id
  }

  /** `ao_data['Application_Name'] == app`. */
  function AppIs(app: string): Row -> bool
  {
    (r: Row) => r.v.appName == app
  }

  function IsCriticalHigh(): Row -> bool
  {
    (r: Row) => r.flags.isCriticalHigh
  }

  function IsHighRisk(): Row -> bool
  {
    (r: Row) => r.flags.isHighRisk
  }

  function IsOver30(): Row -> bool
  {
    (r: Row) => r.flags.isOver30
  }

  function IsOpen(): Row -> bool
  {
    (r: Row) => r.v.status == "Open"
  }

  /** The rows of one owner (`ao_data`). */
  function OwnerRows(rows: seq<Row>, id: string): seq<Row>
  {
    Filter(rows, OwnerIs(id))
  }

  /** One entry of `app_metrics`. */
  datatype AppMetrics = AppMetrics(avgDays: Option<real>, criticalHigh: nat, highRisk: nat)

  datatype AppEntry = AppEntry(app: string, metrics: AppMetrics)

  function MetricsOfApp(ownerRows: seq<Row>, app: string): AppMetrics
  {
    var appRows := Filter(ownerRows, AppIs(app));
    AppMetrics(Mean(DaysToCloseColumn(appRows)), Count(appRows, IsCriticalHigh()), Count(appRows, IsHighRisk()))
  }

  /** The entries for the given applications, in the given order. */
  function TableFor(ownerRows: seq<Row>, apps: seq<string>): (t: seq<AppEntry>)
    ensures |t| == |apps|
    ensures forall i :: 0 <= i < |apps| ==> t[i].app == apps[i]
  {
    seq(|apps|, i requires 0 <= i < |apps| => AppEntry(apps[i], MetricsOfApp(ownerRows, apps[i])))
  }

  /** `app_metrics` as Python builds it: one entry per distinct application, first appearance first. */
  function AppTable(ownerRows: seq<Row>): seq<AppEntry>
  {
    TableFor(ownerRows, Distinct(AppColumn(ownerRows)))
  }

  /** Each application of the owner's rows has exactly one entry in `app_metrics`, there is no
      other entry, and the entries follow the order in which the applications first appear
      in the rows. */
  lemma AppTableCoversRows(ownerRows: seq<Row>)
    ensures var table := AppTable(ownerRows);
      && (forall i, j :: 0 <= i < j < |table| ==> table[i].app != table[j].app)
      && (forall r :: r in ownerRows ==> exists i :: 0 <= i < |table| && table[i].app == r.v.appName)
      && (forall i :: 0 <= i < |table| ==> table[i].app in AppColumn(ownerRows))
      && (forall i, j :: 0 <= i < j < |table| ==>
            IndexOf(AppColumn(ownerRows), table[i].app) < IndexOf(AppColumn(ownerRows), table[j].app))
  {
    var apps := Distinct(AppColumn(ownerRows));
    var table := AppTable(ownerRows);
    DistinctFirstAppearance(AppColumn(ownerRows));
    forall r | r in ownerRows ensures exists k :: 0 <= k < |table| && table[k].app == r.v.appName {
      var n :| 0 <= n < |ownerRows| && ownerRows[n] == r;
      assert AppColumn(ownerRows)[n] == r.v.appName;
      var k := IndexOf(apps, r.v.appName);
      assert table[k].app == r.v.appName;
    }
  }

  /** The loop filling `app_metrics`. */
  method BuildAppMetrics(ownerRows: seq<Row>) returns (table: seq<AppEntry>)
    ensures table == AppTable(ownerRows)
  {
    var apps := Distinct(AppColumn(ownerRows));
    table := [];
    var i := 0;
    while i < |apps|
      invariant 0 <= i <= |apps|
      invariant table == TableFor(ownerRows, apps[..i])
    {
      TableForSnoc(ownerRows, apps, i);
      table := table + [AppEntry(apps[i], MetricsOfApp(ownerRows, apps[i]))];
      i := i + 1;
    }
    assert apps[..i] == apps;
  }

  /** One more application adds its entry at the end. */
  lemma TableForSnoc(ownerRows: seq<Row>, apps: seq<string>, i: nat)
    requires i < |apps|
    ensures TableFor(ownerRows, apps[..i + 1])
            == TableFor(ownerRows, apps[..i]) + [AppEntry(apps[i], MetricsOfApp(ownerRows, apps[i]))]
  {
    var a := TableFor(ownerRows, apps[..i + 1]);
    var b := TableFor(ownerRows, apps[..i]) + [AppEntry(apps[i], MetricsOfApp(ownerRows, apps[i]))];
    assert |a| == |b|;
    forall k | 0 <= k < |a| ensures a[k] == b[k] {
      assert apps[..i + 1][k] == apps[k];
    }
  }

  // ---------------------------------------------------------------------
  // Worst application: Python `max` with key (critical_high, avg_days)

  /** The `max` key of an entry. */
  datatype AppKey = AppKey(criticalHigh: nat, avgDays: Option<real>)

  function KeyOf(e: AppEntry): AppKey
  {
    AppKey(e.metrics.criticalHigh, e.metrics.avgDays)
  }

  /** Python's tuple `>`: the counts decide unless equal; a NaN mean compares false. */
  predicate KeyGreater(a: AppKey, b: AppKey)
  {
    a.criticalHigh > b.criticalHigh || (a.criticalHigh == b.criticalHigh && GtOpt(a.avgDays, b.avgDays))
  }

  /** Python's tuple `==` on keys without NaN. */
  predicate KeyEqual(a: AppKey, b: AppKey)
  {
    a.criticalHigh == b.criticalHigh && a.avgDays.Some? && b.avgDays.Some? && a.avgDays.value == b.avgDays.value
  }

  lemma KeyGreaterTransitive(a: AppKey, b: AppKey, c: AppKey)
    requires KeyGreater(a, b) && KeyGreater(b, c)
    ensures KeyGreater(a, c)
  {
  }

  /** `max` keeps the running maximum and replaces it only by a strictly greater key. */
  function WorstScan(es: seq<AppEntry>, i: nat, best: nat): (w: nat)
    requires best < |es| && i <= |es|
    ensures w < |es|
    decreases |es| - i
  {
    if i == |es| then best
    else WorstScan(es, i + 1, if KeyGreater(KeyOf(es[i]), KeyOf(es[best])) then i else best)
  }

  /** The position `max(app_metrics, key=...)` returns. */
  function WorstIndex(es: seq<AppEntry>): (w: nat)
    requires |es| > 0
    ensures w < |es|
  {
    WorstScan(es, 1, 0)
  }

  /** No entry has a strictly greater key, and no earlier entry has an equal key. */
  ghost predicate IsFirstMaximum(es: seq<AppEntry>, w: nat)
  {
    && w < |es|
    && (forall j :: 0 <= j < |es| ==> !KeyGreater(KeyOf(es[j]), KeyOf(es[w])))
    && (forall j :: 0 <= j < w ==> !KeyEqual(KeyOf(es[j]), KeyOf(es[w])))
  }

  lemma {:induction false} WorstScanIsFirstMaximum(es: seq<AppEntry>, i: nat, best: nat)
    requires best < i <= |es|
    requires forall j :: 0 <= j < i ==> !KeyGreater(KeyOf(es[j]), KeyOf(es[best]))
    requires forall j :: 0 <= j < best ==> !KeyEqual(KeyOf(es[j]), KeyOf(es[best]))
    ensures IsFirstMaximum(es, WorstScan(es, i, best))
    decreases |es| - i
  {
    if i < |es| {
      if KeyGreater(KeyOf(es[i]), KeyOf(es[best])) {
        forall j | 0 <= j < i + 1 ensures !KeyGreater(KeyOf(es[j]), KeyOf(es[i])) {
          if j < i && KeyGreater(KeyOf(es[j]), KeyOf(es[i])) {
            KeyGreaterTransitive(KeyOf(es[j]), KeyOf(es[i]), KeyOf(es[best]));
          }
        }
        WorstScanIsFirstMaximum(es, i + 1, i);
      } else {
        WorstScanIsFirstMaximum(es, i + 1, best);
      }
    }
  }

  /** The worst application is a maximum of the key, and the first among equal keys. */
  lemma WorstIndexIsFirstMaximum(es: seq<AppEntry>)
    requires |es| > 0
    ensures IsFirstMaximum(es, WorstIndex(es))
  {
    WorstScanIsFirstMaximum(es, 1, 0);
  }

  /** `metrics['worst_app']`: present whenever the owner has an application. */
  function WorstApp(es: seq<AppEntry>): (w: Option<string>)
    ensures w.Some? <==> |es| > 0
    ensures w.Some? ==> exists k: nat :: IsFirstMaximum(es, k) && es[k].app == w.value
  {
    if |es| == 0 then None
    else
      WorstIndexIsFirstMaximum(es);
      Some(es[WorstIndex(es)].app)
  }

  // ---------------------------------------------------------------------
  // Best application: the first with no critical/high and a faster mean

  /** `critical_high == 0 and avg_days < dept_avg`; a NaN on either side fails the test. */
  predicate Qualifies(e: AppEntry, deptAvg: Option<real>)
  {
    e.metrics.criticalHigh == 0 && GtOpt(deptAvg, e.metrics.avgDays)
  }

  /** `best_apps[0] if best_apps else None`. */
  function BestApp(es: seq<AppEntry>, deptAvg: Option<real>): (b: Option<string>)
    ensures b.None? <==> forall j :: 0 <= j < |es| ==> !Qualifies(es[j], deptAvg)
    ensures b.Some? ==> exists k :: 0 <= k < |es| && es[k].app == b.value && Qualifies(es[k], deptAvg)
                                    && forall j :: 0 <= j < k ==> !Qualifies(es[j], deptAvg)
  {
    if |es| == 0 then None
    else if Qualifies(es[0], deptAvg) then Some(es[0].app)
    else
      var rest := BestApp(es[1..], deptAvg);
      assert forall j :: 1 <= j < |es| ==> es[j] == es[1..][j - 1];
      if rest.Some? then
        var k :| 0 <= k < |es[1..]| && es[1..][k].app == rest.value && Qualifies(es[1..][k], deptAvg)
                 && forall j :: 0 <= j < k ==> !Qualifies(es[1..][j], deptAvg);
        assert es[k + 1] == es[1..][k];
        rest
      else rest
  }

  // ---------------------------------------------------------------------
  // The per-application counts partition the owner's count

  /** Rows of each listed application satisfying `p`, summed over the list. */
  function CountPerApp(rows: seq<Row>, apps: seq<string>, p: Row -> bool): nat
  {
    if apps == [] then 0
    else CountPerApp(rows, apps[..|apps| - 1], p) + Count(Filter(rows, AppIs(apps[|apps| - 1])), p)
  }

  function SumCriticalHigh(es: seq<AppEntry>): nat
  {
    if es == [] then 0 else SumCriticalHigh(es[..|es| - 1]) + es[|es| - 1].metrics.criticalHigh
  }

  lemma CountSnoc(s: seq<Row>, x: Row, p: Row -> bool)
    ensures Count(s + [x], p) == Count(s, p) + (if p(x) then 1 else 0)
  {
    assert (s + [x])[..|s|] == s;
  }

  lemma FilterSnoc(s: seq<Row>, x: Row, q: Row -> bool)
    ensures Filter(s + [x], q) == Filter(s, q) + (if q(x) then [x] else [])
  {
    assert (s + [x])[..|s|] == s;
  }

  /** How many times `x` occurs in `apps`. */
  function Occurrences(apps: seq<string>, x: string): nat
  {
    if apps == [] then 0 else Occurrences(apps[..|apps| - 1], x) + (if apps[|apps| - 1] == x then 1 else 0)
  }

  lemma {:induction false} OccursOnce(apps: seq<string>, x: string)
    requires NoDuplicates(apps) && x in apps
    ensures Occurrences(apps, x) == 1
  {
    var init := apps[..|apps| - 1];
    if apps[|apps| - 1] == x {
      assert x !in init;
      OccursNot(init, x);
    } else {
      assert x in init by {
        var k :| 0 <= k < |apps| && apps[k] == x;
        assert init[k] == x;
      }
      OccursOnce(init, x);
    }
  }

  lemma {:induction false} OccursNot(apps: seq<string>, x: string)
    requires x !in apps
    ensures Occurrences(apps, x) == 0
  {
    if apps != [] {
      assert apps[..|apps| - 1] <= apps;
      OccursNot(apps[..|apps| - 1], x);
    }
  }

  lemma {:induction false} CountPerAppSnoc(rows: seq<Row>, x: Row, apps: seq<string>, p: Row -> bool)
    ensures CountPerApp(rows + [x], apps, p) == CountPerApp(rows, apps, p) + (if p(x) then Occurrences(apps, x.v.appName) else 0)
  {
    if apps != [] {
      var init, a := apps[..|apps| - 1], apps[|apps| - 1];
      CountPerAppSnoc(rows, x, init, p);
      var before, after := Filter(rows, AppIs(a)), Filter(rows + [x], AppIs(a));
      FilterSnoc(rows, x, AppIs(a));
      var extra := if p(x) && x.v.appName == a then 1 else 0;
      assert Count(after, p) == Count(before, p) + extra by {
        if x.v.appName == a {
          assert after == before + [x];
          CountSnoc(before, x, p);
        } else {
          assert after == before;
        }
      }
      assert Occurrences(apps, x.v.appName) == Occurrences(init, x.v.appName) + (if a == x.v.appName then 1 else 0);
    }
  }

  lemma {:induction false} CountPerAppIsCount(rows: seq<Row>, apps: seq<string>, p: Row -> bool)
    requires NoDuplicates(apps)
    requires forall r :: r in rows ==> r.v.appName in apps
    ensures CountPerApp(rows, apps, p) == Count(rows, p)
  {
    if rows == [] {
      CountPerAppEmpty(apps, p);
    } else {
      var init, x := rows[..|rows| - 1], rows[|rows| - 1];
      assert init + [x] == rows;
      CountPerAppIsCount(init, apps, p);
      CountPerAppSnoc(init, x, apps, p);
      OccursOnce(apps, x.v.appName);
      CountSnoc(init, x, p);
    }
  }

  lemma {:induction false} CountPerAppEmpty(apps: seq<string>, p: Row -> bool)
    ensures CountPerApp([], apps, p) == 0
  {
    if apps != [] {
      CountPerAppEmpty(apps[..|apps| - 1], p);
    }
  }

  lemma {:induction false} SumCriticalHighOfTable(ownerRows: seq<Row>, apps: seq<string>)
    ensures SumCriticalHigh(TableFor(ownerRows, apps)) == CountPerApp(ownerRows, apps, IsCriticalHigh())
  {
    if apps != [] {
      var init := apps[..|apps| - 1];
      assert TableFor(ownerRows, apps)[..|apps| - 1] == TableFor(ownerRows, init);
      SumCriticalHighOfTable(ownerRows, init);
    }
  }

  /** The per-application critical/high counts add up to the owner's critical/high count. */
  lemma AppCountsPartitionOwnerCount(ownerRows: seq<Row>)
    ensures SumCriticalHigh(AppTable(ownerRows)) == Count(ownerRows, IsCriticalHigh())
  {
    var apps := Distinct(AppColumn(ownerRows));
    SumCriticalHighOfTable(ownerRows, apps);
    forall r | r in ownerRows ensures r.v.appName in apps {
      var n :| 0 <= n < |ownerRows| && ownerRows[n] == r;
      assert AppColumn(ownerRows)[n] == r.v.appName;
    }
    CountPerAppIsCount(ownerRows, apps, IsCriticalHigh());
  }
}
