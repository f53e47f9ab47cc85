/**
 The enhanced dashboard: optional owner, department and status filters, the
 KPI cards with guarded percentages, the owner-versus-organisation comparison
 table, the owner → application → department Sankey diagram and the styling
 of the suggestions fetched for each selected owner.
 */
module EnhancedDashboard {
  import opened Table
  import opened Text

  // ---------------------------------------------------------------------
  // Filtering

  /** `update_dashboard` filtering: each selection narrows the rows only when it is non-empty. */
  function Filtered(rows: seq<Row>, aos: seq<string>, depts: seq<string>, statuses: seq<string>): seq<Row>
  {
    var byOwner := if |aos| > 0 then OwnersRows(rows, aos) else rows;
    var byDept := if |depts| > 0 then Filter(byOwner, (r: Row) => r.v.deptName in depts) else byOwner;
    if |statuses| > 0 then Filter(byDept, (r: Row) => r.v.status in statuses) else byDept
  }

  /** A row survives exactly when it meets every selection that is not empty. */
  lemma FilteredSpec(rows: seq<Row>, aos: seq<string>, depts: seq<string>, statuses: seq<string>)
    ensures forall r :: r in Filtered(rows, aos, depts, statuses) <==>
      && r in rows
      && (|aos| > 0 ==> r.v.ownerId in aos)
      && (|depts| > 0 ==> r.v.deptName in depts)
      && (|statuses| > 0 ==> r.v.status in statuses)
  {
  }

  // ---------------------------------------------------------------------
  // KPI cards

  /** The card colours the KPI row picks from. */
  datatype Colour = OpenColour | ClosedColour | CriticalColour | HighColour | LowColour

  datatype Kpis = Kpis(
    total: nat, open: nat, openPct: real, openColour: Colour,
    highCritical: nat, highCriticalPct: real, highCriticalColour: Colour,
    avgDays: Option<real>, daysColour: Colour,
    avgCvss: real, cvssColour: Colour, avgRisk: real, riskColour: Colour)

  function IsOpen(): Row -> bool
  {
    (r: Row) => r.v.status == "Open"
  }

  function IsCriticalHighFlag(): Row -> bool
  {
    (r: Row) => r.flags.isCriticalHigh
  }

  /** Colour of an average score card: critical above 7, high above 5, low otherwise. */
  function ScoreColour(x: real): Colour
  {
    if x > 7.0 then CriticalColour else if x > 5.0 then HighColour else LowColour
  }

  /** The six KPI cards of a non-empty selection (an empty one shows no cards). */
  function KpiCards(filtered: seq<Row>): Kpis
    requires |filtered| > 0
  {
    var total := |filtered|;
    var open := Count(filtered, IsOpen());
    var openPct := Percent(open, total);
    var highCritical := Count(filtered, IsCriticalHighFlag());
    var avgDays := Mean(DaysToCloseColumn(filtered));
    var avgCvss := MeanOf(CvssColumn(filtered));
    var avgRisk := MeanOf(RiskColumn(filtered));
    Kpis(total, open, openPct, if openPct > 50.0 then OpenColour else ClosedColour,
         highCritical, Percent(highCritical, total), if highCritical > 0 then CriticalColour else LowColour,
         avgDays, if Gt(avgDays, 30.0) then HighColour else LowColour,
         avgCvss, ScoreColour(avgCvss), avgRisk, ScoreColour(avgRisk))
  }

  /** `part / total * 100` exceeds 50 exactly when `part` is more than half of `total`. */
  lemma PercentAboveHalf(part: nat, total: nat)
    requires total > 0
    ensures Percent(part, total) > 50.0 <==> 2 * part > total
  {
    RatioAboveHalf(part as real, total as real);
  }

  lemma RatioAboveHalf(x: real, t: real)
    requires t > 0.0
    ensures x / t > 0.5 <==> 2.0 * x > t
  {
    var q := x / t;
    assert q * t == x;
    if q <= 0.5 {
      ProductNonNegative(0.5 - q, t);
      assert (0.5 - q) * t == 0.5 * t - q * t;
    } else {
      ProductPositive(q - 0.5, t);
      assert (q - 0.5) * t == q * t - 0.5 * t;
    }
  }

  /** The counts are bounded by the selection, both percentages lie in [0, 100], and every
      colour follows its threshold (a missing days average counts as not above 30). */
  lemma KpiCardsSpec(filtered: seq<Row>)
    requires |filtered| > 0
    ensures var k := KpiCards(filtered);
      && k.total == |filtered|
      && k.open <= k.total && k.highCritical <= k.total
      && 0.0 <= k.openPct <= 100.0 && 0.0 <= k.highCriticalPct <= 100.0
      && (k.openColour == OpenColour <==> 2 * k.open > k.total)
      && (k.highCriticalColour == CriticalColour <==> exists r :: r in filtered && r.flags.isCriticalHigh)
      && (k.daysColour == HighColour <==> k.avgDays.Some? && k.avgDays.value > 30.0)
      && (k.cvssColour == CriticalColour <==> k.avgCvss > 7.0)
      && (k.cvssColour == HighColour <==> 5.0 < k.avgCvss <= 7.0)
      && (k.riskColour == LowColour <==> k.avgRisk <= 5.0)
  {
    var open := Count(filtered, IsOpen());
    var highCritical := Count(filtered, IsCriticalHighFlag());
    PercentBounds(open, |filtered|);
    PercentBounds(highCritical, |filtered|);
    PercentAboveHalf(open, |filtered|);
    CountPositive(filtered, IsCriticalHighFlag());
  }

  // ---------------------------------------------------------------------
  // Owner comparison

  /** The five figures of the comparison table, for one owner, for the whole table, or the
      difference of the two. The days average may be NaN (None). */
  datatype Figures = Figures(cvss: real, risk: real, days: Option<real>, highCrit: real, open: real)

  /** The figures of a non-empty set of rows: means, and percentages of critical/high and of
      open rows. */
  function FiguresOf(rows: seq<Row>): Figures
    requires |rows| > 0
  {
    Figures(MeanOf(CvssColumn(rows)), MeanOf(RiskColumn(rows)), Mean(DaysToCloseColumn(rows)),
            Percent(Count(rows, IsCriticalHighFlag()), |rows|), Percent(Count(rows, IsOpen()), |rows|))
  }

  /** `a - b` where a NaN on either side gives NaN. */
  function MinusOpt(a: Option<real>, b: Option<real>): Option<real>
  {
    if a.Some? && b.Some? then Some(a.value - b.value) else None
  }

  /** The `*_delta` columns: owner figure minus organisation figure. */
  function Difference(own: Figures, org: Figures): Figures
  {
    Figures(own.cvss - org.cvss, own.risk - org.risk, MinusOpt(own.days, org.days),
            own.highCrit - org.highCrit, own.open - org.open)
  }

  datatype Comparison = Comparison(id: string, name: string, figures: Figures, delta: Figures)

  function OwnerIs(id: string): Row -> bool
  {
    (r: Row) => r.v.ownerId == id
  }

  /** One row of the comparison table. The owner is read from the whole table, whatever the
      filters, and the name is taken from the owner's first row. */
  function CompareOwner(rows: seq<Row>, id: string): Comparison
    requires Count(rows, OwnerIs(id)) > 0
  {
    var own := Filter(rows, OwnerIs(id));
    var figures := FiguresOf(own);
    Comparison(id, own[0].v.ownerName, figures, Difference(figures, FiguresOf(rows)))
  }

  /** The comparison table, or the exception raised by `.iloc[0]` for an owner without rows
      (an empty table fails as well, dividing by `len(df)`). */
  datatype ComparisonTable = ComparisonRaised | ComparisonRows(entries: seq<Comparison>)

  predicate OwnerMissing(rows: seq<Row>, ids: seq<string>)
  {
    exists i :: 0 <= i < |ids| && Count(rows, OwnerIs(ids[i])) == 0
  }

  /** No row of the table belongs to owner `id`. */
  predicate NoRowsOf(rows: seq<Row>, id: string)
  {
    forall r :: r in rows ==> r.v.ownerId != id
  }

  /** A selected owner is missing exactly when no row of the table carries their id. */
  lemma OwnerMissingSpec(rows: seq<Row>, ids: seq<string>)
    ensures OwnerMissing(rows, ids) <==>
              exists i :: 0 <= i < |ids| && NoRowsOf(rows, ids[i])
  {
    if OwnerMissing(rows, ids) {
      var i :| 0 <= i < |ids| && Count(rows, OwnerIs(ids[i])) == 0;
      CountPositive(rows, OwnerIs(ids[i]));
    }
    if exists i :: 0 <= i < |ids| && NoRowsOf(rows, ids[i]) {
      var i :| 0 <= i < |ids| && NoRowsOf(rows, ids[i]);
      CountPositive(rows, OwnerIs(ids[i]));
      assert Count(rows, OwnerIs(ids[i])) == 0;
    }
  }

  function ComparisonOf(rows: seq<Row>, ids: seq<string>): ComparisonTable
  {
    if |rows| == 0 || OwnerMissing(rows, ids) then ComparisonRaised
    else ComparisonRows(seq(|ids|, i requires 0 <= i < |ids| => CompareOwner(rows, ids[i])))
  }

  /** The loop that builds `ao_comparison`, one owner at a time, each entry with its deltas
      from the organisation-wide figures. */
  method BuildComparison(rows: seq<Row>, ids: seq<string>) returns (t: ComparisonTable)
    ensures t == ComparisonOf(rows, ids)
  {
    if |rows| == 0 {
      return ComparisonRaised;
    }
    var entries: seq<Comparison> := [];
    for i := 0 to |ids|
      invariant |entries| == i
      invariant forall k :: 0 <= k < i ==>
                  Count(rows, OwnerIs(ids[k])) > 0 && entries[k] == CompareOwner(rows, ids[k])
    {
      if Count(rows, OwnerIs(ids[i])) == 0 {
        assert OwnerMissing(rows, ids);
        return ComparisonRaised;
      }
      entries := entries + [CompareOwner(rows, ids[i])];
    }
    assert entries == seq(|ids|, i requires 0 <= i < |ids| => CompareOwner(rows, ids[i]));
    return ComparisonRows(entries);
  }

  /** The table fails exactly when the table is empty or a selected owner has no rows;
      otherwise it has one entry per selected owner, in selection order, named after one of
      that owner's rows, with percentages in [0, 100] and each delta the owner's figure minus
      the organisation's. */
  lemma ComparisonSpec(rows: seq<Row>, ids: seq<string>)
    ensures ComparisonOf(rows, ids).ComparisonRaised? <==>
              |rows| == 0 || exists i :: 0 <= i < |ids| && NoRowsOf(rows, ids[i])
    ensures ComparisonOf(rows, ids).ComparisonRows? ==>
              var e := ComparisonOf(rows, ids).entries;
              var org := FiguresOf(rows);
              && |e| == |ids|
              && forall i :: 0 <= i < |ids| ==>
                   && e[i].id == ids[i]
                   && (exists r :: r in rows && r.v.ownerId == ids[i] && r.v.ownerName == e[i].name)
                   && 0.0 <= e[i].figures.highCrit <= 100.0 && 0.0 <= e[i].figures.open <= 100.0
                   && e[i].delta.cvss == e[i].figures.cvss - org.cvss
                   && e[i].delta.risk == e[i].figures.risk - org.risk
                   && e[i].delta.highCrit == e[i].figures.highCrit - org.highCrit
                   && e[i].delta.open == e[i].figures.open - org.open
                   && (e[i].delta.days.Some? <==> e[i].figures.days.Some? && org.days.Some?)
  {
    OwnerMissingSpec(rows, ids);
    if ComparisonOf(rows, ids).ComparisonRows? {
      var e := ComparisonOf(rows, ids).entries;
      forall i | 0 <= i < |ids|
        ensures (exists r :: r in rows && r.v.ownerId == ids[i] && r.v.ownerName == e[i].name)
        ensures 0.0 <= e[i].figures.highCrit <= 100.0 && 0.0 <= e[i].figures.open <= 100.0
      {
        var own := Filter(rows, OwnerIs(ids[i]));
        assert own[0] in own;
        PercentBounds(Count(own, IsCriticalHighFlag()), |own|);
        PercentBounds(Count(own, IsOpen()), |own|);
      }
    }
  }

  /** An owner who owns every row of the table is level with the organisation: every delta is
      zero (or NaN for the days average when no row has a closing time). */
  lemma SoleOwnerIsLevel(rows: seq<Row>, id: string)
    requires |rows| > 0
    requires forall r :: r in rows ==> r.v.ownerId == id
    ensures Count(rows, OwnerIs(id)) > 0
    ensures var d := CompareOwner(rows, id).delta;
      d.cvss == 0.0 && d.risk == 0.0 && d.highCrit == 0.0 && d.open == 0.0 &&
      (d.days == None || d.days == Some(0.0))
  {
    FilterAll(rows, OwnerIs(id));
  }

  // ---------------------------------------------------------------------
  // Sankey diagram

  /** One row of the owner-application-department projection. */
  datatype Mapping = Mapping(ownerId: string, ownerName: string, appId: string, appName: string, dept: string)

  /** `ao_app_dept`: the distinct projections, in order of first appearance. */
  function AoAppDept(rows: seq<Row>): seq<Mapping>
  {
    Distinct(seq(|rows|, i requires 0 <= i < |rows| =>
      Mapping(rows[i].v.ownerId, rows[i].v.ownerName, rows[i].v.appId, rows[i].v.appName, rows[i].v.deptName)))
  }

  predicate MappingSelected(m: Mapping, aos: seq<string>, depts: seq<string>)
  {
    (|aos| > 0 ==> m.ownerId in aos) && (|depts| > 0 ==> m.dept in depts)
  }

  /** `ao_app_dept_filtered`: the projection narrowed by the non-empty owner and department
      selections, order kept. */
  function SankeyMappings(ms: seq<Mapping>, aos: seq<string>, depts: seq<string>): (r: seq<Mapping>)
    ensures forall m :: m in r <==> m in ms && MappingSelected(m, aos, depts)
  {
    if ms == [] then []
    else
      var last := ms[|ms| - 1];
      assert forall m :: m in ms <==> m in ms[..|ms| - 1] || m == last by {
        assert ms == ms[..|ms| - 1] + [last];
      }
      SankeyMappings(ms[..|ms| - 1], aos, depts) + (if MappingSelected(last, aos, depts) then [last] else [])
  }

  /** A node of the diagram. Its label is the formatted `name (id)` text (or the department
      name); the model keeps the pair the label is made from. */
  datatype Node = OwnerNode(id: string, name: string) | AppNode(id: string, name: string) | DeptNode(name: string)

  function OwnerNodes(ms: seq<Mapping>): seq<Node>
  {
    Distinct(seq(|ms|, i requires 0 <= i < |ms| => OwnerNode(ms[i].ownerId, ms[i].ownerName)))
  }

  function AppNodes(ms: seq<Mapping>): seq<Node>
  {
    Distinct(seq(|ms|, i requires 0 <= i < |ms| => AppNode(ms[i].appId, ms[i].appName)))
  }

  function DeptNodes(ms: seq<Mapping>): seq<Node>
  {
    Distinct(seq(|ms|, i requires 0 <= i < |ms| => DeptNode(ms[i].dept)))
  }

  /** A link of weight 1 between two node indices. */
  datatype Link = Link(source: nat, target: nat)

  /** The nodes of mapping row `i` are among the diagram's nodes. */
  lemma NodesOfMapping(ms: seq<Mapping>, i: nat)
    requires i < |ms|
    ensures OwnerNode(ms[i].ownerId, ms[i].ownerName) in OwnerNodes(ms)
    ensures AppNode(ms[i].appId, ms[i].appName) in AppNodes(ms)
    ensures DeptNode(ms[i].dept) in DeptNodes(ms)
  {
    assert OwnerNode(ms[i].ownerId, ms[i].ownerName) == seq(|ms|, i requires 0 <= i < |ms| => OwnerNode(ms[i].ownerId, ms[i].ownerName))[i];
    assert AppNode(ms[i].appId, ms[i].appName) == seq(|ms|, i requires 0 <= i < |ms| => AppNode(ms[i].appId, ms[i].appName))[i];
    assert DeptNode(ms[i].dept) == seq(|ms|, i requires 0 <= i < |ms| => DeptNode(ms[i].dept))[i];
  }

  /** `l` leads from the owner of `m` (an index into the owner block) to the application of
      `m` (an index into the application block, which follows the owner block). */
  predicate OwnerAppLink(l: Link, m: Mapping, owners: seq<Node>, apps: seq<Node>)
  {
    && l.source < |owners| && owners[l.source] == OwnerNode(m.ownerId, m.ownerName)
    && |owners| <= l.target < |owners| + |apps| && apps[l.target - |owners|] == AppNode(m.appId, m.appName)
  }

  /** `l` leads from the application of `m` to the department of `m` (an index into the
      department block, which follows the owner and application blocks). */
  predicate AppDeptLink(l: Link, m: Mapping, owners: seq<Node>, apps: seq<Node>, depts: seq<Node>)
  {
    && |owners| <= l.source < |owners| + |apps| && apps[l.source - |owners|] == AppNode(m.appId, m.appName)
    && |owners| + |apps| <= l.target < |owners| + |apps| + |depts|
    && depts[l.target - |owners| - |apps|] == DeptNode(m.dept)
  }

  /** The link of mapping row `i` from its owner to its application. */
  function OwnerAppLinkOf(ms: seq<Mapping>, i: nat): Link
    requires i < |ms|
  {
    NodesOfMapping(ms, i);
    Link(IndexOf(OwnerNodes(ms), OwnerNode(ms[i].ownerId, ms[i].ownerName)),
         |OwnerNodes(ms)| + IndexOf(AppNodes(ms), AppNode(ms[i].appId, ms[i].appName)))
  }

  lemma OwnerAppLinkOfSpec(ms: seq<Mapping>, i: nat)
    requires i < |ms|
    ensures OwnerAppLink(OwnerAppLinkOf(ms, i), ms[i], OwnerNodes(ms), AppNodes(ms))
  {
  }

  /** The link of mapping row `i` from its application to its department. */
  function AppDeptLinkOf(ms: seq<Mapping>, i: nat): Link
    requires i < |ms|
  {
    NodesOfMapping(ms, i);
    Link(|OwnerNodes(ms)| + IndexOf(AppNodes(ms), AppNode(ms[i].appId, ms[i].appName)),
         |OwnerNodes(ms)| + |AppNodes(ms)| + IndexOf(DeptNodes(ms), DeptNode(ms[i].dept)))
  }

  lemma AppDeptLinkOfSpec(ms: seq<Mapping>, i: nat)
    requires i < |ms|
    ensures AppDeptLink(AppDeptLinkOf(ms, i), ms[i], OwnerNodes(ms), AppNodes(ms), DeptNodes(ms))
  {
  }

  /** The first loop: one link per mapping row, from the row's owner to the row's
      application. */
  method LinkOwnersToApps(ms: seq<Mapping>) returns (links: seq<Link>)
    ensures |links| == |ms|
    ensures forall i :: 0 <= i < |ms| ==> OwnerAppLink(links[i], ms[i], OwnerNodes(ms), AppNodes(ms))
  {
    var owners := OwnerNodes(ms);
    var apps := AppNodes(ms);
    links := [];
    for i := 0 to |ms|
      invariant |links| == i
      invariant forall k :: 0 <= k < i ==> OwnerAppLink(links[k], ms[k], owners, apps)
    {
      OwnerAppLinkOfSpec(ms, i);
      links := links + [OwnerAppLinkOf(ms, i)];
    }
  }

  /** The second loop: one link per mapping row, from the row's application to the row's
      department. */
  method LinkAppsToDepts(ms: seq<Mapping>) returns (links: seq<Link>)
    ensures |links| == |ms|
    ensures forall i :: 0 <= i < |ms| ==> AppDeptLink(links[i], ms[i], OwnerNodes(ms), AppNodes(ms), DeptNodes(ms))
  {
    var owners := OwnerNodes(ms);
    var apps := AppNodes(ms);
    var depts := DeptNodes(ms);
    links := [];
    for i := 0 to |ms|
      invariant |links| == i
      invariant forall k :: 0 <= k < i ==> AppDeptLink(links[k], ms[k], owners, apps, depts)
    {
      AppDeptLinkOfSpec(ms, i);
      links := links + [AppDeptLinkOf(ms, i)];
    }
  }

  /** `links_ao_app + links_app_dept` over `all_labels`: two links per mapping row, the
      first half from owners to applications, the second from applications to departments. */
  method BuildLinks(ms: seq<Mapping>) returns (labels: seq<Node>, links: seq<Link>)
    ensures labels == OwnerNodes(ms) + AppNodes(ms) + DeptNodes(ms)
    ensures |links| == 2 * |ms|
    ensures forall i :: 0 <= i < |ms| ==> OwnerAppLink(links[i], ms[i], OwnerNodes(ms), AppNodes(ms))
    ensures forall i :: 0 <= i < |ms| ==>
              AppDeptLink(links[|ms| + i], ms[i], OwnerNodes(ms), AppNodes(ms), DeptNodes(ms))
  {
    labels := OwnerNodes(ms) + AppNodes(ms) + DeptNodes(ms);
    var aoApp := LinkOwnersToApps(ms);
    var appDept := LinkAppsToDepts(ms);
    links := aoApp + appDept;
  }

  /** What the link shapes mean for `all_labels`: an owner-to-application link connects the
      row's owner label to its application label, and an application-to-department link the
      row's application label to its department label, all inside the label list. */
  lemma LinksConnectRowNodes(l: Link, l2: Link, m: Mapping, owners: seq<Node>, apps: seq<Node>, depts: seq<Node>)
    requires NoDuplicates(apps)
    requires OwnerAppLink(l, m, owners, apps)
    requires AppDeptLink(l2, m, owners, apps, depts)
    ensures var labels := owners + apps + depts;
      && l.source < |owners| <= l.target < |owners| + |apps| <= l2.target < |labels|
      && labels[l.source] == OwnerNode(m.ownerId, m.ownerName)
      && labels[l.target] == AppNode(m.appId, m.appName)
      && l2.source == l.target
      && labels[l2.target] == DeptNode(m.dept)
  {
    var labels := owners + apps + depts;
    assert labels[l.target] == apps[l.target - |owners|];
    assert labels[l2.source] == apps[l2.source - |owners|];
    assert labels[l2.target] == depts[l2.target - |owners| - |apps|];
  }

  // ---------------------------------------------------------------------
  // The whole update

  /** The performance tab: a prompt without selected owners, otherwise the comparison. */
  datatype Performance = SelectOwnerPrompt | Compared(table: ComparisonTable)

  /** What `update_dashboard` shows: nothing when no row survives the filters; otherwise the
      KPI cards, the performance tab and the mapping rows the Sankey diagram is drawn from.
      `Raised` is the callback raising before it returns, which updates none of the outputs:
      `.iloc[0]` of a selected owner without rows. */
  datatype View = NoMatchingData | Raised | View(kpis: Kpis, performance: Performance, sankey: seq<Mapping>)

  function DashboardView(rows: seq<Row>, aos: seq<string>, depts: seq<string>, statuses: seq<string>): View
  {
    var filtered := Filtered(rows, aos, depts, statuses);
    if |filtered| == 0 then NoMatchingData
    else if |aos| > 0 && ComparisonOf(rows, aos).ComparisonRaised? then Raised
    else View(KpiCards(filtered),
              if |aos| > 0 then Compared(ComparisonOf(rows, aos)) else SelectOwnerPrompt,
              SankeyMappings(AoAppDept(rows), aos, depts))
  }

  /** No data is shown exactly when no row meets the non-empty selections; otherwise the
      callback raises exactly when a selected owner has no row at all; a shown view has the
      comparison exactly when owners are selected, and its Sankey rows are the projections
      meeting the owner and department selections. */
  lemma DashboardViewSpec(rows: seq<Row>, aos: seq<string>, depts: seq<string>, statuses: seq<string>)
    ensures var v := DashboardView(rows, aos, depts, statuses);
      && (v.NoMatchingData? <==> forall r :: r in rows ==>
            || (|aos| > 0 && r.v.ownerId !in aos)
            || (|depts| > 0 && r.v.deptName !in depts)
            || (|statuses| > 0 && r.v.status !in statuses))
      && (v.Raised? <==> !v.NoMatchingData? && exists i :: 0 <= i < |aos| && NoRowsOf(rows, aos[i]))
      && (v.View? ==> (v.performance.Compared? <==> |aos| > 0))
      && (v.View? && v.performance.Compared? ==> v.performance.table.ComparisonRows?)
      && (v.View? ==> forall m :: m in v.sankey <==> m in AoAppDept(rows) && MappingSelected(m, aos, depts))
  {
    var filtered := Filtered(rows, aos, depts, statuses);
    FilteredSpec(rows, aos, depts, statuses);
    if |filtered| > 0 {
      assert filtered[0] in filtered;
      ComparisonSpec(rows, aos);
    }
  }

  // ---------------------------------------------------------------------
  // Suggestions panel

  /** Alert class of a suggestion card. */
  datatype Alert = Danger | Warning | Success

  /** `urgent` is shown as danger, `medium` as warning, anything else as success. */
  function AlertFor(priority: string): (a: Alert)
    ensures a == Danger <==> priority == "urgent"
    ensures a == Warning <==> priority == "medium"
    ensures a == Success <==> priority != "urgent" && priority != "medium"
  {
    if priority == "urgent" then Danger
    else if priority == "medium" then Warning
    else Success
  }

  /** What the request to the suggestion service for one owner gave: a status code with the
      owner name and the (text, priority) pairs of a 200 reply, or an exception message. */
  datatype Fetch = Fetched(status: int, aoName: string, suggestions: seq<(string, string)>) | FetchRaised(message: string)

  datatype Section =
    | OwnerSuggestions(aoName: string, id: string, cards: seq<(string, Alert)>)
    | ServiceFailed(id: string, status: int)
    | ServiceUnreachable(name: string, id: string, notRunning: bool)

  /** A connection failure, judged from the exception text. */
  predicate ConnectionFailure(message: string)
  {
    Contains(message, "Connection") || Contains(message, "connect")
    || Contains(message, "ConnectTimeoutError") || Contains(message, "ConnectionError")
  }

  /** The name shown when the service could not be reached: the owner's name from the first of
      their rows, or the id when the table has none. */
  function DisplayName(rows: seq<Row>, id: string): string
  {
    var own := Filter(rows, OwnerIs(id));
    if |own| > 0 then own[0].v.ownerName else id
  }

  function Cards(suggestions: seq<(string, string)>): (cards: seq<(string, Alert)>)
    ensures |cards| == |suggestions|
    ensures forall k :: 0 <= k < |suggestions| ==>
              cards[k] == (suggestions[k].0, AlertFor(suggestions[k].1))
  {
    seq(|suggestions|, k requires 0 <= k < |suggestions| => (suggestions[k].0, AlertFor(suggestions[k].1)))
  }

  function SectionFor(rows: seq<Row>, id: string, fetch: Fetch): Section
  {
    match fetch
    case Fetched(status, aoName, suggestions) =>
      if status == 200 then OwnerSuggestions(aoName, id, Cards(suggestions)) else ServiceFailed(id, status)
    case FetchRaised(message) => ServiceUnreachable(DisplayName(rows, id), id, ConnectionFailure(message))
  }

  /** The loop of `update_suggestions` over the selected owners; `fetch(id)` is the outcome
      of the request for `id`. */
  method SuggestionSections(rows: seq<Row>, ids: seq<string>, fetch: string -> Fetch)
    returns (sections: seq<Section>)
    ensures |sections| == |ids|
    ensures forall i :: 0 <= i < |ids| ==> sections[i] == SectionFor(rows, ids[i], fetch(ids[i]))
  {
    sections := [];
    for i := 0 to |ids|
      invariant |sections| == i
      invariant forall k :: 0 <= k < i ==> sections[k] == SectionFor(rows, ids[k], fetch(ids[k]))
    {
      sections := sections + [SectionFor(rows, ids[i], fetch(ids[i]))];
    }
  }

  /** Each owner gets exactly one section: the cards of a 200 reply, one per suggestion, each
      styled by its priority; the status of any other reply; or, when the request raised, the
      owner's name (or id) and whether the service looked down. */
  lemma SectionForSpec(rows: seq<Row>, id: string, fetch: Fetch)
    ensures var s := SectionFor(rows, id, fetch);
      && (s.OwnerSuggestions? <==> fetch.Fetched? && fetch.status == 200)
      && (s.ServiceFailed? <==> fetch.Fetched? && fetch.status != 200)
      && (s.OwnerSuggestions? ==>
            && |s.cards| == |fetch.suggestions|
            && forall k :: 0 <= k < |s.cards| ==> (s.cards[k].1 == Danger <==> fetch.suggestions[k].1 == "urgent"))
      && (s.ServiceUnreachable? ==>
            (s.name == id <== forall r :: r in rows ==> r.v.ownerId != id) &&
            ((exists r :: r in rows && r.v.ownerId == id) ==>
               exists r :: r in rows && r.v.ownerId == id && r.v.ownerName == s.name))
  {
    var own := Filter(rows, OwnerIs(id));
    CountPositive(rows, OwnerIs(id));
    if |own| > 0 {
      assert own[0] in own;
    }
  }
}
