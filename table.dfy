/**
 The vulnerability table shared by every service and dashboard: one record per
 spreadsheet row, the derived columns each program adds at load time, and the
 column aggregates (counts, means, distinct values) that pandas provides.
 */
module Table {

  datatype Option<T> = None | Some(value: T)

  /** The outcome of an endpoint: a body, or an HTTP error status. */
  datatype Response<T> = Ok(value: T) | HttpError(status: int)

  /** A calendar date (proleptic Gregorian). */
  datatype Date = Date(year: int, month: int, day: int)

  /** Days since 1970-01-01 of a civil date; only differences are used. */
  function DayNumber(d: Date): int
  {
    var y := if d.month <= 2 then d.year - 1 else d.year;
    var era := y / 400;
    var yoe := y - era * 400;
    var mp := (d.month + 9) % 12;
    var doy := (153 * mp + 2) / 5 + d.day - 1;
    var doe := yoe * 365 + yoe / 4 - yoe / 100 + doy;
    era * 146097 + doe - 719468
  }

  /** "YYYY-MM" strings compare like (year, month) pairs. */
  predicate MonthBefore(a: Date, b: Date)
  {
    a.year < b.year || (a.year == b.year && a.month < b.month)
  }

  /** One spreadsheet row. Days_to_Close and Number_of_Repeats may be empty (NaN). */
  datatype Vulnerability = Vulnerability(
    ownerId: string, ownerName: string, deptName: string,
    appId: string, appName: string, assetName: string,
    description: string, severity: string,
    cvss: real, risk: real, status: string,
    firstDetected: Date, closureDate: Option<Date>,
    daysToClose: Option<real>, repeats: Option<real>)

  /** The derived columns Days_Open, Is_Critical_High, Is_Over_30_Days,
      Is_Critical_High_Over_30 and Is_High_Risk. */
  datatype Flags = Flags(
    daysOpen: Option<real>, isCriticalHigh: bool, isOver30: bool,
    isCriticalHighOver30: bool, isHighRisk: bool)

  datatype Row = Row(v: Vulnerability, flags: Flags)

  /** The value of the derived columns before they are computed. */
  const NoFlags := Flags(None, false, false, false, false)

  predicate IsCriticalHighSeverity(severity: string)
  {
    severity == "Critical" || severity == "High"
  }

  /** `x > c` where x may be NaN (None): false for NaN. */
  predicate Gt(x: Option<real>, c: real)
  {
    x.Some? && x.value > c
  }

  /** `x < c` where x may be NaN (None): false for NaN. */
  predicate Lt(x: Option<real>, c: real)
  {
    x.Some? && x.value < c
  }

  /** `x > y` where either may be NaN: false when either is NaN. */
  predicate GtOpt(x: Option<real>, y: Option<real>)
  {
    x.Some? && y.Some? && x.value > y.value
  }

  /** The derived columns of one row, column expression by column expression. */
  function DeriveFlags(v: Vulnerability, today: Date): Flags
  {
    var daysOpen :=
      if v.closureDate.None? then Some((DayNumber(today) - DayNumber(v.firstDetected)) as real)
      else v.daysToClose;
    var ch := IsCriticalHighSeverity(v.severity);
    var over := Gt(daysOpen, 30.0);
    Flags(daysOpen, ch, over, ch && over, v.cvss > 7.0 || v.risk > 7.0)
  }

  /** What the derived columns mean, stated field by field. */
  ghost predicate FlagsFollowDefinitions(r: Row, today: Date)
  {
    && (r.v.closureDate.Some? ==> r.flags.daysOpen == r.v.daysToClose)
    && (r.v.closureDate.None? ==>
          r.flags.daysOpen == Some((DayNumber(today) - DayNumber(r.v.firstDetected)) as real))
    && (r.flags.isCriticalHigh <==> r.v.severity in {"Critical", "High"})
    && (r.flags.isOver30 <==> r.flags.daysOpen.Some? && r.flags.daysOpen.value > 30.0)
    && (r.flags.isCriticalHighOver30 <==> r.flags.isCriticalHigh && r.flags.isOver30)
    && (r.flags.isHighRisk <==> r.v.cvss > 7.0 || r.v.risk > 7.0)
  }

  /** The invariant every loaded table keeps between its derived columns. */
  predicate Consistent(f: Flags)
  {
    && (f.isOver30 <==> Gt(f.daysOpen, 30.0))
    && (f.isCriticalHighOver30 <==> f.isCriticalHigh && f.isOver30)
  }

  ghost predicate Derived(rows: seq<Row>)
  {
    forall i :: 0 <= i < |rows| ==> Consistent(rows[i].flags)
  }

  /** Writes the derived columns into every row of the loaded table, in place. */
  method AddDerivedColumns(a: array<Row>, today: Date)
    modifies a
    ensures forall i :: 0 <= i < a.Length ==> a[i].v == old(a[i].v)
    ensures forall i :: 0 <= i < a.Length ==> FlagsFollowDefinitions(a[i], today)
    ensures Derived(a[..])
  {
    var i := 0;
    while i < a.Length
      invariant 0 <= i <= a.Length
      invariant forall k :: 0 <= k < a.Length ==> a[k].v == old(a[k].v)
      invariant forall k :: 0 <= k < i ==> FlagsFollowDefinitions(a[k], today)
      invariant forall k :: 0 <= k < i ==> Consistent(a[k].flags)
    {
      a[i] := a[i].(flags := DeriveFlags(a[i].v, today));
      i := i + 1;
    }
  }

  /** A fresh table of rows built from spreadsheet records, derived columns not yet set. */
  method NewTable(raw: seq<Vulnerability>) returns (a: array<Row>)
    ensures fresh(a) && a.Length == |raw|
    ensures forall i :: 0 <= i < |raw| ==> a[i].v == raw[i]
  {
    a := new Row[|raw|](i requires 0 <= i < |raw| => Row(raw[i], NoFlags));
  }

  // ---------------------------------------------------------------------
  // Urgency_Level

  datatype Urgency = Normal | Urgent | High

  /** The level a row ends with after the column is filled with Normal, then overwritten with
      Urgent where critical/high is over 30 days, then with High where the row is high risk and
      not Urgent. */
  function UrgencyOf(f: Flags): Urgency
  {
    if f.isHighRisk && !f.isCriticalHighOver30 then High
    else if f.isCriticalHighOver30 then Urgent
    else Normal
  }

  /** The three levels are exclusive and exhaustive: Urgent exactly for critical/high over 30
      days, High exactly for the other high-risk rows, Normal for the rest. */
  lemma UrgencyClasses(f: Flags)
    ensures UrgencyOf(f) == Urgent <==> f.isCriticalHighOver30
    ensures UrgencyOf(f) == High <==> f.isHighRisk && !f.isCriticalHighOver30
    ensures UrgencyOf(f) == Normal <==> !f.isHighRisk && !f.isCriticalHighOver30
  {
  }

  /** `df['Urgency_Level'] = 'Normal'` followed by the two masked `df.loc[...] =` writes. */
  method AddUrgencyColumn(rows: seq<Row>) returns (levels: array<Urgency>)
    ensures fresh(levels) && levels.Length == |rows|
    ensures forall i :: 0 <= i < |rows| ==> levels[i] == UrgencyOf(rows[i].flags)
  {
    levels := new Urgency[|rows|](_ => Normal);
    for i := 0 to |rows|
      invariant forall k :: 0 <= k < i ==> levels[k] == (if rows[k].flags.isCriticalHighOver30 then Urgent else Normal)
      invariant forall k :: i <= k < |rows| ==> levels[k] == Normal
    {
      if rows[i].flags.isCriticalHighOver30 {
        levels[i] := Urgent;
      }
    }
    for i := 0 to |rows|
      invariant forall k :: 0 <= k < i ==> levels[k] == UrgencyOf(rows[k].flags)
      invariant forall k :: i <= k < |rows| ==> levels[k] == (if rows[k].flags.isCriticalHighOver30 then Urgent else Normal)
    {
      if rows[i].flags.isHighRisk && !rows[i].flags.isCriticalHighOver30 {
        levels[i] := High;
      }
    }
  }

  // ---------------------------------------------------------------------
  // Column aggregates

  /** `len(df[mask])`. */
  function Count(rows: seq<Row>, p: Row -> bool): (n: nat)
    ensures n <= |rows|
  {
    if rows == [] then 0
    else Count(rows[..|rows| - 1], p) + (if p(rows[|rows| - 1]) then 1 else 0)
  }

  /** `df[mask]`, keeping row order. */
  function Filter(rows: seq<Row>, p: Row -> bool): (r: seq<Row>)
    ensures |r| == Count(rows, p)
    ensures forall x :: x in r <==> x in rows && p(x)
  {
    if rows == [] then []
    else Filter(rows[..|rows| - 1], p) + (if p(rows[|rows| - 1]) then [rows[|rows| - 1]] else [])
  }

  lemma {:induction false} CountMonotone(rows: seq<Row>, p: Row -> bool, q: Row -> bool)
    requires forall i :: 0 <= i < |rows| ==> p(rows[i]) ==> q(rows[i])
    ensures Count(rows, p) <= Count(rows, q)
  {
    if rows != [] {
      CountMonotone(rows[..|rows| - 1], p, q);
    }
  }

  /** Two disjoint masks count, together, the rows their union selects. */
  lemma {:induction false} CountDisjointUnion(rows: seq<Row>, p: Row -> bool, q: Row -> bool, u: Row -> bool)
    requires forall i :: 0 <= i < |rows| ==> (u(rows[i]) <==> p(rows[i]) || q(rows[i]))
    requires forall i :: 0 <= i < |rows| ==> !(p(rows[i]) && q(rows[i]))
    ensures Count(rows, u) == Count(rows, p) + Count(rows, q)
  {
    if rows != [] {
      CountDisjointUnion(rows[..|rows| - 1], p, q, u);
    }
  }

  lemma {:induction false} FilterPreservesDerived(rows: seq<Row>, p: Row -> bool)
    requires Derived(rows)
    ensures Derived(Filter(rows, p))
  {
    var f := Filter(rows, p);
    forall i | 0 <= i < |f| ensures Consistent(f[i].flags) {
      assert f[i] in f;
    }
  }

  /** A mask every row passes keeps the whole table, in order. */
  lemma {:induction false} FilterAll(rows: seq<Row>, p: Row -> bool)
    requires forall i :: 0 <= i < |rows| ==> p(rows[i])
    ensures Filter(rows, p) == rows
  {
    if rows != [] {
      var init := rows[..|rows| - 1];
      assert forall i :: 0 <= i < |init| ==> init[i] == rows[i];
      FilterAll(init, p);
      assert p(rows[|rows| - 1]);
      assert Filter(rows, p) == init + [rows[|rows| - 1]];
      InitLast(rows);
    }
  }

  /** A non-empty sequence is its prefix followed by its last element. */
  lemma InitLast<T>(s: seq<T>)
    requires |s| > 0
    ensures s[..|s| - 1] + [s[|s| - 1]] == s
  {
  }

  /** Some row passes the mask exactly when the count is positive. */
  lemma CountPositive(rows: seq<Row>, p: Row -> bool)
    ensures Count(rows, p) > 0 <==> exists r :: r in rows && p(r)
  {
    var f := Filter(rows, p);
    if Count(rows, p) > 0 {
      assert f[0] in f;
    }
  }

  function Sum(xs: seq<real>): real
  {
    if xs == [] then 0.0 else Sum(xs[..|xs| - 1]) + xs[|xs| - 1]
  }

  /** The non-NaN entries of a column. */
  function Present(xs: seq<Option<real>>): (r: seq<real>)
    ensures |r| <= |xs|
  {
    if xs == [] then []
    else Present(xs[..|xs| - 1]) + (if xs[|xs| - 1].Some? then [xs[|xs| - 1].value] else [])
  }

  /** `Series.mean()`: NaN entries are skipped; NaN (None) when nothing is left. */
  function Mean(xs: seq<Option<real>>): Option<real>
  {
    var p := Present(xs);
    if |p| == 0 then None else Some(Sum(p) / |p| as real)
  }

  /** Mean of a column without missing values, as `mean()` on a non-empty frame. */
  function MeanOf(xs: seq<real>): real
    requires |xs| > 0
  {
    Sum(xs) / |xs| as real
  }

  function DaysToCloseColumn(rows: seq<Row>): seq<Option<real>>
  {
    seq(|rows|, i requires 0 <= i < |rows| => rows[i].v.daysToClose)
  }

  function DaysOpenColumn(rows: seq<Row>): seq<Option<real>>
  {
    seq(|rows|, i requires 0 <= i < |rows| => rows[i].flags.daysOpen)
  }

  function RepeatsColumn(rows: seq<Row>): seq<Option<real>>
  {
    seq(|rows|, i requires 0 <= i < |rows| => rows[i].v.repeats)
  }

  function CvssColumn(rows: seq<Row>): seq<real>
  {
    seq(|rows|, i requires 0 <= i < |rows| => rows[i].v.cvss)
  }

  function RiskColumn(rows: seq<Row>): seq<real>
  {
    seq(|rows|, i requires 0 <= i < |rows| => rows[i].v.risk)
  }

  function OwnerColumn(rows: seq<Row>): seq<string>
  {
    seq(|rows|, i requires 0 <= i < |rows| => rows[i].v.ownerId)
  }

  function AppColumn(rows: seq<Row>): seq<string>
  {
    seq(|rows|, i requires 0 <= i < |rows| => rows[i].v.appName)
  }

  function DeptColumn(rows: seq<Row>): seq<string>
  {
    seq(|rows|, i requires 0 <= i < |rows| => rows[i].v.deptName)
  }

  predicate NoDuplicates<T(==)>(s: seq<T>)
  {
    forall i, j :: 0 <= i < j < |s| ==> s[i] != s[j]
  }

  /** A value occurs at most once in a sequence without duplicates. */
  lemma {:induction false} NoDuplicatesCount<T>(s: seq<T>, x: T)
    requires NoDuplicates(s)
    ensures multiset(s)[x] <= 1
  {
    if s != [] {
      var init := s[..|s| - 1];
      assert s == init + [s[|s| - 1]];
      NoDuplicatesCount(init, x);
      if x == s[|s| - 1] {
        assert x !in init by {
          forall i | 0 <= i < |init| ensures init[i] != x {
            assert s[i] != s[|s| - 1];
          }
        }
      }
    }
  }

  /** Reordering a sequence without duplicates leaves none. */
  lemma PermutationNoDuplicates<T>(a: seq<T>, b: seq<T>)
    requires multiset(a) == multiset(b) && NoDuplicates(a)
    ensures NoDuplicates(b)
  {
    forall i, j | 0 <= i < j < |b| ensures b[i] != b[j] {
      if b[i] == b[j] {
        CountedTwice(b, i, j);
        NoDuplicatesCount(a, b[i]);
        assert false;
      }
    }
  }

  lemma CountedTwice<T>(s: seq<T>, i: nat, j: nat)
    requires i < j < |s| && s[i] == s[j]
    ensures multiset(s)[s[i]] >= 2
  {
    assert s == s[..i] + [s[i]] + s[i + 1..j] + [s[j]] + s[j + 1..];
  }

  /** `Series.unique()`: each value once, in order of first appearance. */
  function Distinct<T(==,!new)>(xs: seq<T>): (r: seq<T>)
    ensures forall x :: x in r <==> x in xs
    ensures NoDuplicates(r)
    ensures |r| <= |xs|
  {
    if xs == [] then []
    else
      var d := Distinct(xs[..|xs| - 1]);
      assert forall x :: x in xs <==> x in xs[..|xs| - 1] || x == xs[|xs| - 1] by {
        assert xs == xs[..|xs| - 1] + [xs[|xs| - 1]];
      }
      if xs[|xs| - 1] in d then d else d + [xs[|xs| - 1]]
  }

  /** `unique()` keeps the order of first appearance: of two values it returns, the one listed
      first occurs first in the input. */
  lemma {:induction false} DistinctFirstAppearance<T(!new)>(xs: seq<T>)
    ensures forall i, j :: 0 <= i < j < |Distinct(xs)| ==>
              IndexOf(xs, Distinct(xs)[i]) < IndexOf(xs, Distinct(xs)[j])
  {
    if xs != [] {
      var init := xs[..|xs| - 1];
      var last := xs[|xs| - 1];
      assert xs == init + [last];
      var d := Distinct(init);
      var r := Distinct(xs);
      DistinctFirstAppearance(init);
      forall y | y in d
        ensures IndexOf(xs, y) == IndexOf(init, y)
      {
        IndexOfSnoc(init, last, y);
      }
      if last in d {
        assert r == d;
      } else {
        assert r == d + [last];
        IndexOfSnocNew(init, last);
        forall i, j | 0 <= i < j < |r|
          ensures IndexOf(xs, r[i]) < IndexOf(xs, r[j])
        {
          assert r[i] == d[i] && d[i] in d;
          if j < |d| {
            assert r[j] == d[j] && d[j] in d;
          }
        }
      }
    }
  }

  /** A value already present keeps its first position when another is appended. */
  lemma IndexOfSnoc<T>(s: seq<T>, last: T, y: T)
    requires y in s
    ensures IndexOf(s + [last], y) == IndexOf(s, y)
  {
    var t := s + [last];
    var a := IndexOf(t, y);
    var b := IndexOf(s, y);
    assert t[b] == y;
  }

  /** A value appended for the first time is found at the end. */
  lemma IndexOfSnocNew<T>(s: seq<T>, last: T)
    requires last !in s
    ensures IndexOf(s + [last], last) == |s|
  {
  }

  /** `list.index(x)`: the first position holding x. */
  function IndexOf<T(==)>(xs: seq<T>, x: T): (k: nat)
    requires x in xs
    ensures k < |xs| && xs[k] == x
    ensures forall j :: 0 <= j < k ==> xs[j] != x
  {
    if xs[0] == x then 0 else 1 + IndexOf(xs[1..], x)
  }

  /** `s.isin(values)` on one value. */
  predicate IsIn(x: string, values: seq<string>)
  {
    x in values
  }

  /** Rows of the selected owners (`df['Application_Owner_ID'].isin(ids)`). */
  function OwnersRows(rows: seq<Row>, ids: seq<string>): seq<Row>
  {
    Filter(rows, (r: Row) => r.v.ownerId in ids)
  }

  lemma ProductNonNegative(a: real, b: real)
    requires a >= 0.0 && b >= 0.0
    ensures a * b >= 0.0
  {
  }

  lemma ProductPositive(a: real, b: real)
    requires a > 0.0 && b > 0.0
    ensures a * b > 0.0
  {
  }

  /** `len(x) > 0 ? part / total * 100 : 0`. */
  function Percent(part: nat, total: nat): (p: real)
    ensures total == 0 ==> p == 0.0
  {
    if total > 0 then part as real / total as real * 100.0 else 0.0
  }

  lemma PercentBounds(part: nat, total: nat)
    requires part <= total
    ensures 0.0 <= Percent(part, total) <= 100.0
  {
    if total > 0 {
      assert part as real / total as real <= 1.0;
    }
  }
}
