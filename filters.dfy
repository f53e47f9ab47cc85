/**
 The department dropdown every dashboard drives from the owner selection:
 its options are the departments of the selected owners, sorted; which of
 them are preselected differs from dashboard to dashboard.
 */
module Filters {
  import opened Table
  import opened Sorting

  /** The departments of the selected owners' rows, each once, in order of first appearance
      (`filtered_df['Dept_Name'].unique()`). */
  function OwnersDepts(rows: seq<Row>, selected: seq<string>): seq<string>
  {
    Distinct(DeptColumn(OwnersRows(rows, selected)))
  }

  /** A department is offered exactly when some row of a selected owner carries it. */
  lemma OwnersDeptsSpec(rows: seq<Row>, selected: seq<string>)
    ensures NoDuplicates(OwnersDepts(rows, selected))
    ensures forall d :: d in OwnersDepts(rows, selected) <==>
              exists r :: r in rows && r.v.ownerId in selected && r.v.deptName == d
  {
    var own := OwnersRows(rows, selected);
    forall d ensures d in DeptColumn(own) <==> exists r :: r in rows && r.v.ownerId in selected && r.v.deptName == d {
      if d in DeptColumn(own) {
        var k :| 0 <= k < |own| && DeptColumn(own)[k] == d;
        assert own[k] in own;
      }
      if r :| r in rows && r.v.ownerId in selected && r.v.deptName == d {
        assert r in own;
        var k :| 0 <= k < |own| && own[k] == r;
        assert DeptColumn(own)[k] == d;
      }
    }
  }

  /** `sorted(...)` of the departments: strictly ascending, same departments. */
  function DeptOptions(rows: seq<Row>, selected: seq<string>): (options: seq<string>)
    ensures forall d :: d in options <==> exists r :: r in rows && r.v.ownerId in selected && r.v.deptName == d
    ensures forall i, j :: 0 <= i < j < |options| ==> StrLess(options[i], options[j])
  {
    var depts := OwnersDepts(rows, selected);
    var options := SortStrings(depts);
    OwnersDeptsSpec(rows, selected);
    SortStringsSpec(depts);
    PermutationNoDuplicates(depts, options);
    assert forall d :: d in options <==> d in depts by {
      forall d ensures d in options <==> d in depts {
        assert d in options <==> d in multiset(options);
      }
    }
    forall i, j | 0 <= i < j < |options| ensures StrLess(options[i], options[j]) {
      StrLessTotal(options[i], options[j]);
    }
    options
  }

  /** The options and the preselected values. */
  datatype DeptDropdown = DeptDropdown(options: seq<string>, values: seq<string>)

  /** `update_dept_dropdown` of the optimized and simplified dashboards: nothing for an empty
      selection; all departments preselected only when exactly one owner is selected. */
  function DeptDropdownSingleOwner(rows: seq<Row>, selected: seq<string>): (r: DeptDropdown)
    ensures |selected| == 0 ==> r == DeptDropdown([], [])
    ensures |selected| != 1 ==> r.values == []
    ensures |selected| > 0 ==> r.options == DeptOptions(rows, selected)
    ensures |selected| == 1 ==> forall d :: d in r.values <==> d in r.options
  {
    if |selected| == 0 then DeptDropdown([], [])
    else
      var depts := OwnersDepts(rows, selected);
      OwnersDeptsSpec(rows, selected);
      DeptDropdown(DeptOptions(rows, selected), if |selected| == 1 then depts else [])
  }

  /** `update_dept_dropdown` of the enhanced dashboard: an empty selection leaves the dropdown
      as it is (`PreventUpdate`); otherwise every department of the selected owners is
      preselected. The owner-application-department projection it reads has the same
      departments, in the same first-appearance order, as the rows themselves. */
  function DeptDropdownPreselectAll(rows: seq<Row>, selected: seq<string>): (r: Option<DeptDropdown>)
    ensures r.None? <==> |selected| == 0
    ensures r.Some? ==> r.value.options == DeptOptions(rows, selected)
    ensures r.Some? ==> NoDuplicates(r.value.values) && forall d :: d in r.value.values <==> d in r.value.options
  {
    if |selected| == 0 then None
    else
      var depts := OwnersDepts(rows, selected);
      OwnersDeptsSpec(rows, selected);
      Some(DeptDropdown(DeptOptions(rows, selected), depts))
  }
}
