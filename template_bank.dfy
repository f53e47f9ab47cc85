/**
 The selection step every rule and template bank shares: walk the bank in
 order and keep the entries whose test holds, so the kept entries come out
 once each, in bank order.
 */
module TemplateBank {

  /** The positions below `n` whose entry is kept, in bank order. */
  function Selected(keep: nat -> bool, n: nat): (ids: seq<nat>)
    ensures |ids| <= n
    ensures forall k :: 0 <= k < |ids| ==> ids[k] < n && keep(ids[k])
  {
    if n == 0 then []
    else Selected(keep, n - 1) + (if keep(n - 1) then [n - 1] else [])
  }

  predicate Ascending(ids: seq<nat>)
  {
    forall k, l :: 0 <= k < l < |ids| ==> ids[k] < ids[l]
  }

  /** Every kept entry is selected, nothing else is, each once and in bank order. */
  lemma {:induction false} SelectedSpec(keep: nat -> bool, n: nat)
    ensures Ascending(Selected(keep, n))
    ensures forall t :: 0 <= t < n ==> (keep(t) <==> t in Selected(keep, n))
  {
    if n > 0 {
      SelectedSpec(keep, n - 1);
      var prev := Selected(keep, n - 1);
      var last: seq<nat> := if keep(n - 1) then [n - 1] else [];
      var ids := Selected(keep, n);
      assert ids == prev + last;
      forall t | 0 <= t < n ensures keep(t) <==> t in ids {
        assert t in prev + last <==> t in prev || t in last;
      }
      forall k, l | 0 <= k < l < |ids| ensures ids[k] < ids[l] {
        if l < |prev| {
          assert ids[k] == prev[k] && ids[l] == prev[l];
        } else {
          assert ids[k] == prev[k] < n - 1 == ids[l];
        }
      }
    }
  }
}
