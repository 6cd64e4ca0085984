/** The run summary of the importer (connector/importer.py, `_summarize`): the three
    totals and a table from exclusion reason to the number of excluded orders. */
module Summary {
  import opened Common
  import opened Shopify

  /** `exclusionReasons` is `None` when the key is not in the summary. */
  datatype RunSummary = RunSummary(
    fetchedTotal: nat,
    eligibleTotal: nat,
    excludedTotal: nat,
    exclusionReasons: Option<map<string, nat>>)

  /** `order.get("exclude_reason") or "unknown"` */
  function ReasonKey(o: Order): string
  {
    OrStr(o.excludeReason, "unknown")
  }

  /** The reason table after counting `excluded` in order. */
  function ReasonCounts(excluded: seq<Order>): (counts: map<string, nat>)
    ensures counts == map[] <==> excluded == []
    decreases |excluded|
  {
    if |excluded| == 0 then map[]
    else
      var counts := ReasonCounts(excluded[..|excluded| - 1]);
      var key := ReasonKey(excluded[|excluded| - 1]);
      assert key in counts[key := 0];
      counts[key := (if key in counts then counts[key] else 0) + 1]
  }

  /** The number of orders of `xs` whose reason key is `key`: an independent reference
      for the table. */
  function CountKey(xs: seq<Order>, key: string): nat
    decreases |xs|
  {
    if |xs| == 0 then 0
    else CountKey(xs[..|xs| - 1], key) + (if ReasonKey(xs[|xs| - 1]) == key then 1 else 0)
  }

  /** The sum of the values of a table. */
  ghost function MapSum(m: map<string, nat>): nat
    decreases |m|
  {
    if |m| == 0 then 0
    else
      var k :| k in m;
      m[k] + MapSum(m - {k})
  }

  /** `_summarize` */
  method Summarize(excluded: seq<Order>, included: seq<Order>) returns (s: RunSummary)
    ensures s.fetchedTotal == |excluded| + |included|
    ensures s.eligibleTotal == |included|
    ensures s.excludedTotal == |excluded|
    ensures s.exclusionReasons.Some? <==> excluded != []
    ensures s.exclusionReasons.Some? ==> s.exclusionReasons.value == ReasonCounts(excluded)
  {
    var reasonCounts: map<string, nat> := map[];
    var i := 0;
    while i < |excluded|
      invariant 0 <= i <= |excluded|
      invariant reasonCounts == ReasonCounts(excluded[..i])
    {
      var reason := ReasonKey(excluded[i]);
      assert excluded[..i + 1][..i] == excluded[..i];
      reasonCounts := reasonCounts[reason := (if reason in reasonCounts then reasonCounts[reason] else 0) + 1];
      i := i + 1;
    }
    assert excluded[..i] == excluded;
    var reasons: Option<map<string, nat>> := None;
    if reasonCounts != map[] {
      reasons := Some(reasonCounts);
    }
    s := RunSummary(|excluded| + |included|, |included|, |excluded|, reasons);
  }

  /** The table holds a key exactly when some excluded order has that reason key, and
      then it holds the number of such orders. */
  lemma {:induction false} ReasonCountsAreCounts(excluded: seq<Order>)
    ensures forall key :: key in ReasonCounts(excluded) <==> CountKey(excluded, key) > 0
    ensures forall key :: key in ReasonCounts(excluded) ==> ReasonCounts(excluded)[key] == CountKey(excluded, key)
    decreases |excluded|
  {
    if |excluded| > 0 {
      ReasonCountsAreCounts(excluded[..|excluded| - 1]);
    }
  }

  /** Unfolding `MapSum` once names the key it took out. */
  lemma MapSumChoice(m: map<string, nat>) returns (j: string)
    requires |m| > 0
    ensures j in m && MapSum(m) == m[j] + MapSum(m - {j})
  {
    j :| j in m && MapSum(m) == m[j] + MapSum(m - {j});
  }

  lemma MapSizeRemove(m: map<string, nat>, k: string)
    requires k in m
    ensures |m - {k}| == |m| - 1
  {
    assert (m - {k}).Keys == m.Keys - {k};
  }

  /** Taking one key out of a table lowers its sum by that key's value, whichever key. */
  lemma {:induction false} MapSumRemove(m: map<string, nat>, k: string)
    requires k in m
    ensures MapSum(m) == m[k] + MapSum(m - {k})
    decreases |m|
  {
    var j := MapSumChoice(m);
    if j != k {
      var mj, mk := m - {j}, m - {k};
      MapSizeRemove(m, j);
      MapSizeRemove(m, k);
      assert k in mj && mj[k] == m[k];
      assert j in mk && mk[j] == m[j];
      MapSumRemove(mj, k);
      MapSumRemove(mk, j);
      assert mj - {k} == mk - {j};
    }
  }

  /** Counting one more order under `key` raises the sum by one. */
  lemma MapSumIncrement(m: map<string, nat>, key: string)
    ensures MapSum(m[key := (if key in m then m[key] else 0) + 1]) == MapSum(m) + 1
  {
    var m' := m[key := (if key in m then m[key] else 0) + 1];
    MapSumRemove(m', key);
    assert m' - {key} == m - {key};
    if key in m {
      MapSumRemove(m, key);
    } else {
      assert m - {key} == m;
    }
  }

  /** The reason counts add up to the number of excluded orders. */
  lemma {:induction false} ReasonCountsSum(excluded: seq<Order>)
    ensures MapSum(ReasonCounts(excluded)) == |excluded|
    decreases |excluded|
  {
    if |excluded| > 0 {
      var init := excluded[..|excluded| - 1];
      ReasonCountsSum(init);
      MapSumIncrement(ReasonCounts(init), ReasonKey(excluded[|excluded| - 1]));
    }
  }

  /** The table's keys are exactly the reason keys of the excluded orders. */
  lemma {:induction false} ReasonCountsKeys(excluded: seq<Order>)
    ensures ReasonCounts(excluded).Keys == set i | 0 <= i < |excluded| :: ReasonKey(excluded[i])
    decreases |excluded|
  {
    if |excluded| > 0 {
      var init := excluded[..|excluded| - 1];
      ReasonCountsKeys(init);
      assert forall i :: 0 <= i < |init| ==> init[i] == excluded[i];
      assert (set i | 0 <= i < |excluded| :: ReasonKey(excluded[i]))
          == (set i | 0 <= i < |init| :: ReasonKey(init[i])) + {ReasonKey(excluded[|excluded| - 1])};
    }
  }
}
