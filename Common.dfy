/** Values shared by every stage: optional values as the JSON records carry them,
    Python's `x or default` fallbacks, and an order-preserving filter-and-map over
    sequences (the shape of every `for ... if ...: append` loop of the connector). */
module Common {

  /** A value that may be absent. `None` stands for both a missing key and a JSON
      null, which `dict.get` does not tell apart. Where the connector does tell them
      apart, a null would raise; such input is outside the typed records. */
  datatype Option<+T> = None | Some(value: T)

  /** Python truthiness of an optional string: absent, None and "" are falsy. */
  predicate Truthy(s: Option<string>)
  {
    s.Some? && s.value != ""
  }

  /** Python's `s or default` for an optional string. */
  function OrStr(s: Option<string>, default: string): string
  {
    if Truthy(s) then s.value else default
  }

  /** Python's `n or 0` for an optional integer (0 is falsy, so it maps to itself). */
  function OrZero(n: Option<int>): int
  {
    if n.Some? then n.value else 0
  }

  /** The elements `pick` maps to a value, in input order: the model of a loop that
      appends `pick(x)` for each `x` and `continue`s past the others. Defined from the
      end of the sequence, so that one more loop iteration is one more unfolding. */
  function FilterMap<A, B>(xs: seq<A>, pick: A -> Option<B>): (ys: seq<B>)
    ensures |ys| <= |xs|
    decreases |xs|
  {
    if |xs| == 0 then []
    else
      var last := xs[|xs| - 1];
      FilterMap(xs[..|xs| - 1], pick) + (if pick(last).Some? then [pick(last).value] else [])
  }

  /** The positions of the elements `pick` keeps, strictly increasing: exactly the
      positions `j` with `pick(xs[j]).Some?`. */
  function KeptIndices<A, B>(xs: seq<A>, pick: A -> Option<B>): (idx: seq<nat>)
    ensures forall k :: 0 <= k < |idx| ==> idx[k] < |xs| && pick(xs[idx[k]]).Some?
    ensures forall k, l :: 0 <= k < l < |idx| ==> idx[k] < idx[l]
    ensures forall j :: 0 <= j < |xs| && pick(xs[j]).Some? ==> j in idx
    decreases |xs|
  {
    if |xs| == 0 then []
    else
      var init := xs[..|xs| - 1];
      assert forall j :: 0 <= j < |init| ==> init[j] == xs[j];
      KeptIndices(init, pick) + (if pick(xs[|xs| - 1]).Some? then [|xs| - 1] else [])
  }

  /** The k-th output of `FilterMap` is what `pick` made of the k-th kept element:
      nothing is reordered, duplicated, invented or dropped. */
  lemma {:induction false} FilterMapAt<A, B>(xs: seq<A>, pick: A -> Option<B>)
    ensures |FilterMap(xs, pick)| == |KeptIndices(xs, pick)|
    ensures forall k :: 0 <= k < |KeptIndices(xs, pick)| ==>
              FilterMap(xs, pick)[k] == pick(xs[KeptIndices(xs, pick)[k]]).value
    decreases |xs|
  {
    if |xs| > 0 {
      var init := xs[..|xs| - 1];
      FilterMapAt(init, pick);
      assert forall j :: 0 <= j < |init| ==> init[j] == xs[j];
    }
  }

  /** Two picks that never both keep nor both drop an element split the input:
      their outputs have, together, as many elements as the input. */
  lemma {:induction false} FilterMapComplement<A, B, C>(xs: seq<A>, p: A -> Option<B>, q: A -> Option<C>)
    requires forall x :: p(x).Some? != q(x).Some?
    ensures |FilterMap(xs, p)| + |FilterMap(xs, q)| == |xs|
    decreases |xs|
  {
    if |xs| > 0 {
      FilterMapComplement(xs[..|xs| - 1], p, q);
    }
  }

  /** When `pick` keeps every element, `FilterMap` is an element-wise map. */
  lemma {:induction false} FilterMapKeepsAll<A, B>(xs: seq<A>, pick: A -> Option<B>)
    requires forall i :: 0 <= i < |xs| ==> pick(xs[i]).Some?
    ensures |FilterMap(xs, pick)| == |xs|
    ensures forall i :: 0 <= i < |xs| ==> FilterMap(xs, pick)[i] == pick(xs[i]).value
    decreases |xs|
  {
    if |xs| > 0 {
      var init := xs[..|xs| - 1];
      assert forall i :: 0 <= i < |init| ==> init[i] == xs[i];
      FilterMapKeepsAll(init, pick);
    }
  }

  /** `FilterMap` of three elements is the concatenation of what `pick` keeps of each. */
  lemma FilterMapThree<A, B>(x: A, y: A, z: A, pick: A -> Option<B>)
    ensures FilterMap([x, y, z], pick)
              == (if pick(x).Some? then [pick(x).value] else [])
               + (if pick(y).Some? then [pick(y).value] else [])
               + (if pick(z).Some? then [pick(z).value] else [])
  {
    var xs := [x, y, z];
    assert xs[..2] == [x, y] && xs[..2][..1] == [x] && [x][..0] == [];
    assert FilterMap([x], pick) == (if pick(x).Some? then [pick(x).value] else []);
    assert FilterMap([x, y], pick) == FilterMap([x], pick) + (if pick(y).Some? then [pick(y).value] else []);
    assert FilterMap(xs, pick) == FilterMap([x, y], pick) + (if pick(z).Some? then [pick(z).value] else []);
  }
}
