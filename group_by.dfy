/** `data.groupby(key).agg({metric: 'max'})` and `'mean'`: rows whose key is NaN
    are dropped, and within a group the NaN values of the metric are skipped. A
    group whose metric is NaN throughout reduces to NaN. */
module GroupBy {
  import opened Base
  import opened Frames

  /** The largest number of a sequence; none for the empty one. */
  function Max(s: seq<real>): (r: Option<real>)
    ensures r.None? <==> s == []
    ensures r.Some? ==> r.value in s && forall x :: x in s ==> x <= r.value
  {
    if s == [] then None
    else
      assert s == [s[0]] + s[1..];
      match Max(s[1..])
      case None => Some(s[0])
      case Some(m) => Some(if s[0] < m then m else s[0])
  }

  /** The smallest number of a sequence; none for the empty one. */
  function Min(s: seq<real>): (r: Option<real>)
    ensures r.None? <==> s == []
    ensures r.Some? ==> r.value in s && forall x :: x in s ==> r.value <= x
  {
    if s == [] then None
    else
      assert s == [s[0]] + s[1..];
      match Min(s[1..])
      case None => Some(s[0])
      case Some(m) => Some(if m < s[0] then m else s[0])
  }

  function Sum(s: seq<real>): real {
    if s == [] then 0.0 else s[0] + Sum(s[1..])
  }

  /** The arithmetic mean; none for the empty sequence. */
  function Mean(s: seq<real>): (r: Option<real>)
    ensures r.None? <==> s == []
  {
    if s == [] then None else Some(Sum(s) / |s| as real)
  }

  /** A sum of numbers between `lo` and `hi` lies between `|s| * lo` and `|s| * hi`. */
  lemma {:induction false} SumBounds(s: seq<real>, lo: real, hi: real)
    requires forall x :: x in s ==> lo <= x <= hi
    ensures |s| as real * lo <= Sum(s) <= |s| as real * hi
  {
    if s != [] {
      assert s[0] in s;
      assert forall x :: x in s[1..] ==> x in s;
      SumBounds(s[1..], lo, hi);
    }
  }

  /** The mean lies between the smallest and the largest number. */
  lemma MeanBetween(s: seq<real>)
    requires s != []
    ensures Min(s).value <= Mean(s).value <= Max(s).value
  {
    var lo, hi := Min(s).value, Max(s).value;
    SumBounds(s, lo, hi);
    DivideBounds(Sum(s), |s| as real, lo, hi);
  }

  lemma DivideBounds(sum: real, n: real, lo: real, hi: real)
    requires n > 0.0 && n * lo <= sum <= n * hi
    ensures lo <= sum / n <= hi
  {
    assert sum / n * n == sum;
  }

  /** The numbers of the metric in the rows whose key is `k`, in row order. */
  function Group(keys: seq<Value>, values: seq<Value>, k: real): (r: seq<real>)
    requires |keys| == |values|
    ensures forall x :: x in r <==> exists i :: 0 <= i < |keys| && keys[i] == Some(k) && values[i] == Some(x)
  {
    if keys == [] then []
    else
      var rest := Group(keys[1..], values[1..], k);
      assert forall i :: 1 <= i < |keys| ==> keys[1..][i - 1] == keys[i] && values[1..][i - 1] == values[i];
      if keys[0] == Some(k) && values[0].Some? then [values[0].value] + rest else rest
  }

  /** The keys of the rows that are not NaN: the groups. */
  function Keys(keys: seq<Value>): (r: set<real>)
    ensures forall k :: k in r <==> Some(k) in keys
  {
    set i | 0 <= i < |keys| && keys[i].Some? :: keys[i].value
  }

  /** One reduced column: group key to the group's value, NaN when the group has
      no number. */
  type Grouped = map<real, Value>

  /** `groupby(key).agg(max)` of one metric. */
  function GroupMax(keys: seq<Value>, values: seq<Value>): (r: Grouped)
    requires |keys| == |values|
    ensures r.Keys == Keys(keys)
  {
    map k | k in Keys(keys) :: Max(Group(keys, values, k))
  }

  /** `groupby(key).agg(mean)` of one metric. */
  function GroupMean(keys: seq<Value>, values: seq<Value>): (r: Grouped)
    requires |keys| == |values|
    ensures r.Keys == Keys(keys)
  {
    map k | k in Keys(keys) :: Mean(Group(keys, values, k))
  }

  /** The group maximum is at least every number of its group, is one of them, and
      is NaN only when the group holds no number. */
  lemma GroupMaxIsMax(keys: seq<Value>, values: seq<Value>, k: real)
    requires |keys| == |values| && k in Keys(keys)
    ensures var m := GroupMax(keys, values)[k];
      && (m.None? <==> forall i :: 0 <= i < |keys| && keys[i] == Some(k) ==> values[i].None?)
      && (forall i :: 0 <= i < |keys| && keys[i] == Some(k) && values[i].Some? ==> values[i].value <= m.value)
      && (m.Some? ==> exists i :: 0 <= i < |keys| && keys[i] == Some(k) && values[i] == m)
  {
    var g := Group(keys, values, k);
    if g != [] {
      assert g[0] in g;
    }
    forall i | 0 <= i < |keys| && keys[i] == Some(k) && values[i].Some?
      ensures g != [] && values[i].value <= Max(g).value
    {
      assert values[i].value in g;
    }
  }

  /** The group mean lies between the group's smallest and largest number, and is
      NaN exactly when the maximum is. */
  lemma GroupMeanBetween(keys: seq<Value>, values: seq<Value>, k: real)
    requires |keys| == |values| && k in Keys(keys)
    ensures var mean := GroupMean(keys, values)[k];
      && (mean.None? <==> GroupMax(keys, values)[k].None?)
      && (mean.Some? ==>
        && Min(Group(keys, values, k)).value <= mean.value
        && mean.value <= GroupMax(keys, values)[k].value)
  {
    var g := Group(keys, values, k);
    if g != [] {
      MeanBetween(g);
    }
  }
}
