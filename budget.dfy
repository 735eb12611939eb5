/** What the three waterfall charts share: a fiscal year's department amounts, looked up by
    name, and the geometry of a floating bar drawn from a running total. */
module Budget {
  import opened Wrappers
  import opened Seqs

  /** A fiscal year's `departments` object: names with whole-dollar amounts, in key order. */
  type Departments = seq<(string, int)>

  predicate DistinctNames(d: Departments)
  {
    forall i, j :: 0 <= i < j < |d| ==> d[i].0 != d[j].0
  }

  /** `departments[name]`: the amount filed under `name`, or nothing when the key is absent. */
  function Amount(d: Departments, name: string): Option<int>
  {
    match Find(d, (e: (string, int)) => e.0 == name)
    case None => None
    case Some(e) => Some(e.1)
  }

  /** The lookup fails exactly for a name that is not a key; otherwise it yields an amount filed
      under that name, and with distinct keys the one amount filed under it. */
  lemma AmountSpec(d: Departments, name: string)
    ensures var r := Amount(d, name);
      && (r.None? <==> forall i :: 0 <= i < |d| ==> d[i].0 != name)
      && (r.Some? ==> exists i :: 0 <= i < |d| && d[i] == (name, r.value))
      && (DistinctNames(d) ==> forall i :: 0 <= i < |d| && d[i].0 == name ==> r == Some(d[i].1))
  {
    FindSpec(d, (e: (string, int)) => e.0 == name);
  }

  function Abs(x: int): (r: nat)
    ensures r == x || r == -x
  {
    if x >= 0 then x else -x
  }

  /** `(change / base) * 100`, kept as its two operands: the floating-point quotient is not modelled. */
  datatype Percent = Percent(change: int, base: int)

  function Min(a: int, b: int): int { if a <= b then a else b }

  function Max(a: int, b: int): int { if a <= b then b else a }

  /** `change >= 0 ? runningTotal : runningTotal + change`: where the bar for `change` starts,
      so that it covers exactly the interval between the running total before and after it. */
  function BarStart(running: int, change: int): (start: int)
    ensures start == Min(running, running + change)
    ensures start + Abs(change) == Max(running, running + change)
  {
    if change >= 0 then running else running + change
  }

  /** The running total once the changes of `ds` have been added to `start`. */
  function RunningTotal<D>(start: int, ds: seq<D>, change: D -> int): int
  {
    start + SumOf(ds, change)
  }

  /** One bar per element of `ds`, each drawn by `bar` from the running total reached before it. */
  function Bars<D, I>(start: int, ds: seq<D>, change: D -> int, bar: (D, int) -> I): (r: seq<I>)
    ensures |r| == |ds|
  {
    seq(|ds|, k requires 0 <= k < |ds| => bar(ds[k], RunningTotal(start, ds[..k], change)))
  }

  /** A further element adds one bar at the end, drawn from the running total of everything before it. */
  lemma BarsSnoc<D, I>(start: int, ds: seq<D>, d: D, change: D -> int, bar: (D, int) -> I)
    ensures Bars(start, ds + [d], change, bar) == Bars(start, ds, change, bar) + [bar(d, RunningTotal(start, ds, change))]
  {
    var l := Bars(start, ds + [d], change, bar);
    var r := Bars(start, ds, change, bar) + [bar(d, RunningTotal(start, ds, change))];
    forall k | 0 <= k < |ds| ensures l[k] == r[k] {
      assert (ds + [d])[..k] == ds[..k];
    }
    assert (ds + [d])[..|ds|] == ds;
  }

  /** When every bar shows its own change, the bars' shown amounts add up to the total change. */
  lemma {:induction false} BarsSum<D, I>(start: int, ds: seq<D>, change: D -> int, bar: (D, int) -> I, shown: I -> int)
    requires forall d, running :: shown(bar(d, running)) == change(d)
    ensures SumOf(Bars(start, ds, change, bar), shown) == SumOf(ds, change)
    decreases |ds|
  {
    if ds != [] {
      var n := |ds| - 1;
      assert ds == ds[..n] + [ds[n]];
      BarsSnoc(start, ds[..n], ds[n], change, bar);
      BarsSum(start, ds[..n], change, bar, shown);
      var b := Bars(start, ds, change, bar);
      assert b[..|b| - 1] == Bars(start, ds[..n], change, bar);
    }
  }

  /** Drawing bars only for the elements that `keep` admits, when the others change nothing,
      still moves the running total by the whole change of `ds`. */
  lemma KeptBarsSum<D, I>(start: int, ds: seq<D>, keep: D -> bool, change: D -> int, bar: (D, int) -> I,
                          shown: I -> int)
    requires forall d, running :: shown(bar(d, running)) == change(d)
    requires forall d :: d in ds && !keep(d) ==> change(d) == 0
    ensures start + SumOf(Bars(start, Filter(ds, keep), change, bar), shown) == RunningTotal(start, ds, change)
  {
    BarsSum(start, Filter(ds, keep), change, bar, shown);
    SumOfDropsZeros(ds, change, keep);
  }

  /** One turn of a waterfall loop over `ds`: an element that `keep` admits adds its bar after
      `data` and moves the running total by its change; any other element leaves both alone. */
  lemma BarsStep<D, I>(start: int, ds: seq<D>, i: int, keep: D -> bool, change: D -> int, bar: (D, int) -> I,
                       head: seq<I>, data: seq<I>, running: int)
    requires 0 <= i < |ds|
    requires running == RunningTotal(start, Filter(ds[..i], keep), change)
    requires data == head + Bars(start, Filter(ds[..i], keep), change, bar)
    ensures var done := Filter(ds[..i + 1], keep);
      if keep(ds[i]) then
        && running + change(ds[i]) == RunningTotal(start, done, change)
        && data + [bar(ds[i], running)] == head + Bars(start, done, change, bar)
      else
        && running == RunningTotal(start, done, change)
        && data == head + Bars(start, done, change, bar)
  {
    var d := ds[i];
    var done := Filter(ds[..i], keep);
    assert ds[..i + 1] == ds[..i] + [d];
    FilterSnoc(ds[..i], d, keep);
    if keep(d) {
      var bars := Bars(start, done, change, bar);
      var x := bar(d, running);
      BarsSnoc(start, done, d, change, bar);
      SumOfAppend(done, [d], change);
      assert Filter(ds[..i + 1], keep) == done + [d];
      assert Bars(start, done + [d], change, bar) == bars + [x];
      assert data + [x] == head + (bars + [x]);
    } else {
      assert done + [] == done;
    }
  }
}
