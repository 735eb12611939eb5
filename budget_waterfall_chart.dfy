/** The FY2020-to-FY2024 waterfall chart: the change of every department between the two
    fiscal years, largest increase first, drawn as floating bars between the two totals. */
module BudgetWaterfallChart {
  import opened Wrappers
  import opened Seqs
  import opened Budget

  /** An entry of `departmentChanges`. */
  datatype DeptChange = DeptChange(name: string, change: int)

  /** A `WaterfallItem`; an optional flag the source leaves out of an object literal is `None`. */
  datatype Item = Item(name: string, value: int, displayValue: int, start: int,
                       isTotal: Option<bool>, isPositive: Option<bool>)

  // BUDGET_DATA
  const Fy2020Total: int := 1083000
  const Fy2020Departments: Departments :=
    [("Public Works", 585000), ("Administration", 165000), ("Fire Dept", 105000),
     ("Public Safety", 82000), ("Other", 146000)]
  const Fy2024Total: int := 1662000
  const Fy2024Departments: Departments :=
    [("Public Works", 943000), ("Administration", 246000), ("Fire Dept", 156000),
     ("Public Safety", 111000), ("Other", 206000)]

  function ChangeOf(d: DeptChange): int { d.change }

  /** The `map` step of `departmentChanges`: one entry per FY2024 key, in key order. */
  function Deltas(fy2020: Departments, fy2024: Departments): (r: seq<DeptChange>)
    ensures |r| == |fy2024|
    ensures forall i :: 0 <= i < |r| ==>
      r[i].name == fy2024[i].0 && r[i].change == fy2024[i].1 - Amount(fy2020, fy2024[i].0).GetOr(0)
  {
    seq(|fy2024|, i requires 0 <= i < |fy2024| =>
      DeptChange(fy2024[i].0, fy2024[i].1 - Amount(fy2020, fy2024[i].0).GetOr(0)))
  }

  /** `departmentChanges`: the deltas sorted by change, largest first. */
  function DepartmentChanges(fy2020: Departments, fy2024: Departments): seq<DeptChange>
  {
    SortDesc(Deltas(fy2020, fy2024), ChangeOf)
  }

  /** `d` names a FY2024 department and carries its FY2024 amount minus its FY2020 amount,
      a department missing from FY2020 counting as zero. */
  ghost predicate IsDeltaOfKey(fy2020: Departments, fy2024: Departments, d: DeptChange)
  {
    exists i :: 0 <= i < |fy2024| && d.name == fy2024[i].0 &&
      d.change == fy2024[i].1 - (if Amount(fy2020, d.name).Some? then Amount(fy2020, d.name).value else 0)
  }

  /** `departmentChanges` holds one entry per FY2024 department, carrying its FY2024 amount
      minus its FY2020 amount (zero when FY2020 has no such key), in descending order of change,
      with departments of equal change in key order. */
  lemma DepartmentChangesSpec(fy2020: Departments, fy2024: Departments)
    ensures var r := DepartmentChanges(fy2020, fy2024);
      && |r| == |fy2024|
      && multiset(r) == multiset(Deltas(fy2020, fy2024))
      && SortedDesc(r, ChangeOf)
      && (forall k :: WithKey(r, ChangeOf, k) == WithKey(Deltas(fy2020, fy2024), ChangeOf, k))
      && (forall d :: d in r ==> IsDeltaOfKey(fy2020, fy2024, d))
  {
    var r := DepartmentChanges(fy2020, fy2024);
    var ds := Deltas(fy2020, fy2024);
    SortDescSpec(ds, ChangeOf);
    forall k ensures WithKey(r, ChangeOf, k) == WithKey(ds, ChangeOf, k) {
      SortDescStable(ds, ChangeOf, k);
    }
    forall d | d in r
      ensures IsDeltaOfKey(fy2020, fy2024, d)
    {
      assert d in multiset(r);
      assert d in ds;
      var i :| 0 <= i < |ds| && ds[i] == d;
    }
  }

  /** A department with no change gets no bar. */
  predicate Moved(d: DeptChange) { d.change != 0 }

  function NonZero(ds: seq<DeptChange>): seq<DeptChange> { Filter(ds, Moved) }

  /** A leading or trailing total bar, standing on zero. */
  function TotalItem(name: string, amount: int): Item
  {
    Item(name, amount, amount, 0, Some(true), None)
  }

  /** A department's bar, drawn from the running total reached before it. */
  function StepItem(d: DeptChange, running: int): Item
  {
    Item(d.name, Abs(d.change), d.change, BarStart(running, d.change), None, Some(d.change >= 0))
  }

  function Shown(it: Item): int { it.displayValue }

  /** What `buildWaterfallData` returns for the given totals and `departmentChanges`. */
  function Waterfall(fy2020Total: int, fy2024Total: int, changes: seq<DeptChange>): (r: seq<Item>)
    ensures |r| == |NonZero(changes)| + 2
    ensures r[0].name == "FY2020" && r[0].isTotal == Some(true) && r[0].isPositive.None?
    ensures r[0].start == 0 && r[0].value == r[0].displayValue == fy2020Total
    ensures r[|r| - 1].name == "FY2024" && r[|r| - 1].isTotal == Some(true) && r[|r| - 1].isPositive.None?
    ensures r[|r| - 1].start == 0 && r[|r| - 1].value == r[|r| - 1].displayValue == fy2024Total
  {
    [TotalItem("FY2020", fy2020Total)] + Bars(fy2020Total, NonZero(changes), ChangeOf, StepItem)
      + [TotalItem("FY2024", fy2024Total)]
  }

  /** `buildWaterfallData`, with `BUDGET_DATA`'s totals and `departmentChanges` as parameters. */
  method BuildWaterfallData(fy2020Total: int, fy2024Total: int, changes: seq<DeptChange>) returns (data: seq<Item>)
    ensures data == Waterfall(fy2020Total, fy2024Total, changes)
  {
    data := [TotalItem("FY2020", fy2020Total)];
    var runningTotal := fy2020Total;
    for i := 0 to |changes|
      invariant runningTotal == RunningTotal(fy2020Total, NonZero(changes[..i]), ChangeOf)
      invariant data == [TotalItem("FY2020", fy2020Total)] + Bars(fy2020Total, NonZero(changes[..i]), ChangeOf, StepItem)
    {
      var dept := changes[i];
      BarsStep(fy2020Total, changes, i, Moved, ChangeOf, StepItem, [TotalItem("FY2020", fy2020Total)], data, runningTotal);
      if dept.change != 0 {
        var item := Item(dept.name, Abs(dept.change), dept.change,
                         if dept.change >= 0 then runningTotal else runningTotal + dept.change,
                         None, Some(dept.change >= 0));
        assert item == StepItem(dept, runningTotal);
        data := data + [item];
        runningTotal := runningTotal + dept.change;
      }
    }
    assert changes[..|changes|] == changes;
    data := data + [TotalItem("FY2024", fy2024Total)];
  }

  /** Every bar between the two totals belongs, in order, to a department whose change is not zero:
      its height is the size of that change, it shows the signed change, it is marked positive
      exactly for an increase, and it spans from the running total before the change to the
      running total after it. */
  lemma WaterfallSteps(fy2020Total: int, fy2024Total: int, changes: seq<DeptChange>, k: int)
    requires 0 < k < |Waterfall(fy2020Total, fy2024Total, changes)| - 1
    ensures var it := Waterfall(fy2020Total, fy2024Total, changes)[k];
      var d := NonZero(changes)[k - 1];
      var before := RunningTotal(fy2020Total, NonZero(changes)[..k - 1], ChangeOf);
      && d in changes && d.change != 0
      && it.name == d.name && it.isTotal.None?
      && it.value == Abs(d.change) > 0 && it.displayValue == d.change
      && it.isPositive == Some(d.change >= 0)
      && it.start == Min(before, before + d.change)
      && it.start + it.value == Max(before, before + d.change)
  {
    var nz := NonZero(changes);
    var bars := Bars(fy2020Total, nz, ChangeOf, StepItem);
    assert Waterfall(fy2020Total, fy2024Total, changes)[k] == bars[k - 1];
    assert bars[k - 1] == StepItem(nz[k - 1], RunningTotal(fy2020Total, nz[..k - 1], ChangeOf));
    assert nz[k - 1] in nz;
    FilterMembers(changes, Moved, nz[k - 1]);
  }

  /** The bars between the totals move the FY2020 total by exactly the sum of all changes. */
  lemma WaterfallSum(fy2020Total: int, fy2024Total: int, changes: seq<DeptChange>)
    ensures var r := Waterfall(fy2020Total, fy2024Total, changes);
      fy2020Total + SumOf(r[1..|r| - 1], Shown) == RunningTotal(fy2020Total, changes, ChangeOf)
  {
    var r := Waterfall(fy2020Total, fy2024Total, changes);
    assert r[1..|r| - 1] == Bars(fy2020Total, NonZero(changes), ChangeOf, StepItem);
    KeptBarsSum(fy2020Total, changes, Moved, ChangeOf, StepItem, Shown);
  }

  /** `departmentChanges` for the shipped figures. */
  const ShippedChanges: seq<DeptChange> :=
    [DeptChange("Public Works", 358000), DeptChange("Administration", 81000), DeptChange("Other", 60000),
     DeptChange("Fire Dept", 51000), DeptChange("Public Safety", 29000)]

  lemma ShippedDeltas()
    ensures Deltas(Fy2020Departments, Fy2024Departments) ==
      [ShippedChanges[0], ShippedChanges[1], ShippedChanges[3], ShippedChanges[4], ShippedChanges[2]]
  {
  }

  /** Sorting the shipped deltas puts "Other" (+60,000) ahead of "Fire Dept" and "Public Safety". */
  lemma ShippedSort()
    ensures DepartmentChanges(Fy2020Departments, Fy2024Departments) == ShippedChanges
  {
    var c := ShippedChanges;
    var ds := Deltas(Fy2020Departments, Fy2024Departments);
    ShippedDeltas();
    assert ds[4..] == [c[2]];
    assert SortDesc(ds[4..], ChangeOf) == [c[2]];
    assert SortDesc(ds[3..], ChangeOf) == [c[2], c[4]] by {
      assert ds[3..][1..] == ds[4..];
      assert SortDesc(ds[3..], ChangeOf) == Insert(c[4], [c[2]], ChangeOf);
      assert Insert(c[4], [], ChangeOf) == [c[4]];
      assert Insert(c[4], [c[2]], ChangeOf) == [c[2]] + Insert(c[4], [], ChangeOf);
    }
    assert SortDesc(ds[2..], ChangeOf) == [c[2], c[3], c[4]] by {
      assert ds[2..][1..] == ds[3..];
      assert SortDesc(ds[2..], ChangeOf) == Insert(c[3], [c[2], c[4]], ChangeOf);
      assert [c[2], c[4]][1..] == [c[4]];
      assert Insert(c[3], [c[4]], ChangeOf) == [c[3], c[4]];
      assert Insert(c[3], [c[2], c[4]], ChangeOf) == [c[2]] + Insert(c[3], [c[4]], ChangeOf);
    }
    assert SortDesc(ds[1..], ChangeOf) == c[1..] by {
      assert ds[1..][1..] == ds[2..];
      assert SortDesc(ds[1..], ChangeOf) == Insert(c[1], [c[2], c[3], c[4]], ChangeOf);
    }
    assert SortDesc(ds, ChangeOf) == Insert(c[0], c[1..], ChangeOf);
  }

  /** Every shipped department moved, so each gets a bar. */
  lemma ShippedAllMoved()
    ensures NonZero(ShippedChanges) == ShippedChanges
  {
    var dc := ShippedChanges;
    forall i | 0 <= i < |dc| ensures Moved(dc[i]) {
      assert i == 0 || i == 1 || i == 2 || i == 3 || i == 4;
    }
    FilterAll(dc, Moved);
  }

  lemma ShippedSum()
    ensures SumOf(ShippedChanges, ChangeOf) == 579000
  {
    var dc := ShippedChanges;
    assert |dc| == 5;
    assert SumOf(dc[..1], ChangeOf) == 358000;
    assert SumOf(dc[..2], ChangeOf) == 439000 by { assert dc[..2][..1] == dc[..1]; }
    assert SumOf(dc[..3], ChangeOf) == 499000 by { assert dc[..3][..2] == dc[..2]; }
    assert SumOf(dc[..4], ChangeOf) == 550000 by { assert dc[..4][..3] == dc[..3]; }
    assert dc[..5][..4] == dc[..4];
    assert dc[..|dc|] == dc;
  }

  /** With the shipped figures every department grows, by 579,000 in all, and the running total
      ends exactly at the FY2024 total that the trailing bar shows. */
  lemma ShippedWaterfall()
    ensures var r := Waterfall(Fy2020Total, Fy2024Total, DepartmentChanges(Fy2020Departments, Fy2024Departments));
      && |r| == 7
      && SumOf(r[1..|r| - 1], Shown) == 579000
      && RunningTotal(Fy2020Total, DepartmentChanges(Fy2020Departments, Fy2024Departments), ChangeOf) == Fy2024Total
  {
    ShippedSort();
    ShippedAllMoved();
    ShippedSum();
    WaterfallSum(Fy2020Total, Fy2024Total, ShippedChanges);
  }
}
