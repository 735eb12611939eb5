/** The FY2026-to-FY2027 proposed-budget waterfall chart: like the historical chart, plus a flag
    for a department that is new in FY2027 and the operands of each bar's percentage change. */
module ProposedBudgetWaterfall {
  import opened Wrappers
  import opened Seqs
  import opened Budget

  /** An entry of `departmentChanges`: both years' amounts and their difference. */
  datatype DeptChange = DeptChange(name: string, fy2026: int, fy2027: int, change: int)

  /** A `WaterfallItem`; an optional field the source leaves out of an object literal is `None`. */
  datatype Item = Item(name: string, value: int, displayValue: int, start: int,
                       isTotal: Option<bool>, isPositive: Option<bool>, isNew: Option<bool>,
                       percentChange: Option<Percent>)

  // BUDGET_DATA
  const Fy2026Total: int := 2027000
  const Fy2026Departments: Departments :=
    [("Public Works", 1090000), ("Administration", 329000), ("Fire Dept", 169000), ("Public Safety", 118000),
     ("Town Admin", 0), ("Other", 220000), ("CIP", 101000)]
  const Fy2027Total: int := 2294000
  const Fy2027Departments: Departments :=
    [("Public Works", 1167000), ("Administration", 429000), ("Fire Dept", 154000), ("Public Safety", 118000),
     ("Town Admin", 51000), ("Other", 249000), ("CIP", 126000)]

  function ChangeOf(d: DeptChange): int { d.change }

  /** Every FY2027 department is also a FY2026 department, as the source's key types assume. */
  predicate KeysCovered(fy2026: Departments, fy2027: Departments)
  {
    forall i :: 0 <= i < |fy2027| ==> Amount(fy2026, fy2027[i].0).Some?
  }

  /** The `map` step of `departmentChanges`: one entry per FY2027 key, in key order. */
  function Deltas(fy2026: Departments, fy2027: Departments): (r: seq<DeptChange>)
    requires KeysCovered(fy2026, fy2027)
    ensures |r| == |fy2027|
    ensures forall i :: 0 <= i < |r| ==>
      && r[i].name == fy2027[i].0 && r[i].fy2027 == fy2027[i].1
      && Amount(fy2026, r[i].name) == Some(r[i].fy2026) && r[i].change == r[i].fy2027 - r[i].fy2026
  {
    seq(|fy2027|, i requires 0 <= i < |fy2027| =>
      var before := Amount(fy2026, fy2027[i].0).value;
      DeptChange(fy2027[i].0, before, fy2027[i].1, fy2027[i].1 - before))
  }

  /** `departmentChanges`: the deltas sorted by change, largest first. */
  function DepartmentChanges(fy2026: Departments, fy2027: Departments): seq<DeptChange>
    requires KeysCovered(fy2026, fy2027)
  {
    SortDesc(Deltas(fy2026, fy2027), ChangeOf)
  }

  /** `d` is the entry of a FY2027 department: its two amounts are that department's FY2026 and
      FY2027 amounts and its change is their difference. */
  ghost predicate IsDeltaOfKey(fy2026: Departments, fy2027: Departments, d: DeptChange)
  {
    exists i :: 0 <= i < |fy2027| && d.name == fy2027[i].0 && d.fy2027 == fy2027[i].1
      && Amount(fy2026, d.name) == Some(d.fy2026) && d.change == d.fy2027 - d.fy2026
  }

  /** `departmentChanges` holds one entry per FY2027 department, FY2027 minus FY2026, in descending
      order of change, with departments of equal change in key order. */
  lemma DepartmentChangesSpec(fy2026: Departments, fy2027: Departments)
    requires KeysCovered(fy2026, fy2027)
    ensures var r := DepartmentChanges(fy2026, fy2027);
      && |r| == |fy2027|
      && multiset(r) == multiset(Deltas(fy2026, fy2027))
      && SortedDesc(r, ChangeOf)
      && (forall k :: WithKey(r, ChangeOf, k) == WithKey(Deltas(fy2026, fy2027), ChangeOf, k))
      && (forall d :: d in r ==> IsDeltaOfKey(fy2026, fy2027, d))
  {
    var ds := Deltas(fy2026, fy2027);
    SortDescSpec(ds, ChangeOf);
    forall k ensures WithKey(SortDesc(ds, ChangeOf), ChangeOf, k) == WithKey(ds, ChangeOf, k) {
      SortDescStable(ds, ChangeOf, k);
    }
    SortedDeltasMembers(fy2026, fy2027);
  }

  lemma SortedDeltasMembers(fy2026: Departments, fy2027: Departments)
    requires KeysCovered(fy2026, fy2027)
    ensures forall d :: d in SortDesc(Deltas(fy2026, fy2027), ChangeOf) ==> IsDeltaOfKey(fy2026, fy2027, d)
  {
    var ds := Deltas(fy2026, fy2027);
    var r := SortDesc(ds, ChangeOf);
    SortDescSpec(ds, ChangeOf);
    forall d | d in r
      ensures IsDeltaOfKey(fy2026, fy2027, d)
    {
      assert d in multiset(r);
      assert d in ds;
    }
  }

  predicate Moved(d: DeptChange) { d.change != 0 }

  function NonZero(ds: seq<DeptChange>): seq<DeptChange> { Filter(ds, Moved) }

  /** `isNewPosition`: nothing was budgeted in FY2026 and something is in FY2027. */
  predicate IsNewPosition(d: DeptChange) { d.fy2026 == 0 && d.fy2027 > 0 }

  function TotalItem(name: string, amount: int): Item
  {
    Item(name, amount, amount, 0, Some(true), None, None, None)
  }

  /** A department's bar, drawn from the running total reached before it. */
  function StepItem(d: DeptChange, running: int): Item
  {
    Item(d.name, Abs(d.change), d.change, BarStart(running, d.change), None, Some(d.change >= 0),
         Some(IsNewPosition(d)), if IsNewPosition(d) then None else Some(Percent(d.change, d.fy2026)))
  }

  function Shown(it: Item): int { it.displayValue }

  /** What `buildWaterfallData` returns for the given totals and `departmentChanges`. */
  function Waterfall(fy2026Total: int, fy2027Total: int, changes: seq<DeptChange>): (r: seq<Item>)
    ensures |r| == |NonZero(changes)| + 2
    ensures r[0].name == "FY2026" && r[0].isTotal == Some(true) && r[0].start == 0
    ensures r[0].value == r[0].displayValue == fy2026Total
    ensures r[0].isPositive.None? && r[0].isNew.None? && r[0].percentChange.None?
    ensures r[|r| - 1].name == "FY2027" && r[|r| - 1].isTotal == Some(true) && r[|r| - 1].start == 0
    ensures r[|r| - 1].value == r[|r| - 1].displayValue == fy2027Total
    ensures r[|r| - 1].isPositive.None? && r[|r| - 1].isNew.None? && r[|r| - 1].percentChange.None?
  {
    [TotalItem("FY2026", fy2026Total)] + Bars(fy2026Total, NonZero(changes), ChangeOf, StepItem)
      + [TotalItem("FY2027", fy2027Total)]
  }

  /** `buildWaterfallData`, with `BUDGET_DATA`'s totals and `departmentChanges` as parameters. */
  method BuildWaterfallData(fy2026Total: int, fy2027Total: int, changes: seq<DeptChange>) returns (data: seq<Item>)
    ensures data == Waterfall(fy2026Total, fy2027Total, changes)
  {
    data := [TotalItem("FY2026", fy2026Total)];
    var runningTotal := fy2026Total;
    for i := 0 to |changes|
      invariant runningTotal == RunningTotal(fy2026Total, NonZero(changes[..i]), ChangeOf)
      invariant data == [TotalItem("FY2026", fy2026Total)] + Bars(fy2026Total, NonZero(changes[..i]), ChangeOf, StepItem)
    {
      var dept := changes[i];
      BarsStep(fy2026Total, changes, i, Moved, ChangeOf, StepItem, [TotalItem("FY2026", fy2026Total)], data, runningTotal);
      if dept.change != 0 {
        var isNewPosition := dept.fy2026 == 0 && dept.fy2027 > 0;
        var item := Item(dept.name, Abs(dept.change), dept.change,
                         if dept.change >= 0 then runningTotal else runningTotal + dept.change,
                         None, Some(dept.change >= 0), Some(isNewPosition),
                         if isNewPosition then None else Some(Percent(dept.change, dept.fy2026)));
        assert item == StepItem(dept, runningTotal);
        data := data + [item];
        runningTotal := runningTotal + dept.change;
      }
    }
    assert changes[..|changes|] == changes;
    data := data + [TotalItem("FY2027", fy2027Total)];
  }

  /** Every bar between the two totals belongs, in order, to a department whose change is not zero:
      its height is the size of that change, it shows the signed change, it is marked positive
      exactly for an increase, it spans from the running total before the change to the one after
      it, it is marked new exactly for a department unfunded in FY2026 and funded in FY2027, and it
      carries a percentage of the FY2026 amount exactly when it is not new. */
  lemma WaterfallSteps(fy2026Total: int, fy2027Total: int, changes: seq<DeptChange>, k: int)
    requires 0 < k < |Waterfall(fy2026Total, fy2027Total, changes)| - 1
    ensures var it := Waterfall(fy2026Total, fy2027Total, changes)[k];
      var d := NonZero(changes)[k - 1];
      var before := RunningTotal(fy2026Total, NonZero(changes)[..k - 1], ChangeOf);
      && d in changes && d.change != 0
      && it.name == d.name && it.isTotal.None?
      && it.value == Abs(d.change) > 0 && it.displayValue == d.change
      && it.isPositive == Some(d.change >= 0)
      && it.start == Min(before, before + d.change)
      && it.start + it.value == Max(before, before + d.change)
      && it.isNew == Some(d.fy2026 == 0 && d.fy2027 > 0)
      && (it.percentChange.None? <==> it.isNew == Some(true))
      && (it.percentChange.Some? ==> it.percentChange.value == Percent(d.change, d.fy2026))
  {
    var nz := NonZero(changes);
    var bars := Bars(fy2026Total, nz, ChangeOf, StepItem);
    assert Waterfall(fy2026Total, fy2027Total, changes)[k] == bars[k - 1];
    assert bars[k - 1] == StepItem(nz[k - 1], RunningTotal(fy2026Total, nz[..k - 1], ChangeOf));
    assert nz[k - 1] in nz;
    FilterMembers(changes, Moved, nz[k - 1]);
  }

  /** When no amount is negative, the source never divides by zero: every percentage that is
      present has a FY2026 amount other than zero as its base. */
  lemma PercentBaseNonZero(fy2026Total: int, fy2027Total: int, changes: seq<DeptChange>, k: int)
    requires forall d :: d in changes ==> d.fy2026 >= 0 && d.fy2027 >= 0 && d.change == d.fy2027 - d.fy2026
    requires 0 < k < |Waterfall(fy2026Total, fy2027Total, changes)| - 1
    ensures var it := Waterfall(fy2026Total, fy2027Total, changes)[k];
      it.percentChange.Some? ==> it.percentChange.value.base != 0
  {
    WaterfallSteps(fy2026Total, fy2027Total, changes, k);
  }

  /** The bars between the totals move the FY2026 total by exactly the sum of all changes. */
  lemma WaterfallSum(fy2026Total: int, fy2027Total: int, changes: seq<DeptChange>)
    ensures var r := Waterfall(fy2026Total, fy2027Total, changes);
      fy2026Total + SumOf(r[1..|r| - 1], Shown) == RunningTotal(fy2026Total, changes, ChangeOf)
  {
    var r := Waterfall(fy2026Total, fy2027Total, changes);
    assert r[1..|r| - 1] == Bars(fy2026Total, NonZero(changes), ChangeOf, StepItem);
    KeptBarsSum(fy2026Total, changes, Moved, ChangeOf, StepItem, Shown);
  }

  /** `departmentChanges` for the shipped figures. */
  const ShippedChanges: seq<DeptChange> :=
    [DeptChange("Administration", 329000, 429000, 100000), DeptChange("Public Works", 1090000, 1167000, 77000),
     DeptChange("Town Admin", 0, 51000, 51000), DeptChange("Other", 220000, 249000, 29000),
     DeptChange("CIP", 101000, 126000, 25000), DeptChange("Public Safety", 118000, 118000, 0),
     DeptChange("Fire Dept", 169000, 154000, -15000)]

  lemma ShippedKeysCovered()
    ensures KeysCovered(Fy2026Departments, Fy2027Departments)
  {
  }

  /** The shipped deltas, in `BUDGET_DATA`'s key order. */
  const ShippedDeltas: seq<DeptChange> :=
    [ShippedChanges[1], ShippedChanges[0], ShippedChanges[6], ShippedChanges[5], ShippedChanges[2],
     ShippedChanges[3], ShippedChanges[4]]

  lemma ShippedDeltasAreDeltas()
    ensures KeysCovered(Fy2026Departments, Fy2027Departments)
    ensures Deltas(Fy2026Departments, Fy2027Departments) == ShippedDeltas
  {
    ShippedKeysCovered();
  }

  /** Sorting the last four deltas: Public Safety (0) goes after Town Admin, Other and CIP. */
  lemma SortShippedTail()
    ensures SortDesc(ShippedDeltas[3..], ChangeOf) == ShippedChanges[2..6]
  {
    var c := ShippedChanges;
    var ds := ShippedDeltas;
    assert SortDesc(ds[6..], ChangeOf) == [c[4]] by {
      assert ds[6..] == [c[4]];
      assert SortDesc(ds[6..], ChangeOf) == Insert(c[4], [], ChangeOf);
    }
    assert SortDesc(ds[5..], ChangeOf) == [c[3], c[4]] by {
      assert ds[5..][1..] == ds[6..];
      InsertAt(c[3], [c[4]], ChangeOf, 0);
    }
    assert SortDesc(ds[4..], ChangeOf) == [c[2], c[3], c[4]] by {
      assert ds[4..][1..] == ds[5..];
      InsertAt(c[2], [c[3], c[4]], ChangeOf, 0);
    }
    assert ds[3..][1..] == ds[4..];
    InsertAt(c[5], [c[2], c[3], c[4]], ChangeOf, 3);
    assert c[2..6] == [c[2], c[3], c[4], c[5]];
  }

  lemma SortShippedMiddle()
    ensures SortDesc(ShippedDeltas[2..], ChangeOf) == ShippedChanges[2..]
  {
    var c := ShippedChanges;
    var ds := ShippedDeltas;
    SortShippedTail();
    assert ds[2..][1..] == ds[3..];
    InsertAt(c[6], c[2..6], ChangeOf, 4);
    assert c[2..6] + [c[6]] == c[2..];
  }

  lemma SortShippedFront()
    ensures SortDesc(ShippedDeltas[1..], ChangeOf) == [ShippedChanges[0]] + ShippedChanges[2..]
  {
    var c := ShippedChanges;
    var ds := ShippedDeltas;
    SortShippedMiddle();
    assert ds[1..][1..] == ds[2..];
    InsertAt(c[0], c[2..], ChangeOf, 0);
  }

  lemma SortShippedDeltas()
    ensures SortDesc(ShippedDeltas, ChangeOf) == ShippedChanges
  {
    var c := ShippedChanges;
    SortShippedFront();
    InsertAt(c[1], [c[0]] + c[2..], ChangeOf, 1);
    assert c == [c[0], c[1]] + c[2..];
  }

  /** The shipped deltas sort to Administration, Public Works, Town Admin, Other, CIP, Public Safety,
      Fire Dept. */
  lemma ShippedSort()
    ensures KeysCovered(Fy2026Departments, Fy2027Departments)
    ensures DepartmentChanges(Fy2026Departments, Fy2027Departments) == ShippedChanges
  {
    ShippedDeltasAreDeltas();
    SortShippedDeltas();
  }

  /** Only Public Safety is flat, so it alone gets no bar. */
  lemma ShippedNonZero()
    ensures NonZero(ShippedChanges) == ShippedChanges[..5] + [ShippedChanges[6]]
  {
    var c := ShippedChanges;
    assert c == c[..5] + c[5..];
    FilterAppend(c[..5], c[5..], Moved);
    forall i | 0 <= i < 5 ensures Moved(c[..5][i]) {
      assert i == 0 || i == 1 || i == 2 || i == 3 || i == 4;
    }
    FilterAll(c[..5], Moved);
    assert c[5..] == [c[5], c[6]];
    assert Filter(c[5..], Moved) == [c[6]] by {
      assert c[5..][1..] == [c[6]];
      assert Filter([c[6]], Moved) == [c[6]];
    }
  }

  lemma ShippedSum()
    ensures SumOf(ShippedChanges, ChangeOf) == 267000
  {
    var c := ShippedChanges;
    assert |c| == 7;
    assert SumOf(c[..1], ChangeOf) == 100000;
    assert SumOf(c[..2], ChangeOf) == 177000 by { assert c[..2][..1] == c[..1]; }
    assert SumOf(c[..3], ChangeOf) == 228000 by { assert c[..3][..2] == c[..2]; }
    assert SumOf(c[..4], ChangeOf) == 257000 by { assert c[..4][..3] == c[..3]; }
    assert SumOf(c[..5], ChangeOf) == 282000 by { assert c[..5][..4] == c[..4]; }
    assert SumOf(c[..6], ChangeOf) == 282000 by { assert c[..6][..5] == c[..5]; }
    assert c[..7][..6] == c[..6];
    assert c[..|c|] == c;
  }

  /** With the shipped figures the chart has six bars (Public Safety is flat), the running total
      ends at the FY2027 total, and the Town Admin bar is the new position, shown without a
      percentage. */
  lemma ShippedWaterfall()
    ensures KeysCovered(Fy2026Departments, Fy2027Departments)
    ensures var r := Waterfall(Fy2026Total, Fy2027Total, DepartmentChanges(Fy2026Departments, Fy2027Departments));
      && |r| == 8
      && RunningTotal(Fy2026Total, DepartmentChanges(Fy2026Departments, Fy2027Departments), ChangeOf) == Fy2027Total
      && r[3].name == "Town Admin" && r[3].isNew == Some(true) && r[3].percentChange.None?
  {
    ShippedSort();
    ShippedNonZero();
    ShippedSum();
    WaterfallSteps(Fy2026Total, Fy2027Total, ShippedChanges, 3);
  }
}
