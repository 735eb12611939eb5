/** The budget-options comparison chart: a waterfall from the FY2026 total over the TEST B
    department changes, with the Office Expansion staffing option and the extra cost of the
    TEST A Town Administrator option drawn as two flagged bars of their own. */
module BudgetOptionsComparison {
  import opened Wrappers
  import opened Seqs
  import opened Budget
  import P = ProposedBudgetWaterfall

  /** `departmentChanges` is computed exactly as in the proposed-budget chart. */
  type DeptChange = P.DeptChange

  /** A `WaterfallItem`; an optional field the source leaves out of an object literal is `None`. */
  datatype Item = Item(name: string, value: int, displayValue: int, start: int,
                       isTotal: Option<bool>, isPositive: Option<bool>, isOfficeExpansion: Option<bool>,
                       isTownAdmin: Option<bool>, percentChange: Option<Percent>)

  const OfficeExpansion: string := "Office Expansion"
  const TownAdmin: string := "Town Admin"

  // BUDGET_DATA; every `operatingBudget` equals its `totalTownBudget`
  const Fy2026Total: int := 2027000
  const Fy2026Departments: Departments :=
    [("Public Works", 1090000), ("Administration", 329000), ("Fire Dept", 169000), ("Public Safety", 118000),
     (OfficeExpansion, 0), (TownAdmin, 0), ("Other", 220000), ("CIP", 101000)]
  const TestBTotal: int := 2288000
  const TestBDepartments: Departments :=
    [("Public Works", 1167000), ("Administration", 330000), ("Fire Dept", 154000), ("Public Safety", 118000),
     (OfficeExpansion, 100000), (TownAdmin, 0), ("Other", 293000), ("CIP", 126000)]
  const TestATotal: int := 2294000

  /** `townAdminAdditional`: what the TEST A option costs beyond TEST B. */
  function TownAdminAdditional(testATotal: int, testBTotal: int): (r: int)
    ensures testBTotal + r == testATotal
  {
    testATotal - testBTotal
  }

  /** A department drawn by the loop: it moved and it is neither of the two options. */
  predicate Ordinary(d: DeptChange)
  {
    d.change != 0 && d.name != OfficeExpansion && d.name != TownAdmin
  }

  function OrdinaryChanges(ds: seq<DeptChange>): seq<DeptChange> { Filter(ds, Ordinary) }

  predicate IsOfficeExpansion(d: DeptChange) { d.name == OfficeExpansion }

  /** How far the Office Expansion bar moves the running total: the change of the first entry
      named "Office Expansion" when there is one and it grew, otherwise nothing. */
  function OfficeExpansionChange(ds: seq<DeptChange>): int
  {
    match Find(ds, IsOfficeExpansion)
    case Some(d) => if d.change > 0 then d.change else 0
    case None => 0
  }

  /** The Office Expansion bar is drawn exactly when the first "Office Expansion" entry grew,
      and it then moves the running total by that entry's change. */
  lemma OfficeExpansionChangeSpec(ds: seq<DeptChange>)
    ensures var oe := OfficeExpansionChange(ds);
      && oe >= 0
      && (oe > 0 <==> exists i :: 0 <= i < |ds| && ds[i].name == OfficeExpansion && ds[i].change > 0
                                  && forall j :: 0 <= j < i ==> ds[j].name != OfficeExpansion)
      && (oe > 0 ==> exists i :: 0 <= i < |ds| && ds[i].name == OfficeExpansion && ds[i].change == oe
                                  && forall j :: 0 <= j < i ==> ds[j].name != OfficeExpansion)
  {
    FindSpec(ds, IsOfficeExpansion);
  }

  function TotalItem(name: string, amount: int): Item
  {
    Item(name, amount, amount, 0, Some(true), None, None, None, None)
  }

  /** A department's bar, drawn from the running total reached before it. */
  function StepItem(d: DeptChange, running: int): Item
  {
    Item(d.name, Abs(d.change), d.change, BarStart(running, d.change), None, Some(d.change >= 0),
         None, None, if d.fy2026 > 0 then Some(Percent(d.change, d.fy2026)) else None)
  }

  function OfficeExpansionItem(amount: int, running: int): Item
  {
    Item(OfficeExpansion, amount, amount, running, None, None, Some(true), None, None)
  }

  function TownAdminItem(amount: int, running: int): Item
  {
    Item(TownAdmin, amount, amount, running, None, None, None, Some(true), None)
  }

  function Shown(it: Item): int { it.displayValue }

  /** The running total after the department bars. */
  function AfterDepartments(fy2026Total: int, changes: seq<DeptChange>): int
  {
    RunningTotal(fy2026Total, OrdinaryChanges(changes), P.ChangeOf)
  }

  /** The running total at the end of `buildWaterfallData`. */
  function FinalRunningTotal(fy2026Total: int, townAdminAdditional: int, changes: seq<DeptChange>): int
  {
    AfterDepartments(fy2026Total, changes) + OfficeExpansionChange(changes)
      + (if townAdminAdditional > 0 then townAdminAdditional else 0)
  }

  /** What `buildWaterfallData` returns for the given totals, `townAdminAdditional` and
      `departmentChanges`. */
  function Waterfall(fy2026Total: int, testATotal: int, townAdminAdditional: int, changes: seq<DeptChange>): (r: seq<Item>)
    ensures |r| == |OrdinaryChanges(changes)| + 2 + (if OfficeExpansionChange(changes) > 0 then 1 else 0)
                   + (if townAdminAdditional > 0 then 1 else 0)
    ensures r[0] == TotalItem("FY2026", fy2026Total)
    ensures r[|r| - 1] == TotalItem("FY2027", testATotal)
  {
    var running := AfterDepartments(fy2026Total, changes);
    var oe := OfficeExpansionChange(changes);
    [TotalItem("FY2026", fy2026Total)] + Bars(fy2026Total, OrdinaryChanges(changes), P.ChangeOf, StepItem)
      + (if oe > 0 then [OfficeExpansionItem(oe, running)] else [])
      + (if townAdminAdditional > 0 then [TownAdminItem(townAdminAdditional, running + oe)] else [])
      + [TotalItem("FY2027", testATotal)]
  }

  /** `buildWaterfallData`, with `BUDGET_DATA`'s figures, `townAdminAdditional` and
      `departmentChanges` as parameters. */
  method BuildWaterfallData(fy2026Total: int, testATotal: int, townAdminAdditional: int, changes: seq<DeptChange>)
    returns (data: seq<Item>)
    ensures data == Waterfall(fy2026Total, testATotal, townAdminAdditional, changes)
  {
    data := [TotalItem("FY2026", fy2026Total)];
    var runningTotal := fy2026Total;
    for i := 0 to |changes|
      invariant runningTotal == RunningTotal(fy2026Total, OrdinaryChanges(changes[..i]), P.ChangeOf)
      invariant data == [TotalItem("FY2026", fy2026Total)] + Bars(fy2026Total, OrdinaryChanges(changes[..i]), P.ChangeOf, StepItem)
    {
      var dept := changes[i];
      BarsStep(fy2026Total, changes, i, Ordinary, P.ChangeOf, StepItem, [TotalItem("FY2026", fy2026Total)], data, runningTotal);
      if dept.change != 0 && dept.name != OfficeExpansion && dept.name != TownAdmin {
        var item := Item(dept.name, Abs(dept.change), dept.change,
                         if dept.change >= 0 then runningTotal else runningTotal + dept.change,
                         None, Some(dept.change >= 0), None, None,
                         if dept.fy2026 > 0 then Some(Percent(dept.change, dept.fy2026)) else None);
        assert item == StepItem(dept, runningTotal);
        data := data + [item];
        runningTotal := runningTotal + dept.change;
      }
    }
    assert changes[..|changes|] == changes;
    ghost var bars := data;
    ghost var running := runningTotal;
    var officeExpansion := Find(changes, IsOfficeExpansion);
    if officeExpansion.Some? && officeExpansion.value.change > 0 {
      data := data + [OfficeExpansionItem(officeExpansion.value.change, runningTotal)];
      runningTotal := runningTotal + officeExpansion.value.change;
    }
    assert data == bars + (if OfficeExpansionChange(changes) > 0 then [OfficeExpansionItem(OfficeExpansionChange(changes), running)] else []);
    assert runningTotal == running + OfficeExpansionChange(changes);
    if townAdminAdditional > 0 {
      data := data + [TownAdminItem(townAdminAdditional, runningTotal)];
      runningTotal := runningTotal + townAdminAdditional;
    }
    data := data + [TotalItem("FY2027", testATotal)];
  }

  /** Every department bar belongs, in order, to a department that moved and is neither option:
      its height is the size of the change, it shows the signed change, it is marked positive
      exactly for an increase, it spans from the running total before the change to the one after
      it, and it carries a percentage of the FY2026 amount exactly when that amount is positive. */
  lemma WaterfallSteps(fy2026Total: int, testATotal: int, townAdminAdditional: int, changes: seq<DeptChange>, k: int)
    requires 0 < k <= |OrdinaryChanges(changes)|
    ensures var it := Waterfall(fy2026Total, testATotal, townAdminAdditional, changes)[k];
      var d := OrdinaryChanges(changes)[k - 1];
      var before := RunningTotal(fy2026Total, OrdinaryChanges(changes)[..k - 1], P.ChangeOf);
      && d in changes && d.change != 0 && d.name != OfficeExpansion && d.name != TownAdmin
      && it.name == d.name && it.isTotal.None? && it.isOfficeExpansion.None? && it.isTownAdmin.None?
      && it.value == Abs(d.change) > 0 && it.displayValue == d.change
      && it.isPositive == Some(d.change >= 0)
      && it.start == Min(before, before + d.change)
      && it.start + it.value == Max(before, before + d.change)
      && (it.percentChange.Some? <==> d.fy2026 > 0)
      && (it.percentChange.Some? ==> it.percentChange.value == Percent(d.change, d.fy2026))
  {
    var ord := OrdinaryChanges(changes);
    var bars := Bars(fy2026Total, ord, P.ChangeOf, StepItem);
    assert Waterfall(fy2026Total, testATotal, townAdminAdditional, changes)[k] == bars[k - 1];
    assert bars[k - 1] == StepItem(ord[k - 1], RunningTotal(fy2026Total, ord[..k - 1], P.ChangeOf));
    assert ord[k - 1] in ord;
    FilterMembers(changes, Ordinary, ord[k - 1]);
  }

  /** After the department bars come the Office Expansion bar, when that option grew, starting at
      the running total the departments reached, and then the Town Admin bar, when TEST A costs
      more than TEST B, starting where the Office Expansion bar ended. */
  lemma WaterfallOptions(fy2026Total: int, testATotal: int, townAdminAdditional: int, changes: seq<DeptChange>)
    ensures var r := Waterfall(fy2026Total, testATotal, townAdminAdditional, changes);
      var n := |OrdinaryChanges(changes)|;
      var oe := OfficeExpansionChange(changes);
      var running := AfterDepartments(fy2026Total, changes);
      && (oe > 0 ==> r[n + 1].name == OfficeExpansion && r[n + 1].value == r[n + 1].displayValue == oe
                     && r[n + 1].start == running && r[n + 1].isOfficeExpansion == Some(true)
                     && r[n + 1].isTownAdmin.None? && r[n + 1].isPositive.None? && r[n + 1].isTotal.None?
                     && r[n + 1].percentChange.None?)
      && (townAdminAdditional > 0 ==>
            r[|r| - 2].name == TownAdmin && r[|r| - 2].value == r[|r| - 2].displayValue == townAdminAdditional
            && r[|r| - 2].start == running + oe && r[|r| - 2].isTownAdmin == Some(true)
            && r[|r| - 2].isOfficeExpansion.None? && r[|r| - 2].isPositive.None? && r[|r| - 2].isTotal.None?
            && r[|r| - 2].percentChange.None?)
  {
  }

  /** The bars between the totals move the FY2026 total to the running total the loop and the two
      option bars end with. */
  lemma WaterfallSum(fy2026Total: int, testATotal: int, townAdminAdditional: int, changes: seq<DeptChange>)
    ensures var r := Waterfall(fy2026Total, testATotal, townAdminAdditional, changes);
      fy2026Total + SumOf(r[1..|r| - 1], Shown) == FinalRunningTotal(fy2026Total, townAdminAdditional, changes)
  {
    var r := Waterfall(fy2026Total, testATotal, townAdminAdditional, changes);
    var running := AfterDepartments(fy2026Total, changes);
    var oe := OfficeExpansionChange(changes);
    var bars := Bars(fy2026Total, OrdinaryChanges(changes), P.ChangeOf, StepItem);
    var oeBars := if oe > 0 then [OfficeExpansionItem(oe, running)] else [];
    var taBars := if townAdminAdditional > 0 then [TownAdminItem(townAdminAdditional, running + oe)] else [];
    assert r[1..|r| - 1] == bars + oeBars + taBars;
    SumOfAppend(bars + oeBars, taBars, Shown);
    SumOfAppend(bars, oeBars, Shown);
    BarsSum(fy2026Total, OrdinaryChanges(changes), P.ChangeOf, StepItem, Shown);
    OptionBarSum(oeBars, oe);
    OptionBarSum(taBars, townAdminAdditional);
  }

  lemma OptionBarSum(bar: seq<Item>, amount: int)
    requires bar == [] || (|bar| == 1 && Shown(bar[0]) == amount)
    ensures SumOf(bar, Shown) == if bar == [] then 0 else amount
  {
    if bar != [] {
      assert bar[..0] == [];
    }
  }

  /** With no Town Admin department change, the departments' changes are those of the drawn
      departments plus those of the Office Expansion entries. */
  lemma {:induction false} SumSplit(ds: seq<DeptChange>)
    requires forall d :: d in ds && d.name == TownAdmin ==> d.change == 0
    ensures SumOf(ds, P.ChangeOf) == SumOf(OrdinaryChanges(ds), P.ChangeOf) + SumOf(Filter(ds, IsOfficeExpansion), P.ChangeOf)
    decreases |ds|
  {
    if ds != [] {
      var init := ds[..|ds| - 1];
      var x := ds[|ds| - 1];
      assert ds == init + [x];
      SumSplit(init);
      FilterSnoc(init, x, Ordinary);
      FilterSnoc(init, x, IsOfficeExpansion);
      SumOfAppend(Filter(init, Ordinary), if Ordinary(x) then [x] else [], P.ChangeOf);
      SumOfAppend(Filter(init, IsOfficeExpansion), if IsOfficeExpansion(x) then [x] else [], P.ChangeOf);
      assert SumOf([x], P.ChangeOf) == SumOf([], P.ChangeOf) + x.change;
    }
  }

  /** With a single Office Expansion entry that did not shrink, its change is what the Office
      Expansion bar adds. */
  lemma {:induction false} OfficeExpansionSum(ds: seq<DeptChange>)
    requires forall i, j :: 0 <= i < j < |ds| && IsOfficeExpansion(ds[i]) ==> !IsOfficeExpansion(ds[j])
    requires forall d :: d in ds && IsOfficeExpansion(d) ==> d.change >= 0
    ensures SumOf(Filter(ds, IsOfficeExpansion), P.ChangeOf) == OfficeExpansionChange(ds)
    decreases |ds|
  {
    if ds != [] {
      var rest := Filter(ds[1..], IsOfficeExpansion);
      if IsOfficeExpansion(ds[0]) {
        if rest != [] {
          assert rest[0] in rest;
          FilterMembers(ds[1..], IsOfficeExpansion, rest[0]);
          assert false;
        }
        assert SumOf([ds[0]], P.ChangeOf) == SumOf([], P.ChangeOf) + ds[0].change;
      } else {
        assert forall i, j :: 0 <= i < j < |ds[1..]| ==> ds[1..][i] == ds[i + 1] && ds[1..][j] == ds[j + 1];
        OfficeExpansionSum(ds[1..]);
      }
    }
  }

  /** When the departments add up to the TEST B total, Town Admin has no department change and
      there is one Office Expansion entry that did not shrink, the chart's running total ends at
      the larger of the TEST A and TEST B totals: at the TEST A total its last bar shows whenever
      TEST A costs at least as much as TEST B. */
  lemma WaterfallCloses(fy2026Total: int, testBTotal: int, testATotal: int, changes: seq<DeptChange>)
    requires fy2026Total + SumOf(changes, P.ChangeOf) == testBTotal
    requires forall d :: d in changes && d.name == TownAdmin ==> d.change == 0
    requires forall i, j :: 0 <= i < j < |changes| && IsOfficeExpansion(changes[i]) ==> !IsOfficeExpansion(changes[j])
    requires forall d :: d in changes && IsOfficeExpansion(d) ==> d.change >= 0
    ensures FinalRunningTotal(fy2026Total, TownAdminAdditional(testATotal, testBTotal), changes) == Max(testATotal, testBTotal)
  {
    DepartmentsTotal(fy2026Total, changes);
  }

  /** Under the same conditions the department bars and the Office Expansion bar together move
      the FY2026 total by the sum of all department changes. */
  lemma DepartmentsTotal(fy2026Total: int, changes: seq<DeptChange>)
    requires forall d :: d in changes && d.name == TownAdmin ==> d.change == 0
    requires forall i, j :: 0 <= i < j < |changes| && IsOfficeExpansion(changes[i]) ==> !IsOfficeExpansion(changes[j])
    requires forall d :: d in changes && IsOfficeExpansion(d) ==> d.change >= 0
    ensures AfterDepartments(fy2026Total, changes) + OfficeExpansionChange(changes) == fy2026Total + SumOf(changes, P.ChangeOf)
  {
    SumSplit(changes);
    OfficeExpansionSum(changes);
  }

  /** `departmentChanges` for the shipped figures. */
  const ShippedChanges: seq<DeptChange> :=
    [P.DeptChange(OfficeExpansion, 0, 100000, 100000), P.DeptChange("Public Works", 1090000, 1167000, 77000),
     P.DeptChange("Other", 220000, 293000, 73000), P.DeptChange("CIP", 101000, 126000, 25000),
     P.DeptChange("Administration", 329000, 330000, 1000), P.DeptChange("Public Safety", 118000, 118000, 0),
     P.DeptChange(TownAdmin, 0, 0, 0), P.DeptChange("Fire Dept", 169000, 154000, -15000)]

  /** The shipped deltas, in `BUDGET_DATA`'s key order. */
  const ShippedDeltas: seq<DeptChange> :=
    [ShippedChanges[1], ShippedChanges[4], ShippedChanges[7], ShippedChanges[5], ShippedChanges[0],
     ShippedChanges[6], ShippedChanges[2], ShippedChanges[3]]

  lemma ShippedDistinctNames()
    ensures DistinctNames(Fy2026Departments)
  {
  }

  lemma ShippedKeysCovered()
    ensures P.KeysCovered(Fy2026Departments, TestBDepartments)
  {
    forall i | 0 <= i < |TestBDepartments|
      ensures Amount(Fy2026Departments, TestBDepartments[i].0) == Some(Fy2026Departments[i].1)
    {
      ShippedDistinctNames();
      AmountSpec(Fy2026Departments, TestBDepartments[i].0);
      assert Fy2026Departments[i].0 == TestBDepartments[i].0;
    }
  }

  lemma ShippedDeltasAreDeltas()
    ensures P.KeysCovered(Fy2026Departments, TestBDepartments)
    ensures P.Deltas(Fy2026Departments, TestBDepartments) == ShippedDeltas
  {
    ShippedKeysCovered();
    var ds := P.Deltas(Fy2026Departments, TestBDepartments);
    forall i | 0 <= i < |TestBDepartments| ensures ds[i] == ShippedDeltas[i] {
      ShippedKeysCovered();
      ShippedDistinctNames();
      AmountSpec(Fy2026Departments, TestBDepartments[i].0);
      assert Fy2026Departments[i].0 == TestBDepartments[i].0;
      assert i == 0 || i == 1 || i == 2 || i == 3 || i == 4 || i == 5 || i == 6 || i == 7;
    }
  }

  lemma SortShippedTail()
    ensures SortDesc(ShippedDeltas[4..], P.ChangeOf) == [ShippedChanges[0], ShippedChanges[2], ShippedChanges[3], ShippedChanges[6]]
  {
    var c := ShippedChanges;
    var ds := ShippedDeltas;
    assert SortDesc(ds[7..], P.ChangeOf) == [c[3]] by {
      assert ds[7..] == [c[3]];
      assert SortDesc(ds[7..], P.ChangeOf) == Insert(c[3], [], P.ChangeOf);
    }
    assert SortDesc(ds[6..], P.ChangeOf) == [c[2], c[3]] by {
      assert ds[6..][1..] == ds[7..];
      InsertAt(c[2], [c[3]], P.ChangeOf, 0);
    }
    assert SortDesc(ds[5..], P.ChangeOf) == [c[2], c[3], c[6]] by {
      assert ds[5..][1..] == ds[6..];
      InsertAt(c[6], [c[2], c[3]], P.ChangeOf, 2);
    }
    assert ds[4..][1..] == ds[5..];
    InsertAt(c[0], [c[2], c[3], c[6]], P.ChangeOf, 0);
  }

  /** Public Safety (0) goes before Town Admin (0), which comes later in key order. */
  lemma SortShippedMiddle()
    ensures SortDesc(ShippedDeltas[2..], P.ChangeOf) ==
      [ShippedChanges[0], ShippedChanges[2], ShippedChanges[3], ShippedChanges[5], ShippedChanges[6], ShippedChanges[7]]
  {
    var c := ShippedChanges;
    var ds := ShippedDeltas;
    SortShippedTail();
    assert SortDesc(ds[3..], P.ChangeOf) == [c[0], c[2], c[3], c[5], c[6]] by {
      assert ds[3..][1..] == ds[4..];
      InsertAt(c[5], [c[0], c[2], c[3], c[6]], P.ChangeOf, 3);
    }
    assert ds[2..][1..] == ds[3..];
    InsertAt(c[7], [c[0], c[2], c[3], c[5], c[6]], P.ChangeOf, 5);
  }

  lemma SortShippedFront()
    ensures SortDesc(ShippedDeltas[1..], P.ChangeOf) == [ShippedChanges[0]] + ShippedChanges[2..]
  {
    var c := ShippedChanges;
    var ds := ShippedDeltas;
    SortShippedMiddle();
    assert ds[1..][1..] == ds[2..];
    var rest := [c[0], c[2], c[3], c[5], c[6], c[7]];
    InsertAt(c[4], rest, P.ChangeOf, 3);
    assert rest[..3] + [c[4]] + rest[3..] == [c[0]] + c[2..];
  }

  lemma SortShippedDeltas()
    ensures SortDesc(ShippedDeltas, P.ChangeOf) == ShippedChanges
  {
    var c := ShippedChanges;
    SortShippedFront();
    InsertAt(c[1], [c[0]] + c[2..], P.ChangeOf, 1);
    assert c == [c[0], c[1]] + c[2..];
  }

  /** The shipped TEST B deltas sort to Office Expansion, Public Works, Other, CIP, Administration,
      Public Safety, Town Admin, Fire Dept. */
  lemma ShippedSort()
    ensures P.KeysCovered(Fy2026Departments, TestBDepartments)
    ensures P.DepartmentChanges(Fy2026Departments, TestBDepartments) == ShippedChanges
  {
    ShippedDeltasAreDeltas();
    SortShippedDeltas();
  }

  /** Office Expansion, Public Safety and Town Admin get no department bar. */
  lemma ShippedOrdinary()
    ensures OrdinaryChanges(ShippedChanges) == ShippedChanges[1..5] + [ShippedChanges[7]]
  {
    var c := ShippedChanges;
    assert c == c[..5] + c[5..];
    FilterAppend(c[..5], c[5..], Ordinary);
    assert Filter(c[..5], Ordinary) == c[1..5] by {
      assert c[..5][1..] == c[1..5];
      forall i | 0 <= i < 4 ensures Ordinary(c[1..5][i]) {
        assert i == 0 || i == 1 || i == 2 || i == 3;
      }
      FilterAll(c[1..5], Ordinary);
    }
    assert Filter(c[5..], Ordinary) == [c[7]] by {
      assert c[5..] == [c[5], c[6], c[7]];
      assert c[5..][1..] == [c[6], c[7]];
      assert [c[6], c[7]][1..] == [c[7]];
      assert Filter([c[7]], Ordinary) == [c[7]];
    }
  }

  lemma ShippedSum()
    ensures SumOf(ShippedChanges, P.ChangeOf) == 261000
  {
    var c := ShippedChanges;
    assert |c| == 8;
    assert SumOf(c[..1], P.ChangeOf) == 100000;
    assert SumOf(c[..2], P.ChangeOf) == 177000 by { assert c[..2][..1] == c[..1]; }
    assert SumOf(c[..3], P.ChangeOf) == 250000 by { assert c[..3][..2] == c[..2]; }
    assert SumOf(c[..4], P.ChangeOf) == 275000 by { assert c[..4][..3] == c[..3]; }
    assert SumOf(c[..5], P.ChangeOf) == 276000 by { assert c[..5][..4] == c[..4]; }
    assert SumOf(c[..6], P.ChangeOf) == 276000 by { assert c[..6][..5] == c[..5]; }
    assert SumOf(c[..7], P.ChangeOf) == 276000 by { assert c[..7][..6] == c[..6]; }
    assert c[..8][..7] == c[..7];
    assert c[..|c|] == c;
  }

  /** Only the first shipped entry is Office Expansion, and it grew by 100,000. */
  lemma ShippedOfficeExpansion()
    ensures forall i, j :: 0 <= i < j < |ShippedChanges| && IsOfficeExpansion(ShippedChanges[i]) ==> !IsOfficeExpansion(ShippedChanges[j])
    ensures forall d :: d in ShippedChanges && IsOfficeExpansion(d) ==> d.change >= 0
    ensures forall d :: d in ShippedChanges && d.name == TownAdmin ==> d.change == 0
    ensures OfficeExpansionChange(ShippedChanges) == 100000
  {
    var c := ShippedChanges;
    forall i | 0 <= i < |c| && IsOfficeExpansion(c[i]) ensures i == 0 {
      assert i == 0 || i == 1 || i == 2 || i == 3 || i == 4 || i == 5 || i == 6 || i == 7;
    }
  }

  lemma ShippedBars()
    ensures var r := Waterfall(Fy2026Total, TestATotal, 6000, ShippedChanges);
      && |r| == 9
      && r[6].name == OfficeExpansion && r[6].value == 100000
      && r[7].name == TownAdmin && r[7].value == 6000
      && r[|r| - 1].value == TestATotal
  {
    ShippedOrdinary();
    ShippedOfficeExpansion();
    WaterfallOptions(Fy2026Total, TestATotal, 6000, ShippedChanges);
  }

  lemma ShippedCloses()
    ensures FinalRunningTotal(Fy2026Total, TownAdminAdditional(TestATotal, TestBTotal), ShippedChanges) == TestATotal
  {
    ShippedSum();
    ShippedOfficeExpansion();
    WaterfallCloses(Fy2026Total, TestBTotal, TestATotal, ShippedChanges);
  }

  /** With the shipped figures the chart has nine bars; the running total ends at the TEST A total
      of 2,294,000 that the trailing bar shows, after the Office Expansion bar of 100,000 and the
      Town Admin bar of 6,000. */
  lemma ShippedWaterfall()
    ensures P.KeysCovered(Fy2026Departments, TestBDepartments)
    ensures var changes := P.DepartmentChanges(Fy2026Departments, TestBDepartments);
      var r := Waterfall(Fy2026Total, TestATotal, TownAdminAdditional(TestATotal, TestBTotal), changes);
      && TownAdminAdditional(TestATotal, TestBTotal) == 6000
      && |r| == 9
      && r[6].name == OfficeExpansion && r[6].value == 100000
      && r[7].name == TownAdmin && r[7].value == 6000
      && FinalRunningTotal(Fy2026Total, TownAdminAdditional(TestATotal, TestBTotal), changes) == TestATotal
      && r[|r| - 1].value == TestATotal
  {
    ShippedSort();
    ShippedBars();
    ShippedCloses();
  }
}
