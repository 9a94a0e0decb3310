/**
 * The worked examples of the calculator, stated about the model: the
 * 300 ft by 360 ft warehouse with 9.5 ft by 3.5 ft bays of seven 6 ft
 * levels, standard (10 ft) and narrow (6 ft) aisles.
 */
module ReferenceCases {
  import opened Wrappers
  import opened Arith
  import opened Calculations
  import Layout

  /** The default configuration: standard aisles, module method, no override. */
  function DefaultInputs(): Inputs
  {
    Inputs(
      warehouseLength := 300.0, warehouseWidth := 360.0, warehouseArea := 108000.0,
      warehouseClearHeight := 45.0, baselineCBM := 7500.0,
      bayLength := 9.5, bayWidth := 3.5, levelHeight := 6.0, levels := 7,
      percentRacking := 60.0, mezzPercent := 30.0, smallGap := 1.5, aisleWidth := 10.0,
      isVNA := false, aisleOverheadMultiplier := 1.5, palletFootprint := DefaultPalletFootprintSqft,
      palletsPerLevelOverride := None, mezzClearHeight := 7.2, useModuleMethod := true)
  }

  /** The same warehouse with very narrow aisles. */
  function VnaInputs(): Inputs
  {
    DefaultInputs().(aisleWidth := 6.0, isVNA := true, aisleOverheadMultiplier := 1.2)
  }

  /** The same warehouse with a 30 ft clear height, below the 42 ft racks. */
  function LowRoofInputs(): Inputs
  {
    DefaultInputs().(warehouseClearHeight := 30.0)
  }

  /** The default warehouse without a mezzanine. */
  function NoMezzanineInputs(): Inputs
  {
    DefaultInputs().(mezzPercent := 0.0)
  }

  /** A 50 ft by 50 ft warehouse with a baseline of 100 CBM. */
  function SmallInputs(): Inputs
  {
    DefaultInputs().(warehouseLength := 50.0, warehouseWidth := 50.0, warehouseArea := 2500.0, baselineCBM := 100.0)
  }

  /** Length times width wins over a typed-in area; without dimensions the area is used. */
  lemma ReferenceArea()
    ensures CalculateArea(DefaultInputs().(warehouseArea := 100000.0)) == 108000.0
    ensures CalculateArea(DefaultInputs().(warehouseLength := 0.0, warehouseWidth := 0.0)) == 108000.0
  {
  }

  /** 60 % racking and 30 % of that mezzanine on 108000 sq ft. */
  lemma ReferenceAreaSplit()
    ensures CalculateAreas(108000.0, 60.0, 30.0) == Areas(108000.0, 64800.0, 19440.0, 45360.0, 43200.0)
  {
  }

  /** A module of 9.5 ft bays with a 1.5 ft gap: 30.5 ft with a 10 ft aisle, 26.5 ft with a 6 ft aisle. */
  lemma ReferenceModuleLengths()
    ensures CalculateModule(9.5, 1.5, 10.0) == 30.5
    ensures CalculateModule(9.5, 1.5, 6.0) == 26.5
  {
  }

  /** Nine 30.5 ft modules and 26 rows of 13.5 ft: 468 bays. */
  lemma ReferenceModuleCount()
    ensures var m := CalculateBayCountModule(300.0, 360.0, 9.5, 3.5, 1.5, 10.0, None).value;
      m.baysPerRow == 18 && m.numberOfRows == 26 && m.totalBays == 468
  {
    FloorIs(300.0 / 30.5, 9);
    FloorIs(360.0 / 13.5, 26);
  }

  /** Eleven 26.5 ft modules and 37 rows of 9.5 ft: 814 bays. */
  lemma ReferenceVnaModuleCount()
    ensures var m := CalculateBayCountModule(300.0, 360.0, 9.5, 3.5, 1.5, 6.0, None).value;
      m.baysPerRow == 22 && m.numberOfRows == 37 && m.totalBays == 814
  {
    FloorIs(300.0 / 26.5, 11);
    FloorIs(360.0 / 9.5, 37);
  }

  /** 45360 sq ft of HD area at 49.875 and at 39.9 sq ft per bay. */
  lemma ReferenceEmpiricalCounts()
    ensures CalculateBayCountEmpirical(45360.0, 33.25, 1.5) == EmpiricalCount(49.875, 909)
    ensures CalculateBayCountEmpirical(45360.0, 33.25, 1.2) == EmpiricalCount(39.9, 1136)
  {
    FloorIs(45360.0 / 49.875, 909);
    FloorIs(45360.0 / 39.9, 1136);
  }

  /** One 9.5 ft by 3.5 ft bay of seven 6 ft levels, in cubic feet and in CBM. */
  lemma ReferenceBayVolume()
    ensures var v := CalculateBayCBM(9.5, 3.5, 6.0, 7);
      && v.volumePerLevelCuft == 199.5 && v.volumePerBayCuft == 1396.5
      && 39.544 < v.volumePerBayCBM < 39.545
  {
  }

  /** A 19440 sq ft mezzanine with 7.2 ft clear height. */
  lemma ReferenceMezzanine()
    ensures var m := CalculateMezzanineCBM(19440.0, 7.2);
      m.mezzTotalCuft == 139968.0 && 3963.44 < m.mezzTotalCBM < 3963.45
  {
  }

  /** 40000 CBM on 108000 sq ft against a 7500 CBM baseline. */
  lemma ReferenceDerivedMetrics()
    ensures var d := CalculateDerivedMetrics(108000.0, 40000.0, 7500.0);
      d.sqftPerCBM == 2.7 && 3.0 * d.spaceImprovementFactor == 16.0 && d.extraCBM == 32500.0
  {
  }

  /** The bill of quantities for 468 bays of 7 levels. */
  lemma ReferenceBoQ()
    ensures var b := CalculateBoQ(468, 7, 9.5, 3.5);
      && b.uprightPairs == 493 && b.beamPairs == 3539 && b.deckingPanels == 3604
      && b.anchorBolts == 2071 && b.rowSpacers == 936 && b.columnProtectors == 148
  {
  }

  /** Two 12.92 sq ft pallets per level of a 33.25 sq ft bay; three with the override. */
  lemma ReferencePallets(p: PalletPositions, q: PalletPositions)
    requires IsPalletEstimate(p, 33.25, DefaultPalletFootprintSqft, 7, 468, None)
    requires IsPalletEstimate(q, 33.25, DefaultPalletFootprintSqft, 7, 468, Some(3))
    ensures p == PalletPositions(2, 6552)
    ensures q == PalletPositions(3, 9828)
  {
    if p.palletsPerLevel > 2 {
      MulLeq(3.0, p.palletsPerLevel as real, DefaultPalletFootprintSqft);
    }
  }

  /** `k` is the floor of `x`. */
  lemma FloorIs(x: real, k: int)
    requires k as real <= x < (k + 1) as real
    ensures x.Floor == k
  {
  }

  /**
   * The default configuration end to end: 468 bays, 6552 pallet positions,
   * no errors, and the capacities in CBM to two decimals.
   */
  method DefaultScenario() returns (r: Results)
    ensures r.bayCount == 468
    ensures r.pallets == PalletPositions(2, 6552)
    ensures r.validation.errors == [] && r.validation.warnings == []
    ensures 18506.79 < r.totalRackCBM < 18506.80
    ensures 3963.44 < r.mezzCBM < 3963.45
    ensures 29970.24 < r.totalCBM < 29970.25
  {
    var inputs := DefaultInputs();
    ReferenceModuleCount();
    r := CalculateWarehouseCapacity(inputs);
    ReferencePallets(r.pallets, PalletPositions(3, 9828));
    ReportsExactly(r.validation, inputs, r.totalRackHeight, r.bayCount, r.areas);
  }

  /** Narrow aisles: 814 bays and a warning about the aisle width. */
  method VnaScenario() returns (r: Results)
    ensures r.bayCount == 814
    ensures r.validation.warnings == [NarrowVnaAisle] && r.validation.errors == []
  {
    var inputs := VnaInputs();
    ReferenceVnaModuleCount();
    r := CalculateWarehouseCapacity(inputs);
    ReportsExactly(r.validation, inputs, r.totalRackHeight, r.bayCount, r.areas);
  }

  /** A 30 ft roof over 42 ft racks: one error, pointing at the levels. */
  method LowRoofScenario() returns (r: Results)
    ensures r.validation.errors == [RackTooTall(42.0, 30.0)]
    ensures r.validation.errors[0].Field() == "levels"
  {
    var inputs := LowRoofInputs();
    ReferenceModuleCount();
    r := CalculateWarehouseCapacity(inputs);
    ReportsExactly(r.validation, inputs, r.totalRackHeight, r.bayCount, r.areas);
  }

  /** Without a mezzanine there is no mezzanine area and no mezzanine capacity. */
  method NoMezzanineScenario() returns (r: Results)
    ensures r.areas.mezzArea == 0.0 && r.mezzCBM == 0.0
  {
    ReferenceModuleCount();
    r := CalculateWarehouseCapacity(NoMezzanineInputs());
  }

  /**
   * The 50 ft square warehouse holds one module in each of three rows: six
   * bays, which is not below the low-count threshold of five, so nothing is
   * reported.
   */
  method SmallScenario() returns (r: Results)
    ensures r.bayCount == 6
    ensures r.validation.warnings == [] && r.validation.errors == []
  {
    var inputs := SmallInputs();
    FloorIs(50.0 / 30.5, 1);
    FloorIs(50.0 / 13.5, 3);
    r := CalculateWarehouseCapacity(inputs);
    ReportsExactly(r.validation, inputs, r.totalRackHeight, r.bayCount, r.areas);
  }

  /** The default floor plan: 18 bays in each of 26 rows, all on the floor. */
  method DefaultFloorPlan() returns (plan: Layout.FloorPlan)
    ensures plan.baysPerRow == 18 && plan.numberOfRows == 26 && |plan.bays| == 468
    ensures plan.viewport.scale == 520.0 / 360.0
    ensures forall b :: b in plan.bays ==> Layout.OnFloor(b, 300.0, 360.0)
  {
    var inputs := DefaultInputs();
    ReferenceModuleCount();
    assert Layout.NonNegativeGeometry(Layout.GeometryOf(inputs));
    plan := Layout.GenerateLayout(inputs);
    assert Min(720.0 / 300.0, 520.0 / 360.0) == 520.0 / 360.0;
  }
}
