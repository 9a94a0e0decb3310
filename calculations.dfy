/**
 * The calculation engine of the warehouse capacity calculator: a fixed
 * pipeline that turns one warehouse and rack configuration into area
 * allocations, a bay count, storage volume in cubic metres (CBM), pallet
 * positions, comparison ratios, a bill of quantities (BoQ) for the racking
 * and the validation findings.
 *
 * Lengths are feet, areas square feet and volumes cubic feet or CBM, all as
 * exact `real`s; counts (levels, bays, pallets, BoQ quantities) are `int`s.
 * A warehouse dimension, area or clear height that the user left empty is 0,
 * which is how the page supplies it and how every truthiness test of the
 * engine treats it.
 */
module Calculations {
  import opened Wrappers
  import opened Arith

  /** Cubic feet in one cubic metre. */
  const CbmToCuft: real := 35.3147
  /** The footprint of a 1.2 m by 1.0 m pallet, in square feet. */
  const DefaultPalletFootprintSqft: real := 12.92

  /** The configuration the orchestrator reads. */
  datatype Inputs = Inputs(
    warehouseLength: real,
    warehouseWidth: real,
    warehouseArea: real,
    warehouseClearHeight: real,
    baselineCBM: real,
    bayLength: real,
    bayWidth: real,
    levelHeight: real,
    levels: int,
    percentRacking: real,
    mezzPercent: real,
    smallGap: real,
    aisleWidth: real,
    isVNA: bool,
    aisleOverheadMultiplier: real,
    palletFootprint: real,
    palletsPerLevelOverride: Option<int>,
    mezzClearHeight: real,
    useModuleMethod: bool)

  /** `count` whole pieces of size `piece` fit into `total`, and `count + 1` do not. */
  predicate FitsWhole(count: int, piece: real, total: real)
  {
    count as real * piece <= total < (count + 1) as real * piece
  }

  /** `q` is the least integer that is not below `x`, i.e. `Math.ceil(x)`. */
  predicate IsCeiling(q: int, x: real)
  {
    x <= q as real < x + 1.0
  }

  // ---------------------------------------------------------------------
  // Total area and its allocation

  /**
   * The floor area: length times width when both dimensions are positive,
   * the supplied area otherwise. The source's fallback to 0 only replaces an
   * undefined or NaN area, and an absent area is already 0 here.
   */
  function CalculateArea(inputs: Inputs): (totalArea: real)
    ensures inputs.warehouseLength > 0.0 && inputs.warehouseWidth > 0.0 ==>
              totalArea == inputs.warehouseLength * inputs.warehouseWidth
    ensures inputs.warehouseLength <= 0.0 || inputs.warehouseWidth <= 0.0 ==>
              totalArea == inputs.warehouseArea
  {
    if inputs.warehouseLength != 0.0 && inputs.warehouseWidth != 0.0
       && inputs.warehouseLength > 0.0 && inputs.warehouseWidth > 0.0
    then inputs.warehouseLength * inputs.warehouseWidth
    else inputs.warehouseArea
  }

  /** Exact dimensions override whatever area was typed in. */
  lemma DimensionsOverrideArea(inputs: Inputs, otherArea: real)
    requires inputs.warehouseLength > 0.0 && inputs.warehouseWidth > 0.0
    ensures CalculateArea(inputs.(warehouseArea := otherArea)) == CalculateArea(inputs)
  {
  }

  /** Without two positive dimensions, the dimensions play no part. */
  lemma AreaWithoutDimensions(inputs: Inputs, length: real, width: real)
    requires inputs.warehouseLength <= 0.0 || inputs.warehouseWidth <= 0.0
    requires length <= 0.0 || width <= 0.0
    ensures CalculateArea(inputs.(warehouseLength := length, warehouseWidth := width))
         == CalculateArea(inputs)
  {
  }

  datatype Areas = Areas(
    totalArea: real,
    rackingArea: real,
    mezzArea: real,
    hdArea: real,
    stagingArea: real)

  /**
   * Percentage split: `percentRacking` percent of the floor is racking, and
   * `mezzPercent` percent of the racking is mezzanine; the rest of the
   * racking is high-density (HD) racks and the rest of the floor is staging.
   */
  function CalculateAreas(totalArea: real, percentRacking: real, mezzPercent: real): (a: Areas)
    ensures a.totalArea == totalArea
    ensures a.rackingArea * 100.0 == totalArea * percentRacking
    ensures a.mezzArea * 100.0 == a.rackingArea * mezzPercent
    ensures a.hdArea + a.mezzArea == a.rackingArea
    ensures a.rackingArea + a.stagingArea == a.totalArea
  {
    var rackingArea := totalArea * (percentRacking / 100.0);
    var mezzArea := rackingArea * (mezzPercent / 100.0);
    Areas(totalArea, rackingArea, mezzArea, rackingArea - mezzArea, totalArea - rackingArea)
  }

  /** With percentages in [0, 100] the split nests: 0 <= mezz <= racking <= total. */
  lemma AreaSplitBounds(totalArea: real, percentRacking: real, mezzPercent: real)
    requires totalArea >= 0.0
    requires 0.0 <= percentRacking <= 100.0 && 0.0 <= mezzPercent <= 100.0
    ensures var a := CalculateAreas(totalArea, percentRacking, mezzPercent);
      && 0.0 <= a.mezzArea <= a.rackingArea <= a.totalArea
      && 0.0 <= a.hdArea && 0.0 <= a.stagingArea
      && a.hdArea + a.mezzArea + a.stagingArea == a.totalArea
  {
    var a := CalculateAreas(totalArea, percentRacking, mezzPercent);
    MulNonNegativeReal(totalArea, percentRacking);
    MulLeq(percentRacking, 100.0, totalArea);
    MulLeq(mezzPercent, 100.0, a.rackingArea);
  }

  /** Staging is not clamped: over-allocating racking makes it negative. */
  lemma OverAllocationMakesStagingNegative(totalArea: real, percentRacking: real, mezzPercent: real)
    requires totalArea > 0.0 && percentRacking > 100.0
    ensures var a := CalculateAreas(totalArea, percentRacking, mezzPercent);
      a.stagingArea < 0.0 && a.rackingArea > a.totalArea
  {
    MulLt(100.0, percentRacking, totalArea);
  }

  // ---------------------------------------------------------------------
  // Bay geometry

  datatype BayDimensions = BayDimensions(
    bayFootprint: real,
    totalRackHeight: real,
    volumePerLevelCuft: real)

  /** One bay: its footprint, its stacked height and the volume of one level. */
  function CalculateBayDimensions(bayLength: real, bayWidth: real, levelHeight: real, levels: int): (d: BayDimensions)
    ensures d.bayFootprint == bayLength * bayWidth
    ensures d.totalRackHeight == levelHeight * levels as real
    ensures d.volumePerLevelCuft == d.bayFootprint * levelHeight
  {
    BayDimensions(bayLength * bayWidth, levelHeight * levels as real, bayLength * bayWidth * levelHeight)
  }

  // ---------------------------------------------------------------------
  // Bay count, module method

  /** A module is two bays back to back across the small gap, then one main aisle. */
  function CalculateModule(bayLength: real, smallGap: real, aisleWidth: real): (moduleLength: real)
    ensures moduleLength == 2.0 * bayLength + smallGap + aisleWidth
    ensures smallGap >= 0.0 && aisleWidth >= 0.0 ==> moduleLength >= 2.0 * bayLength
  {
    2.0 * bayLength + smallGap + aisleWidth
  }

  /** Row pitch: a bay's depth plus the cross aisle, which defaults to the main aisle. */
  function RowPitch(bayWidth: real, aisleWidth: real, crossAisleWidth: Option<real>): (pitch: real)
    ensures crossAisleWidth.None? ==> pitch == bayWidth + aisleWidth
    ensures crossAisleWidth.Some? ==> pitch == bayWidth + crossAisleWidth.value
  {
    bayWidth + (if crossAisleWidth.Some? then crossAisleWidth.value else aisleWidth)
  }

  datatype ModuleLayout = ModuleLayout(
    baysPerRow: int,
    numberOfRows: int,
    totalBays: int,
    moduleLength: real,
    rowPitch: real)

  /**
   * The geometric bay count: whole modules along the length, two bays each,
   * times whole rows across the width. No result when a dimension is 0
   * (absent). Partial modules and rows are never counted.
   */
  function CalculateBayCountModule(
    warehouseLength: real, warehouseWidth: real, bayLength: real, bayWidth: real,
    smallGap: real, aisleWidth: real, crossAisleWidth: Option<real>): (r: Option<ModuleLayout>)
    requires warehouseLength != 0.0 && warehouseWidth != 0.0 ==>
               CalculateModule(bayLength, smallGap, aisleWidth) != 0.0
               && RowPitch(bayWidth, aisleWidth, crossAisleWidth) != 0.0
    ensures r.None? <==> warehouseLength == 0.0 || warehouseWidth == 0.0
    ensures r.Some? ==>
      && r.value.moduleLength == 2.0 * bayLength + smallGap + aisleWidth
      && r.value.rowPitch == bayWidth + crossAisleWidth.GetOr(aisleWidth)
      && r.value.baysPerRow % 2 == 0
      && r.value.totalBays == r.value.baysPerRow * r.value.numberOfRows
    ensures r.Some? && r.value.moduleLength > 0.0 ==>
      FitsWhole(r.value.baysPerRow / 2, r.value.moduleLength, warehouseLength)
    ensures r.Some? && r.value.rowPitch > 0.0 ==>
      FitsWhole(r.value.numberOfRows, r.value.rowPitch, warehouseWidth)
  {
    if warehouseLength == 0.0 || warehouseWidth == 0.0 then None
    else
      var moduleLength := CalculateModule(bayLength, smallGap, aisleWidth);
      var modules := (warehouseLength / moduleLength).Floor;
      var baysPerRow := modules * 2;
      var effectiveCrossAisle := if crossAisleWidth.Some? then crossAisleWidth.value else aisleWidth;
      var rowPitch := bayWidth + effectiveCrossAisle;
      var numberOfRows := (warehouseWidth / rowPitch).Floor;
      assert moduleLength > 0.0 ==> FitsWhole(modules, moduleLength, warehouseLength) by {
        if moduleLength > 0.0 { FloorDivBounds(warehouseLength, moduleLength); }
      }
      assert rowPitch > 0.0 ==> FitsWhole(numberOfRows, rowPitch, warehouseWidth) by {
        if rowPitch > 0.0 { FloorDivBounds(warehouseWidth, rowPitch); }
      }
      Some(ModuleLayout(baysPerRow, numberOfRows, baysPerRow * numberOfRows, moduleLength, rowPitch))
  }

  /** Bays and rows of the module method are never negative on a real floor. */
  lemma ModuleCountNonNegative(
    warehouseLength: real, warehouseWidth: real, bayLength: real, bayWidth: real,
    smallGap: real, aisleWidth: real, crossAisleWidth: Option<real>)
    requires warehouseLength > 0.0 && warehouseWidth > 0.0
    requires CalculateModule(bayLength, smallGap, aisleWidth) > 0.0
    requires RowPitch(bayWidth, aisleWidth, crossAisleWidth) > 0.0
    ensures var m := CalculateBayCountModule(warehouseLength, warehouseWidth, bayLength, bayWidth,
                                             smallGap, aisleWidth, crossAisleWidth).value;
      m.baysPerRow >= 0 && m.numberOfRows >= 0 && m.totalBays >= 0
  {
    var m := CalculateBayCountModule(warehouseLength, warehouseWidth, bayLength, bayWidth,
                                     smallGap, aisleWidth, crossAisleWidth).value;
    FloorDivNonNegative(warehouseLength, m.moduleLength);
    FloorDivNonNegative(warehouseWidth, m.rowPitch);
    MulNonNegative(m.baysPerRow, m.numberOfRows);
  }

  /**
   * Narrower aisles never lose bays: with the main aisle no wider and the
   * row pitch no larger, the module method counts at least as many bays.
   */
  lemma ModuleCountAntitoneInAisles(
    warehouseLength: real, warehouseWidth: real, bayLength: real, bayWidth: real, smallGap: real,
    narrowAisle: real, wideAisle: real, narrowCross: Option<real>, wideCross: Option<real>)
    requires warehouseLength > 0.0 && warehouseWidth > 0.0
    requires narrowAisle <= wideAisle
    requires CalculateModule(bayLength, smallGap, narrowAisle) > 0.0
    requires 0.0 < RowPitch(bayWidth, narrowAisle, narrowCross) <= RowPitch(bayWidth, wideAisle, wideCross)
    ensures
      CalculateBayCountModule(warehouseLength, warehouseWidth, bayLength, bayWidth,
                              smallGap, narrowAisle, narrowCross).value.totalBays
      >= CalculateBayCountModule(warehouseLength, warehouseWidth, bayLength, bayWidth,
                                 smallGap, wideAisle, wideCross).value.totalBays
  {
    var n := CalculateBayCountModule(warehouseLength, warehouseWidth, bayLength, bayWidth,
                                     smallGap, narrowAisle, narrowCross).value;
    var w := CalculateBayCountModule(warehouseLength, warehouseWidth, bayLength, bayWidth,
                                     smallGap, wideAisle, wideCross).value;
    FloorDivAntitone(warehouseLength, n.moduleLength, w.moduleLength);
    FloorDivAntitone(warehouseWidth, n.rowPitch, w.rowPitch);
    ModuleCountNonNegative(warehouseLength, warehouseWidth, bayLength, bayWidth,
                           smallGap, wideAisle, wideCross);
    MulMonotone(w.baysPerRow, n.baysPerRow, w.numberOfRows, n.numberOfRows);
  }

  // ---------------------------------------------------------------------
  // Bay count, empirical method

  datatype EmpiricalCount = EmpiricalCount(effectiveAreaPerBay: real, bayCount: int)

  /**
   * The area-based estimate: each bay claims its footprint inflated by the
   * aisle overhead multiplier, and only whole bays are counted.
   */
  function CalculateBayCountEmpirical(hdArea: real, bayFootprint: real, aisleOverheadMultiplier: real): (r: EmpiricalCount)
    requires bayFootprint * aisleOverheadMultiplier != 0.0
    ensures r.effectiveAreaPerBay == bayFootprint * aisleOverheadMultiplier
    ensures r.effectiveAreaPerBay > 0.0 ==> FitsWhole(r.bayCount, r.effectiveAreaPerBay, hdArea)
  {
    var effectiveAreaPerBay := bayFootprint * aisleOverheadMultiplier;
    var bayCount := (hdArea / effectiveAreaPerBay).Floor;
    assert effectiveAreaPerBay > 0.0 ==> FitsWhole(bayCount, effectiveAreaPerBay, hdArea) by {
      if effectiveAreaPerBay > 0.0 { FloorDivBounds(hdArea, effectiveAreaPerBay); }
    }
    EmpiricalCount(effectiveAreaPerBay, bayCount)
  }

  /** A smaller overhead multiplier never lowers the empirical bay count. */
  lemma EmpiricalCountAntitoneInOverhead(hdArea: real, bayFootprint: real, lowMultiplier: real, highMultiplier: real)
    requires hdArea >= 0.0 && bayFootprint > 0.0
    requires 0.0 < lowMultiplier <= highMultiplier
    ensures CalculateBayCountEmpirical(hdArea, bayFootprint, lowMultiplier).bayCount
         >= CalculateBayCountEmpirical(hdArea, bayFootprint, highMultiplier).bayCount
         >= 0
  {
    MulLeq(lowMultiplier, highMultiplier, bayFootprint);
    MulPositive(bayFootprint, lowMultiplier);
    FloorDivAntitone(hdArea, bayFootprint * lowMultiplier, bayFootprint * highMultiplier);
    FloorDivNonNegative(hdArea, bayFootprint * highMultiplier);
  }

  // ---------------------------------------------------------------------
  // Volume

  datatype BayVolume = BayVolume(
    volumePerLevelCuft: real,
    volumePerBayCuft: real,
    volumePerBayCBM: real)

  /** The volume of one bay over all its levels, in cubic feet and in CBM. */
  function CalculateBayCBM(bayLength: real, bayWidth: real, levelHeight: real, levels: int): (v: BayVolume)
    ensures v.volumePerLevelCuft == CalculateBayDimensions(bayLength, bayWidth, levelHeight, levels).volumePerLevelCuft
    ensures v.volumePerBayCuft == v.volumePerLevelCuft * levels as real
    ensures v.volumePerBayCBM * CbmToCuft == v.volumePerBayCuft
  {
    var volumePerLevelCuft := bayLength * bayWidth * levelHeight;
    var volumePerBayCuft := volumePerLevelCuft * levels as real;
    BayVolume(volumePerLevelCuft, volumePerBayCuft, volumePerBayCuft / CbmToCuft)
  }

  /** The rack capacity: every bay holds one bay volume. */
  function CalculateRackCBM(bayCount: int, volumePerBayCBM: real): (cbm: real)
    ensures bayCount >= 0 && volumePerBayCBM >= 0.0 ==> cbm >= 0.0
  {
    assert bayCount >= 0 && volumePerBayCBM >= 0.0 ==> bayCount as real * volumePerBayCBM >= 0.0 by {
      if bayCount >= 0 && volumePerBayCBM >= 0.0 { MulNonNegativeReal(bayCount as real, volumePerBayCBM); }
    }
    bayCount as real * volumePerBayCBM
  }

  /**
   * In cubic feet, the rack capacity is the bay count times the bay's
   * length, width and height of all its levels.
   */
  lemma RackVolumeInCubicFeet(bayCount: int, bayLength: real, bayWidth: real, levelHeight: real, levels: int)
    ensures CalculateRackCBM(bayCount, CalculateBayCBM(bayLength, bayWidth, levelHeight, levels).volumePerBayCBM) * CbmToCuft
         == bayCount as real * (bayLength * bayWidth * (levelHeight * levels as real))
  {
    var v := CalculateBayCBM(bayLength, bayWidth, levelHeight, levels);
    var n := bayCount as real;
    calc {
      CalculateRackCBM(bayCount, v.volumePerBayCBM) * CbmToCuft;
      (n * v.volumePerBayCBM) * CbmToCuft;
      n * (v.volumePerBayCBM * CbmToCuft);
      n * v.volumePerBayCuft;
      n * ((bayLength * bayWidth * levelHeight) * levels as real);
      { MulAssoc(bayLength * bayWidth, levelHeight, levels as real); }
      n * (bayLength * bayWidth * (levelHeight * levels as real));
    }
  }

  datatype MezzanineVolume = MezzanineVolume(mezzTotalCuft: real, mezzTotalCBM: real)

  /**
   * The mezzanine capacity: its area times its clear height, converted to
   * CBM. There is no multiplier for stacked mezzanine decks.
   */
  function CalculateMezzanineCBM(mezzArea: real, mezzClearHeight: real): (m: MezzanineVolume)
    ensures m.mezzTotalCuft == mezzArea * mezzClearHeight
    ensures m.mezzTotalCBM * CbmToCuft == m.mezzTotalCuft
    ensures mezzArea == 0.0 ==> m.mezzTotalCBM == 0.0
  {
    var mezzTotalCuft := mezzArea * mezzClearHeight;
    MezzanineVolume(mezzTotalCuft, mezzTotalCuft / CbmToCuft)
  }

  // ---------------------------------------------------------------------
  // Pallet positions

  datatype PalletPositions = PalletPositions(palletsPerLevel: int, totalPalletPositions: int)

  /** The override counts only when it is present and positive. */
  predicate OverrideApplies(palletsPerLevelOverride: Option<int>)
  {
    palletsPerLevelOverride.Some? && palletsPerLevelOverride.value > 0
  }

  /**
   * What the pallet estimate promises: a positive override is used as
   * given; otherwise each level holds as many whole pallets as fit in the
   * bay's footprint, but never fewer than two; and every level of every bay
   * holds that many.
   */
  predicate IsPalletEstimate(
    p: PalletPositions, bayFootprint: real, palletFootprint: real, levels: int, bayCount: int,
    palletsPerLevelOverride: Option<int>)
  {
    && (OverrideApplies(palletsPerLevelOverride) ==> p.palletsPerLevel == palletsPerLevelOverride.value)
    && (!OverrideApplies(palletsPerLevelOverride) ==> p.palletsPerLevel >= 2)
    && (!OverrideApplies(palletsPerLevelOverride) && palletFootprint > 0.0 ==>
          && bayFootprint < (p.palletsPerLevel + 1) as real * palletFootprint
          && (p.palletsPerLevel == 2 || p.palletsPerLevel as real * palletFootprint <= bayFootprint))
    && p.totalPalletPositions == bayCount * p.palletsPerLevel * levels
  }

  method CalculatePalletPositions(
    bayFootprint: real, palletFootprint: real, levels: int, bayCount: int,
    palletsPerLevelOverride: Option<int>) returns (p: PalletPositions)
    requires !OverrideApplies(palletsPerLevelOverride) ==> palletFootprint != 0.0
    ensures IsPalletEstimate(p, bayFootprint, palletFootprint, levels, bayCount, palletsPerLevelOverride)
  {
    var palletsPerLevel: int;
    if palletsPerLevelOverride.Some? && palletsPerLevelOverride.value > 0 {
      palletsPerLevel := palletsPerLevelOverride.value;
    } else {
      palletsPerLevel := Max((bayFootprint / palletFootprint).Floor, 2);
      if palletFootprint > 0.0 {
        FloorDivBounds(bayFootprint, palletFootprint);
        if palletsPerLevel == 2 {
          MulLeq(((bayFootprint / palletFootprint).Floor + 1) as real, 3.0, palletFootprint);
        }
      }
    }
    var totalPalletPositions := bayCount * palletsPerLevel * levels;
    p := PalletPositions(palletsPerLevel, totalPalletPositions);
  }

  /** Two results that both meet the pallet estimate's promise are the same. */
  lemma PalletEstimateIsUnique(
    p: PalletPositions, q: PalletPositions, bayFootprint: real, palletFootprint: real,
    levels: int, bayCount: int, palletsPerLevelOverride: Option<int>)
    requires palletFootprint > 0.0
    requires IsPalletEstimate(p, bayFootprint, palletFootprint, levels, bayCount, palletsPerLevelOverride)
    requires IsPalletEstimate(q, bayFootprint, palletFootprint, levels, bayCount, palletsPerLevelOverride)
    ensures p == q
  {
    if !OverrideApplies(palletsPerLevelOverride) {
      if p.palletsPerLevel < q.palletsPerLevel {
        NoRoomForMore(p.palletsPerLevel, q.palletsPerLevel, palletFootprint, bayFootprint);
      } else if q.palletsPerLevel < p.palletsPerLevel {
        NoRoomForMore(q.palletsPerLevel, p.palletsPerLevel, palletFootprint, bayFootprint);
      }
    }
  }

  // ---------------------------------------------------------------------
  // Derived metrics

  datatype DerivedMetrics = DerivedMetrics(
    sqftPerCBM: real,
    spaceImprovementFactor: real,
    extraCBM: real)

  /** Floor area per CBM, capacity relative to the baseline, and capacity gained. */
  function CalculateDerivedMetrics(totalArea: real, totalCBM: real, baselineCBM: real): (m: DerivedMetrics)
    requires totalCBM != 0.0 && baselineCBM != 0.0
    ensures m.sqftPerCBM * totalCBM == totalArea
    ensures m.spaceImprovementFactor * baselineCBM == totalCBM
    ensures m.extraCBM + baselineCBM == totalCBM
    ensures baselineCBM > 0.0 ==> (m.spaceImprovementFactor > 1.0 <==> m.extraCBM > 0.0)
  {
    var factor := totalCBM / baselineCBM;
    assert baselineCBM > 0.0 ==> (factor > 1.0 <==> totalCBM > baselineCBM) by {
      if baselineCBM > 0.0 {
        if factor > 1.0 { MulLt(1.0, factor, baselineCBM); }
        if totalCBM > baselineCBM && factor <= 1.0 { MulLeq(factor, 1.0, baselineCBM); }
      }
    }
    DerivedMetrics(totalArea / totalCBM, factor, totalCBM - baselineCBM)
  }

  // ---------------------------------------------------------------------
  // Bill of quantities

  /** Safety margins of the bill of quantities. */
  const UprightSafety: real := 1.05
  const BeamSafety: real := 1.08
  const DeckingSafety: real := 1.10
  const AnchorSafety: real := 1.05
  /** Share of upright pairs that get a column protector. */
  const ColumnProtectorShare: real := 0.3

  datatype BoQ = BoQ(
    uprightPairs: int,
    beamPairs: int,
    deckingPanels: int,
    anchorBolts: int,
    rowSpacers: int,
    columnProtectors: int)

  /**
   * Material quantities: each raw quantity times its safety margin, rounded
   * up. Anchor bolts and column protectors are derived from the already
   * rounded upright count; row spacers have no margin.
   */
  function CalculateBoQ(bayCount: int, levels: int, bayLength: real, bayWidth: real): (b: BoQ)
    ensures IsCeiling(b.uprightPairs, (bayCount + 1) as real * UprightSafety)
    ensures IsCeiling(b.beamPairs, (bayCount * levels) as real * BeamSafety)
    ensures IsCeiling(b.deckingPanels, (bayCount * levels) as real * DeckingSafety)
    ensures IsCeiling(b.anchorBolts, (b.uprightPairs * 4) as real * AnchorSafety)
    ensures b.rowSpacers == 2 * bayCount
    ensures IsCeiling(b.columnProtectors, b.uprightPairs as real * ColumnProtectorShare)
  {
    var uprightPairs := Ceil((bayCount + 1) as real * UprightSafety);
    var beamPairs := Ceil((bayCount * levels) as real * BeamSafety);
    var deckingPanels := Ceil((bayCount * levels) as real * DeckingSafety);
    var anchorBolts := Ceil((uprightPairs * 4) as real * AnchorSafety);
    var rowSpacers := Ceil((bayCount * 2) as real);
    var columnProtectors := Ceil(uprightPairs as real * ColumnProtectorShare);
    CeilOfInt(bayCount * 2);
    BoQ(uprightPairs, beamPairs, deckingPanels, anchorBolts, rowSpacers, columnProtectors)
  }

  /**
   * Margins only ever add material: for a non-negative bay count and number
   * of levels every quantity covers its raw requirement.
   */
  lemma BoQCoversRawQuantities(bayCount: int, levels: int, bayLength: real, bayWidth: real)
    requires bayCount >= 0 && levels >= 0
    ensures var b := CalculateBoQ(bayCount, levels, bayLength, bayWidth);
      && b.uprightPairs >= bayCount + 1
      && b.beamPairs >= bayCount * levels
      && b.deckingPanels >= bayCount * levels
      && b.anchorBolts >= 4 * b.uprightPairs
      && b.rowSpacers == 2 * bayCount
      && 0 <= b.columnProtectors <= b.uprightPairs
  {
    var b := CalculateBoQ(bayCount, levels, bayLength, bayWidth);
    MulNonNegative(bayCount, levels);
    InflatedCeilingCovers(bayCount + 1, UprightSafety, b.uprightPairs);
    InflatedCeilingCovers(bayCount * levels, BeamSafety, b.beamPairs);
    InflatedCeilingCovers(bayCount * levels, DeckingSafety, b.deckingPanels);
    InflatedCeilingCovers(b.uprightPairs * 4, AnchorSafety, b.anchorBolts);
    ShareCeilingWithin(b.uprightPairs, ColumnProtectorShare, b.columnProtectors);
  }

  /** The ceiling of a non-negative count times a margin of at least one covers the count. */
  lemma InflatedCeilingCovers(raw: int, margin: real, q: int)
    requires raw >= 0 && margin >= 1.0
    requires IsCeiling(q, raw as real * margin)
    ensures q >= raw
  {
    MulLeq(1.0, margin, raw as real);
  }

  /** The ceiling of a fraction in [0, 1] of a non-negative count lies between 0 and the count. */
  lemma ShareCeilingWithin(count: int, share: real, q: int)
    requires count >= 0 && 0.0 <= share <= 1.0
    requires IsCeiling(q, count as real * share)
    ensures 0 <= q <= count
  {
    MulLeq(share, 1.0, count as real);
    MulNonNegativeReal(count as real, share);
  }

  // ---------------------------------------------------------------------
  // Validation

  /**
   * One validation finding. Each carries the values its message quotes;
   * the message text itself is not modelled.
   */
  datatype Finding =
    | RackTooTall(totalRackHeight: real, clearHeight: real)
    | LowBayCount(bayCount: int)
    | NarrowVnaAisle
    | CrampedMezzanine
    | AreaOverflow
  {
    /** The input control the finding points at. */
    function Field(): string
    {
      match this
      case RackTooTall(_, _) => "levels"
      case LowBayCount(_) => "bayCount"
      case NarrowVnaAisle => "aisleWidth"
      case CrampedMezzanine => "mezzClearHeight"
      case AreaOverflow => "percentRacking"
    }

    /** Errors block; the other findings are warnings. */
    predicate IsError()
    {
      RackTooTall? || AreaOverflow?
    }

    /** The position of the finding's rule in the order the rules are evaluated. */
    function Rank(): nat
    {
      match this
      case RackTooTall(_, _) => 0
      case LowBayCount(_) => 1
      case NarrowVnaAisle => 2
      case CrampedMezzanine => 3
      case AreaOverflow => 4
    }
  }

  datatype Validation = Validation(warnings: seq<Finding>, errors: seq<Finding>)

  predicate RackTooTallRule(inputs: Inputs, totalRackHeight: real)
  {
    inputs.warehouseClearHeight != 0.0 && totalRackHeight > inputs.warehouseClearHeight
  }

  predicate LowBayCountRule(bayCount: int)
  {
    bayCount < 5
  }

  predicate NarrowVnaAisleRule(inputs: Inputs)
  {
    inputs.isVNA && inputs.aisleWidth < 7.0
  }

  predicate CrampedMezzanineRule(inputs: Inputs)
  {
    inputs.mezzClearHeight != 0.0 && inputs.mezzClearHeight < 6.0
  }

  predicate AreaOverflowRule(areas: Areas)
  {
    areas.rackingArea > areas.totalArea
  }

  /** Findings listed in the order their rules are evaluated, none twice. */
  predicate InRuleOrder(s: seq<Finding>)
  {
    forall i, j :: 0 <= i < j < |s| ==> s[i].Rank() < s[j].Rank()
  }

  /**
   * What validation promises of the errors: an error is listed exactly when
   * its rule fires, and the list keeps the order in which the rules are
   * evaluated.
   */
  predicate ErrorsReported(errors: seq<Finding>, inputs: Inputs, totalRackHeight: real, areas: Areas)
  {
    && InRuleOrder(errors)
    && (forall f :: f in errors ==>
          f == RackTooTall(totalRackHeight, inputs.warehouseClearHeight) || f == AreaOverflow)
    && (RackTooTall(totalRackHeight, inputs.warehouseClearHeight) in errors <==> RackTooTallRule(inputs, totalRackHeight))
    && (AreaOverflow in errors <==> AreaOverflowRule(areas))
  }

  /** The same promise for the warnings. */
  predicate WarningsReported(warnings: seq<Finding>, inputs: Inputs, bayCount: int)
  {
    && InRuleOrder(warnings)
    && (forall f :: f in warnings ==>
          f == LowBayCount(bayCount) || f == NarrowVnaAisle || f == CrampedMezzanine)
    && (LowBayCount(bayCount) in warnings <==> LowBayCountRule(bayCount))
    && (NarrowVnaAisle in warnings <==> NarrowVnaAisleRule(inputs))
    && (CrampedMezzanine in warnings <==> CrampedMezzanineRule(inputs))
  }

  /**
   * What validation promises: every rule is evaluated on its own, and each
   * finding is listed, as an error or as a warning, exactly when its rule
   * fires, in rule order.
   */
  predicate Reports(v: Validation, inputs: Inputs, totalRackHeight: real, bayCount: int, areas: Areas)
  {
    ErrorsReported(v.errors, inputs, totalRackHeight, areas)
    && WarningsReported(v.warnings, inputs, bayCount)
  }

  /** The errors of the rules that fire, in rule order. */
  function FiringErrors(inputs: Inputs, totalRackHeight: real, areas: Areas): seq<Finding>
  {
    (if RackTooTallRule(inputs, totalRackHeight)
     then [RackTooTall(totalRackHeight, inputs.warehouseClearHeight)] else [])
    + (if AreaOverflowRule(areas) then [AreaOverflow] else [])
  }

  /** The warnings of the rules that fire, in rule order. */
  function FiringWarnings(inputs: Inputs, bayCount: int): seq<Finding>
  {
    (if LowBayCountRule(bayCount) then [LowBayCount(bayCount)] else [])
    + (if NarrowVnaAisleRule(inputs) then [NarrowVnaAisle] else [])
    + (if CrampedMezzanineRule(inputs) then [CrampedMezzanine] else [])
  }

  lemma FiringErrorsReported(inputs: Inputs, totalRackHeight: real, areas: Areas)
    ensures ErrorsReported(FiringErrors(inputs, totalRackHeight, areas), inputs, totalRackHeight, areas)
  {
  }

  lemma FiringWarningsReported(inputs: Inputs, bayCount: int)
    ensures WarningsReported(FiringWarnings(inputs, bayCount), inputs, bayCount)
  {
  }

  /** The rules, each appending its finding when it fires. */
  method ValidateInputs(inputs: Inputs, totalRackHeight: real, bayCount: int, areas: Areas) returns (v: Validation)
    ensures Reports(v, inputs, totalRackHeight, bayCount, areas)
  {
    var warnings: seq<Finding> := [];
    var errors: seq<Finding> := [];

    if inputs.warehouseClearHeight != 0.0 && totalRackHeight > inputs.warehouseClearHeight {
      errors := errors + [RackTooTall(totalRackHeight, inputs.warehouseClearHeight)];
    }

    if bayCount < 5 {
      warnings := warnings + [LowBayCount(bayCount)];
    }

    if inputs.isVNA && inputs.aisleWidth < 7.0 {
      warnings := warnings + [NarrowVnaAisle];
    }

    if inputs.mezzClearHeight != 0.0 && inputs.mezzClearHeight < 6.0 {
      warnings := warnings + [CrampedMezzanine];
    }

    if areas.rackingArea > areas.totalArea {
      errors := errors + [AreaOverflow];
    }

    v := Validation(warnings, errors);
    assert v.errors == FiringErrors(inputs, totalRackHeight, areas);
    assert v.warnings == FiringWarnings(inputs, bayCount);
    FiringErrorsReported(inputs, totalRackHeight, areas);
    FiringWarningsReported(inputs, bayCount);
  }

  /** Two lists in rule order with the same findings are the same list. */
  lemma {:induction false} InRuleOrderUnique(a: seq<Finding>, b: seq<Finding>)
    requires InRuleOrder(a) && InRuleOrder(b)
    requires forall f :: f in a <==> f in b
    ensures a == b
  {
    if a != [] {
      HeadIsMember(a);
      HeadIsMember(b);
      HeadIsLeast(a);
      HeadIsLeast(b);
      assert a[0] == b[0];
      TailMembers(a);
      TailMembers(b);
      InRuleOrderUnique(a[1..], b[1..]);
      assert a == [a[0]] + a[1..] && b == [b[0]] + b[1..];
    } else if b != [] {
      HeadIsMember(b);
      assert false;
    }
  }

  lemma HeadIsMember(s: seq<Finding>)
    requires s != []
    ensures s[0] in s
  {
  }

  /** The head of a list in rule order has the lowest rank of all its findings. */
  lemma HeadIsLeast(s: seq<Finding>)
    requires s != [] && InRuleOrder(s)
    ensures forall f :: f in s ==> f == s[0] || s[0].Rank() < f.Rank()
  {
    forall f | f in s
      ensures f == s[0] || s[0].Rank() < f.Rank()
    {
      var k :| 0 <= k < |s| && s[k] == f;
      if k > 0 {
        assert s[0].Rank() < s[k].Rank();
      }
    }
  }

  /** The tail of a list in rule order is in rule order and holds all but the head. */
  lemma TailMembers(s: seq<Finding>)
    requires s != [] && InRuleOrder(s)
    ensures InRuleOrder(s[1..])
    ensures forall f :: f in s[1..] <==> f in s && f != s[0]
  {
    forall f | f in s[1..]
      ensures f in s && f != s[0]
    {
      var k :| 0 <= k < |s| - 1 && s[1..][k] == f;
      assert s[0].Rank() < s[k + 1].Rank();
    }
    forall f | f in s && f != s[0]
      ensures f in s[1..]
    {
      var k :| 0 <= k < |s| && s[k] == f;
      assert s[1..][k - 1] == f;
    }
  }

  /**
   * The validation promise leaves no freedom: the errors are the rack-height
   * error then the area-overflow error, each present exactly when its rule
   * fires, and likewise for the three warnings.
   */
  lemma ReportsExactly(v: Validation, inputs: Inputs, totalRackHeight: real, bayCount: int, areas: Areas)
    requires Reports(v, inputs, totalRackHeight, bayCount, areas)
    ensures v.errors == FiringErrors(inputs, totalRackHeight, areas)
    ensures v.warnings == FiringWarnings(inputs, bayCount)
  {
    FiringErrorsReported(inputs, totalRackHeight, areas);
    FiringWarningsReported(inputs, bayCount);
    InRuleOrderUnique(v.errors, FiringErrors(inputs, totalRackHeight, areas));
    InRuleOrderUnique(v.warnings, FiringWarnings(inputs, bayCount));
  }

  /** Validation is a function of its inputs. */
  lemma ReportsIsDeterministic(v: Validation, w: Validation, inputs: Inputs, totalRackHeight: real, bayCount: int, areas: Areas)
    requires Reports(v, inputs, totalRackHeight, bayCount, areas)
    requires Reports(w, inputs, totalRackHeight, bayCount, areas)
    ensures v == w
  {
    ReportsExactly(v, inputs, totalRackHeight, bayCount, areas);
    ReportsExactly(w, inputs, totalRackHeight, bayCount, areas);
  }

  // ---------------------------------------------------------------------
  // Orchestrator

  /** Which strategy produced the bay count, with its details. */
  datatype BayCountDetails =
    | ByModule(layout: ModuleLayout)
    | ByEmpirical(estimate: EmpiricalCount)

  datatype Results = Results(
    areas: Areas,
    bayDimensions: BayDimensions,
    bayCount: int,
    bayCountDetails: BayCountDetails,
    totalRackHeight: real,
    totalRackCBM: real,
    mezzCBM: real,
    totalCBM: real,
    baselineCBM: real,
    derived: DerivedMetrics,
    pallets: PalletPositions,
    volumePerBayCBM: real,
    boq: BoQ,
    validation: Validation)

  /** The module method runs when it is requested and both dimensions are non-zero. */
  predicate UsesModuleMethod(inputs: Inputs)
  {
    inputs.useModuleMethod && inputs.warehouseLength != 0.0 && inputs.warehouseWidth != 0.0
  }

  /** The allocated areas of a configuration. */
  function AreasOf(inputs: Inputs): Areas
  {
    CalculateAreas(CalculateArea(inputs), inputs.percentRacking, inputs.mezzPercent)
  }

  /** The bay geometry of a configuration. */
  function BayDimensionsOf(inputs: Inputs): BayDimensions
  {
    CalculateBayDimensions(inputs.bayLength, inputs.bayWidth, inputs.levelHeight, inputs.levels)
  }

  /** The divisors of the bay-count strategy that runs and of the pallet estimate are non-zero. */
  predicate CountableConfiguration(inputs: Inputs)
  {
    && (UsesModuleMethod(inputs) ==>
          CalculateModule(inputs.bayLength, inputs.smallGap, inputs.aisleWidth) != 0.0
          && RowPitch(inputs.bayWidth, inputs.aisleWidth, None) != 0.0)
    && (!UsesModuleMethod(inputs) ==>
          BayDimensionsOf(inputs).bayFootprint * inputs.aisleOverheadMultiplier != 0.0)
    && (!OverrideApplies(inputs.palletsPerLevelOverride) ==> inputs.palletFootprint != 0.0)
  }

  /** The bay count of the strategy the orchestrator selects. */
  function SelectedBayCount(inputs: Inputs): int
    requires CountableConfiguration(inputs)
  {
    if UsesModuleMethod(inputs) then
      CalculateBayCountModule(inputs.warehouseLength, inputs.warehouseWidth, inputs.bayLength,
                              inputs.bayWidth, inputs.smallGap, inputs.aisleWidth, None).value.totalBays
    else
      CalculateBayCountEmpirical(AreasOf(inputs).hdArea, BayDimensionsOf(inputs).bayFootprint,
                                 inputs.aisleOverheadMultiplier).bayCount
  }

  /** The capacity the configuration adds up to: baseline, racks and mezzanine. */
  function TotalCbm(inputs: Inputs): real
    requires CountableConfiguration(inputs)
  {
    var bayCBM := CalculateBayCBM(inputs.bayLength, inputs.bayWidth, inputs.levelHeight, inputs.levels);
    inputs.baselineCBM
      + CalculateRackCBM(SelectedBayCount(inputs), bayCBM.volumePerBayCBM)
      + CalculateMezzanineCBM(AreasOf(inputs).mezzArea, inputs.mezzClearHeight).mezzTotalCBM
  }

  /** The configurations whose results are finite numbers. */
  predicate WellDefined(inputs: Inputs)
  {
    && CountableConfiguration(inputs)
    && inputs.baselineCBM != 0.0
    && TotalCbm(inputs) != 0.0
  }

  /**
   * The whole pipeline: areas, bay geometry, the selected bay-count
   * strategy, volumes, pallets, derived metrics, the BoQ and, last, the
   * validation of the assembled results.
   */
  method CalculateWarehouseCapacity(inputs: Inputs) returns (results: Results)
    requires WellDefined(inputs)
    ensures results.areas == AreasOf(inputs)
    ensures results.bayDimensions == BayDimensionsOf(inputs)
    ensures results.totalRackHeight == results.bayDimensions.totalRackHeight
    ensures UsesModuleMethod(inputs) ==>
      && results.bayCountDetails.ByModule?
      && results.bayCountDetails.layout
         == CalculateBayCountModule(inputs.warehouseLength, inputs.warehouseWidth, inputs.bayLength,
                                    inputs.bayWidth, inputs.smallGap, inputs.aisleWidth, None).value
      && results.bayCount == results.bayCountDetails.layout.totalBays
    ensures !UsesModuleMethod(inputs) ==>
      && results.bayCountDetails.ByEmpirical?
      && results.bayCountDetails.estimate
         == CalculateBayCountEmpirical(results.areas.hdArea, results.bayDimensions.bayFootprint,
                                       inputs.aisleOverheadMultiplier)
      && results.bayCount == results.bayCountDetails.estimate.bayCount
    ensures results.bayCount == SelectedBayCount(inputs)
    ensures results.volumePerBayCBM
         == CalculateBayCBM(inputs.bayLength, inputs.bayWidth, inputs.levelHeight, inputs.levels).volumePerBayCBM
    ensures results.totalRackCBM == CalculateRackCBM(results.bayCount, results.volumePerBayCBM)
    ensures results.mezzCBM == CalculateMezzanineCBM(results.areas.mezzArea, inputs.mezzClearHeight).mezzTotalCBM
    ensures inputs.mezzPercent == 0.0 ==> results.mezzCBM == 0.0
    ensures results.baselineCBM == inputs.baselineCBM
    ensures results.totalCBM == results.baselineCBM + results.totalRackCBM + results.mezzCBM
    ensures results.totalCBM == TotalCbm(inputs)
    ensures IsPalletEstimate(results.pallets, results.bayDimensions.bayFootprint, inputs.palletFootprint,
                             inputs.levels, results.bayCount, inputs.palletsPerLevelOverride)
    ensures results.derived == CalculateDerivedMetrics(results.areas.totalArea, results.totalCBM, results.baselineCBM)
    ensures results.boq == CalculateBoQ(results.bayCount, inputs.levels, inputs.bayLength, inputs.bayWidth)
    ensures Reports(results.validation, inputs, results.totalRackHeight, results.bayCount, results.areas)
  {
    // Step 1: areas
    var totalArea := CalculateArea(inputs);
    var areas := CalculateAreas(totalArea, inputs.percentRacking, inputs.mezzPercent);

    // Step 2: bay dimensions
    var bayDimensions := CalculateBayDimensions(inputs.bayLength, inputs.bayWidth, inputs.levelHeight, inputs.levels);
    var bayFootprint := bayDimensions.bayFootprint;
    var totalRackHeight := bayDimensions.totalRackHeight;

    // Step 3: bay count
    var bayCountResult: BayCountDetails;
    var bayCount: int;
    if inputs.useModuleMethod && inputs.warehouseLength != 0.0 && inputs.warehouseWidth != 0.0 {
      var layout := CalculateBayCountModule(inputs.warehouseLength, inputs.warehouseWidth, inputs.bayLength,
                                            inputs.bayWidth, inputs.smallGap, inputs.aisleWidth, None).value;
      bayCountResult := ByModule(layout);
      bayCount := layout.totalBays;
      assert bayCount == SelectedBayCount(inputs);
    } else {
      var estimate := CalculateBayCountEmpirical(areas.hdArea, bayFootprint, inputs.aisleOverheadMultiplier);
      bayCountResult := ByEmpirical(estimate);
      bayCount := estimate.bayCount;
      assert bayCount == SelectedBayCount(inputs);
    }

    // Step 4: rack volume
    var bayCBM := CalculateBayCBM(inputs.bayLength, inputs.bayWidth, inputs.levelHeight, inputs.levels);
    var totalRackCBM := CalculateRackCBM(bayCount, bayCBM.volumePerBayCBM);

    // Step 5: mezzanine volume
    var mezzCBM := CalculateMezzanineCBM(areas.mezzArea, inputs.mezzClearHeight);

    // Step 6: total volume
    var totalCBM := inputs.baselineCBM + totalRackCBM + mezzCBM.mezzTotalCBM;
    assert totalCBM == TotalCbm(inputs);

    // Step 7: pallet positions
    var palletPositions := CalculatePalletPositions(bayFootprint, inputs.palletFootprint, inputs.levels,
                                                    bayCount, inputs.palletsPerLevelOverride);

    // Step 8: derived metrics
    var derivedMetrics := CalculateDerivedMetrics(totalArea, totalCBM, inputs.baselineCBM);

    // Step 9: BoQ
    var boq := CalculateBoQ(bayCount, inputs.levels, inputs.bayLength, inputs.bayWidth);

    results := Results(areas, bayDimensions, bayCount, bayCountResult, totalRackHeight, totalRackCBM,
                       mezzCBM.mezzTotalCBM, totalCBM, inputs.baselineCBM, derivedMetrics, palletPositions,
                       bayCBM.volumePerBayCBM, boq, Validation([], []));

    // Step 10: validate
    var validation := ValidateInputs(inputs, totalRackHeight, bayCount, areas);
    results := results.(validation := validation);
  }
}
