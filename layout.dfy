/**
 * The floor plan of the top-down view (`generateLayout` in
 * components/TopDownVisualization.js): the warehouse is scaled to fit an
 * 800 by 600 drawing with 40 units of padding and centred, and the bays of
 * the module layout are placed row by row, two per module.
 *
 * Only the case with both warehouse dimensions given is modelled; the
 * estimate of missing dimensions from the area is not.
 */
module Layout {
  import opened Arith
  import opened Wrappers
  import Calculations

  const ViewBoxWidth: real := 800.0
  const ViewBoxHeight: real := 600.0
  const Padding: real := 40.0

  datatype Viewport = Viewport(
    scale: real,
    warehouseScaledWidth: real,
    warehouseScaledHeight: real,
    offsetX: real,
    offsetY: real)

  /**
   * The largest scale at which the whole warehouse fits inside the padded
   * drawing, and the offsets that centre it there.
   */
  function FitToViewport(length: real, width: real): (v: Viewport)
    requires length > 0.0 && width > 0.0
    ensures v.scale == Min((ViewBoxWidth - 2.0 * Padding) / length, (ViewBoxHeight - 2.0 * Padding) / width)
    ensures v.warehouseScaledWidth == length * v.scale && v.warehouseScaledHeight == width * v.scale
    ensures 0.0 < v.warehouseScaledWidth <= ViewBoxWidth - 2.0 * Padding
    ensures 0.0 < v.warehouseScaledHeight <= ViewBoxHeight - 2.0 * Padding
    ensures v.warehouseScaledWidth == ViewBoxWidth - 2.0 * Padding
         || v.warehouseScaledHeight == ViewBoxHeight - 2.0 * Padding
    ensures Padding <= v.offsetX && 2.0 * v.offsetX + v.warehouseScaledWidth == ViewBoxWidth
    ensures Padding <= v.offsetY && 2.0 * v.offsetY + v.warehouseScaledHeight == ViewBoxHeight
  {
    var scaleX := (ViewBoxWidth - 2.0 * Padding) / length;
    var scaleY := (ViewBoxHeight - 2.0 * Padding) / width;
    QuotientPositive(ViewBoxWidth - 2.0 * Padding, length);
    QuotientPositive(ViewBoxHeight - 2.0 * Padding, width);
    var scale := Min(scaleX, scaleY);
    var warehouseScaledWidth := length * scale;
    var warehouseScaledHeight := width * scale;
    ScaledWithin(length, scale, ViewBoxWidth - 2.0 * Padding);
    ScaledWithin(width, scale, ViewBoxHeight - 2.0 * Padding);
    var offsetX := Padding + (ViewBoxWidth - 2.0 * Padding - warehouseScaledWidth) / 2.0;
    var offsetY := Padding + (ViewBoxHeight - 2.0 * Padding - warehouseScaledHeight) / 2.0;
    Viewport(scale, warehouseScaledWidth, warehouseScaledHeight, offsetX, offsetY)
  }

  /** A bay rectangle in warehouse feet: its corner and its extent. */
  datatype Bay = Bay(x: real, y: real, width: real, height: real)

  /** The rack geometry the floor plan is drawn with. */
  datatype Geometry = Geometry(bayLength: real, bayWidth: real, smallGap: real, aisleWidth: real)
  {
    /** Two bays, the small gap between them and a main aisle: the engine's module length. */
    function ModuleLength(): (moduleLength: real)
      ensures moduleLength == Calculations.CalculateModule(bayLength, smallGap, aisleWidth)
    {
      2.0 * bayLength + smallGap + aisleWidth
    }

    /**
     * A bay's depth plus an aisle: the engine's row pitch with the main aisle
     * as the cross aisle (the floor plan has no separate cross aisle).
     */
    function RowPitch(): (pitch: real)
      ensures pitch == Calculations.RowPitch(bayWidth, aisleWidth, None)
    {
      bayWidth + aisleWidth
    }
  }

  /** The geometry of the inputs. */
  function GeometryOf(inputs: Calculations.Inputs): Geometry
  {
    Geometry(inputs.bayLength, inputs.bayWidth, inputs.smallGap, inputs.aisleWidth)
  }

  /**
   * The first or second bay of module `moduleIndex` in row `row`: the first
   * starts where the module starts, the second a small gap after the first
   * ends, and the next module starts an aisle after the second ends.
   */
  function BayAt(g: Geometry, row: int, moduleIndex: int, second: bool): (b: Bay)
    ensures b.width == g.bayLength && b.height == g.bayWidth
    ensures b.y == row as real * g.RowPitch()
    ensures !second ==> b.x == moduleIndex as real * g.ModuleLength()
    ensures second ==> b.x == moduleIndex as real * g.ModuleLength() + g.bayLength + g.smallGap
    ensures second ==> b.x + b.width + g.aisleWidth == (moduleIndex + 1) as real * g.ModuleLength()
  {
    var moduleX := moduleIndex as real * g.ModuleLength();
    Bay(if second then moduleX + g.bayLength + g.smallGap else moduleX,
        row as real * g.RowPitch(), g.bayLength, g.bayWidth)
  }

  /** The bays of the first `modules` modules of row `row`, module by module. */
  function RowBays(g: Geometry, row: int, modules: nat): (bays: seq<Bay>)
  {
    if modules == 0 then []
    else RowBays(g, row, modules - 1) + [BayAt(g, row, modules - 1, false), BayAt(g, row, modules - 1, true)]
  }

  /** The bays of the first `rows` rows, each of `modules` modules, row by row. */
  function Grid(g: Geometry, rows: nat, modules: nat): (bays: seq<Bay>)
  {
    if rows == 0 then [] else Grid(g, rows - 1, modules) + RowBays(g, rows - 1, modules)
  }

  /** Bay `i` of a row is the first or second bay of module `i / 2`. */
  lemma {:induction false} RowBaysAt(g: Geometry, row: int, modules: nat, i: int)
    requires 0 <= i < 2 * modules
    ensures |RowBays(g, row, modules)| == 2 * modules
    ensures RowBays(g, row, modules)[i] == BayAt(g, row, i / 2, i % 2 == 1)
  {
    if i < 2 * (modules - 1) {
      RowBaysAt(g, row, modules - 1, i);
    } else {
      RowBaysLength(g, row, modules - 1);
    }
  }

  lemma {:induction false} RowBaysLength(g: Geometry, row: int, modules: nat)
    ensures |RowBays(g, row, modules)| == 2 * modules
  {
    if modules > 0 {
      RowBaysLength(g, row, modules - 1);
    }
  }

  lemma {:induction false} GridLength(g: Geometry, rows: nat, modules: nat)
    ensures |Grid(g, rows, modules)| == 2 * modules * rows
  {
    if rows > 0 {
      GridLength(g, rows - 1, modules);
      RowBaysLength(g, rows - 1, modules);
    }
  }

  /**
   * Row-major order: the first or second bay of module `j` in row `row` sits
   * at index `2 * modules * row + 2 * j` (plus one for the second bay).
   */
  lemma {:induction false} GridAt(g: Geometry, rows: nat, modules: nat, row: nat, j: nat, second: bool)
    requires row < rows && j < modules
    ensures var k := 2 * modules * row + 2 * j + (if second then 1 else 0);
      0 <= k < |Grid(g, rows, modules)| && Grid(g, rows, modules)[k] == BayAt(g, row, j, second)
  {
    var w := 2 * modules;
    var i := 2 * j + (if second then 1 else 0);
    IndexBelow(w, row, rows, i);
    if row < rows - 1 {
      GridAt(g, rows - 1, modules, row, j, second);
      GridLength(g, rows, modules);
    } else {
      LastRowAt(g, rows, modules, i);
      RowBaysAt(g, row, modules, i);
    }
  }

  /** Index `i` of the last row follows the rows before it. */
  lemma LastRowAt(g: Geometry, rows: nat, modules: nat, i: int)
    requires rows > 0 && 0 <= i < 2 * modules
    ensures |Grid(g, rows, modules)| == 2 * modules * rows
    ensures |RowBays(g, rows - 1, modules)| == 2 * modules
    ensures 2 * modules * (rows - 1) + i < |Grid(g, rows, modules)|
    ensures Grid(g, rows, modules)[2 * modules * (rows - 1) + i] == RowBays(g, rows - 1, modules)[i]
  {
    GridLength(g, rows - 1, modules);
    RowBaysLength(g, rows - 1, modules);
    GridLength(g, rows, modules);
  }

  /** Index `i` of row `row` comes before the end of row `rows - 1`. */
  lemma IndexBelow(w: int, row: int, rows: int, i: int)
    requires 0 <= i < w && 0 <= row < rows
    ensures 0 <= w * row + i < w * rows
  {
    MulMonotone(row + 1, rows, w, w);
    MulNonNegative(w, row);
  }

  /** The rectangle of `b` lies within the `length` by `width` floor. */
  predicate OnFloor(b: Bay, length: real, width: real)
  {
    0.0 <= b.x && b.x + b.width <= length && 0.0 <= b.y && b.y + b.height <= width
  }

  predicate NonNegativeGeometry(g: Geometry)
  {
    g.bayLength >= 0.0 && g.smallGap >= 0.0 && g.aisleWidth >= 0.0
  }

  /**
   * The bays of row `row` stay on the floor when its `modules` whole modules
   * fit along the length and the row's far edge, one pitch past its start,
   * fits across the width.
   */
  lemma {:induction false} RowOnFloor(g: Geometry, row: nat, modules: nat, length: real, width: real)
    requires NonNegativeGeometry(g) && g.RowPitch() > 0.0
    requires modules as real * g.ModuleLength() <= length
    requires (row + 1) as real * g.RowPitch() <= width
    ensures forall b :: b in RowBays(g, row, modules) ==> OnFloor(b, length, width)
  {
    if modules > 0 {
      var m := (modules - 1) as real;
      var ml := g.ModuleLength();
      MulNonNegativeReal(m, ml);
      assert m * ml + ml == modules as real * ml;
      MulLeq(m, modules as real, ml);
      RowOnFloor(g, row, modules - 1, length, width);
      var rp := g.RowPitch();
      var y := row as real * rp;
      MulNonNegativeReal(row as real, rp);
      assert y + rp == (row + 1) as real * rp;
      var x := m * ml;
      assert x + g.bayLength + g.smallGap + g.bayLength <= x + ml <= length;
      assert 0.0 <= y && y + g.bayWidth <= y + rp <= width;
      var first := BayAt(g, row, modules - 1, false);
      var second := BayAt(g, row, modules - 1, true);
      assert first == Bay(x, y, g.bayLength, g.bayWidth);
      assert second == Bay(x + g.bayLength + g.smallGap, y, g.bayLength, g.bayWidth);
    }
  }

  /**
   * Bays stay on the floor: when `modules` whole modules fit along the
   * length and `rows` whole row pitches across the width, every bay of the
   * grid lies inside the floor rectangle.
   */
  lemma {:induction false} GridOnFloor(g: Geometry, rows: nat, modules: nat, length: real, width: real)
    requires NonNegativeGeometry(g) && g.RowPitch() > 0.0
    requires modules as real * g.ModuleLength() <= length
    requires rows as real * g.RowPitch() <= width
    ensures forall b :: b in Grid(g, rows, modules) ==> OnFloor(b, length, width)
  {
    if rows > 0 {
      MulLeq((rows - 1) as real, rows as real, g.RowPitch());
      GridOnFloor(g, rows - 1, modules, length, width);
      RowOnFloor(g, rows - 1, modules, length, width);
    }
  }

  /** What the floor-plan generator returns. */
  datatype FloorPlan = FloorPlan(
    viewBoxWidth: real,
    viewBoxHeight: real,
    viewport: Viewport,
    bays: seq<Bay>,
    baysPerRow: int,
    numberOfRows: int)

  /**
   * Scale the warehouse into the drawing, then emit the bays row by row,
   * two per whole module. The counts agree with the module method of the
   * calculation engine, the bays are the grid in row-major order, and with
   * non-negative rack dimensions every bay lies on the floor.
   */
  method GenerateLayout(inputs: Calculations.Inputs) returns (plan: FloorPlan)
    requires inputs.warehouseLength > 0.0 && inputs.warehouseWidth > 0.0
    requires GeometryOf(inputs).ModuleLength() > 0.0 && GeometryOf(inputs).RowPitch() > 0.0
    ensures plan.viewBoxWidth == ViewBoxWidth && plan.viewBoxHeight == ViewBoxHeight
    ensures plan.viewport == FitToViewport(inputs.warehouseLength, inputs.warehouseWidth)
    ensures var m := Calculations.CalculateBayCountModule(
              inputs.warehouseLength, inputs.warehouseWidth, inputs.bayLength, inputs.bayWidth,
              inputs.smallGap, inputs.aisleWidth, None).value;
      && plan.baysPerRow == m.baysPerRow
      && plan.numberOfRows == m.numberOfRows
      && |plan.bays| == m.totalBays
    ensures 0 <= plan.numberOfRows && 0 <= plan.baysPerRow
      && plan.bays == Grid(GeometryOf(inputs), plan.numberOfRows, plan.baysPerRow / 2)
    ensures NonNegativeGeometry(GeometryOf(inputs)) ==>
      forall b :: b in plan.bays ==> OnFloor(b, inputs.warehouseLength, inputs.warehouseWidth)
  {
    var length := inputs.warehouseLength;
    var width := inputs.warehouseWidth;
    ghost var g := GeometryOf(inputs);

    var viewport := FitToViewport(length, width);

    var moduleLength := 2.0 * inputs.bayLength + inputs.smallGap + inputs.aisleWidth;
    var rowPitch := inputs.bayWidth + inputs.aisleWidth;

    var baysPerRow := (length / moduleLength).Floor * 2;
    var numberOfRows := (width / rowPitch).Floor;

    ghost var modules := (length / moduleLength).Floor;
    FloorDivNonNegative(length, moduleLength);
    FloorDivNonNegative(width, rowPitch);
    assert g.ModuleLength() == moduleLength && g.RowPitch() == rowPitch;

    var bays: seq<Bay> := [];
    var row := 0;
    while row < numberOfRows
      invariant 0 <= row <= numberOfRows
      invariant bays == Grid(g, row, modules)
    {
      var rowY := row as real * rowPitch;
      var modulesInRow := (length / moduleLength).Floor;

      var moduleIndex := 0;
      while moduleIndex < modulesInRow
        invariant 0 <= moduleIndex <= modulesInRow
        invariant bays == Grid(g, row, modules) + RowBays(g, row, moduleIndex)
      {
        var moduleX := moduleIndex as real * moduleLength;
        ghost var before := bays;
        bays := bays + [Bay(moduleX, rowY, inputs.bayLength, inputs.bayWidth)];
        bays := bays + [Bay(moduleX + inputs.bayLength + inputs.smallGap, rowY, inputs.bayLength, inputs.bayWidth)];
        assert BayAt(g, row, moduleIndex, false) == Bay(moduleX, rowY, inputs.bayLength, inputs.bayWidth);
        assert BayAt(g, row, moduleIndex, true) == Bay(moduleX + inputs.bayLength + inputs.smallGap, rowY, inputs.bayLength, inputs.bayWidth);
        assert bays == before + [BayAt(g, row, moduleIndex, false), BayAt(g, row, moduleIndex, true)];
        moduleIndex := moduleIndex + 1;
      }
      row := row + 1;
    }

    plan := FloorPlan(ViewBoxWidth, ViewBoxHeight, viewport, bays, baysPerRow, numberOfRows);
    WholeGridOnFloor(g, length, width);
  }

  /**
   * The grid of whole modules and whole rows has two bays per module in
   * every row and, with non-negative rack dimensions, lies on the floor.
   */
  lemma WholeGridOnFloor(g: Geometry, length: real, width: real)
    requires length > 0.0 && width > 0.0 && g.ModuleLength() > 0.0 && g.RowPitch() > 0.0
    ensures var modules := (length / g.ModuleLength()).Floor;
      var rows := (width / g.RowPitch()).Floor;
      && modules >= 0 && rows >= 0
      && |Grid(g, rows, modules)| == 2 * modules * rows
      && (NonNegativeGeometry(g) ==> forall b :: b in Grid(g, rows, modules) ==> OnFloor(b, length, width))
  {
    var modules := (length / g.ModuleLength()).Floor;
    var rows := (width / g.RowPitch()).Floor;
    FloorDivNonNegative(length, g.ModuleLength());
    FloorDivNonNegative(width, g.RowPitch());
    GridLength(g, rows, modules);
    if NonNegativeGeometry(g) {
      FloorDivBounds(length, g.ModuleLength());
      FloorDivBounds(width, g.RowPitch());
      GridOnFloor(g, rows, modules, length, width);
    }
  }
}
