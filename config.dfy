/**
 * The configuration object of ROG-Map.
 *
 * A configuration is loaded from a parameter file, checked (the length of every vector
 * parameter, the ESDF box only when ESDF is enabled, and that the probability resolution is
 * not coarser than the inflation resolution), coerced (two counts clamped to at least one,
 * visualisation switched off without a positive range), and then completed: `ResetMapSize`
 * derives the integer geometry of the inflation, probability and frontier layers and writes
 * the virtual ceiling and ground back half a cell below (ceiling) or above (ground) their
 * index times the inflation cell size, and the constructor builds the three sorted
 * neighbour tables of `SphericalTable`.
 *
 * `Reset` is the geometry `ResetMapSize` leaves behind, as a function of the fields it reads
 * (`Settings`) and of the derived fields as it finds them (`Geometry`); the lemmas after it
 * say what that geometry means, and the methods of `Config` are proved to compute it.
 *
 * Doubles are modelled as exact reals, `int` casts of doubles as `Trunc`, `floor` and
 * `ceil` as `Floor` and `Ceil` below.
 */
module RogConfig {

  import opened Wrappers
  import opened SphericalTable

  /** Where the map origin lies in a cell: fixed at build time by ORIGIN_AT_CORNER or ORIGIN_AT_CENTER. */
  datatype CellOrigin = AtCorner | AtCenter

  datatype Vec3f = Vec3f(x: real, y: real, z: real)

  datatype Vec3i = Vec3i(x: int, y: int, z: int)

  // ---------------------------------------------------------------------------------------
  // Real-to-integer conversions.

  /** The C++ `ceil`: the least integer not below x. */
  function Ceil(x: real): (c: int)
    ensures x <= c as real < x + 1.0
  {
    -((-x).Floor)
  }

  /** The C++ conversion of a double to `int`: rounds toward zero. */
  function Trunc(x: real): (t: int)
    ensures x >= 0.0 ==> 0 <= t && t as real <= x < t as real + 1.0
    ensures x < 0.0 ==> t <= 0 && t as real - 1.0 < x <= t as real
  {
    if x >= 0.0 then x.Floor else -((-x).Floor)
  }

  /** The SIGN of a double. */
  function Sign(x: real): int {
    if x > 0.0 then 1 else if x < 0.0 then -1 else 0
  }

  /** Comparing a length h with m cells of size r is comparing h / r with m. */
  lemma InCells(h: real, r: real, m: real)
    requires r > 0.0
    ensures h / r <= m <==> h <= m * r
    ensures h / r < m <==> h < m * r
    ensures m <= h / r <==> m * r <= h
  {
  }

  /** Multiplication distributes over addition. */
  lemma MulDistributes(a: real, b: real, r: real)
    ensures (a + b) * r == a * r + b * r
  {
  }

  /** a cells of size r, measured in cells of size r, are a cells. */
  lemma WholeCells(a: real, r: real, p: real)
    requires r > 0.0 && p == a * r
    ensures p / r == a
  {
  }

  // ---------------------------------------------------------------------------------------
  // Per-axis vector arithmetic, as Eigen does it.

  /** A vector loaded from a parameter list of length three. */
  function FromSeq(s: seq<real>): Vec3f
    requires |s| == 3
  {
    Vec3f(s[0], s[1], s[2])
  }

  function MinCoeff(v: Vec3f): (m: real)
    ensures m <= v.x && m <= v.y && m <= v.z
    ensures m == v.x || m == v.y || m == v.z
  {
    if v.x <= v.y && v.x <= v.z then v.x else if v.y <= v.z then v.y else v.z
  }

  function Half(v: Vec3f): Vec3f {
    Vec3f(v.x / 2.0, v.y / 2.0, v.z / 2.0)
  }

  /** `(v / d).cast<int>()`. */
  function TruncDiv(v: Vec3f, d: real): Vec3i
    requires d != 0.0
  {
    Vec3i(Trunc(v.x / d), Trunc(v.y / d), Trunc(v.z / d))
  }

  function Plus(v: Vec3i, c: int): Vec3i {
    Vec3i(v.x + c, v.y + c, v.z + c)
  }

  function Times(v: Vec3i, c: int): Vec3i {
    Vec3i(v.x * c, v.y * c, v.z * c)
  }

  /** n cells of the given resolution, in metres. */
  function CellsInMetres(n: int, resolution: real): real {
    n as real * resolution
  }

  /** `v.cast<double>() * resolution`. */
  function Metres(v: Vec3i, resolution: real): Vec3f {
    Vec3f(CellsInMetres(v.x, resolution), CellsInMetres(v.y, resolution), CellsInMetres(v.z, resolution))
  }

  /** The number of cells `2 * half + 1` of a layer centred on one cell; always odd. */
  function CellCount(half: int): (n: int)
    ensures n % 2 == 1
    ensures (n - 1) / 2 == half
  {
    2 * half + 1
  }

  function CellCounts(half: Vec3i): Vec3i {
    Vec3i(CellCount(half.x), CellCount(half.y), CellCount(half.z))
  }

  // ---------------------------------------------------------------------------------------
  // The quantities `resetMapSize` and the constructor derive.

  /**
   * n probability cells make one inflation cell, q being the requested inflation resolution
   * measured in probability cells: the fewest cells that cover q, counting odd numbers only
   * when the origin is at a cell centre.
   */
  predicate IsRatio(convention: CellOrigin, q: real, n: int) {
    && n as real >= q
    && match convention
       case AtCorner => (n - 1) as real < q
       case AtCenter => n % 2 == 1 && (n - 2) as real < q
  }

  /** `ceil(inflation_resolution / resolution)`, made odd when the origin is at a cell centre. */
  function InflationRatio(convention: CellOrigin, resolution: real, inflationResolution: real): (ratio: int)
    requires resolution > 0.0
    ensures IsRatio(convention, inflationResolution / resolution, ratio)
    ensures inflationResolution > 0.0 ==> ratio >= 1
  {
    var c := Ceil(inflationResolution / resolution);
    if convention == AtCenter && c % 2 == 0 then c + 1 else c
  }

  /** IsRatio names one count only. */
  lemma RatioUnique(convention: CellOrigin, q: real, a: int, b: int)
    requires IsRatio(convention, q, a) && IsRatio(convention, q, b)
    ensures a == b
  {
  }

  /**
   * The ratio in metres: that many probability cells cover the requested inflation
   * resolution, one fewer (two fewer when the origin is at a cell centre) do not.
   */
  lemma RatioInMetres(convention: CellOrigin, resolution: real, inflationResolution: real)
    requires resolution > 0.0
    ensures var n := InflationRatio(convention, resolution, inflationResolution);
            && CellsInMetres(n, resolution) >= inflationResolution
            && (convention == AtCorner ==> CellsInMetres(n - 1, resolution) < inflationResolution)
            && (convention == AtCenter ==> CellsInMetres(n - 2, resolution) < inflationResolution)
  {
    var n := InflationRatio(convention, resolution, inflationResolution);
    InCells(inflationResolution, resolution, n as real);
    InCells(inflationResolution, resolution, (n - 1) as real);
    InCells(inflationResolution, resolution, (n - 2) as real);
  }

  /**
   * Snapping the inflation resolution to whole probability cells is stable: the snapped
   * resolution has the same ratio, so a second snap changes nothing.
   */
  lemma RatioStable(convention: CellOrigin, resolution: real, inflationResolution: real)
    requires resolution > 0.0
    ensures var ratio := InflationRatio(convention, resolution, inflationResolution);
            InflationRatio(convention, resolution, CellsInMetres(ratio, resolution)) == ratio
  {
    WholeCells(InflationRatio(convention, resolution, inflationResolution) as real, resolution,
               CellsInMetres(InflationRatio(convention, resolution, inflationResolution), resolution));
  }

  /** The widest inflation step in use: the unknown-inflation step counts only when enabled. */
  function MaxStep(inflationStep: int, unkInflationEnabled: bool, unkInflationStep: int): (m: int)
    ensures m >= inflationStep
    ensures unkInflationEnabled ==> m >= unkInflationStep
    ensures m == inflationStep || (unkInflationEnabled && m == unkInflationStep)
  {
    if !unkInflationEnabled then inflationStep
    else if inflationStep >= unkInflationStep then inflationStep else unkInflationStep
  }

  /** The largest search distance of the nearest-neighbour table, in metres. */
  const MaxSearchDistance: real := 5.0

  /** The step of the nearest-neighbour table: the fewest cells that reach 5 m. */
  function SearchStep(resolution: real): (s: int)
    requires resolution > 0.0
    ensures s >= 1
    ensures CellsInMetres(s, resolution) >= MaxSearchDistance
    ensures CellsInMetres(s - 1, resolution) < MaxSearchDistance
  {
    var s := Ceil(MaxSearchDistance / resolution);
    InCells(MaxSearchDistance, resolution, s as real);
    InCells(MaxSearchDistance, resolution, (s - 1) as real);
    s
  }

  /** Non-positive counts become one, all others stay. */
  function AtLeastOne(n: int): (r: int)
    ensures r >= 1
    ensures n >= 1 ==> r == n
    ensures n <= 0 ==> r == 1
  {
    if n <= 0 then 1 else n
  }

  /** The index of the inflation cell holding the virtual ceiling. */
  function CeilId(convention: CellOrigin, height: real, inflationResolution: real, inflationStep: int): int
    requires inflationResolution > 0.0
  {
    match convention
    case AtCenter => Trunc(height / inflationResolution + Sign(height) as real * 0.5)
    case AtCorner => (height / inflationResolution).Floor - inflationStep
  }

  /** The index of the inflation cell holding the virtual ground. */
  function GroundId(convention: CellOrigin, height: real, inflationResolution: real, inflationStep: int): int
    requires inflationResolution > 0.0
  {
    match convention
    case AtCenter => Trunc(height / inflationResolution + Sign(height) as real * 0.5)
    case AtCorner => (height / inflationResolution).Floor + inflationStep
  }

  /** The height written back for a ceiling index: half a cell below the index times the cell size. */
  function CeilHeight(id: int, inflationResolution: real): real {
    id as real * inflationResolution - 0.5 * inflationResolution
  }

  /** The height written back for a ground index: half a cell above the index times the cell size. */
  function GroundHeight(id: int, inflationResolution: real): real {
    id as real * inflationResolution + 0.5 * inflationResolution
  }

  // ---------------------------------------------------------------------------------------
  // What the geometry means.

  /**
   * Per axis, a half map size h >= 0 is rounded down to whole inflation cells: with
   * k = Trunc(h / ir), ir = ratio * resolution, the probability half-extent of k * ratio
   * cells is k inflation cells, which reach at most h and miss less than one inflation cell.
   */
  lemma ProbHalfExtent(h: real, resolution: real, ratio: int)
    requires resolution > 0.0 && ratio >= 1 && h >= 0.0
    ensures var ir := CellsInMetres(ratio, resolution);
            var k := Trunc(h / ir);
            && CellsInMetres(k * ratio, resolution) == k as real * ir
            && k as real * ir <= h < (k + 1) as real * ir
  {
    var ir := CellsInMetres(ratio, resolution);
    var k := Trunc(h / ir);
    InCells(h, ir, k as real);
    InCells(h, ir, (k + 1) as real);
    assert (k * ratio) as real == k as real * ratio as real;
  }

  /**
   * Per axis, the inflation layer reaches max_step + 1 inflation cells beyond the probability
   * layer, and more: from the centre cell, the probability layer spans k * ratio + 1/2
   * probability cells and the inflation layer k + max_step + 1 + 1/2 inflation cells.
   */
  lemma InflationMargin(k: int, ratio: int, resolution: real, maxStep: int)
    requires resolution > 0.0 && ratio >= 1
    ensures var ir := CellsInMetres(ratio, resolution);
            var probReach := ((k * ratio) as real + 0.5) * resolution;
            var infReach := ((k + maxStep + 1) as real + 0.5) * ir;
            infReach >= probReach + (maxStep + 1) as real * ir
  {
    var ir := CellsInMetres(ratio, resolution);
    assert (k * ratio) as real == k as real * ratio as real;
    MulDistributes((k + maxStep + 1) as real, 0.5, ir);
    MulDistributes(k as real, (maxStep + 1) as real, ir);
    MulDistributes((k * ratio) as real, 0.5, resolution);
    assert 0.5 * ir >= 0.5 * resolution;
  }

  /**
   * Per axis, a local update box of b >= 0 metres becomes an odd number n of probability
   * cells that differs from b / resolution by at most one cell.
   */
  lemma UpdateBoxSnap(b: real, resolution: real)
    requires resolution > 0.0 && b >= 0.0
    ensures var n := CellCount(Trunc(b / 2.0 / resolution));
            n % 2 == 1 && b / resolution - 1.0 < n as real <= b / resolution + 1.0
  {
    assert b / 2.0 / resolution == (b / resolution) / 2.0;
  }

  /** floor(h / r) cells of size r end within one cell below h. */
  lemma FloorCells(h: real, r: real)
    requires r > 0.0
    ensures h - r < (h / r).Floor as real * r <= h
  {
    var k := (h / r).Floor as real;
    InCells(h, r, k);
    InCells(h, r, k + 1.0);
    MulDistributes(k, 1.0, r);
  }

  /**
   * With the origin at a cell corner the virtual ceiling comes down by between
   * inflation_step + 1/2 and inflation_step + 3/2 inflation cells.
   */
  lemma CornerCeiling(h: real, ir: real, step: int)
    requires ir > 0.0
    ensures var c := CeilHeight(CeilId(AtCorner, h, ir, step), ir);
            h - (step as real + 1.5) * ir < c <= h - (step as real + 0.5) * ir
  {
    var s := step as real;
    var f := (h / ir).Floor as real;
    FloorCells(h, ir);
    assert CeilId(AtCorner, h, ir, step) as real == f - s;
    MulDistributes(f, -s, ir);
    assert CeilHeight(CeilId(AtCorner, h, ir, step), ir) == f * ir + (-s) * ir - 0.5 * ir;
    MulDistributes(s, 1.5, ir);
    MulDistributes(s, 0.5, ir);
    assert (-s) * ir == -(s * ir);
  }

  /**
   * With the origin at a cell corner the virtual ground goes up by between
   * inflation_step - 1/2 and inflation_step + 1/2 inflation cells.
   */
  lemma CornerGround(h: real, ir: real, step: int)
    requires ir > 0.0
    ensures var g := GroundHeight(GroundId(AtCorner, h, ir, step), ir);
            h + (step as real - 0.5) * ir < g <= h + (step as real + 0.5) * ir
  {
    var s := step as real;
    var f := (h / ir).Floor as real;
    FloorCells(h, ir);
    assert GroundId(AtCorner, h, ir, step) as real == f + s;
    MulDistributes(f, s, ir);
    assert GroundHeight(GroundId(AtCorner, h, ir, step), ir) == f * ir + s * ir + 0.5 * ir;
    MulDistributes(s, -0.5, ir);
    MulDistributes(s, 0.5, ir);
  }

  /** Trunc(h / r + SIGN(h) / 2) is h / r rounded half away from zero. */
  lemma RoundedCells(h: real, r: real)
    requires r > 0.0
    ensures var id := Trunc(h / r + Sign(h) as real * 0.5) as real;
            id - 0.5 <= h / r <= id + 0.5
    ensures var id := Trunc(h / r + Sign(h) as real * 0.5) as real;
            (h / r == id - 0.5 ==> h > 0.0) && (h / r == id + 0.5 ==> h < 0.0)
  {
    InCells(h, r, 0.0);
  }

  /**
   * With the origin at a cell centre a height is rounded to the nearest inflation cell
   * (halves away from zero) and lies within that cell: the ceiling written back for it is
   * the cell's lower face, at most one cell below, and the ground its upper face, at most
   * one cell above.
   */
  lemma CenterHeights(h: real, ir: real, step: int)
    requires ir > 0.0
    ensures var c := CeilHeight(CeilId(AtCenter, h, ir, step), ir);
            c <= h <= c + ir
    ensures var g := GroundHeight(GroundId(AtCenter, h, ir, step), ir);
            g - ir <= h <= g
  {
    var id := Trunc(h / ir + Sign(h) as real * 0.5) as real;
    RoundedCells(h, ir);
    InCells(h, ir, id + 0.5);
    InCells(h, ir, id - 0.5);
    MulDistributes(id, 0.5, ir);
    MulDistributes(id, -0.5, ir);
  }

  // ---------------------------------------------------------------------------------------
  // resetMapSize as a function of the fields it reads.

  /** The fields `resetMapSize` reads and never writes. */
  datatype Settings = Settings(
    convention: CellOrigin, resolution: real,
    inflationStep: int, unkInflationEnabled: bool, unkInflationStep: int,
    frontierExtractionEnabled: bool)

  /** The fields `resetMapSize` derives (and partly reads), as one value. */
  datatype Geometry = Geometry(
    inflationResolution: real,
    mapSizeD: Vec3f, halfMapSizeD: Vec3f,
    infHalfMapSizeI: Vec3i, halfMapSizeI: Vec3i, froHalfMapSizeI: Vec3i,
    localUpdateBoxD: Vec3f, halfLocalUpdateBoxD: Vec3f,
    localUpdateBoxI: Vec3i, halfLocalUpdateBoxI: Vec3i,
    virtualCeilHeight: real, virtualGroundHeight: real,
    infVirtualCeilHeightIdG: int, infVirtualGroundHeightIdG: int)

  /** A positive number of cells is at least one cell. */
  lemma AtLeastOneCell(n: int, resolution: real)
    requires n >= 1 && resolution > 0.0
    ensures CellsInMetres(n, resolution) >= resolution
  {
    assert (n as real - 1.0) * resolution >= 0.0;
  }

  /** Step 0: the inflation resolution rounded up to whole probability cells (odd at a cell centre). */
  function Snapped(s: Settings, g: Geometry): Geometry
    requires 0.0 < s.resolution <= g.inflationResolution
  {
    g.(inflationResolution := CellsInMetres(InflationRatio(s.convention, s.resolution, g.inflationResolution), s.resolution))
  }

  /**
   * Steps 1 to 3: the half sizes of the inflation layer (max_step + 1 cells of margin), the
   * probability layer (the same number of inflation cells, in probability cells) and the
   * frontier layer (one cell more, only when frontier extraction is on).
   */
  function LayersSized(s: Settings, g: Geometry, inflationRatio: int): Geometry
    requires g.inflationResolution != 0.0
  {
    var margin := MaxStep(s.inflationStep, s.unkInflationEnabled, s.unkInflationStep) + 1;
    var halfMapSizeD := Half(g.mapSizeD);
    var infHalfMapSizeI := Plus(TruncDiv(halfMapSizeD, g.inflationResolution), margin);
    var halfMapSizeI := Times(Plus(infHalfMapSizeI, -margin), inflationRatio);
    g.(halfMapSizeD := halfMapSizeD, infHalfMapSizeI := infHalfMapSizeI, halfMapSizeI := halfMapSizeI,
       froHalfMapSizeI := if s.frontierExtractionEnabled then Plus(halfMapSizeI, 1) else g.froHalfMapSizeI)
  }

  /** Step 4: the map size snapped to an odd number of probability cells per axis. */
  function MapSnapped(s: Settings, g: Geometry): Geometry {
    var mapSizeD := Metres(CellCounts(g.halfMapSizeI), s.resolution);
    g.(mapSizeD := mapSizeD, halfMapSizeD := Half(mapSizeD))
  }

  /** Step 5: the local update box snapped to an odd number of probability cells per axis. */
  function BoxSized(s: Settings, g: Geometry): Geometry
    requires s.resolution != 0.0
  {
    var halfLocalUpdateBoxD := Half(g.localUpdateBoxD);
    var halfLocalUpdateBoxI := TruncDiv(halfLocalUpdateBoxD, s.resolution);
    var localUpdateBoxI := CellCounts(halfLocalUpdateBoxI);
    g.(halfLocalUpdateBoxD := halfLocalUpdateBoxD, halfLocalUpdateBoxI := halfLocalUpdateBoxI,
       localUpdateBoxI := localUpdateBoxI, localUpdateBoxD := Metres(localUpdateBoxI, s.resolution))
  }

  /** Step 6: the virtual ceiling and ground as inflation cell indices, and back in metres. */
  function HeightsSnapped(s: Settings, g: Geometry): Geometry
    requires g.inflationResolution > 0.0
  {
    var ceilId := CeilId(s.convention, g.virtualCeilHeight, g.inflationResolution, s.inflationStep);
    var groundId := GroundId(s.convention, g.virtualGroundHeight, g.inflationResolution, s.inflationStep);
    g.(infVirtualCeilHeightIdG := ceilId, infVirtualGroundHeightIdG := groundId,
       virtualCeilHeight := CeilHeight(ceilId, g.inflationResolution),
       virtualGroundHeight := GroundHeight(groundId, g.inflationResolution))
  }

  /** Steps 0 to 5, which leave the virtual heights as they were. */
  function Sized(s: Settings, g: Geometry): (r: Geometry)
    requires 0.0 < s.resolution <= g.inflationResolution
    ensures r.inflationResolution >= s.resolution
  {
    var ratio := InflationRatio(s.convention, s.resolution, g.inflationResolution);
    AtLeastOneCell(ratio, s.resolution);
    BoxSized(s, MapSnapped(s, LayersSized(s, Snapped(s, g), ratio)))
  }

  /**
   * The geometry `resetMapSize` leaves behind: its steps in order, from the inflation
   * resolution, map size, local update box and virtual heights it starts from (and the
   * frontier half size, kept when frontier extraction is off).
   */
  function Reset(s: Settings, g: Geometry): Geometry
    requires 0.0 < s.resolution <= g.inflationResolution
  {
    HeightsSnapped(s, Sized(s, g))
  }

  /** The derived sizes agree with each other and with the settings. */
  predicate Consistent(s: Settings, g: Geometry) {
    && 0.0 < s.resolution <= g.inflationResolution
    && var ratio := InflationRatio(s.convention, s.resolution, g.inflationResolution);
    && g.inflationResolution == CellsInMetres(ratio, s.resolution)
    && g.halfMapSizeI == Times(Plus(g.infHalfMapSizeI, -(MaxStep(s.inflationStep, s.unkInflationEnabled, s.unkInflationStep) + 1)), ratio)
    && (s.frontierExtractionEnabled ==> g.froHalfMapSizeI == Plus(g.halfMapSizeI, 1))
    && g.mapSizeD == Metres(CellCounts(g.halfMapSizeI), s.resolution)
    && g.halfMapSizeD == Half(g.mapSizeD)
    && g.localUpdateBoxI == CellCounts(g.halfLocalUpdateBoxI)
    && g.localUpdateBoxD == Metres(g.localUpdateBoxI, s.resolution)
    && g.virtualCeilHeight == CeilHeight(g.infVirtualCeilHeightIdG, g.inflationResolution)
    && g.virtualGroundHeight == GroundHeight(g.infVirtualGroundHeightIdG, g.inflationResolution)
  }

  /** A reset leaves a consistent geometry behind, whatever it starts from. */
  lemma ResetIsConsistent(s: Settings, g: Geometry)
    requires 0.0 < s.resolution <= g.inflationResolution
    ensures Consistent(s, Reset(s, g))
  {
    RatioStable(s.convention, s.resolution, g.inflationResolution);
    AtLeastOneCell(InflationRatio(s.convention, s.resolution, g.inflationResolution), s.resolution);
  }

  /**
   * Steps 1 to 4 on one axis, for a half map size h: with ir = ratio * resolution, the
   * probability layer spans k = infHalf - margin whole inflation cells, the most that fit in h,
   * as k * ratio probability cells plus the centre cell, and the inflation layer reaches
   * margin inflation cells beyond it.
   */
  predicate AxisSized(h: real, resolution: real, ratio: int, margin: int, infHalf: int, half: int, halfD: real) {
    var ir := CellsInMetres(ratio, resolution);
    && half == (infHalf - margin) * ratio
    && (infHalf - margin) as real * ir <= h < (infHalf - margin + 1) as real * ir
    && halfD == CellsInMetres(half, resolution) + resolution / 2.0
    && (infHalf as real + 0.5) * ir >= halfD + margin as real * ir
  }

  /** One axis of a map of half size h >= 0, sized with the given ratio and margin, is AxisSized. */
  lemma AxisSizing(h: real, resolution: real, ratio: int, margin: int)
    requires resolution > 0.0 && ratio >= 1 && h >= 0.0
    ensures var ir := CellsInMetres(ratio, resolution);
            var infHalf := Trunc(h / ir) + margin;
            var half := (infHalf - margin) * ratio;
            AxisSized(h, resolution, ratio, margin, infHalf, half, CellsInMetres(CellCount(half), resolution) / 2.0)
  {
    var ir := CellsInMetres(ratio, resolution);
    var k := Trunc(h / ir);
    ProbHalfExtent(h, resolution, ratio);
    InflationMargin(k, ratio, resolution, margin - 1);
    MulDistributes((2 * (k * ratio)) as real, 1.0, resolution);
  }

  /**
   * What a reset makes of a map size with no negative axis: the inflation resolution snaps up
   * to a whole number of probability cells (odd at a cell centre), and on every axis the
   * layers are sized as AxisSized says.
   */
  lemma ResetMapExtent(s: Settings, g: Geometry)
    requires 0.0 < s.resolution <= g.inflationResolution
    requires g.mapSizeD.x >= 0.0 && g.mapSizeD.y >= 0.0 && g.mapSizeD.z >= 0.0
    ensures var r := Reset(s, g);
            var ratio := InflationRatio(s.convention, s.resolution, g.inflationResolution);
            var margin := MaxStep(s.inflationStep, s.unkInflationEnabled, s.unkInflationStep) + 1;
            && ratio >= 1
            && (s.convention == AtCenter ==> ratio % 2 == 1)
            && g.inflationResolution <= r.inflationResolution == CellsInMetres(ratio, s.resolution)
            && AxisSized(g.mapSizeD.x / 2.0, s.resolution, ratio, margin, r.infHalfMapSizeI.x, r.halfMapSizeI.x, r.halfMapSizeD.x)
            && AxisSized(g.mapSizeD.y / 2.0, s.resolution, ratio, margin, r.infHalfMapSizeI.y, r.halfMapSizeI.y, r.halfMapSizeD.y)
            && AxisSized(g.mapSizeD.z / 2.0, s.resolution, ratio, margin, r.infHalfMapSizeI.z, r.halfMapSizeI.z, r.halfMapSizeD.z)
  {
    var ratio := InflationRatio(s.convention, s.resolution, g.inflationResolution);
    var margin := MaxStep(s.inflationStep, s.unkInflationEnabled, s.unkInflationStep) + 1;
    RatioInMetres(s.convention, s.resolution, g.inflationResolution);
    AxisSizing(g.mapSizeD.x / 2.0, s.resolution, ratio, margin);
    AxisSizing(g.mapSizeD.y / 2.0, s.resolution, ratio, margin);
    AxisSizing(g.mapSizeD.z / 2.0, s.resolution, ratio, margin);
  }

  /**
   * What step 6 makes of the virtual heights. At a cell corner the ceiling index is the
   * floor of the ceiling in inflation cells, less the inflation step, and the ground index
   * that floor plus the step; the ceiling comes down by between step + 1/2 and step + 3/2
   * cells, the ground goes up by between step - 1/2 and step + 1/2 cells. At a cell centre
   * each height is rounded to its nearest cell, the ceiling to that cell's lower face and the
   * ground to its upper face, so neither moves by more than one cell.
   */
  lemma SnappedHeightBounds(s: Settings, g: Geometry)
    requires g.inflationResolution > 0.0
    ensures var r := HeightsSnapped(s, g);
            var ir := g.inflationResolution;
            && (s.convention == AtCorner ==>
                  && r.infVirtualCeilHeightIdG == (g.virtualCeilHeight / ir).Floor - s.inflationStep
                  && r.infVirtualGroundHeightIdG == (g.virtualGroundHeight / ir).Floor + s.inflationStep
                  && g.virtualCeilHeight - (s.inflationStep as real + 1.5) * ir < r.virtualCeilHeight
                  && r.virtualCeilHeight <= g.virtualCeilHeight - (s.inflationStep as real + 0.5) * ir
                  && g.virtualGroundHeight + (s.inflationStep as real - 0.5) * ir < r.virtualGroundHeight
                  && r.virtualGroundHeight <= g.virtualGroundHeight + (s.inflationStep as real + 0.5) * ir)
            && (s.convention == AtCenter ==>
                  && r.virtualCeilHeight <= g.virtualCeilHeight <= r.virtualCeilHeight + ir
                  && r.virtualGroundHeight - ir <= g.virtualGroundHeight <= r.virtualGroundHeight)
  {
    var ir := g.inflationResolution;
    if s.convention == AtCorner {
      CornerCeiling(g.virtualCeilHeight, ir, s.inflationStep);
      CornerGround(g.virtualGroundHeight, ir, s.inflationStep);
    } else {
      CenterHeights(g.virtualCeilHeight, ir, s.inflationStep);
      CenterHeights(g.virtualGroundHeight, ir, s.inflationStep);
    }
  }

  /** The index of a written-back ceiling: inflation_step + 1 lower at a corner, one lower only for ids <= 0 at a centre. */
  lemma CeilResnap(id: int, ir: real, step: int)
    requires ir > 0.0
    ensures CeilId(AtCorner, CeilHeight(id, ir), ir, step) == id - 1 - step
    ensures CeilId(AtCenter, CeilHeight(id, ir), ir, step) == if id >= 1 then id else id - 1
    ensures CeilHeight(id - 1 - step, ir) == CeilHeight(id, ir) - (step + 1) as real * ir
    ensures CeilHeight(id - 1, ir) == CeilHeight(id, ir) - ir
  {
    var c := CeilHeight(id, ir);
    MulDistributes(id as real, -0.5, ir);
    WholeCells(id as real - 0.5, ir, c);
    assert c / ir == id as real - 0.5;
    if id >= 1 {
      assert Sign(c) == 1;
    } else {
      assert Sign(c) == -1;
    }
  }

  /** The index of a written-back ground: inflation_step higher at a corner, one higher only for ids >= 0 at a centre. */
  lemma GroundResnap(id: int, ir: real, step: int)
    requires ir > 0.0
    ensures GroundId(AtCorner, GroundHeight(id, ir), ir, step) == id + step
    ensures GroundId(AtCenter, GroundHeight(id, ir), ir, step) == if id <= -1 then id else id + 1
    ensures GroundHeight(id + step, ir) == GroundHeight(id, ir) + step as real * ir
    ensures GroundHeight(id + 1, ir) == GroundHeight(id, ir) + ir
  {
    var g := GroundHeight(id, ir);
    MulDistributes(id as real, 0.5, ir);
    WholeCells(id as real + 0.5, ir, g);
    assert g / ir == id as real + 0.5;
    if id <= -1 {
      assert Sign(g) == -1;
    } else {
      assert Sign(g) == 1;
    }
  }

  /**
   * Step 6 is not idempotent. Run again on heights that sit where it writes them (as after
   * every reset, see `Consistent`), at a cell corner it lowers the ceiling by a further
   * inflation_step + 1 cells and raises the ground by inflation_step cells; at a cell centre
   * the ceiling stays when its id is at least 1 and drops one cell otherwise, and the ground
   * stays when its id is at most -1 and rises one cell otherwise.
   */
  lemma HeightsResnapped(s: Settings, r: Geometry)
    requires r.inflationResolution > 0.0
    requires r.virtualCeilHeight == CeilHeight(r.infVirtualCeilHeightIdG, r.inflationResolution)
    requires r.virtualGroundHeight == GroundHeight(r.infVirtualGroundHeightIdG, r.inflationResolution)
    ensures var r2 := HeightsSnapped(s, r);
            var ir := r.inflationResolution;
            && (s.convention == AtCorner ==>
                  && r2.virtualCeilHeight == r.virtualCeilHeight - (s.inflationStep + 1) as real * ir
                  && r2.virtualGroundHeight == r.virtualGroundHeight + s.inflationStep as real * ir)
            && (s.convention == AtCenter ==>
                  && r2.virtualCeilHeight
                     == (if r.infVirtualCeilHeightIdG >= 1 then r.virtualCeilHeight else r.virtualCeilHeight - ir)
                  && r2.virtualGroundHeight
                     == (if r.infVirtualGroundHeightIdG <= -1 then r.virtualGroundHeight else r.virtualGroundHeight + ir))
  {
    CeilResnap(r.infVirtualCeilHeightIdG, r.inflationResolution, s.inflationStep);
    GroundResnap(r.infVirtualGroundHeightIdG, r.inflationResolution, s.inflationStep);
  }

  /**
   * What a reset makes of a local update box with no negative axis: per axis an odd number
   * of probability cells, within one cell of the requested size.
   */
  lemma ResetBox(s: Settings, g: Geometry)
    requires 0.0 < s.resolution <= g.inflationResolution
    requires g.localUpdateBoxD.x >= 0.0 && g.localUpdateBoxD.y >= 0.0 && g.localUpdateBoxD.z >= 0.0
    ensures var r := Reset(s, g);
            var n := r.localUpdateBoxI;
            var b := g.localUpdateBoxD;
            var res := s.resolution;
            && n.x % 2 == 1 && b.x / res - 1.0 < n.x as real <= b.x / res + 1.0
            && n.y % 2 == 1 && b.y / res - 1.0 < n.y as real <= b.y / res + 1.0
            && n.z % 2 == 1 && b.z / res - 1.0 < n.z as real <= b.z / res + 1.0
            && r.localUpdateBoxD == Metres(n, res)
  {
    UpdateBoxSnap(g.localUpdateBoxD.x, s.resolution);
    UpdateBoxSnap(g.localUpdateBoxD.y, s.resolution);
    UpdateBoxSnap(g.localUpdateBoxD.z, s.resolution);
  }

  // ---------------------------------------------------------------------------------------
  // The neighbour tables.

  /**
   * The inflation table holds exactly the offsets admitted at the inflation step, the
   * unknown-inflation table those at its own step when unknown inflation is enabled and is
   * empty otherwise, and the nearest-neighbour table those of a plain cube reaching 5 m;
   * each sorted by squared norm.
   */
  ghost predicate TablesFor(inflationStep: int, unkInflationEnabled: bool, unkInflationStep: int, resolution: real,
                            infTable: seq<Offset>, unkTable: seq<Offset>, nearTable: seq<Offset>)
  {
    && resolution > 0.0
    && SortedBySqNorm(infTable) && HoldsExactly(infTable, inflationStep, true)
    && (if unkInflationEnabled
        then SortedBySqNorm(unkTable) && HoldsExactly(unkTable, unkInflationStep, true)
        else unkTable == [])
    && SortedBySqNorm(nearTable) && HoldsExactly(nearTable, SearchStep(resolution), false)
  }

  /**
   * Builds the inflation table, the unknown-inflation table (cleared and rebuilt only when
   * unknown inflation is enabled) and the nearest-neighbour table, each sorted by squared norm.
   */
  method BuildTables(inflationStep: int, unkInflationEnabled: bool, unkInflationStep: int, resolution: real)
    returns (infTable: seq<Offset>, unkTable: seq<Offset>, nearTable: seq<Offset>)
    requires resolution > 0.0
    ensures TablesFor(inflationStep, unkInflationEnabled, unkInflationStep, resolution, infTable, unkTable, nearTable)
  {
    infTable := BuildSortedTable(inflationStep, true);
    PermutedTableHoldsExactly(infTable, inflationStep, true);
    unkTable := [];
    if unkInflationEnabled {
      unkTable := BuildSortedTable(unkInflationStep, true);
      PermutedTableHoldsExactly(unkTable, unkInflationStep, true);
    }
    var searchStep := SearchStep(resolution);
    nearTable := BuildSortedTable(searchStep, false);
    PermutedTableHoldsExactly(nearTable, searchStep, false);
  }

  // ---------------------------------------------------------------------------------------
  // Loading and checking.

  /**
   * The parameters the constructor checks or computes with, as the loader hands them over
   * (defaults filled in). Vector parameters arrive as lists of any length.
   */
  datatype RawParams = RawParams(
    esdfEnabled: bool, esdfLocalUpdateBox: seq<real>,
    fixMapOrigin: seq<real>,
    frontierExtractionEnabled: bool,
    visualizationEnabled: bool, visualizationRange: seq<real>,
    resolution: real, inflationResolution: real,
    unkInflationEnabled: bool, unkInflationStep: int, inflationStep: int,
    mapSize: seq<real>,
    pointFiltNum: int, batchUpdateSize: int,
    rayRange: seq<real>, localUpdateBox: seq<real>,
    virtualGroundHeight: real, virtualCeilHeight: real)

  /** Why loading fails. */
  datatype ConfigError =
    | EsdfBoxArity
    | FixMapOriginArity
    | VisualizationRangeArity
    | ResolutionAboveInflation
    | MapSizeArity
    | RayRangeArity
    | LocalUpdateBoxArity

  /** The condition under which the check for `e` rejects the parameters. */
  predicate Violates(raw: RawParams, e: ConfigError) {
    match e
    case EsdfBoxArity => raw.esdfEnabled && |raw.esdfLocalUpdateBox| != 3
    case FixMapOriginArity => |raw.fixMapOrigin| != 3
    case VisualizationRangeArity => |raw.visualizationRange| != 3
    case ResolutionAboveInflation => raw.resolution > raw.inflationResolution
    case MapSizeArity => |raw.mapSize| != 3
    case RayRangeArity => |raw.rayRange| != 2
    case LocalUpdateBoxArity => |raw.localUpdateBox| != 3
  }

  /** The position of the check for `e` in the loading sequence. */
  function Rank(e: ConfigError): nat {
    match e
    case EsdfBoxArity => 0
    case FixMapOriginArity => 1
    case VisualizationRangeArity => 2
    case ResolutionAboveInflation => 3
    case MapSizeArity => 4
    case RayRangeArity => 5
    case LocalUpdateBoxArity => 6
  }

  /** The exception the loading sequence throws first, if any. */
  function FirstError(raw: RawParams): Option<ConfigError> {
    if raw.esdfEnabled && |raw.esdfLocalUpdateBox| != 3 then Some(EsdfBoxArity)
    else if |raw.fixMapOrigin| != 3 then Some(FixMapOriginArity)
    else if |raw.visualizationRange| != 3 then Some(VisualizationRangeArity)
    else if raw.resolution > raw.inflationResolution then Some(ResolutionAboveInflation)
    else if |raw.mapSize| != 3 then Some(MapSizeArity)
    else if |raw.rayRange| != 2 then Some(RayRangeArity)
    else if |raw.localUpdateBox| != 3 then Some(LocalUpdateBoxArity)
    else None
  }

  /**
   * The derived fields as the constructor hands them to `resetMapSize`: the loaded inflation
   * resolution, map size, local update box and virtual heights. The other fields are zero:
   * the scalars are declared zero-initialised, and the vectors `resetMapSize` overwrites
   * before reading them. The frontier half size, which it keeps when frontier extraction is
   * off, is left default-constructed (indeterminate) in the source; the model picks zero.
   */
  function AsLoaded(raw: RawParams): Geometry
    requires FirstError(raw) == None
  {
    var zeroD := Vec3f(0.0, 0.0, 0.0);
    var zeroI := Vec3i(0, 0, 0);
    Geometry(
      raw.inflationResolution,
      FromSeq(raw.mapSize), zeroD,
      zeroI, zeroI, zeroI,
      FromSeq(raw.localUpdateBox), zeroD,
      zeroI, zeroI,
      raw.virtualCeilHeight, raw.virtualGroundHeight,
      0, 0)
  }

  /** Loading fails with e exactly when check e fails and every earlier check passes. */
  lemma FirstErrorIsEarliest(raw: RawParams, e: ConfigError)
    ensures FirstError(raw) == Some(e)
        <==> Violates(raw, e) && forall d :: Rank(d) < Rank(e) ==> !Violates(raw, d)
  {
    assert Rank(EsdfBoxArity) == 0 && Rank(FixMapOriginArity) == 1 && Rank(VisualizationRangeArity) == 2;
    assert Rank(ResolutionAboveInflation) == 3 && Rank(MapSizeArity) == 4 && Rank(RayRangeArity) == 5;
    assert Rank(LocalUpdateBoxArity) == 6;
  }

  /** Loading succeeds exactly when no check fails. */
  lemma FirstErrorNone(raw: RawParams)
    ensures FirstError(raw) == None <==> forall e :: !Violates(raw, e)
  {
    if FirstError(raw) != None {
      assert Violates(raw, FirstError(raw).value);
    }
  }

  // ---------------------------------------------------------------------------------------
  // The configuration object.

  class Config {
    const convention: CellOrigin

    // Loaded once, never reassigned.
    const esdfEnabled: bool
    const esdfLocalUpdateBox: Vec3f
    const fixMapOrigin: Vec3f
    const frontierExtractionEnabled: bool
    const visualizationRange: Vec3f
    const resolution: real
    const unkInflationEnabled: bool
    const unkInflationStep: int
    const inflationStep: int
    const raycastRangeMin: real
    const raycastRangeMax: real
    const sqrRaycastRangeMin: real
    const sqrRaycastRangeMax: real

    // Coerced by the constructor.
    const visualizationEnabled: bool
    const pointFiltNum: int
    const batchUpdateSize: int

    // Derived by ResetMapSize.
    var inflationResolution: real
    var localUpdateBoxD: Vec3f
    var halfLocalUpdateBoxD: Vec3f
    var localUpdateBoxI: Vec3i
    var halfLocalUpdateBoxI: Vec3i
    var mapSizeD: Vec3f
    var halfMapSizeD: Vec3f
    var infHalfMapSizeI: Vec3i
    var halfMapSizeI: Vec3i
    var froHalfMapSizeI: Vec3i
    var virtualCeilHeight: real
    var virtualGroundHeight: real
    var infVirtualCeilHeightIdG: int
    var infVirtualGroundHeightIdG: int

    // The neighbour tables.
    const infTable: seq<Offset>
    const unkTable: seq<Offset>
    const nearTable: seq<Offset>

    /** The invariant every constructed configuration keeps. */
    ghost predicate Valid()
      reads this
    {
      && resolution > 0.0
      && pointFiltNum >= 1
      && batchUpdateSize >= 1
      && (visualizationEnabled ==> MinCoeff(visualizationRange) > 0.0)
      && Consistent(Fixed(), Derived())
      && TablesBuilt()
    }

    /** The fields `resetMapSize` reads and never writes. */
    function Fixed(): Settings {
      Settings(convention, resolution, inflationStep, unkInflationEnabled, unkInflationStep, frontierExtractionEnabled)
    }

    /** The fields `resetMapSize` derives. */
    function Derived(): Geometry
      reads this`inflationResolution, this`localUpdateBoxD, this`halfLocalUpdateBoxD, this`localUpdateBoxI,
            this`halfLocalUpdateBoxI, this`mapSizeD, this`halfMapSizeD, this`infHalfMapSizeI, this`halfMapSizeI,
            this`froHalfMapSizeI, this`virtualCeilHeight, this`virtualGroundHeight, this`infVirtualCeilHeightIdG,
            this`infVirtualGroundHeightIdG
    {
      Geometry(
        inflationResolution,
        mapSizeD, halfMapSizeD,
        infHalfMapSizeI, halfMapSizeI, froHalfMapSizeI,
        localUpdateBoxD, halfLocalUpdateBoxD,
        localUpdateBoxI, halfLocalUpdateBoxI,
        virtualCeilHeight, virtualGroundHeight,
        infVirtualCeilHeightIdG, infVirtualGroundHeightIdG)
    }

    /** The three tables hold exactly their admitted offsets, sorted by squared norm. */
    ghost predicate TablesBuilt() {
      TablesFor(inflationStep, unkInflationEnabled, unkInflationStep, resolution, infTable, unkTable, nearTable)
    }

    /** Every field the constructor takes from the loaded parameters, as it takes it. */
    ghost predicate LoadedFrom(raw: RawParams)
      requires FirstError(raw) == None
    {
      && esdfEnabled == raw.esdfEnabled
      && esdfLocalUpdateBox == (if raw.esdfEnabled then FromSeq(raw.esdfLocalUpdateBox) else Vec3f(0.0, 0.0, 0.0))
      && fixMapOrigin == FromSeq(raw.fixMapOrigin)
      && frontierExtractionEnabled == raw.frontierExtractionEnabled
      && visualizationRange == FromSeq(raw.visualizationRange)
      && resolution == raw.resolution
      && unkInflationEnabled == raw.unkInflationEnabled
      && unkInflationStep == raw.unkInflationStep
      && inflationStep == raw.inflationStep
      && raycastRangeMin == raw.rayRange[0]
      && raycastRangeMax == raw.rayRange[1]
      && sqrRaycastRangeMax == raw.rayRange[1] * raw.rayRange[1]
      && sqrRaycastRangeMin == raw.rayRange[0] * raw.rayRange[0]
    }

    /**
     * Loads a configuration whose checks pass: coerces the counts and the visualisation
     * switch, derives the map geometry and builds the neighbour tables. The tables read none
     * of the fields `resetMapSize` writes, so they are built first, while the fields they
     * fill can still be initialised. The derived scalars start at zero, as they are declared;
     * the derived vectors are default-constructed Eigen vectors in the source, which hold no
     * determinate value, and start at zero here (all but the frontier half size are
     * overwritten by `resetMapSize`). The ESDF box, never set when ESDF is off, is zero too.
     */
    constructor (raw: RawParams, convention: CellOrigin)
      requires FirstError(raw) == None
      requires raw.resolution > 0.0
      ensures Valid()
      ensures this.convention == convention
      ensures LoadedFrom(raw)
      ensures visualizationEnabled == (raw.visualizationEnabled && MinCoeff(FromSeq(raw.visualizationRange)) > 0.0)
      ensures pointFiltNum == AtLeastOne(raw.pointFiltNum)
      ensures batchUpdateSize == AtLeastOne(raw.batchUpdateSize)
      ensures Derived() == Reset(Fixed(), AsLoaded(raw))
    {
      this.convention := convention;
      esdfEnabled := raw.esdfEnabled;
      esdfLocalUpdateBox := if raw.esdfEnabled then FromSeq(raw.esdfLocalUpdateBox) else Vec3f(0.0, 0.0, 0.0);
      fixMapOrigin := FromSeq(raw.fixMapOrigin);
      frontierExtractionEnabled := raw.frontierExtractionEnabled;
      visualizationEnabled := raw.visualizationEnabled && MinCoeff(FromSeq(raw.visualizationRange)) > 0.0;
      visualizationRange := FromSeq(raw.visualizationRange);
      resolution := raw.resolution;
      inflationResolution := raw.inflationResolution;
      unkInflationEnabled := raw.unkInflationEnabled;
      unkInflationStep := raw.unkInflationStep;
      inflationStep := raw.inflationStep;
      mapSizeD := FromSeq(raw.mapSize);
      pointFiltNum := AtLeastOne(raw.pointFiltNum);
      batchUpdateSize := AtLeastOne(raw.batchUpdateSize);
      raycastRangeMin := raw.rayRange[0];
      raycastRangeMax := raw.rayRange[1];
      sqrRaycastRangeMax := raw.rayRange[1] * raw.rayRange[1];
      sqrRaycastRangeMin := raw.rayRange[0] * raw.rayRange[0];
      localUpdateBoxD := FromSeq(raw.localUpdateBox);
      virtualGroundHeight := raw.virtualGroundHeight;
      virtualCeilHeight := raw.virtualCeilHeight;
      halfLocalUpdateBoxD, localUpdateBoxI, halfLocalUpdateBoxI := Vec3f(0.0, 0.0, 0.0), Vec3i(0, 0, 0), Vec3i(0, 0, 0);
      halfMapSizeD := Vec3f(0.0, 0.0, 0.0);
      infHalfMapSizeI, halfMapSizeI, froHalfMapSizeI := Vec3i(0, 0, 0), Vec3i(0, 0, 0), Vec3i(0, 0, 0);
      infVirtualCeilHeightIdG, infVirtualGroundHeightIdG := 0, 0;
      var inf, unk, near := BuildTables(raw.inflationStep, raw.unkInflationEnabled, raw.unkInflationStep, raw.resolution);
      infTable, unkTable, nearTable := inf, unk, near;
      new;
      ResetMapSize();
    }

    /**
     * Derives the integer geometry of the layers from the resolutions, map size, local update
     * box and virtual heights. It snaps the map size and the box back to whole cells, and
     * writes the virtual ceiling and ground back half a cell below (ceiling) or above (ground)
     * their index times the inflation cell size.
     */
    method ResetMapSize()
      requires 0.0 < resolution <= inflationResolution
      modifies this`inflationResolution, this`localUpdateBoxD, this`halfLocalUpdateBoxD, this`localUpdateBoxI,
        this`halfLocalUpdateBoxI, this`mapSizeD, this`halfMapSizeD, this`infHalfMapSizeI, this`halfMapSizeI,
        this`froHalfMapSizeI, this`virtualCeilHeight, this`virtualGroundHeight, this`infVirtualCeilHeightIdG,
        this`infVirtualGroundHeightIdG
      ensures Derived() == Reset(Fixed(), old(Derived()))
      ensures Consistent(Fixed(), Derived())
    {
      var inflationRatio := SnapInflationResolution();
      AtLeastOneCell(inflationRatio, resolution);
      SizeLayers(inflationRatio);
      SnapMapSize();
      SizeLocalUpdateBox();
      SnapVirtualHeights();
      ResetIsConsistent(Fixed(), old(Derived()));
    }

    /** Rounds the inflation resolution up to whole probability cells (an odd number at a cell centre). */
    method SnapInflationResolution() returns (inflationRatio: int)
      requires 0.0 < resolution <= inflationResolution
      modifies this`inflationResolution
      ensures inflationRatio == InflationRatio(convention, resolution, old(inflationResolution))
      ensures Derived() == Snapped(Fixed(), old(Derived()))
    {
      inflationRatio := Ceil(inflationResolution / resolution);
      if convention == AtCenter && inflationRatio % 2 == 0 {
        inflationRatio := inflationRatio + 1;
      }
      inflationResolution := CellsInMetres(inflationRatio, resolution);
    }

    /** Steps 1 to 3 of `resetMapSize`, in place. */
    method SizeLayers(inflationRatio: int)
      requires inflationResolution > 0.0
      modifies this`halfMapSizeD, this`infHalfMapSizeI, this`halfMapSizeI, this`froHalfMapSizeI
      ensures Derived() == LayersSized(Fixed(), old(Derived()), inflationRatio)
    {
      halfMapSizeD := Half(mapSizeD);
      var maxStep := 0;
      if !unkInflationEnabled {
        maxStep := inflationStep;
      } else {
        maxStep := if inflationStep >= unkInflationStep then inflationStep else unkInflationStep;
      }
      infHalfMapSizeI := Plus(TruncDiv(halfMapSizeD, inflationResolution), maxStep + 1);
      halfMapSizeI := Times(Plus(infHalfMapSizeI, -(maxStep + 1)), inflationRatio);
      if frontierExtractionEnabled {
        froHalfMapSizeI := Plus(halfMapSizeI, 1);
      }
    }

    /** Step 4 of `resetMapSize`, in place. */
    method SnapMapSize()
      modifies this`mapSizeD, this`halfMapSizeD
      ensures Derived() == MapSnapped(Fixed(), old(Derived()))
    {
      mapSizeD := Metres(CellCounts(halfMapSizeI), resolution);
      halfMapSizeD := Half(mapSizeD);
    }

    /** Step 5 of `resetMapSize`, in place. */
    method SizeLocalUpdateBox()
      requires resolution > 0.0
      modifies this`halfLocalUpdateBoxD, this`halfLocalUpdateBoxI, this`localUpdateBoxI, this`localUpdateBoxD
      ensures Derived() == BoxSized(Fixed(), old(Derived()))
    {
      halfLocalUpdateBoxD := Half(localUpdateBoxD);
      halfLocalUpdateBoxI := TruncDiv(halfLocalUpdateBoxD, resolution);
      localUpdateBoxI := CellCounts(halfLocalUpdateBoxI);
      localUpdateBoxD := Metres(localUpdateBoxI, resolution);
    }

    /** Step 6 of `resetMapSize`, in place. */
    method SnapVirtualHeights()
      requires inflationResolution > 0.0
      modifies this`infVirtualCeilHeightIdG, this`infVirtualGroundHeightIdG, this`virtualCeilHeight, this`virtualGroundHeight
      ensures Derived() == HeightsSnapped(Fixed(), old(Derived()))
    {
      if convention == AtCenter {
        infVirtualCeilHeightIdG := Trunc(virtualCeilHeight / inflationResolution + Sign(virtualCeilHeight) as real * 0.5);
        infVirtualGroundHeightIdG := Trunc(virtualGroundHeight / inflationResolution + Sign(virtualGroundHeight) as real * 0.5);
      } else {
        infVirtualCeilHeightIdG := (virtualCeilHeight / inflationResolution).Floor - inflationStep;
        infVirtualGroundHeightIdG := (virtualGroundHeight / inflationResolution).Floor + inflationStep;
      }
      virtualCeilHeight := CeilHeight(infVirtualCeilHeightIdG, inflationResolution);
      virtualGroundHeight := GroundHeight(infVirtualGroundHeightIdG, inflationResolution);
    }
  }

  /**
   * Runs the loading sequence: the first check that fails is the error; when all pass, the
   * configuration is built.
   */
  method Load(raw: RawParams, convention: CellOrigin) returns (r: Result<Config, ConfigError>)
    requires FirstError(raw) == None ==> raw.resolution > 0.0
    ensures r.Failure? <==> FirstError(raw).Some?
    ensures r.Failure? ==> FirstError(raw) == Some(r.error)
    ensures r.Success? ==> fresh(r.value) && r.value.Valid() && r.value.convention == convention
    ensures r.Success? ==> FirstError(raw) == None && r.value.LoadedFrom(raw)
    ensures r.Success? ==> r.value.visualizationEnabled
                             == (raw.visualizationEnabled && MinCoeff(FromSeq(raw.visualizationRange)) > 0.0)
    ensures r.Success? ==> r.value.pointFiltNum == AtLeastOne(raw.pointFiltNum)
    ensures r.Success? ==> r.value.batchUpdateSize == AtLeastOne(raw.batchUpdateSize)
    ensures r.Success? ==> r.value.Derived() == Reset(r.value.Fixed(), AsLoaded(raw))
  {
    if raw.esdfEnabled && |raw.esdfLocalUpdateBox| != 3 {
      return Failure(EsdfBoxArity);
    }
    if |raw.fixMapOrigin| != 3 {
      return Failure(FixMapOriginArity);
    }
    if |raw.visualizationRange| != 3 {
      return Failure(VisualizationRangeArity);
    }
    if raw.resolution > raw.inflationResolution {
      return Failure(ResolutionAboveInflation);
    }
    if |raw.mapSize| != 3 {
      return Failure(MapSizeArity);
    }
    if |raw.rayRange| != 2 {
      return Failure(RayRangeArity);
    }
    if |raw.localUpdateBox| != 3 {
      return Failure(LocalUpdateBoxArity);
    }
    var c := new Config(raw, convention);
    r := Success(c);
  }

  /**
   * What every loaded configuration offers its users: each table holds exactly its admitted
   * offsets, without duplicates, nearest first (the origin, whenever the step is not negative);
   * with step 1 an inflation table is the full 27-cell neighbourhood.
   */
  lemma ValidTables(c: Config)
    requires c.Valid()
    ensures forall o :: o in c.infTable <==> Admitted(o, c.inflationStep, true)
    ensures Distinct(c.infTable)
    ensures c.inflationStep >= 0 ==> |c.infTable| > 0 && c.infTable[0] == Origin
    ensures c.inflationStep == 1 ==> |c.infTable| == 27
    ensures c.unkInflationEnabled ==> forall o :: o in c.unkTable <==> Admitted(o, c.unkInflationStep, true)
    ensures c.unkInflationEnabled ==> Distinct(c.unkTable)
    ensures c.unkInflationEnabled && c.unkInflationStep >= 0 ==> |c.unkTable| > 0 && c.unkTable[0] == Origin
    ensures !c.unkInflationEnabled ==> c.unkTable == []
    ensures forall o :: o in c.nearTable <==> Admitted(o, SearchStep(c.resolution), false)
    ensures Distinct(c.nearTable) && |c.nearTable| > 0 && c.nearTable[0] == Origin
  {
    SortedTableFacts(c.infTable, c.inflationStep, true);
    if c.unkInflationEnabled {
      SortedTableFacts(c.unkTable, c.unkInflationStep, true);
    }
    SortedTableFacts(c.nearTable, SearchStep(c.resolution), false);
    if c.inflationStep == 1 {
      TableHoldsExactly(1, true);
      HoldsExactlyPermutation(c.infTable, Table(1, true), 1, true);
      UnitCubeTable();
    }
  }
}
