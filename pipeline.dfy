/**
 * The optimized region pipeline: the image is cut into horizontal bands, one
 * job per worker; each worker computes a horizontal-pair GLCM and one-pass
 * shape statistics for its band; the results are reassembled by job id and
 * averaged into one feature map; and the whole extraction is memoised in a
 * TTL map keyed by the file's base name and the image size.
 *
 * The worker goroutines and channels become a sequential loop over job ids;
 * the order in which results arrive is a parameter (a permutation of the
 * ids). Clocks are parameters in nanoseconds.
 */
module Pipeline {
  import opened Common
  import opened Imaging

  // ------------------------------------------------------------------
  // Bands: one job per worker, rows [i*rh, i*rh + rh), the last band
  // ending at the image height. Coordinates start at 0, not at Min.
  // ------------------------------------------------------------------

  datatype Job = Job(region: Rect, jobID: nat)

  /** The region of job `i` out of `n`, as image.Rect(0, startY, width, endY) builds it. */
  function Band(width: nat, height: nat, n: nat, i: nat): Rect
    requires n >= 1 && i < n
  {
    var rh := height / n;
    var startY := i * rh;
    var endY := if i == n - 1 then height else startY + rh;
    MakeRect(0, startY, width, endY)
  }

  lemma MulMono(a: int, b: int, c: int)
    requires a <= b && c >= 0
    ensures a * c <= b * c
  {
  }

  lemma MulSucc(a: int, c: int)
    ensures (a + 1) * c == a * c + c
  {
  }

  /** The rows of band `i`: no swap happens, since every start lies below the height. */
  lemma BandRows(width: nat, height: nat, n: nat, i: nat)
    requires n >= 1 && i < n
    ensures var b := Band(width, height, n, i);
            var rh := height / n;
            b.minX == 0 && b.maxX == width && b.minY == i * rh &&
            b.maxY == (if i == n - 1 then height else (i + 1) * rh) && b.minY <= b.maxY
  {
    var rh := height / n;
    MulMono(i, n, rh);
    MulSucc(i, rh);
    assert n * rh <= height;
  }

  predicate InBand(width: nat, height: nat, n: nat, i: nat, y: int)
    requires n >= 1 && i < n
  {
    Band(width, height, n, i).minY <= y < Band(width, height, n, i).maxY
  }

  lemma {:induction false} FindBand(width: nat, height: nat, n: nat, y: int, i: nat) returns (j: nat)
    requires n >= 1 && i < n
    requires Band(width, height, n, i).minY <= y < height
    ensures i <= j < n && InBand(width, height, n, j, y)
    decreases n - i
  {
    BandRows(width, height, n, i);
    if i == n - 1 || y < Band(width, height, n, i).maxY {
      j := i;
    } else {
      BandRows(width, height, n, i + 1);
      j := FindBand(width, height, n, y, i + 1);
    }
  }

  /** Every row of [0, height) lies in some band. */
  lemma BandsCover(width: nat, height: nat, n: nat, y: int) returns (i: nat)
    requires n >= 1 && 0 <= y < height
    ensures i < n && InBand(width, height, n, i, y)
  {
    BandRows(width, height, n, 0);
    i := FindBand(width, height, n, y, 0);
  }

  /** No row lies in two bands. */
  lemma BandsDisjoint(width: nat, height: nat, n: nat, i: nat, j: nat, y: int)
    requires n >= 1 && i < j < n
    ensures !(InBand(width, height, n, i, y) && InBand(width, height, n, j, y))
  {
    BandRows(width, height, n, i);
    BandRows(width, height, n, j);
    MulMono(i + 1, j, height / n);
    MulSucc(i, height / n);
  }

  /** No row outside [0, height) lies in any band. */
  lemma BandsInside(width: nat, height: nat, n: nat, i: nat, y: int)
    requires n >= 1 && i < n && InBand(width, height, n, i, y)
    ensures 0 <= y < height
  {
    BandRows(width, height, n, i);
    MulMono(0, i, height / n);
    if i < n - 1 {
      MulMono(i + 1, n, height / n);
      MulSucc(i, height / n);
    }
  }

  /**
   * The bands partition the rows [0, height): every such row lies in
   * exactly one band, and no other row lies in any band.
   */
  lemma BandsPartition(width: nat, height: nat, n: nat, y: int)
    requires n >= 1
    ensures 0 <= y < height <==> exists i :: 0 <= i < n && InBand(width, height, n, i, y)
    ensures forall i, j :: 0 <= i < n && 0 <= j < n && InBand(width, height, n, i, y) && InBand(width, height, n, j, y) ==> i == j
  {
    if 0 <= y < height {
      var i := BandsCover(width, height, n, y);
    }
    forall i | 0 <= i < n && InBand(width, height, n, i, y)
      ensures 0 <= y < height
    {
      BandsInside(width, height, n, i, y);
    }
    forall i, j | 0 <= i < n && 0 <= j < n && InBand(width, height, n, i, y) && InBand(width, height, n, j, y)
      ensures i == j
    {
      if i < j {
        BandsDisjoint(width, height, n, i, j, y);
      } else if j < i {
        BandsDisjoint(width, height, n, j, i, y);
      }
    }
  }

  /** The job-sending loop of extractLocalFeaturesParallel: job i covers band i. */
  method SubmitJobs(width: nat, height: nat, n: nat) returns (jobs: seq<Job>)
    requires n >= 1
    ensures |jobs| == n
    ensures forall i :: 0 <= i < n ==> jobs[i] == Job(Band(width, height, n, i), i)
  {
    var regionHeight := height / n;
    jobs := [];
    var i := 0;
    while i < n
      invariant 0 <= i <= n && |jobs| == i
      invariant forall j :: 0 <= j < i ==> jobs[j] == Job(Band(width, height, n, j), j)
    {
      var startY := i * regionHeight;
      var endY := startY + regionHeight;
      if i == n - 1 {
        endY := height;
      }
      jobs := jobs + [Job(MakeRect(0, startY, width, endY), i)];
      i := i + 1;
    }
  }

  // ------------------------------------------------------------------
  // calculateGLCMFeaturesOptimized: horizontal pairs only.
  // ------------------------------------------------------------------

  /** The single offset (dx, dy) = (1, 0). */
  const Horizontal: seq<(int, int)> := [(1, 0)]

  /** The table of horizontal pairs over [Min.X, Max.X-1) x [Min.Y, Max.Y-1). */
  function HorizontalTable(img: Image, region: Rect): Glcm
  {
    GlcmOf(PairBag(img, Horizontal, PairGrid(region)))
  }

  lemma HorizontalPairsAt(img: Image, x: int, y: int)
    ensures PairsAt(img, x, y, Horizontal) == multiset{(img.gray(x, y), img.gray(x + 1, y))}
  {
    assert Horizontal[..0] == [];
  }

  /** One row of the counting loops, each step an inline glcm[(g1, g2)]++. */
  method CountHorizontalRow(img: Image, y: int, x0: int, x1: int, glcm0: Glcm, ghost bag0: multiset<Pair>)
    returns (glcm: Glcm)
    requires glcm0 == GlcmOf(bag0)
    ensures glcm == GlcmOf(bag0 + BagRow(img, Horizontal, y, x0, x1))
  {
    glcm := glcm0;
    var x := x0;
    assert bag0 + BagRow(img, Horizontal, y, x0, x0) == bag0;
    while x < x1
      invariant x0 <= x && (x <= x1 || x == x0)
      invariant glcm == GlcmOf(bag0 + BagRow(img, Horizontal, y, x0, x))
      decreases x1 - x
    {
      HorizontalStep(img, y, x0, x, bag0);
      glcm := Bump(glcm, (img.gray(x, y), img.gray(x + 1, y)));
      x := x + 1;
    }
    BagRowDone(img, Horizontal, y, x0, x, x1);
  }

  lemma HorizontalStep(img: Image, y: int, x0: int, x: int, bag0: multiset<Pair>)
    requires x0 <= x
    ensures GlcmOf(bag0 + BagRow(img, Horizontal, y, x0, x + 1))
         == Bump(GlcmOf(bag0 + BagRow(img, Horizontal, y, x0, x)), (img.gray(x, y), img.gray(x + 1, y)))
  {
    var bag := bag0 + BagRow(img, Horizontal, y, x0, x);
    var k := (img.gray(x, y), img.gray(x + 1, y));
    HorizontalPairsAt(img, x, y);
    BagRowStep(img, Horizontal, y, x0, x, bag0, bag);
    BumpCounts(bag, k);
  }

  method CountHorizontalPairs(img: Image, region: Rect) returns (glcm: Glcm)
    ensures glcm == HorizontalTable(img, region)
    ensures CountSum(glcm) == Positions(PairGrid(region)) as real
  {
    var r := PairGrid(region);
    glcm := map[];
    var y := r.minY;
    GlcmOfEmpty();
    while y < r.maxY
      invariant r.minY <= y && (y <= r.maxY || y == r.minY)
      invariant glcm == GlcmOf(BagRows(img, Horizontal, r, y))
      decreases r.maxY - y
    {
      glcm := CountHorizontalRow(img, y, r.minX, r.maxX, glcm, BagRows(img, Horizontal, r, y));
      TableRowsStep(img, Horizontal, r, y, glcm);
      y := y + 1;
    }
    HorizontalRowsEnd(img, region, y, glcm);
  }

  lemma HorizontalRowsEnd(img: Image, region: Rect, y: int, glcm: Glcm)
    requires y == PairGrid(region).maxY || (y == PairGrid(region).minY && y >= PairGrid(region).maxY)
    requires glcm == GlcmOf(BagRows(img, Horizontal, PairGrid(region), y))
    ensures glcm == HorizontalTable(img, region)
    ensures CountSum(glcm) == Positions(PairGrid(region)) as real
  {
    BagRowsDone(img, Horizontal, PairGrid(region), y);
    HorizontalTotal(img, region);
  }

  /** The table holds one count per position of the pair grid: (h-1)*(w-1) of them. */
  lemma HorizontalTotal(img: Image, region: Rect)
    ensures CountSum(HorizontalTable(img, region)) == Positions(PairGrid(region)) as real
    ensures HorizontalTable(img, region) == map[] <==> Positions(PairGrid(region)) == 0
  {
    var bag := PairBag(img, Horizontal, PairGrid(region));
    GlcmOfTotal(bag);
    PairBagSize(img, Horizontal, PairGrid(region));
    CountSumPositive(HorizontalTable(img, region));
  }

  /** [contrast, energy, homogeneity] of a table, or [0, 0, 0] for an empty one. */
  ghost function TextureOf(g: Glcm): (f: seq<real>)
    ensures |f| == 3
  {
    TextureRanges(g);
    if g == map[] then [0.0, 0.0, 0.0] else [ContrastOf(g).value, EnergyOf(g), HomogeneityOf(g).value]
  }

  method CalculateGLCMFeaturesOptimized(img: Image, region: Rect) returns (f: seq<real>)
    ensures f == TextureOf(HorizontalTable(img, region))
    ensures Positions(PairGrid(region)) == 0 ==> f == [0.0, 0.0, 0.0]
    ensures Positions(PairGrid(region)) > 0 ==>
              f[0] >= 0.0 && 0.0 < f[1] <= 1.0 && 0.0 < f[2] <= 1.0
  {
    var glcm := CountHorizontalPairs(img, region);
    HorizontalTotal(img, region);
    TextureRanges(glcm);
    if |glcm| == 0 {
      assert glcm == map[];
      return [0.0, 0.0, 0.0];
    }
    var contrast := CalculateContrast(glcm);
    var energy := CalculateEnergy(glcm);
    var homogeneity := CalculateHomogeneity(glcm);
    f := [contrast.value, energy, homogeneity.value];
  }

  // ------------------------------------------------------------------
  // calculateShapeFeaturesOptimized: one pass, 8-neighbour edges inside
  // the region only.
  // ------------------------------------------------------------------

  /** (dx, dy) in the order of the two nested loops, dy outermost, (0, 0) skipped. */
  const Neighbours8: seq<(int, int)> :=
    [(-1, -1), (0, -1), (1, -1), (-1, 0), (1, 0), (-1, 1), (0, 1), (1, 1)]

  /** Some listed neighbour lies inside the region and is background. */
  function BackgroundNeighbour(img: Image, x: int, y: int, region: Rect, ds: seq<(int, int)>): (r: bool)
    ensures r <==> exists d :: d in ds && region.Contains(x + d.0, y + d.1) && !IsForeground(img.gray(x + d.0, y + d.1))
  {
    if ds == [] then false
    else
      (region.Contains(x + ds[0].0, y + ds[0].1) && !IsForeground(img.gray(x + ds[0].0, y + ds[0].1)))
      || BackgroundNeighbour(img, x, y, region, ds[1..])
  }

  /** isEdgePixelOptimized: a background 8-neighbour inside the region (the pixel itself is not tested). */
  function IsEdgePixelOptimized(img: Image, x: int, y: int, region: Rect): (r: bool)
    ensures r <==> exists d :: d in Neighbours8 && region.Contains(x + d.0, y + d.1) && !IsForeground(img.gray(x + d.0, y + d.1))
  {
    BackgroundNeighbour(img, x, y, region, Neighbours8)
  }

  /** The pixels the perimeter counter counts: foreground with an in-region background 8-neighbour. */
  function EdgeOptAt(img: Image, region: Rect): (int, int) -> bool
  {
    (x, y) => IsForeground(img.gray(x, y)) && IsEdgePixelOptimized(img, x, y, region)
  }

  /**
   * Away from the region's border the 8-neighbour rule finds every edge
   * pixel the 4-neighbour rule finds.
   */
  lemma FourEdgeIsEightEdge(img: Image, x: int, y: int, region: Rect)
    requires region.Contains(x - 1, y - 1) && region.Contains(x + 1, y + 1)
    requires IsEdgePixel(img, x, y)
    ensures EdgeOptAt(img, region)(x, y)
  {
    var d :| d in Neighbours4 && !IsForeground(img.gray(x + d.0, y + d.1));
    assert d in Neighbours8;
  }

  function Black(x: int, y: int): Byte { 0 }

  /** Dark everywhere except a bright pixel at (1, 1). */
  function BrightAtOneOne(x: int, y: int): Byte { if x == 1 && y == 1 then 255 else 0 }

  /** Bright everywhere except a dark pixel at (0, 0). */
  function DarkAtOrigin(x: int, y: int): Byte { if x == 0 && y == 0 then 0 else 255 }

  /** The two rules differ: a pixel whose only background neighbour is diagonal. */
  lemma DiagonalOnlyEdge(img: Image)
    requires img == Image(Rect(0, 0, 2, 2), BrightAtOneOne, Black)
    ensures EdgeOptAt(img, img.bounds)(0, 0) && !IsEdgePixel(img, 0, 0)
  {
    assert img.gray == BrightAtOneOne;
    assert (1, 1) in Neighbours8 && img.bounds.Contains(1, 1) && img.gray(1, 1) == 255;
    assert IsEdgePixelOptimized(img, 0, 0, img.bounds);
    forall d | d in Neighbours4
      ensures IsForeground(img.gray(0 + d.0, 0 + d.1))
    {
      assert d != (1, 1);
    }
    assert IsForeground(img.gray(0, 0));
    assert EdgeOptAt(img, img.bounds)(0, 0);
    assert NeighboursForeground(img, 0, 0, Neighbours4);
  }

  /** ... and at the border: a background pixel just outside the region counts only for the 4-neighbour rule. */
  lemma BorderOnlyEdge(img: Image)
    requires img == Image(Rect(0, 0, 1, 1), DarkAtOrigin, Black)
    ensures IsEdgePixel(img, 0, 0) && !EdgeOptAt(img, img.bounds)(0, 0)
  {
    assert (0, 1) in Neighbours4;
    assert !IsForeground(img.gray(0, 1));
  }

  /** The single pass of calculateShapeFeaturesOptimized; the box holds minX, maxX, minY and maxY. */
  method ScanShape(img: Image, region: Rect) returns (area: nat, perimeter: nat, box: Box)
    ensures area == CountIn(FgAt(img), region)
    ensures perimeter == CountIn(EdgeOptAt(img, region), region)
    ensures box == BoxIn(FgAt(img), region)
    ensures perimeter <= area
  {
    var r := region;
    box := Sentinel(r);
    area, perimeter := 0, 0;
    var y := r.minY;
    while y < r.maxY
      invariant r.minY <= y && (y <= r.maxY || y == r.minY)
      invariant area == CountRows(FgAt(img), r, y)
      invariant perimeter == CountRows(EdgeOptAt(img, r), r, y)
      invariant box == BoxRows(FgAt(img), r, y)
      decreases r.maxY - y
    {
      area, perimeter, box := ScanShapeRow(img, r, y, area, perimeter, box);
      ScanRowsStep(FgAt(img), r, y);
      ScanRowsStep(EdgeOptAt(img, r), r, y);
      y := y + 1;
    }
    ScanRowsDone(FgAt(img), r, y);
    ScanRowsDone(EdgeOptAt(img, r), r, y);
    CountMono(FgAt(img), EdgeOptAt(img, r), r);
  }

  /** The column loop of the single pass over row `y`. */
  method ScanShapeRow(img: Image, r: Rect, y: int, area0: nat, perimeter0: nat, box0: Box)
    returns (area: nat, perimeter: nat, box: Box)
    ensures area == area0 + CountRow(FgAt(img), y, r.minX, r.maxX)
    ensures perimeter == perimeter0 + CountRow(EdgeOptAt(img, r), y, r.minX, r.maxX)
    ensures box == BoxRow(FgAt(img), y, r.minX, r.maxX, box0)
  {
    area, perimeter, box := area0, perimeter0, box0;
    var x := r.minX;
    while x < r.maxX
      invariant r.minX <= x && (x <= r.maxX || x == r.minX)
      invariant area == area0 + CountRow(FgAt(img), y, r.minX, x)
      invariant perimeter == perimeter0 + CountRow(EdgeOptAt(img, r), y, r.minX, x)
      invariant box == BoxRow(FgAt(img), y, r.minX, x, box0)
      decreases r.maxX - x
    {
      ScanRowStep(FgAt(img), y, r.minX, x, box0);
      ScanRowStep(EdgeOptAt(img, r), y, r.minX, x, box0);
      if IsForeground(img.gray(x, y)) {
        area := area + 1;
        if x < box.minX { box := box.(minX := x); }
        if x > box.maxX { box := box.(maxX := x); }
        if y < box.minY { box := box.(minY := y); }
        if y > box.maxY { box := box.(maxY := y); }
        if IsEdgePixelOptimized(img, x, y, r) {
          perimeter := perimeter + 1;
        }
      }
      x := x + 1;
    }
    ScanRowDone(FgAt(img), y, r.minX, x, r.maxX, box0);
    ScanRowDone(EdgeOptAt(img, r), y, r.minX, x, r.maxX, box0);
  }

  /** The result rule: [0, 0] when nothing or no edge was found, else circularity and width / max(height, 1). */
  function ShapeOptimized(area: nat, perimeter: nat, b: Box): (f: seq<real>)
    ensures |f| == 2
  {
    if area == 0 || perimeter == 0 then [0.0, 0.0]
    else
      [(4.0 * Pi * area as real) / (perimeter * perimeter) as real,
       (b.maxX - b.minX) as real / Max((b.maxY - b.minY) as real, 1.0)]
  }

  method CalculateShapeFeaturesOptimized(img: Image, region: Rect) returns (f: seq<real>)
    requires region.WellFormed()
    ensures f == ShapeOptimized(CountIn(FgAt(img), region), CountIn(EdgeOptAt(img, region), region), BoxIn(FgAt(img), region))
    ensures CountIn(EdgeOptAt(img, region), region) == 0 ==> f == [0.0, 0.0]
    ensures CountIn(EdgeOptAt(img, region), region) > 0 ==> f[0] > 0.0 && 0.0 <= f[1] < region.Dx() as real
  {
    var area, perimeter, box := ScanShape(img, region);
    f := ShapeOptimized(area, perimeter, box);
    if area > 0 && perimeter > 0 {
      BoxInFacts(FgAt(img), region);
      AspectBelowWidth(box, region);
    }
  }

  /** A box inside the region is narrower than the region, whatever its height. */
  lemma AspectBelowWidth(b: Box, r: Rect)
    requires InsideOrSentinel(b, r, true)
    ensures 0.0 <= (b.maxX - b.minX) as real / Max((b.maxY - b.minY) as real, 1.0) < r.Dx() as real
  {
    var w := (b.maxX - b.minX) as real;
    var h := Max((b.maxY - b.minY) as real, 1.0);
    assert w / h <= w by {
      assert w / h * h == w;
    }
  }

  // ------------------------------------------------------------------
  // The worker and the reassembly of its results.
  // ------------------------------------------------------------------

  const GlcmNames: seq<string> := ["glcm_contrast", "glcm_energy", "glcm_homogeneity"]
  const ShapeNames: seq<string> := ["circularity", "aspect_ratio"]

  /** The five keys every worker result holds. */
  const RegionKeys: set<string> := {"glcm_contrast", "glcm_energy", "glcm_homogeneity", "circularity", "aspect_ratio"}

  /** The loop `for i, name := range names { if i < len(values) { m[name] = values[i] } }`. */
  method StoreNamed(m0: FeatureMap, names: seq<string>, values: seq<real>) returns (m: FeatureMap)
    requires forall i, j :: 0 <= i < j < |names| ==> names[i] != names[j]
    ensures m.Keys == m0.Keys + (set i | 0 <= i < |names| && i < |values| :: names[i])
    ensures forall i :: 0 <= i < |names| && i < |values| ==> m[names[i]] == values[i]
    ensures forall k :: k in m0 && k !in names ==> m[k] == m0[k]
  {
    m := m0;
    var i := 0;
    while i < |names|
      invariant 0 <= i <= |names|
      invariant m.Keys == m0.Keys + (set j | 0 <= j < i && j < |values| :: names[j])
      invariant forall j :: 0 <= j < i && j < |values| ==> m[names[j]] == values[j]
      invariant forall k :: k in m0 && k !in names ==> m[k] == m0[k]
    {
      if i < |values| {
        m := m[names[i] := values[i]];
      }
      i := i + 1;
    }
  }

  lemma NamedKeys(names: seq<string>, values: seq<real>)
    requires |values| >= |names|
    ensures (set i | 0 <= i < |names| && i < |values| :: names[i]) == set k | k in names
  {
    forall k | k in names
      ensures k in (set i | 0 <= i < |names| && i < |values| :: names[i])
    {
      var i :| 0 <= i < |names| && names[i] == k;
    }
  }

  /** What a worker computes for a region. */
  ghost function RegionFeatures(img: Image, region: Rect): (m: FeatureMap)
    requires region.WellFormed()
    ensures m.Keys == RegionKeys
  {
    var t := TextureOf(HorizontalTable(img, region));
    var s := ShapeOptimized(CountIn(FgAt(img), region), CountIn(EdgeOptAt(img, region), region), BoxIn(FgAt(img), region));
    map["glcm_contrast" := t[0], "glcm_energy" := t[1], "glcm_homogeneity" := t[2],
        "circularity" := s[0], "aspect_ratio" := s[1]]
  }

  /** Storing three then two named values yields the five-key map of those values. */
  lemma StoredFive(m: FeatureMap, t: seq<real>, s: seq<real>)
    requires |t| == 3 && |s| == 2
    requires m.Keys == RegionKeys
    requires m["glcm_contrast"] == t[0] && m["glcm_energy"] == t[1] && m["glcm_homogeneity"] == t[2]
    requires m["circularity"] == s[0] && m["aspect_ratio"] == s[1]
    ensures m == map["glcm_contrast" := t[0], "glcm_energy" := t[1], "glcm_homogeneity" := t[2],
                     "circularity" := s[0], "aspect_ratio" := s[1]]
  {
  }

  /** The worker body for one job: all five keys, never an error. */
  method Worker(img: Image, region: Rect) returns (features: FeatureMap)
    requires region.WellFormed()
    ensures features == RegionFeatures(img, region)
    ensures features.Keys == RegionKeys
  {
    features := map[];
    var glcmFeatures := CalculateGLCMFeaturesOptimized(img, region);
    NamesDistinct();
    ghost var empty := features;
    features := StoreNamed(features, GlcmNames, glcmFeatures);
    GlcmStored(empty, features, glcmFeatures);
    var shapeFeatures := CalculateShapeFeaturesOptimized(img, region);
    ghost var before := features;
    features := StoreNamed(features, ShapeNames, shapeFeatures);
    ShapeStored(before, features, glcmFeatures, shapeFeatures);
  }

  lemma NamesDistinct()
    ensures forall i, j :: 0 <= i < j < |GlcmNames| ==> GlcmNames[i] != GlcmNames[j]
    ensures forall i, j :: 0 <= i < j < |ShapeNames| ==> ShapeNames[i] != ShapeNames[j]
  {
    assert "glcm_contrast"[5] == 'c' && "glcm_energy"[5] == 'e' && "glcm_homogeneity"[5] == 'h';
    assert "circularity"[0] == 'c' && "aspect_ratio"[0] == 'a';
  }

  /** After the texture loop the map holds exactly the three texture values. */
  lemma GlcmStored(m0: FeatureMap, m: FeatureMap, t: seq<real>)
    requires |t| == 3 && m0 == map[]
    requires m.Keys == m0.Keys + (set i | 0 <= i < |GlcmNames| && i < |t| :: GlcmNames[i])
    requires forall i :: 0 <= i < |GlcmNames| && i < |t| ==> m[GlcmNames[i]] == t[i]
    ensures m.Keys == {"glcm_contrast", "glcm_energy", "glcm_homogeneity"}
    ensures m["glcm_contrast"] == t[0] && m["glcm_energy"] == t[1] && m["glcm_homogeneity"] == t[2]
  {
    NamedKeys(GlcmNames, t);
    assert GlcmNames[0] == "glcm_contrast" && GlcmNames[1] == "glcm_energy" && GlcmNames[2] == "glcm_homogeneity";
  }

  /** After the shape loop the map is the five-key map of the worker. */
  lemma ShapeStored(m0: FeatureMap, m: FeatureMap, t: seq<real>, s: seq<real>)
    requires |t| == 3 && |s| == 2
    requires m0.Keys == {"glcm_contrast", "glcm_energy", "glcm_homogeneity"}
    requires m0["glcm_contrast"] == t[0] && m0["glcm_energy"] == t[1] && m0["glcm_homogeneity"] == t[2]
    requires m.Keys == m0.Keys + (set i | 0 <= i < |ShapeNames| && i < |s| :: ShapeNames[i])
    requires forall i :: 0 <= i < |ShapeNames| && i < |s| ==> m[ShapeNames[i]] == s[i]
    requires forall k :: k in m0 && k !in ShapeNames ==> m[k] == m0[k]
    ensures m == map["glcm_contrast" := t[0], "glcm_energy" := t[1], "glcm_homogeneity" := t[2],
                     "circularity" := s[0], "aspect_ratio" := s[1]]
  {
    NamedKeys(ShapeNames, s);
    assert ShapeNames[0] == "circularity" && ShapeNames[1] == "aspect_ratio";
    assert "glcm_contrast" !in ShapeNames && "glcm_energy" !in ShapeNames && "glcm_homogeneity" !in ShapeNames by {
      assert "glcm_contrast"[0] == 'g' && "glcm_energy"[0] == 'g' && "glcm_homogeneity"[0] == 'g';
      assert "circularity"[0] == 'c' && "aspect_ratio"[0] == 'a';
    }
    StoredFive(m, t, s);
  }

  /** A FeatureResult: the job it answers, its features, and its error if any. */
  datatype WorkerResult = WorkerResult(jobID: nat, features: FeatureMap, err: Option<string>)

  /** The arrival order holds each job id below n exactly once. */
  predicate IsArrival(arrivals: seq<WorkerResult>, n: nat)
  {
    |arrivals| == n &&
    (forall k :: 0 <= k < n ==> arrivals[k].jobID < n) &&
    (forall k, l :: 0 <= k < l < n ==> arrivals[k].jobID != arrivals[l].jobID)
  }

  /** The index of the first result carrying an error, if any. */
  function FirstError(arrivals: seq<WorkerResult>): (r: Option<nat>)
    ensures r.Some? ==> r.value < |arrivals| && arrivals[r.value].err.Some? &&
                        forall k :: 0 <= k < r.value ==> arrivals[k].err.None?
    ensures r.None? ==> forall k :: 0 <= k < |arrivals| ==> arrivals[k].err.None?
  {
    if arrivals == [] then None
    else if arrivals[0].err.Some? then Some(0)
    else
      var rest := FirstError(arrivals[1..]);
      if rest.Some? then Some(rest.value + 1) else None
  }

  /** What slot `j` holds after the given results were stored (a nil map if none was for j). */
  function SlotFor(arrivals: seq<WorkerResult>, j: nat): FeatureMap
  {
    if arrivals == [] then map[]
    else if arrivals[|arrivals| - 1].jobID == j then arrivals[|arrivals| - 1].features
    else SlotFor(arrivals[..|arrivals| - 1], j)
  }

  /**
   * The collection loop: slot `jobID` receives that job's features; the
   * first error aborts with that error.
   */
  method CollectResults(arrivals: seq<WorkerResult>, n: nat) returns (r: Result<seq<FeatureMap>>)
    requires IsArrival(arrivals, n)
    ensures FirstError(arrivals).Some? ==> r == Err(arrivals[FirstError(arrivals).value].err.value)
    ensures FirstError(arrivals).None? ==>
              r.Ok? && |r.value| == n && forall j :: 0 <= j < n ==> r.value[j] == SlotFor(arrivals, j)
  {
    var regionFeatures: seq<FeatureMap> := seq(n, _ => map[]);
    var i := 0;
    while i < n
      invariant 0 <= i <= n && |regionFeatures| == n
      invariant forall k :: 0 <= k < i ==> arrivals[k].err.None?
      invariant forall j :: 0 <= j < n ==> regionFeatures[j] == SlotFor(arrivals[..i], j)
    {
      var result := arrivals[i];
      if result.err.Some? {
        return Err(result.err.value);
      }
      assert arrivals[..i + 1][..i] == arrivals[..i];
      regionFeatures := regionFeatures[result.jobID := result.features];
      i := i + 1;
    }
    assert arrivals[..n] == arrivals;
    r := Ok(regionFeatures);
  }

  /** With distinct ids, slot j holds the features of the result whose id is j, if any. */
  lemma {:induction false} SlotForFound(arrivals: seq<WorkerResult>, j: nat, k: nat)
    requires k < |arrivals| && arrivals[k].jobID == j
    requires forall a, b :: 0 <= a < b < |arrivals| ==> arrivals[a].jobID != arrivals[b].jobID
    ensures SlotFor(arrivals, j) == arrivals[k].features
    decreases |arrivals|
  {
    if k < |arrivals| - 1 {
      SlotForFound(arrivals[..|arrivals| - 1], j, k);
    }
  }

  lemma {:induction false} SlotForMissing(arrivals: seq<WorkerResult>, j: nat)
    requires forall k :: 0 <= k < |arrivals| ==> arrivals[k].jobID != j
    ensures SlotFor(arrivals, j) == map[]
    decreases |arrivals|
  {
    if arrivals != [] {
      SlotForMissing(arrivals[..|arrivals| - 1], j);
    }
  }

  /** The reassembled slots do not depend on the order in which the results arrived. */
  lemma ReassemblyIgnoresOrder(a: seq<WorkerResult>, b: seq<WorkerResult>, n: nat, j: nat)
    requires IsArrival(a, n) && IsArrival(b, n) && multiset(a) == multiset(b)
    ensures SlotFor(a, j) == SlotFor(b, j)
  {
    if k :| 0 <= k < n && a[k].jobID == j {
      assert a[k] in multiset(b);
      var l :| 0 <= l < n && b[l] == a[k];
      SlotForFound(a, j, k);
      SlotForFound(b, j, l);
    } else {
      forall l | 0 <= l < n
        ensures b[l].jobID != j
      {
        assert b[l] in multiset(a);
      }
      SlotForMissing(a, j);
      SlotForMissing(b, j);
    }
  }

  // ------------------------------------------------------------------
  // combineRegionFeatures: per-key mean over the regions, plus the three
  // image-wide keys.
  // ------------------------------------------------------------------

  /** combined[k] += v / n for every entry of one region's map. */
  function AddScaled(acc: FeatureMap, f: FeatureMap, n: real): (m: FeatureMap)
    requires n != 0.0
    ensures m.Keys == acc.Keys + f.Keys
  {
    map k | k in acc.Keys + f.Keys :: Lookup(acc, k) + Lookup(f, k) / n
  }

  /** The accumulated map after the first regions. */
  function Accumulate(regions: seq<FeatureMap>, n: real): FeatureMap
    requires n != 0.0
  {
    if regions == [] then map[] else AddScaled(Accumulate(regions[..|regions| - 1], n), regions[|regions| - 1], n)
  }

  /** Sum over the regions of one key's value (0 where absent). */
  function KeySum(regions: seq<FeatureMap>, k: string): real
  {
    if regions == [] then 0.0 else KeySum(regions[..|regions| - 1], k) + Lookup(regions[|regions| - 1], k)
  }

  function KeyUnion(regions: seq<FeatureMap>): set<string>
  {
    if regions == [] then {} else KeyUnion(regions[..|regions| - 1]) + regions[|regions| - 1].Keys
  }

  lemma DivAdd(a: real, b: real, n: real)
    requires n != 0.0
    ensures (a + b) / n == a / n + b / n
  {
    assert (a / n + b / n) * n == a + b;
  }

  /** The accumulation holds exactly the keys seen, each with its sum divided by n. */
  lemma {:induction false} AccumulateMeans(regions: seq<FeatureMap>, n: real)
    requires n != 0.0
    ensures Accumulate(regions, n).Keys == KeyUnion(regions)
    ensures forall k :: Lookup(Accumulate(regions, n), k) == KeySum(regions, k) / n
  {
    if regions != [] {
      var prefix := regions[..|regions| - 1];
      AccumulateMeans(prefix, n);
      forall k
        ensures Lookup(Accumulate(regions, n), k) == KeySum(regions, k) / n
      {
        DivAdd(KeySum(prefix, k), Lookup(regions[|regions| - 1], k), n);
      }
    }
  }

  /** The inner loop over one region's entries, in whatever order the map yields them. */
  method AddRegion(acc: FeatureMap, features: FeatureMap, n: real) returns (combined: FeatureMap)
    requires n != 0.0
    ensures combined == AddScaled(acc, features, n)
  {
    combined := acc;
    var rest := features.Keys;
    while rest != {}
      invariant rest <= features.Keys
      invariant combined.Keys == acc.Keys + (features.Keys - rest)
      invariant forall k :: k in combined ==> combined[k] == Lookup(acc, k) + (if k in features && k !in rest then features[k] / n else 0.0)
      decreases rest
    {
      var key :| key in rest;
      var value := features[key];
      combined := combined[key := Lookup(combined, key) + value / n];
      rest := rest - {key};
    }
  }

  const ImageKeys: set<string> := {"image_width", "image_height", "image_area"}

  /** combineRegionFeatures. */
  method CombineRegionFeatures(regionFeatures: seq<FeatureMap>, bounds: Rect) returns (combined: FeatureMap)
    ensures combined.Keys == KeyUnion(regionFeatures) + ImageKeys
    ensures forall k :: k in combined && k !in ImageKeys ==> combined[k] == KeySum(regionFeatures, k) / |regionFeatures| as real
    ensures combined["image_width"] == bounds.Dx() as real
    ensures combined["image_height"] == bounds.Dy() as real
    ensures combined["image_area"] == (bounds.Dx() * bounds.Dy()) as real
  {
    combined := map[];
    var numRegions := |regionFeatures| as real;
    var i := 0;
    while i < |regionFeatures|
      invariant 0 <= i <= |regionFeatures|
      invariant numRegions != 0.0 ==> combined == Accumulate(regionFeatures[..i], numRegions)
      invariant numRegions == 0.0 ==> combined == map[]
    {
      assert regionFeatures[..i + 1][..i] == regionFeatures[..i];
      combined := AddRegion(combined, regionFeatures[i], numRegions);
      i := i + 1;
    }
    assert regionFeatures[..|regionFeatures|] == regionFeatures;
    if numRegions != 0.0 {
      AccumulateMeans(regionFeatures, numRegions);
    }
    combined := combined["image_width" := bounds.Dx() as real];
    combined := combined["image_height" := bounds.Dy() as real];
    combined := combined["image_area" := (bounds.Dx() * bounds.Dy()) as real];
  }

  // ------------------------------------------------------------------
  // extractLocalFeaturesParallel: jobs, the worker loop, reassembly and
  // averaging.
  // ------------------------------------------------------------------

  /** A permutation of the job ids 0 .. n-1: the order results arrive in. */
  predicate IsOrder(order: seq<nat>, n: nat)
  {
    |order| == n &&
    (forall k :: 0 <= k < n ==> order[k] < n) &&
    (forall k, l :: 0 <= k < l < n ==> order[k] != order[l]) &&
    (forall j :: 0 <= j < n ==> j in order)
  }

  /** The features the worker computes for each band, in job order. */
  ghost function BandFeatures(img: Image, n: nat): (s: seq<FeatureMap>)
    requires n >= 1 && img.bounds.WellFormed()
    ensures |s| == n
    ensures forall i :: 0 <= i < n ==> s[i].Keys == RegionKeys
  {
    seq(n, i requires 0 <= i < n => RegionFeatures(img, Band(img.bounds.Dx(), img.bounds.Dy(), n, i)))
  }

  lemma {:induction false} KeyUnionOfSame(regions: seq<FeatureMap>, keys: set<string>)
    requires |regions| >= 1
    requires forall i :: 0 <= i < |regions| ==> regions[i].Keys == keys
    ensures KeyUnion(regions) == keys
    decreases |regions|
  {
    if |regions| > 1 {
      KeyUnionOfSame(regions[..|regions| - 1], keys);
    }
  }

  /** The worker pool, run one job at a time: result i answers job i. */
  method RunJobs(img: Image, jobs: seq<Job>, n: nat) returns (computed: seq<WorkerResult>)
    requires n >= 1 && img.bounds.WellFormed()
    requires |jobs| == n && forall i :: 0 <= i < n ==> jobs[i] == Job(Band(img.bounds.Dx(), img.bounds.Dy(), n, i), i)
    ensures |computed| == n
    ensures forall j :: 0 <= j < n ==> computed[j] == WorkerResult(j, BandFeatures(img, n)[j], None)
  {
    computed := [];
    var i := 0;
    while i < n
      invariant 0 <= i <= n && |computed| == i
      invariant forall j :: 0 <= j < i ==> computed[j] == WorkerResult(j, BandFeatures(img, n)[j], None)
    {
      var features := Worker(img, jobs[i].region);
      computed := computed + [WorkerResult(jobs[i].jobID, features, None)];
      i := i + 1;
    }
  }

  /** The results in arrival order; none carries an error. */
  method Arrive(computed: seq<WorkerResult>, n: nat, order: seq<nat>) returns (regionFeatures: seq<FeatureMap>)
    requires IsOrder(order, n) && |computed| == n
    requires forall j :: 0 <= j < n ==> computed[j].jobID == j && computed[j].err.None?
    ensures |regionFeatures| == n
    ensures forall j :: 0 <= j < n ==> regionFeatures[j] == computed[j].features
  {
    var arrivals := seq(n, k requires 0 <= k < n => computed[order[k]]);
    assert IsArrival(arrivals, n);
    assert FirstError(arrivals).None?;
    var collected := CollectResults(arrivals, n);
    regionFeatures := collected.value;
    forall j | 0 <= j < n
      ensures regionFeatures[j] == computed[j].features
    {
      assert j in order;
      var k :| 0 <= k < |order| && order[k] == j;
      SlotForFound(arrivals, j, k);
    }
  }

  /**
   * The outcome of the parallel extraction: the five region keys, each the
   * mean over the `n` bands, plus the image size.
   */
  ghost predicate MeansOverBands(img: Image, n: nat, features: FeatureMap)
    requires n >= 1 && img.bounds.WellFormed()
  {
    features.Keys == RegionKeys + ImageKeys &&
    (forall k :: k in RegionKeys ==> features[k] == KeySum(BandFeatures(img, n), k) / n as real) &&
    features["image_width"] == img.bounds.Dx() as real &&
    features["image_height"] == img.bounds.Dy() as real &&
    features["image_area"] == (img.bounds.Dx() * img.bounds.Dy()) as real
  }

  /**
   * extractLocalFeaturesParallel with `n` workers, the results arriving in
   * `order`: the five region keys, each the mean over the bands, plus the
   * image size. Nothing in the outcome depends on `order`. Its error result
   * is always nil, since no worker reports an error.
   */
  method ExtractLocalFeaturesParallel(img: Image, n: nat, order: seq<nat>) returns (features: FeatureMap)
    requires n >= 1 && img.bounds.WellFormed()
    requires IsOrder(order, n)
    ensures MeansOverBands(img, n, features)
  {
    var regionFeatures := ComputeBands(img, n, order);
    features := CombineRegionFeatures(regionFeatures, img.bounds);
    RegionMeans(regionFeatures, features);
  }

  /** Submitting the jobs, running them and reassembling the results in job order. */
  method ComputeBands(img: Image, n: nat, order: seq<nat>) returns (regionFeatures: seq<FeatureMap>)
    requires n >= 1 && img.bounds.WellFormed()
    requires IsOrder(order, n)
    ensures regionFeatures == BandFeatures(img, n)
  {
    var jobs := SubmitJobs(img.bounds.Dx(), img.bounds.Dy(), n);
    var computed := RunJobs(img, jobs, n);
    regionFeatures := Arrive(computed, n, order);
  }

  /** What combineRegionFeatures returns on regions that all carry the five region keys. */
  lemma RegionMeans(regions: seq<FeatureMap>, combined: FeatureMap)
    requires |regions| >= 1
    requires forall i :: 0 <= i < |regions| ==> regions[i].Keys == RegionKeys
    requires combined.Keys == KeyUnion(regions) + ImageKeys
    requires forall k :: k in combined && k !in ImageKeys ==> combined[k] == KeySum(regions, k) / |regions| as real
    ensures combined.Keys == RegionKeys + ImageKeys
    ensures forall k :: k in RegionKeys ==> combined[k] == KeySum(regions, k) / |regions| as real
  {
    KeyUnionOfSame(regions, RegionKeys);
    KeyKindsApart();
    forall k | k in RegionKeys
      ensures combined[k] == KeySum(regions, k) / |regions| as real
    {
      assert k in combined && k !in ImageKeys;
    }
  }

  lemma KeyKindsApart()
    ensures RegionKeys !! ImageKeys
  {
  }

  // ------------------------------------------------------------------
  // FeatureCache: a TTL map; time.Since becomes `now - timestamp`.
  // ------------------------------------------------------------------

  /** What the Python service reported, as the advanced map holds it. */
  datatype AdvancedValue = Numbers(values: seq<real>) | Patterns(patterns: seq<StriationPattern>) | Number(value: real)

  type Advanced = map<string, AdvancedValue>

  datatype CachedFeatures = CachedFeatures(features: FeatureMap, advanced: Advanced, timestamp: int)

  /** CachedFeatures{}: nil maps and the zero time. */
  const NoFeatures: CachedFeatures := CachedFeatures(map[], map[], 0)

  /** Five minutes in nanoseconds. */
  const FeatureCacheTTL: int := 5 * 60 * 1_000_000_000

  /** The entry a lookup at `now` returns: present and no older than the TTL. */
  function Fresh(cache: map<string, CachedFeatures>, key: string, now: int, ttl: int): (r: Option<CachedFeatures>)
    ensures r.Some? <==> key in cache && now - cache[key].timestamp <= ttl
    ensures r.Some? ==> r.value == cache[key]
  {
    if key in cache && now - cache[key].timestamp <= ttl then Some(cache[key]) else None
  }

  class FeatureCache {
    var cache: map<string, CachedFeatures>
    const ttl: int

    constructor()
      ensures cache == map[] && ttl == FeatureCacheTTL
    {
      cache := map[];
      ttl := FeatureCacheTTL;
    }

    /** get: a miss on an absent key; an expired entry is deleted and misses. */
    method Get(key: string, now: int) returns (cached: CachedFeatures, found: bool)
      modifies this
      ensures found ==> Fresh(old(cache), key, now, ttl) == Some(cached) && cache == old(cache)
      ensures !found ==> Fresh(old(cache), key, now, ttl).None? && cached == NoFeatures && cache == old(cache) - {key}
    {
      if key !in cache {
        return NoFeatures, false;
      }
      var entry := cache[key];
      if now - entry.timestamp > ttl {
        cache := cache - {key};
        return NoFeatures, false;
      }
      return entry, true;
    }

    /** set: the entry is replaced whole. */
    method Set(key: string, features: CachedFeatures)
      modifies this
      ensures cache == old(cache)[key := features]
    {
      cache := cache[key := features];
    }
  }

  /** An entry just stored is found until it is older than the TTL; other keys are unaffected. */
  lemma FreshAfterSet(cache: map<string, CachedFeatures>, key: string, f: CachedFeatures, now: int, ttl: int, other: string)
    requires other != key
    ensures Fresh(cache[key := f], key, now, ttl) == (if now - f.timestamp <= ttl then Some(f) else None)
    ensures Fresh(cache[key := f], other, now, ttl) == Fresh(cache, other, now, ttl)
  {
  }

  /** An expired entry, once deleted, stays a miss at every later time. */
  lemma ExpiredStaysMissing(cache: map<string, CachedFeatures>, key: string, now: int, later: int, ttl: int)
    requires Fresh(cache, key, now, ttl).None?
    ensures Fresh(cache - {key}, key, later, ttl).None?
  {
  }

  // ------------------------------------------------------------------
  // The cache key: basename_WxH.
  // ------------------------------------------------------------------

  /** The path without its trailing slashes. */
  function TrimTrailingSlashes(s: string): (r: string)
    ensures r <= s
    ensures r == [] || r[|r| - 1] != '/'
    ensures |s| > 0 && s[|s| - 1] != '/' ==> r == s
  {
    if s != [] && s[|s| - 1] == '/' then TrimTrailingSlashes(s[..|s| - 1]) else s
  }

  /** The text after the last slash (all of it when there is none). */
  function AfterLastSlash(s: string): (r: string)
    ensures '/' !in r
    ensures |r| <= |s| && r == s[|s| - |r|..]
  {
    if s == [] || s[|s| - 1] == '/' then [] else AfterLastSlash(s[..|s| - 1]) + [s[|s| - 1]]
  }

  /**
   * filepath.Base on a Unix system: "." for the empty path, "/" for a path
   * of slashes only, otherwise the last element without trailing slashes.
   */
  function FilepathBase(path: string): (r: string)
    ensures |r| >= 1
    ensures r == "/" || '/' !in r
  {
    if path == [] then "."
    else
      var b := AfterLastSlash(TrimTrailingSlashes(path));
      if b == [] then "/" else b
  }

  lemma {:induction false} AfterLastSlashOfJoined(dir: string, name: string)
    requires '/' !in name
    ensures AfterLastSlash(dir + "/" + name) == name
    decreases |name|
  {
    var s := dir + "/" + name;
    if name == [] {
      assert s[|s| - 1] == '/';
    } else {
      var init := name[..|name| - 1];
      assert s[..|s| - 1] == dir + "/" + init;
      AfterLastSlashOfJoined(dir, init);
      assert init + [name[|name| - 1]] == name;
    }
  }

  /** The base of dir/name is name, whatever the directory. */
  lemma BaseOfJoined(dir: string, name: string)
    requires name != [] && '/' !in name
    ensures FilepathBase(dir + "/" + name) == name
  {
    var s := dir + "/" + name;
    assert s[|s| - 1] == name[|name| - 1];
    AfterLastSlashOfJoined(dir, name);
  }

  /** generateCacheKey: "%s_%dx%d" of the base name, width and height. */
  function CacheKey(path: string, bounds: Rect): string
  {
    FilepathBase(path) + SizeSuffix(bounds)
  }

  /** The "_%dx%d" part of the key. */
  function SizeSuffix(bounds: Rect): string
  {
    "_" + (IntToString(bounds.Dx()) + "x" + IntToString(bounds.Dy()))
  }

  /** Equal file names in different directories share a key when the sizes agree. */
  lemma CacheKeyCollision(dir1: string, dir2: string, name: string, bounds: Rect)
    requires name != [] && '/' !in name
    ensures CacheKey(dir1 + "/" + name, bounds) == CacheKey(dir2 + "/" + name, bounds)
  {
    BaseOfJoined(dir1, name);
    BaseOfJoined(dir2, name);
  }

  lemma SuffixCancel(a: string, b: string, suffix: string)
    requires a + suffix == b + suffix
    ensures a == b
  {
    assert a == (a + suffix)[..|a|];
    assert b == (b + suffix)[..|b|];
  }

  /** Different base names never share a key when the sizes agree. */
  lemma CacheKeyNames(p1: string, p2: string, bounds: Rect)
    requires FilepathBase(p1) != FilepathBase(p2)
    ensures CacheKey(p1, bounds) != CacheKey(p2, bounds)
  {
    if CacheKey(p1, bounds) == CacheKey(p2, bounds) {
      SuffixCancel(FilepathBase(p1), FilepathBase(p2), SizeSuffix(bounds));
    }
  }

  lemma XAfter(a: string, b: string)
    ensures (a + "x" + b)[|a|] == 'x'
  {
  }

  /** Two digit strings followed by 'x' and anything: equal texts split equally. */
  lemma SplitAtX(a: string, b: string, c: string, d: string)
    requires AllDigits(a) && AllDigits(c)
    requires a + "x" + b == c + "x" + d
    ensures a == c && b == d
  {
    var s := a + "x" + b;
    if |a| < |c| {
      XAfter(a, b);
      assert false;
    } else if |c| < |a| {
      XAfter(c, d);
      assert false;
    }
    assert a == s[..|a|] == c;
    assert b == s[|a| + 1..] == d;
  }

  /** One file with two different sizes gets two different keys. */
  lemma CacheKeySizes(path: string, b1: Rect, b2: Rect)
    requires b1.WellFormed() && b2.WellFormed()
    requires b1.Dx() != b2.Dx() || b1.Dy() != b2.Dy()
    ensures CacheKey(path, b1) != CacheKey(path, b2)
  {
    var w1, h1 := NatToString(b1.Dx()), NatToString(b1.Dy());
    var w2, h2 := NatToString(b2.Dx()), NatToString(b2.Dy());
    if CacheKey(path, b1) == CacheKey(path, b2) {
      var base := FilepathBase(path);
      assert SizeSuffix(b1) == CacheKey(path, b1)[|base|..];
      assert SizeSuffix(b2) == CacheKey(path, b2)[|base|..];
      assert w1 + "x" + h1 == SizeSuffix(b1)[1..];
      assert w2 + "x" + h2 == SizeSuffix(b2)[1..];
      SplitAtX(w1, h1, w2, h2);
      NatToStringInjective(b1.Dx(), b2.Dx());
      NatToStringInjective(b1.Dy(), b2.Dy());
    }
  }

  // ------------------------------------------------------------------
  // ExtractFeaturesOptimized.
  // ------------------------------------------------------------------

  /**
   * extractAdvancedFeaturesOptimized as its caller sees it: the six
   * response fields when the service is configured, the temporary file
   * was written and a non-nil response came back; an empty map otherwise
   * (a failure is logged and replaced by the empty map).
   */
  function AdvancedOf(hasPython: bool, saved: bool, reply: Result<Option<PythonFeatures>>): (a: Advanced)
    ensures a != map[] <==> hasPython && saved && reply.Ok? && reply.value.Some?
    ensures a != map[] ==> a.Keys == {"hu_moments", "firing_pin_marks", "striation_patterns", "contour_area", "contour_len", "lbp_uniformity"}
  {
    if hasPython && saved && reply.Ok? && reply.value.Some? then
      var py := reply.value.value;
      var a := map["hu_moments" := Numbers(py.huMoments), "firing_pin_marks" := Numbers(py.firingPinRadii),
                   "striation_patterns" := Patterns(py.striations), "contour_area" := Number(py.contourArea),
                   "contour_len" := Number(py.contourLen), "lbp_uniformity" := Number(py.lbpUniformity)];
      assert "hu_moments" in a;
      a
    else map[]
  }

  /**
   * What ExtractFeaturesOptimized promises, from the cache before (`c0`)
   * and after (`c1`): a fresh entry under the key is returned as stored
   * and the cache is untouched; otherwise the local features are the
   * means over the worker bands, the advanced features are those the
   * Python service gave, and both are stored under the key.
   */
  ghost predicate CachedOrExtracted(c0: map<string, CachedFeatures>, c1: map<string, CachedFeatures>, key: string,
                                    now: int, ttl: int, img: Image, workers: nat, adv: Advanced, savedAt: int,
                                    features: FeatureMap, advanced: Advanced)
    requires workers >= 1 && img.bounds.WellFormed()
  {
    var hit := Fresh(c0, key, now, ttl);
    (hit.Some? ==> features == hit.value.features && advanced == hit.value.advanced && c1 == c0) &&
    (hit.None? ==> advanced == adv && MeansOverBands(img, workers, features) &&
                   c1 == c0[key := CachedFeatures(features, advanced, savedAt)])
  }

  /** A fresh hit meets the promise of ExtractFeaturesOptimized. */
  lemma CachedCase(c0: map<string, CachedFeatures>, c1: map<string, CachedFeatures>, key: string,
                   now: int, ttl: int, img: Image, workers: nat, adv: Advanced, savedAt: int,
                   features: FeatureMap, advanced: Advanced)
    requires workers >= 1 && img.bounds.WellFormed()
    requires Fresh(c0, key, now, ttl).Some? && c1 == c0
    requires features == Fresh(c0, key, now, ttl).value.features && advanced == Fresh(c0, key, now, ttl).value.advanced
    ensures CachedOrExtracted(c0, c1, key, now, ttl, img, workers, adv, savedAt, features, advanced)
  {
  }

  /** A miss followed by the extraction and the store meets it too. */
  lemma ExtractedCase(c0: map<string, CachedFeatures>, c1: map<string, CachedFeatures>, key: string,
                      now: int, ttl: int, img: Image, workers: nat, adv: Advanced, savedAt: int,
                      features: FeatureMap, advanced: Advanced)
    requires workers >= 1 && img.bounds.WellFormed()
    requires Fresh(c0, key, now, ttl).None? && advanced == adv && MeansOverBands(img, workers, features)
    requires c1 == (c0 - {key})[key := CachedFeatures(features, advanced, savedAt)]
    ensures CachedOrExtracted(c0, c1, key, now, ttl, img, workers, adv, savedAt, features, advanced)
  {
    assert c1 == c0[key := CachedFeatures(features, advanced, savedAt)];
  }

  class OptimizedImageProcessor {
    const featureCache: FeatureCache
    const workers: nat
    const hasPython: bool

    /** NewOptimizedImageProcessor with `workers` = runtime.NumCPU(). */
    constructor(workers: nat, hasPython: bool)
      requires workers >= 1
      ensures this.workers == workers && this.hasPython == hasPython
      ensures fresh(featureCache) && featureCache.cache == map[] && featureCache.ttl == FeatureCacheTTL
    {
      this.workers := workers;
      this.hasPython := hasPython;
      featureCache := new FeatureCache();
    }

    /**
     * ExtractFeaturesOptimized. `now` is the clock at the lookup, `savedAt`
     * at the store; `order` is the arrival order of the worker results;
     * `saved` and `reply` stand for the temporary file and the Python call.
     */
    method ExtractFeaturesOptimized(img: Image, path: string, now: int, savedAt: int, order: seq<nat>,
                                    saved: bool, reply: Result<Option<PythonFeatures>>)
      returns (features: FeatureMap, advanced: Advanced)
      requires workers >= 1 && img.bounds.WellFormed() && IsOrder(order, workers)
      modifies featureCache
      ensures CachedOrExtracted(old(featureCache.cache), featureCache.cache, CacheKey(path, img.bounds), now, featureCache.ttl,
                                img, workers, AdvancedOf(hasPython, saved, reply), savedAt, features, advanced)
    {
      var cacheKey := CacheKey(path, img.bounds);
      features, advanced := ExtractUnderKey(img, cacheKey, now, savedAt, order, saved, reply);
    }

    /** The lookup and, on a miss, the extraction and the store, under a key already generated. */
    method ExtractUnderKey(img: Image, key: string, now: int, savedAt: int, order: seq<nat>,
                           saved: bool, reply: Result<Option<PythonFeatures>>)
      returns (features: FeatureMap, advanced: Advanced)
      requires workers >= 1 && img.bounds.WellFormed() && IsOrder(order, workers)
      modifies featureCache
      ensures CachedOrExtracted(old(featureCache.cache), featureCache.cache, key, now, featureCache.ttl,
                                img, workers, AdvancedOf(hasPython, saved, reply), savedAt, features, advanced)
    {
      ghost var c0 := featureCache.cache;
      var cached, found := featureCache.Get(key, now);
      if found {
        features, advanced := cached.features, cached.advanced;
        CachedCase(c0, featureCache.cache, key, now, featureCache.ttl, img, workers, AdvancedOf(hasPython, saved, reply),
                   savedAt, features, advanced);
        return;
      }
      features, advanced := ExtractAndStore(img, key, savedAt, order, saved, reply);
      ExtractedCase(c0, featureCache.cache, key, now, featureCache.ttl, img, workers, AdvancedOf(hasPython, saved, reply),
                    savedAt, features, advanced);
    }

    /** The miss path: compute both feature sets and store them under `key`. */
    method ExtractAndStore(img: Image, key: string, savedAt: int, order: seq<nat>,
                           saved: bool, reply: Result<Option<PythonFeatures>>)
      returns (features: FeatureMap, advanced: Advanced)
      requires workers >= 1 && img.bounds.WellFormed() && IsOrder(order, workers)
      modifies featureCache
      ensures advanced == AdvancedOf(hasPython, saved, reply)
      ensures MeansOverBands(img, workers, features)
      ensures featureCache.cache == old(featureCache.cache)[key := CachedFeatures(features, advanced, savedAt)]
    {
      features := ExtractLocalFeaturesParallel(img, workers, order);
      advanced := AdvancedOf(hasPython, saved, reply);
      featureCache.Set(key, CachedFeatures(features, advanced, savedAt));
    }
  }
}
