/**
 * Whole-image pixel algorithms of the image processor: foreground and edge
 * tests, the grey-level co-occurrence matrix (GLCM) and its texture
 * statistics, shape counting, the bounding-box aspect ratio, the Sobel
 * operator and the binary edge map.
 *
 * An image is its bounds plus two total functions over the plane: the 8-bit
 * grey level that getGrayValue derives from the colour at a point (the luma
 * weighting itself is not modelled), and the high byte of the red channel,
 * which is what the Sobel operator reads. Both answer outside the bounds as
 * well, as image.At does.
 */
module Imaging {
  import opened Common

  type Byte = x: int | 0 <= x < 256

  /** image.Rectangle: Min = (minX, minY) inclusive, Max = (maxX, maxY) exclusive. */
  datatype Rect = Rect(minX: int, minY: int, maxX: int, maxY: int)
  {
    function Dx(): int { maxX - minX }
    function Dy(): int { maxY - minY }
    predicate Contains(x: int, y: int) { minX <= x < maxX && minY <= y < maxY }
    predicate WellFormed() { minX <= maxX && minY <= maxY }
  }

  /** image.Rect, which swaps coordinates so that Min <= Max. */
  function MakeRect(x0: int, y0: int, x1: int, y1: int): (r: Rect)
    ensures r.WellFormed()
  {
    Rect(if x0 <= x1 then x0 else x1, if y0 <= y1 then y0 else y1,
         if x0 <= x1 then x1 else x0, if y0 <= y1 then y1 else y0)
  }

  datatype Image = Image(bounds: Rect, gray: (int, int) -> Byte, red: (int, int) -> Byte)

  /** The fixed foreground threshold; the configurable one is never read. */
  const ForegroundLimit: int := 128

  predicate IsForeground(g: Byte) { g < ForegroundLimit }

  function FgAt(img: Image): (int, int) -> bool
  {
    (x, y) => IsForeground(img.gray(x, y))
  }

  // ------------------------------------------------------------------
  // 4-neighbour edge test
  // ------------------------------------------------------------------

  const Neighbours4: seq<(int, int)> := [(0, 1), (1, 0), (0, -1), (-1, 0)]

  /** The neighbour scan: true when every listed neighbour is foreground. */
  function NeighboursForeground(img: Image, x: int, y: int, ds: seq<(int, int)>): (r: bool)
    ensures r <==> forall d :: d in ds ==> IsForeground(img.gray(x + d.0, y + d.1))
  {
    if ds == [] then true
    else IsForeground(img.gray(x + ds[0].0, y + ds[0].1)) && NeighboursForeground(img, x, y, ds[1..])
  }

  /** A foreground pixel with a background 4-neighbour, which may lie outside the bounds. */
  function IsEdgePixel(img: Image, x: int, y: int): (r: bool)
    ensures r <==> IsForeground(img.gray(x, y)) &&
                   exists d :: d in Neighbours4 && !IsForeground(img.gray(x + d.0, y + d.1))
  {
    IsForeground(img.gray(x, y)) && !NeighboursForeground(img, x, y, Neighbours4)
  }

  function EdgeAt(img: Image): (int, int) -> bool
  {
    (x, y) => IsEdgePixel(img, x, y)
  }

  // ------------------------------------------------------------------
  // Counting the points of a rectangle that satisfy a predicate, in the
  // row-major order of the nested pixel loops.
  // ------------------------------------------------------------------

  function CountRow(P: (int, int) -> bool, y: int, x0: int, x1: int): nat
    decreases x1 - x0
  {
    if x1 <= x0 then 0 else CountRow(P, y, x0, x1 - 1) + (if P(x1 - 1, y) then 1 else 0)
  }

  function CountRows(P: (int, int) -> bool, r: Rect, y1: int): nat
    decreases y1 - r.minY
  {
    if y1 <= r.minY then 0 else CountRows(P, r, y1 - 1) + CountRow(P, y1 - 1, r.minX, r.maxX)
  }

  function CountIn(P: (int, int) -> bool, r: Rect): nat
  {
    CountRows(P, r, r.maxY)
  }

  lemma {:induction false} CountRowMono(P: (int, int) -> bool, Q: (int, int) -> bool, y: int, x0: int, x1: int)
    requires forall x :: x0 <= x < x1 && Q(x, y) ==> P(x, y)
    ensures CountRow(Q, y, x0, x1) <= CountRow(P, y, x0, x1)
    decreases x1 - x0
  {
    if x1 > x0 { CountRowMono(P, Q, y, x0, x1 - 1); }
  }

  lemma {:induction false} CountRowsMono(P: (int, int) -> bool, Q: (int, int) -> bool, r: Rect, y1: int)
    requires forall x, y :: r.Contains(x, y) && Q(x, y) ==> P(x, y)
    requires y1 <= r.maxY
    ensures CountRows(Q, r, y1) <= CountRows(P, r, y1)
    decreases y1 - r.minY
  {
    if y1 > r.minY {
      CountRowsMono(P, Q, r, y1 - 1);
      CountRowMono(P, Q, y1 - 1, r.minX, r.maxX);
    }
  }

  /** A predicate implied by another never counts fewer points. */
  lemma CountMono(P: (int, int) -> bool, Q: (int, int) -> bool, r: Rect)
    requires forall x, y :: r.Contains(x, y) && Q(x, y) ==> P(x, y)
    ensures CountIn(Q, r) <= CountIn(P, r)
  {
    CountRowsMono(P, Q, r, r.maxY);
  }

  lemma {:induction false} CountRowZero(P: (int, int) -> bool, y: int, x0: int, x1: int)
    ensures CountRow(P, y, x0, x1) == 0 <==> forall x :: x0 <= x < x1 ==> !P(x, y)
    decreases x1 - x0
  {
    if x1 > x0 { CountRowZero(P, y, x0, x1 - 1); }
  }

  lemma {:induction false} CountRowsZero(P: (int, int) -> bool, r: Rect, y1: int)
    requires y1 <= r.maxY
    ensures CountRows(P, r, y1) == 0 <==>
            forall x, y :: r.Contains(x, y) && y < y1 ==> !P(x, y)
    decreases y1 - r.minY
  {
    if y1 > r.minY {
      CountRowsZero(P, r, y1 - 1);
      CountRowZero(P, y1 - 1, r.minX, r.maxX);
    }
  }

  /** Nothing is counted exactly when no point of the rectangle qualifies. */
  lemma CountZero(P: (int, int) -> bool, r: Rect)
    ensures CountIn(P, r) == 0 <==> forall x, y :: r.Contains(x, y) ==> !P(x, y)
  {
    CountRowsZero(P, r, r.maxY);
  }

  // ------------------------------------------------------------------
  // Bounding box with the sentinel start (Max.X, Min.X, Max.Y, Min.Y).
  // ------------------------------------------------------------------

  datatype Box = Box(minX: int, maxX: int, minY: int, maxY: int)

  function Sentinel(r: Rect): Box { Box(r.maxX, r.minX, r.maxY, r.minY) }

  /** The four comparisons made for each foreground pixel. */
  function Widen(b: Box, x: int, y: int): Box
  {
    Box(if x < b.minX then x else b.minX, if x > b.maxX then x else b.maxX,
        if y < b.minY then y else b.minY, if y > b.maxY then y else b.maxY)
  }

  function BoxRow(P: (int, int) -> bool, y: int, x0: int, x1: int, b: Box): Box
    decreases x1 - x0
  {
    if x1 <= x0 then b
    else
      var b' := BoxRow(P, y, x0, x1 - 1, b);
      if P(x1 - 1, y) then Widen(b', x1 - 1, y) else b'
  }

  function BoxRows(P: (int, int) -> bool, r: Rect, y1: int): Box
    decreases y1 - r.minY
  {
    if y1 <= r.minY then Sentinel(r) else BoxRow(P, y1 - 1, r.minX, r.maxX, BoxRows(P, r, y1 - 1))
  }

  function BoxIn(P: (int, int) -> bool, r: Rect): Box
  {
    BoxRows(P, r, r.maxY)
  }

  // Single steps of the scanning loops, one pixel or one row at a time.

  lemma ScanRowStep(P: (int, int) -> bool, y: int, x0: int, x: int, b: Box)
    requires x0 <= x
    ensures CountRow(P, y, x0, x + 1) == CountRow(P, y, x0, x) + (if P(x, y) then 1 else 0)
    ensures BoxRow(P, y, x0, x + 1, b) == if P(x, y) then Widen(BoxRow(P, y, x0, x, b), x, y) else BoxRow(P, y, x0, x, b)
  {
  }

  /** A finished column loop has scanned the whole row, also when the row is empty. */
  lemma ScanRowDone(P: (int, int) -> bool, y: int, x0: int, x: int, x1: int, b: Box)
    requires x0 <= x && x1 <= x && (x <= x1 || x == x0)
    ensures CountRow(P, y, x0, x) == CountRow(P, y, x0, x1)
    ensures BoxRow(P, y, x0, x, b) == BoxRow(P, y, x0, x1, b)
  {
  }

  lemma ScanRowsStep(P: (int, int) -> bool, r: Rect, y: int)
    requires r.minY <= y
    ensures CountRows(P, r, y + 1) == CountRows(P, r, y) + CountRow(P, y, r.minX, r.maxX)
    ensures BoxRows(P, r, y + 1) == BoxRow(P, y, r.minX, r.maxX, BoxRows(P, r, y))
  {
  }

  /** A finished row loop has scanned the whole rectangle, also when it is empty. */
  lemma ScanRowsDone(P: (int, int) -> bool, r: Rect, y: int)
    requires r.minY <= y && r.maxY <= y && (y <= r.maxY || y == r.minY)
    ensures CountRows(P, r, y) == CountIn(P, r)
    ensures BoxRows(P, r, y) == BoxIn(P, r)
  {
  }

  predicate Encloses(b: Box, x: int, y: int)
  {
    b.minX <= x <= b.maxX && b.minY <= y <= b.maxY
  }

  /** A box whose corners are points of `r` (or the sentinel, while nothing was seen). */
  predicate InsideOrSentinel(b: Box, r: Rect, seen: bool)
  {
    if seen then r.minX <= b.minX <= b.maxX < r.maxX && r.minY <= b.minY <= b.maxY < r.maxY
    else b == Sentinel(r)
  }

  lemma {:induction false} BoxRowGrows(P: (int, int) -> bool, y: int, x0: int, x1: int, b: Box)
    ensures var b' := BoxRow(P, y, x0, x1, b);
            b'.minX <= b.minX && b.maxX <= b'.maxX && b'.minY <= b.minY && b.maxY <= b'.maxY
    decreases x1 - x0
  {
    if x1 > x0 { BoxRowGrows(P, y, x0, x1 - 1, b); }
  }

  lemma {:induction false} BoxRowEncloses(P: (int, int) -> bool, y: int, x0: int, x1: int, b: Box)
    ensures forall x :: x0 <= x < x1 && P(x, y) ==> Encloses(BoxRow(P, y, x0, x1, b), x, y)
    decreases x1 - x0
  {
    if x1 > x0 {
      BoxRowEncloses(P, y, x0, x1 - 1, b);
    }
  }

  lemma {:induction false} BoxRowInside(P: (int, int) -> bool, r: Rect, y: int, x1: int, b: Box, seen: bool)
    requires r.WellFormed() && r.minY <= y < r.maxY && r.minX <= x1 <= r.maxX
    requires InsideOrSentinel(b, r, seen)
    ensures InsideOrSentinel(BoxRow(P, y, r.minX, x1, b), r, seen || CountRow(P, y, r.minX, x1) > 0)
    decreases x1 - r.minX
  {
    if x1 > r.minX {
      BoxRowInside(P, r, y, x1 - 1, b, seen);
    }
  }

  lemma {:induction false} BoxRowsFacts(P: (int, int) -> bool, r: Rect, y1: int)
    requires r.WellFormed() && r.minY <= y1 <= r.maxY
    ensures InsideOrSentinel(BoxRows(P, r, y1), r, CountRows(P, r, y1) > 0)
    ensures forall x, y :: r.Contains(x, y) && y < y1 && P(x, y) ==> Encloses(BoxRows(P, r, y1), x, y)
    decreases y1 - r.minY
  {
    if y1 > r.minY {
      var prev := BoxRows(P, r, y1 - 1);
      BoxRowsFacts(P, r, y1 - 1);
      BoxRowInside(P, r, y1 - 1, r.maxX, prev, CountRows(P, r, y1 - 1) > 0);
      BoxRowGrows(P, y1 - 1, r.minX, r.maxX, prev);
      BoxRowEncloses(P, y1 - 1, r.minX, r.maxX, prev);
    }
  }

  /**
   * The scanned box encloses every qualifying point of `r`; it lies inside
   * `r` when some point qualifies and is the sentinel otherwise.
   */
  lemma BoxInFacts(P: (int, int) -> bool, r: Rect)
    requires r.WellFormed()
    ensures CountIn(P, r) == 0 ==> BoxIn(P, r) == Sentinel(r)
    ensures CountIn(P, r) > 0 ==> InsideOrSentinel(BoxIn(P, r), r, true)
    ensures forall x, y :: r.Contains(x, y) && P(x, y) ==> Encloses(BoxIn(P, r), x, y)
  {
    BoxRowsFacts(P, r, r.maxY);
  }

  // ------------------------------------------------------------------
  // Grey-level co-occurrence matrix.
  // ------------------------------------------------------------------

  /** A GLCM key: the grey levels of a pixel and of its offset neighbour. */
  type Pair = (Byte, Byte)

  /** Counts in a GLCM are created at 1 and only ever incremented. */
  type Count = n: int | n >= 1 witness 1

  type Glcm = map<Pair, Count>

  /** The pairs one pixel contributes, one per offset, in offset order. */
  function PairsAt(img: Image, x: int, y: int, offs: seq<(int, int)>): multiset<Pair>
    decreases |offs|
  {
    if offs == [] then multiset{}
    else
      var o := offs[|offs| - 1];
      PairsAt(img, x, y, offs[..|offs| - 1]) + multiset{(img.gray(x, y), img.gray(x + o.0, y + o.1))}
  }

  function BagRow(img: Image, offs: seq<(int, int)>, y: int, x0: int, x1: int): multiset<Pair>
    decreases x1 - x0
  {
    if x1 <= x0 then multiset{} else BagRow(img, offs, y, x0, x1 - 1) + PairsAt(img, x1 - 1, y, offs)
  }

  function BagRows(img: Image, offs: seq<(int, int)>, r: Rect, y1: int): multiset<Pair>
    decreases y1 - r.minY
  {
    if y1 <= r.minY then multiset{} else BagRows(img, offs, r, y1 - 1) + BagRow(img, offs, y1 - 1, r.minX, r.maxX)
  }

  /** Every pair the counting loops visit, with multiplicity. */
  function PairBag(img: Image, offs: seq<(int, int)>, r: Rect): multiset<Pair>
  {
    BagRows(img, offs, r, r.maxY)
  }

  /** The rectangle of pixels whose pairs are counted: the last row and column are skipped. */
  function PairGrid(r: Rect): Rect
  {
    Rect(r.minX, r.minY, r.maxX - 1, r.maxY - 1)
  }

  /** The table a bag of pairs produces: each pair seen maps to its multiplicity. */
  function GlcmOf(bag: multiset<Pair>): Glcm
  {
    map p | p in bag :: bag[p]
  }

  /** No pairs, no entries: the table the counting loops start from. */
  lemma GlcmOfEmpty()
    ensures GlcmOf(multiset{}) == map[]
  {
    assert GlcmOf(multiset{}).Keys == {};
  }

  /** The table has an entry exactly for the pairs of the bag, holding their multiplicity. */
  lemma GlcmOfFacts(bag: multiset<Pair>)
    ensures forall p :: p in GlcmOf(bag) <==> p in bag
    ensures forall p :: p in GlcmOf(bag) ==> GlcmOf(bag)[p] == bag[p]
  {
  }

  /** One more occurrence of `k` is one increment of the table. */
  lemma GlcmOfAdd(bag: multiset<Pair>, k: Pair)
    ensures GlcmOf(bag + multiset{k}) == GlcmOf(bag)[k := bag[k] + 1]
  {
    var a := GlcmOf(bag + multiset{k});
    var b := GlcmOf(bag)[k := bag[k] + 1];
    GlcmOfFacts(bag);
    GlcmOfFacts(bag + multiset{k});
    assert a.Keys == b.Keys;
  }

  /** The count of a pair, 0 when the table has no entry for it. */
  function CountAt(g: Glcm, p: Pair): real
  {
    if p in g then g[p] as real else 0.0
  }

  function CountOf(g: Glcm): Pair -> real
  {
    p => CountAt(g, p)
  }

  /** The sum of all counts of a table. */
  ghost function CountSum(g: Glcm): real
  {
    RealSum(g.Keys, CountOf(g))
  }

  lemma {:induction false} GlcmOfTotal(bag: multiset<Pair>)
    ensures CountSum(GlcmOf(bag)) == |bag| as real
    decreases |bag|
  {
    if |bag| == 0 {
      assert GlcmOf(bag).Keys == {};
    } else {
      var k :| k in bag;
      var rest := bag - multiset{k};
      assert bag == rest + multiset{k};
      GlcmOfTotal(rest);
      GlcmOfAdd(rest, k);
      var g0, g1 := GlcmOf(rest), GlcmOf(bag);
      if k in g0 {
        assert g1.Keys == g0.Keys;
        RealSumBump(g0.Keys, CountOf(g0), CountOf(g1), k, 1.0);
      } else {
        assert g1.Keys == g0.Keys + {k};
        assert g1.Keys - {k} == g0.Keys;
        RealSumRemove(g1.Keys, CountOf(g1), k);
        RealSumExt(g0.Keys, CountOf(g0), CountOf(g1));
      }
    }
  }

  lemma {:induction false} PairsAtSize(img: Image, x: int, y: int, offs: seq<(int, int)>)
    ensures |PairsAt(img, x, y, offs)| == |offs|
    decreases |offs|
  {
    if offs != [] { PairsAtSize(img, x, y, offs[..|offs| - 1]); }
  }

  /** Size of one row's contribution: one pair per pixel and offset. */
  function RowPairs(x0: int, x1: int, n: nat): nat
  {
    if x1 <= x0 then 0 else (x1 - x0) * n
  }

  lemma MulStep(a: int, n: int)
    ensures (a + 1) * n == a * n + n
  {
  }

  lemma RowPairsStep(x0: int, x1: int, n: nat)
    requires x0 < x1
    ensures RowPairs(x0, x1, n) == RowPairs(x0, x1 - 1, n) + n
  {
    MulStep(x1 - 1 - x0, n);
  }

  lemma {:induction false} BagRowSize(img: Image, offs: seq<(int, int)>, y: int, x0: int, x1: int)
    ensures |BagRow(img, offs, y, x0, x1)| == RowPairs(x0, x1, |offs|)
    decreases x1 - x0
  {
    if x1 > x0 {
      BagRowSize(img, offs, y, x0, x1 - 1);
      PairsAtSize(img, x1 - 1, y, offs);
      RowPairsStep(x0, x1, |offs|);
    }
  }

  lemma {:induction false} BagRowsSize(img: Image, offs: seq<(int, int)>, r: Rect, y1: int)
    ensures |BagRows(img, offs, r, y1)| == (if y1 <= r.minY then 0 else (y1 - r.minY) * RowPairs(r.minX, r.maxX, |offs|))
    decreases y1 - r.minY
  {
    if y1 > r.minY {
      BagRowsSize(img, offs, r, y1 - 1);
      BagRowSize(img, offs, y1 - 1, r.minX, r.maxX);
      MulStep(y1 - 1 - r.minY, RowPairs(r.minX, r.maxX, |offs|));
    }
  }

  /** Number of pixels of a possibly empty rectangle. */
  function Positions(r: Rect): nat
  {
    if r.maxX <= r.minX || r.maxY <= r.minY then 0 else (r.maxX - r.minX) * (r.maxY - r.minY)
  }

  lemma MulAssoc(a: int, b: int, c: int)
    ensures a * (b * c) == (b * a) * c
  {
  }

  /** The bag holds one pair per pixel and offset. */
  lemma PairBagSize(img: Image, offs: seq<(int, int)>, r: Rect)
    ensures |PairBag(img, offs, r)| == Positions(r) * |offs|
  {
    BagRowsSize(img, offs, r, r.maxY);
    if r.maxX > r.minX && r.maxY > r.minY {
      MulAssoc(r.maxY - r.minY, r.maxX - r.minX, |offs|);
    }
  }

  /** A table is empty exactly when its counts sum to zero. */
  lemma CountSumPositive(g: Glcm)
    ensures g != map[] <==> CountSum(g) > 0.0
    ensures CountSum(g) >= 0.0
  {
    if g != map[] {
      var k :| k in g;
      RealSumPos(g.Keys, CountOf(g));
    } else {
      assert g.Keys == {};
    }
  }

  /** sumGLCM: the loop adding up every count of the table. */
  method SumGlcm(glcm: Glcm) returns (total: int)
    ensures total as real == CountSum(glcm)
    ensures total == 0 <==> glcm == map[]
  {
    total := 0;
    var rest := glcm.Keys;
    while rest != {}
      invariant rest <= glcm.Keys
      invariant total as real + RealSum(rest, CountOf(glcm)) == CountSum(glcm)
      decreases rest
    {
      var p :| p in rest;
      RealSumRemove(rest, CountOf(glcm), p);
      total := total + glcm[p];
      rest := rest - {p};
    }
    CountSumPositive(glcm);
  }

  // ------------------------------------------------------------------
  // Texture statistics of a table (exact real arithmetic).
  // ------------------------------------------------------------------

  function Diff2(p: Pair): int { (p.0 - p.1) * (p.0 - p.1) }

  function Sq(x: real): real { x * x }

  /** Contrast term of a pair: its count times the squared level difference. */
  function ContrastTerm(g: Glcm, p: Pair): real
  {
    CountAt(g, p) * Diff2(p) as real
  }

  /** Homogeneity term of a pair: its count damped by 1 + squared difference. */
  function HomogeneityTerm(g: Glcm, p: Pair): real
  {
    CountAt(g, p) / (1.0 + Diff2(p) as real)
  }

  /** Energy term of a pair: its squared probability. */
  function EnergyTerm(g: Glcm, total: real, p: Pair): real
    requires total > 0.0
  {
    Sq(CountAt(g, p) / total)
  }

  function ContrastTerms(g: Glcm): Pair -> real
  {
    p => ContrastTerm(g, p)
  }

  function HomogeneityTerms(g: Glcm): Pair -> real
  {
    p => HomogeneityTerm(g, p)
  }

  function EnergyTerms(g: Glcm, total: real): Pair -> real
    requires total > 0.0
  {
    p => EnergyTerm(g, total, p)
  }

  ghost function ContrastOf(g: Glcm): Float
  {
    Div(RealSum(g.Keys, ContrastTerms(g)), CountSum(g))
  }

  ghost function HomogeneityOf(g: Glcm): Float
  {
    Div(RealSum(g.Keys, HomogeneityTerms(g)), CountSum(g))
  }

  ghost function EnergyOf(g: Glcm): real
  {
    CountSumPositive(g);
    if g == map[] then 0.0 else RealSum(g.Keys, EnergyTerms(g, CountSum(g)))
  }

  /** calculateContrast: count-weighted squared difference, divided by the total. */
  method CalculateContrast(glcm: Glcm) returns (c: Float)
    ensures c == ContrastOf(glcm)
  {
    var acc := 0.0;
    var rest := glcm.Keys;
    while rest != {}
      invariant rest <= glcm.Keys
      invariant acc + RealSum(rest, ContrastTerms(glcm)) == RealSum(glcm.Keys, ContrastTerms(glcm))
      decreases rest
    {
      var p :| p in rest;
      RealSumRemove(rest, ContrastTerms(glcm), p);
      acc := acc + ContrastTerm(glcm, p);
      rest := rest - {p};
    }
    var total := SumGlcm(glcm);
    c := Div(acc, total as real);
  }

  /** calculateHomogeneity: counts damped by 1 + squared difference, divided by the total. */
  method CalculateHomogeneity(glcm: Glcm) returns (h: Float)
    ensures h == HomogeneityOf(glcm)
  {
    var acc := 0.0;
    var rest := glcm.Keys;
    while rest != {}
      invariant rest <= glcm.Keys
      invariant acc + RealSum(rest, HomogeneityTerms(glcm)) == RealSum(glcm.Keys, HomogeneityTerms(glcm))
      decreases rest
    {
      var p :| p in rest;
      RealSumRemove(rest, HomogeneityTerms(glcm), p);
      acc := acc + HomogeneityTerm(glcm, p);
      rest := rest - {p};
    }
    var total := SumGlcm(glcm);
    h := Div(acc, total as real);
  }

  /** calculateEnergy: sum of squared probabilities; the loop never runs on an empty table. */
  method CalculateEnergy(glcm: Glcm) returns (e: real)
    ensures e == EnergyOf(glcm)
  {
    var total := SumGlcm(glcm);
    e := 0.0;
    if glcm == map[] {
      return;
    }
    CountSumPositive(glcm);
    var t := total as real;
    assert t > 0.0;
    var rest := glcm.Keys;
    while rest != {}
      invariant rest <= glcm.Keys
      invariant e + RealSum(rest, EnergyTerms(glcm, t)) == RealSum(glcm.Keys, EnergyTerms(glcm, t))
      decreases rest
    {
      var p :| p in rest;
      RealSumRemove(rest, EnergyTerms(glcm, t), p);
      e := e + EnergyTerm(glcm, t, p);
      rest := rest - {p};
    }
  }

  lemma SquareNonNeg(e: int)
    ensures e * e >= 0
  {
    if e < 0 { assert e * e == (-e) * (-e); }
  }

  lemma DivPos(a: real, b: real)
    requires a > 0.0 && b > 0.0
    ensures a / b > 0.0
  {
  }

  lemma DivShrinks(a: real, b: real)
    requires a >= 0.0 && b >= 1.0
    ensures a / b <= a
  {
    assert a / b * b == a;
  }

  lemma DivAtMostOne(a: real, b: real)
    requires 0.0 < b && a <= b
    ensures a / b <= 1.0
  {
    assert a / b * b == a;
  }

  lemma CountBelowTotal(g: Glcm, p: Pair)
    requires p in g
    ensures g[p] as real <= CountSum(g)
  {
    RealSumRemove(g.Keys, CountOf(g), p);
    RealSumNonneg(g.Keys - {p}, CountOf(g));
  }

  lemma ContrastRange(g: Glcm)
    requires g != map[]
    ensures ContrastOf(g).Finite? && ContrastOf(g).value >= 0.0
  {
    CountSumPositive(g);
    RealSumNonneg(g.Keys, ContrastTerms(g));
  }

  lemma HomogeneityTermBounds(g: Glcm, p: Pair)
    requires p in g
    ensures 0.0 < HomogeneityTerm(g, p) <= CountAt(g, p)
  {
    var c := CountAt(g, p);
    var e := p.0 - p.1;
    assert Diff2(p) == e * e;
    SquareNonNeg(e);
    var d := 1.0 + Diff2(p) as real;
    assert c >= 1.0 && d >= 1.0;
    assert HomogeneityTerm(g, p) == c / d;
    DivPos(c, d);
    DivShrinks(c, d);
  }

  lemma HomogeneityRange(g: Glcm)
    requires g != map[]
    ensures HomogeneityOf(g).Finite? && 0.0 < HomogeneityOf(g).value <= 1.0
  {
    CountSumPositive(g);
    var t := CountSum(g);
    forall p | p in g.Keys
      ensures 0.0 < HomogeneityTerms(g)(p) <= CountOf(g)(p)
    {
      HomogeneityTermBounds(g, p);
    }
    RealSumPos(g.Keys, HomogeneityTerms(g));
    RealSumMono(g.Keys, HomogeneityTerms(g), CountOf(g));
    DivAtMostOne(RealSum(g.Keys, HomogeneityTerms(g)), t);
  }

  /** A probability q in (0, 1] has q * q <= q. */
  lemma SquareBelow(a: real, t: real)
    requires 0.0 < a <= t
    ensures 0.0 < Sq(a / t) <= a * (1.0 / t)
  {
    var q := a / t;
    DivPos(a, t);
    DivAtMostOne(a, t);
    assert q * q <= q;
    assert a * (1.0 / t) == q;
  }

  lemma EnergyRange(g: Glcm)
    requires g != map[]
    ensures 0.0 < EnergyOf(g) <= 1.0
  {
    CountSumPositive(g);
    var t := CountSum(g);
    // each probability is in (0, 1], so its square is at most itself, and the probabilities sum to 1
    var probs: Pair -> real := p => CountAt(g, p) * (1.0 / t);
    forall p | p in g.Keys
      ensures 0.0 < EnergyTerms(g, t)(p) <= probs(p)
    {
      CountBelowTotal(g, p);
      SquareBelow(CountAt(g, p), t);
    }
    RealSumPos(g.Keys, EnergyTerms(g, t));
    RealSumMono(g.Keys, EnergyTerms(g, t), probs);
    RealSumScale(g.Keys, CountOf(g), probs, 1.0 / t);
    assert t * (1.0 / t) == 1.0;
  }

  /**
   * On a non-empty table contrast is a finite value >= 0 and energy and
   * homogeneity lie in (0, 1]; on an empty one contrast and homogeneity
   * are 0/0 = NaN and energy is 0.
   */
  lemma TextureRanges(g: Glcm)
    ensures g == map[] ==> ContrastOf(g).NaN? && HomogeneityOf(g).NaN? && EnergyOf(g) == 0.0
    ensures g != map[] ==> ContrastOf(g).Finite? && ContrastOf(g).value >= 0.0
    ensures g != map[] ==> HomogeneityOf(g).Finite? && 0.0 < HomogeneityOf(g).value <= 1.0
    ensures g != map[] ==> 0.0 < EnergyOf(g) <= 1.0
  {
    CountSumPositive(g);
    if g == map[] {
      assert g.Keys == {};
    } else {
      ContrastRange(g);
      HomogeneityRange(g);
      EnergyRange(g);
    }
  }

  /** A table holding one pair of equal levels: no contrast, full energy and homogeneity. */
  lemma UniformTexture(g: Glcm, c: Byte)
    requires g.Keys == {(c, c)}
    ensures ContrastOf(g) == Finite(0.0)
    ensures HomogeneityOf(g) == Finite(1.0)
    ensures EnergyOf(g) == 1.0
  {
    var p: Pair := (c, c);
    var n := CountAt(g, p);
    assert n >= 1.0;
    assert Diff2(p) == 0;
    RealSumOne(g.Keys, CountOf(g), p);
    assert CountSum(g) == n;
    UniformContrast(g, p, n);
    UniformHomogeneity(g, p, n);
    UniformEnergy(g, p, n);
  }

  lemma UniformContrast(g: Glcm, p: Pair, n: real)
    requires g.Keys == {p} && Diff2(p) == 0 && n >= 1.0 && CountSum(g) == n && CountAt(g, p) == n
    ensures ContrastOf(g) == Finite(0.0)
  {
    RealSumOne(g.Keys, ContrastTerms(g), p);
    assert ContrastTerm(g, p) == 0.0;
  }

  lemma UniformHomogeneity(g: Glcm, p: Pair, n: real)
    requires g.Keys == {p} && Diff2(p) == 0 && n >= 1.0 && CountSum(g) == n && CountAt(g, p) == n
    ensures HomogeneityOf(g) == Finite(1.0)
  {
    RealSumOne(g.Keys, HomogeneityTerms(g), p);
    assert HomogeneityTerm(g, p) == n;
  }

  lemma UniformEnergy(g: Glcm, p: Pair, n: real)
    requires g.Keys == {p} && n >= 1.0 && CountSum(g) == n && CountAt(g, p) == n
    ensures EnergyOf(g) == 1.0
  {
    RealSumOne(g.Keys, EnergyTerms(g, n), p);
    assert n / n == 1.0;
    assert EnergyTerm(g, n, p) == 1.0;
  }

  // ------------------------------------------------------------------
  // calculateGLCMFeatures: four offsets per pixel over the pair grid.
  // ------------------------------------------------------------------

  const FourOffsets: seq<(int, int)> := [(0, 1), (1, 0), (1, 1), (1, -1)]

  /** glcm[k]++ on a Go map: a missing entry counts from zero. */
  function Bump(g: Glcm, k: Pair): Glcm
  {
    g[k := (if k in g then g[k] else 0) + 1]
  }

  /** One increment of the table is one more occurrence of the pair in the bag it counts. */
  lemma BumpCounts(bag: multiset<Pair>, k: Pair)
    ensures Bump(GlcmOf(bag), k) == GlcmOf(bag + multiset{k})
  {
    GlcmOfAdd(bag, k);
  }

  lemma PairsAtStep(img: Image, x: int, y: int, offs: seq<(int, int)>, i: int)
    requires 0 <= i < |offs|
    ensures PairsAt(img, x, y, offs[..i + 1])
         == PairsAt(img, x, y, offs[..i]) + multiset{(img.gray(x, y), img.gray(x + offs[i].0, y + offs[i].1))}
  {
    assert offs[..i + 1][..i] == offs[..i];
  }

  /** The offset loop for one pixel: one increment per offset. */
  method CountPixelPairs(img: Image, offs: seq<(int, int)>, x: int, y: int, glcm0: Glcm, ghost bag0: multiset<Pair>)
    returns (glcm: Glcm)
    requires glcm0 == GlcmOf(bag0)
    ensures glcm == GlcmOf(bag0 + PairsAt(img, x, y, offs))
  {
    glcm := glcm0;
    var p1 := img.gray(x, y);
    var i := 0;
    CountPixelStart(img, x, y, offs, bag0);
    while i < |offs|
      invariant 0 <= i <= |offs|
      invariant glcm == PixelTally(img, x, y, offs, i, bag0)
    {
      CountPixelStep(img, x, y, offs, i, bag0);
      glcm := Bump(glcm, (p1, img.gray(x + offs[i].0, y + offs[i].1)));
      i := i + 1;
    }
    CountPixelDone(img, x, y, offs, bag0);
  }

  /** The table after the first `i` offsets of one pixel. */
  ghost function PixelTally(img: Image, x: int, y: int, offs: seq<(int, int)>, i: int, bag0: multiset<Pair>): Glcm
    requires 0 <= i <= |offs|
  {
    GlcmOf(bag0 + PairsAt(img, x, y, offs[..i]))
  }

  lemma CountPixelStart(img: Image, x: int, y: int, offs: seq<(int, int)>, bag0: multiset<Pair>)
    ensures PixelTally(img, x, y, offs, 0, bag0) == GlcmOf(bag0)
  {
    assert bag0 + PairsAt(img, x, y, offs[..0]) == bag0;
  }

  lemma CountPixelStep(img: Image, x: int, y: int, offs: seq<(int, int)>, i: int, bag0: multiset<Pair>)
    requires 0 <= i < |offs|
    ensures PixelTally(img, x, y, offs, i + 1, bag0)
         == Bump(PixelTally(img, x, y, offs, i, bag0), (img.gray(x, y), img.gray(x + offs[i].0, y + offs[i].1)))
  {
    var k := (img.gray(x, y), img.gray(x + offs[i].0, y + offs[i].1));
    PairsAtStep(img, x, y, offs, i);
    assert bag0 + PairsAt(img, x, y, offs[..i + 1]) == bag0 + PairsAt(img, x, y, offs[..i]) + multiset{k};
    BumpCounts(bag0 + PairsAt(img, x, y, offs[..i]), k);
  }

  lemma CountPixelDone(img: Image, x: int, y: int, offs: seq<(int, int)>, bag0: multiset<Pair>)
    ensures PixelTally(img, x, y, offs, |offs|, bag0) == GlcmOf(bag0 + PairsAt(img, x, y, offs))
  {
    assert offs[..|offs|] == offs;
  }

  lemma BagRowStep(img: Image, offs: seq<(int, int)>, y: int, x0: int, x: int, bag0: multiset<Pair>, bag: multiset<Pair>)
    requires x0 <= x
    requires bag == bag0 + BagRow(img, offs, y, x0, x)
    ensures bag + PairsAt(img, x, y, offs) == bag0 + BagRow(img, offs, y, x0, x + 1)
  {
  }

  /** A finished column loop has visited exactly the row, also when the row is empty. */
  lemma BagRowDone(img: Image, offs: seq<(int, int)>, y: int, x0: int, x: int, x1: int)
    requires x0 <= x && x1 <= x && (x <= x1 || x == x0)
    ensures BagRow(img, offs, y, x0, x) == BagRow(img, offs, y, x0, x1)
  {
  }

  /** The inner (column) loop of calculateGLCMFeatures for row `y`. */
  method CountRowPairs(img: Image, offs: seq<(int, int)>, y: int, x0: int, x1: int, glcm0: Glcm, ghost bag0: multiset<Pair>)
    returns (glcm: Glcm)
    requires glcm0 == GlcmOf(bag0)
    ensures glcm == GlcmOf(bag0 + BagRow(img, offs, y, x0, x1))
  {
    glcm := glcm0;
    var x := x0;
    assert bag0 + BagRow(img, offs, y, x0, x0) == bag0;
    while x < x1
      invariant x0 <= x && (x <= x1 || x == x0)
      invariant glcm == GlcmOf(bag0 + BagRow(img, offs, y, x0, x))
      decreases x1 - x
    {
      glcm := CountPixelPairs(img, offs, x, y, glcm, bag0 + BagRow(img, offs, y, x0, x));
      BagRowStep(img, offs, y, x0, x, bag0, bag0 + BagRow(img, offs, y, x0, x));
      x := x + 1;
    }
    BagRowDone(img, offs, y, x0, x, x1);
  }

  /**
   * When the row loop of calculateGLCMFeatures ends, the table is that of
   * the whole pair grid and counts four pairs per position of it.
   */
  lemma FourOffsetRowsEnd(img: Image, y: int, glcm: Glcm)
    requires PairGrid(img.bounds).maxY <= y && (y <= PairGrid(img.bounds).maxY || y == PairGrid(img.bounds).minY)
    requires glcm == GlcmOf(BagRows(img, FourOffsets, PairGrid(img.bounds), y))
    ensures glcm == GlcmOf(PairBag(img, FourOffsets, PairGrid(img.bounds)))
    ensures CountSum(glcm) == (4 * Positions(PairGrid(img.bounds))) as real
  {
    var r := PairGrid(img.bounds);
    var bag := PairBag(img, FourOffsets, r);
    BagRowsDone(img, FourOffsets, r, y);
    GlcmOfTotal(bag);
    PairBagSize(img, FourOffsets, r);
    FourPerPosition(|bag|, Positions(r), |FourOffsets|);
  }

  lemma FourPerPosition(size: int, n: int, k: int)
    requires k == 4 && size == n * k
    ensures size as real == (4 * n) as real
  {
  }

  /** The counting loops of calculateGLCMFeatures. */
  method CountFourOffsetPairs(img: Image) returns (glcm: Glcm)
    ensures glcm == GlcmOf(PairBag(img, FourOffsets, PairGrid(img.bounds)))
    ensures CountSum(glcm) == (4 * Positions(PairGrid(img.bounds))) as real
  {
    var r := PairGrid(img.bounds);
    glcm := map[];
    var y := r.minY;
    GlcmOfEmpty();
    while y < r.maxY
      invariant r.minY <= y && (y <= r.maxY || y == r.minY)
      invariant glcm == GlcmOf(BagRows(img, FourOffsets, r, y))
      decreases r.maxY - y
    {
      glcm := CountRowPairs(img, FourOffsets, y, r.minX, r.maxX, glcm, BagRows(img, FourOffsets, r, y));
      TableRowsStep(img, FourOffsets, r, y, glcm);
      y := y + 1;
    }
    FourOffsetRowsEnd(img, y, glcm);
  }

  /** One more row loop adds that row to the rows already visited. */
  lemma BagRowsStep(img: Image, offs: seq<(int, int)>, r: Rect, y: int)
    requires r.minY <= y
    ensures BagRows(img, offs, r, y) + BagRow(img, offs, y, r.minX, r.maxX) == BagRows(img, offs, r, y + 1)
  {
  }

  /** The table after one more row is the table of the rows visited so far, that row included. */
  lemma TableRowsStep(img: Image, offs: seq<(int, int)>, r: Rect, y: int, glcm: Glcm)
    requires r.minY <= y
    requires glcm == GlcmOf(BagRows(img, offs, r, y) + BagRow(img, offs, y, r.minX, r.maxX))
    ensures glcm == GlcmOf(BagRows(img, offs, r, y + 1))
  {
    BagRowsStep(img, offs, r, y);
  }

  /** A finished row loop has visited every row of the grid, also when the grid is empty. */
  lemma BagRowsDone(img: Image, offs: seq<(int, int)>, r: Rect, y: int)
    requires r.maxY <= y && (y <= r.maxY || y == r.minY)
    ensures BagRows(img, offs, r, y) == PairBag(img, offs, r)
  {
  }

  /** calculateGLCMFeatures: [contrast, energy, homogeneity] of the four-offset table. */
  method CalculateGLCMFeatures(img: Image) returns (f: seq<Float>)
    ensures var g := GlcmOf(PairBag(img, FourOffsets, PairGrid(img.bounds)));
            f == [ContrastOf(g), Finite(EnergyOf(g)), HomogeneityOf(g)]
    ensures img.bounds.Dx() <= 1 || img.bounds.Dy() <= 1 ==> f[0].NaN? && f[2].NaN?
    ensures img.bounds.Dx() > 1 && img.bounds.Dy() > 1 ==>
              f[0].Finite? && f[2].Finite? && 0.0 < f[2].value <= 1.0 && 0.0 < f[1].value <= 1.0
  {
    var glcm := CountFourOffsetPairs(img);
    var contrast := CalculateContrast(glcm);
    var energy := CalculateEnergy(glcm);
    var homogeneity := CalculateHomogeneity(glcm);
    f := [contrast, Finite(energy), homogeneity];
    TextureRanges(glcm);
    CountSumPositive(glcm);
  }

  // ------------------------------------------------------------------
  // Shape features over the whole image.
  // ------------------------------------------------------------------

  /** math.Pi as a float64. */
  const Pi: real := 3.141592653589793

  /** The loops of calculateShapeFeatures: foreground area and 4-neighbour edge perimeter. */
  method CountShape(img: Image) returns (area: nat, perimeter: nat)
    ensures area == CountIn(FgAt(img), img.bounds)
    ensures perimeter == CountIn(EdgeAt(img), img.bounds)
    ensures perimeter <= area
  {
    var r := img.bounds;
    area, perimeter := 0, 0;
    var y := r.minY;
    while y < r.maxY
      invariant r.minY <= y && (y <= r.maxY || y == r.minY)
      invariant area == CountRows(FgAt(img), r, y)
      invariant perimeter == CountRows(EdgeAt(img), r, y)
      decreases r.maxY - y
    {
      area, perimeter := CountShapeRow(img, y, area, perimeter);
      ScanRowsStep(FgAt(img), r, y);
      ScanRowsStep(EdgeAt(img), r, y);
      y := y + 1;
    }
    ScanRowsDone(FgAt(img), r, y);
    ScanRowsDone(EdgeAt(img), r, y);
    CountMono(FgAt(img), EdgeAt(img), r);
  }

  /** The column loop of calculateShapeFeatures over row `y`. */
  method CountShapeRow(img: Image, y: int, area0: nat, perimeter0: nat) returns (area: nat, perimeter: nat)
    ensures area == area0 + CountRow(FgAt(img), y, img.bounds.minX, img.bounds.maxX)
    ensures perimeter == perimeter0 + CountRow(EdgeAt(img), y, img.bounds.minX, img.bounds.maxX)
  {
    var r := img.bounds;
    area, perimeter := area0, perimeter0;
    var x := r.minX;
    while x < r.maxX
      invariant r.minX <= x && (x <= r.maxX || x == r.minX)
      invariant area == area0 + CountRow(FgAt(img), y, r.minX, x)
      invariant perimeter == perimeter0 + CountRow(EdgeAt(img), y, r.minX, x)
      decreases r.maxX - x
    {
      ScanRowStep(FgAt(img), y, r.minX, x, Sentinel(r));
      ScanRowStep(EdgeAt(img), y, r.minX, x, Sentinel(r));
      if IsForeground(img.gray(x, y)) {
        area := area + 1;
        if IsEdgePixel(img, x, y) {
          perimeter := perimeter + 1;
        }
      }
      x := x + 1;
    }
    ScanRowDone(FgAt(img), y, r.minX, x, r.maxX, Sentinel(r));
    ScanRowDone(EdgeAt(img), y, r.minX, x, r.maxX, Sentinel(r));
  }

  /** The aspect ratio rule applied to a scanned box. */
  function AspectOf(b: Box): real
  {
    var width := b.maxX - b.minX;
    var height := b.maxY - b.minY;
    if height == 0 then 0.0 else width as real / height as real
  }

  /** The ratio of a scanned box is never negative, and W/H for the sentinel. */
  lemma AspectFacts(P: (int, int) -> bool, r: Rect)
    requires r.WellFormed()
    ensures AspectOf(BoxIn(P, r)) >= 0.0
    ensures CountIn(P, r) == 0 ==> AspectOf(BoxIn(P, r)) == if r.Dy() == 0 then 0.0 else r.Dx() as real / r.Dy() as real
  {
    BoxInFacts(P, r);
    var b := BoxIn(P, r);
    if CountIn(P, r) == 0 && r.Dy() != 0 {
      assert b.maxX - b.minX == -r.Dx() && b.maxY - b.minY == -r.Dy();
      assert (-r.Dx()) as real / (-r.Dy()) as real == r.Dx() as real / r.Dy() as real;
    }
  }

  /** calculateAspectRatio: the foreground bounding box, width over height. */
  method CalculateAspectRatio(img: Image) returns (a: real)
    requires img.bounds.WellFormed()
    ensures a == AspectOf(BoxIn(FgAt(img), img.bounds))
    ensures CountIn(FgAt(img), img.bounds) == 0 ==>
              a == if img.bounds.Dy() == 0 then 0.0 else img.bounds.Dx() as real / img.bounds.Dy() as real
    ensures a >= 0.0
  {
    var r := img.bounds;
    var minX, maxX, minY, maxY := r.maxX, r.minX, r.maxY, r.minY;
    var y := r.minY;
    while y < r.maxY
      invariant r.minY <= y <= r.maxY
      invariant Box(minX, maxX, minY, maxY) == BoxRows(FgAt(img), r, y)
      decreases r.maxY - y
    {
      var x := r.minX;
      while x < r.maxX
        invariant r.minX <= x <= r.maxX
        invariant Box(minX, maxX, minY, maxY) == BoxRow(FgAt(img), y, r.minX, x, BoxRows(FgAt(img), r, y))
        decreases r.maxX - x
      {
        ScanRowStep(FgAt(img), y, r.minX, x, BoxRows(FgAt(img), r, y));
        if IsForeground(img.gray(x, y)) {
          if x < minX { minX := x; }
          if x > maxX { maxX := x; }
          if y < minY { minY := y; }
          if y > maxY { maxY := y; }
        }
        x := x + 1;
      }
      ScanRowsStep(FgAt(img), r, y);
      y := y + 1;
    }
    ScanRowsDone(FgAt(img), r, y);
    var width := maxX - minX;
    var height := maxY - minY;
    if height == 0 {
      a := 0.0;
    } else {
      a := width as real / height as real;
    }
    AspectFacts(FgAt(img), r);
  }

  /** The circularity formula 4*pi*area / perimeter^2, without a guard. */
  function Circularity(area: nat, perimeter: nat): Float
  {
    Div(4.0 * Pi * area as real, (perimeter * perimeter) as real)
  }

  /** calculateShapeFeatures: [circularity, aspect ratio]. */
  method CalculateShapeFeatures(img: Image) returns (circularity: Float, aspect: real)
    requires img.bounds.WellFormed()
    ensures var area := CountIn(FgAt(img), img.bounds);
            var perimeter := CountIn(EdgeAt(img), img.bounds);
            circularity == Circularity(area, perimeter) &&
            (area == 0 ==> circularity.NaN?) &&
            (area > 0 && perimeter == 0 ==> circularity == Inf(true)) &&
            (perimeter > 0 ==> circularity.Finite? && circularity.value > 0.0)
    ensures aspect == AspectOf(BoxIn(FgAt(img), img.bounds))
  {
    var area, perimeter := CountShape(img);
    circularity := Circularity(area, perimeter);
    aspect := CalculateAspectRatio(img);
  }

  /** extractLocalFeatures: the five local keys; its error result is always nil. */
  method ExtractLocalFeatures(img: Image) returns (features: map<string, Float>)
    requires img.bounds.WellFormed()
    ensures features.Keys == {"glcm_contrast", "glcm_energy", "glcm_homogeneity", "circularity", "aspect_ratio"}
    ensures LocalValues(img, features)
    ensures features["glcm_energy"].Finite? && features["aspect_ratio"].Finite?
  {
    var glcmFeatures := CalculateGLCMFeatures(img);
    features := map[];
    features := features["glcm_contrast" := glcmFeatures[0]];
    features := features["glcm_energy" := glcmFeatures[1]];
    features := features["glcm_homogeneity" := glcmFeatures[2]];
    var circularity, aspect := CalculateShapeFeatures(img);
    features := features["circularity" := circularity];
    features := features["aspect_ratio" := Finite(aspect)];
  }

  /**
   * The five local values: the texture features of the four-offset table and
   * the shape features of the foreground, both over the whole image.
   */
  ghost predicate LocalValues(img: Image, features: map<string, Float>)
    requires img.bounds.WellFormed()
  {
    var g := GlcmOf(PairBag(img, FourOffsets, PairGrid(img.bounds)));
    && LocalKeys <= features.Keys
    && features["glcm_contrast"] == ContrastOf(g)
    && features["glcm_energy"] == Finite(EnergyOf(g))
    && features["glcm_homogeneity"] == HomogeneityOf(g)
    && features["circularity"] == Circularity(CountIn(FgAt(img), img.bounds), CountIn(EdgeAt(img), img.bounds))
    && features["aspect_ratio"] == Finite(AspectOf(BoxIn(FgAt(img), img.bounds)))
  }

  // ------------------------------------------------------------------
  // ExtractFeatures: local keys plus the Python service's measurements.
  // ------------------------------------------------------------------

  datatype StriationPattern = StriationPattern(angle: real, length: real, strength: real)

  /** The reply of the Python feature service (firing-pin marks reduced to their radii). */
  datatype PythonFeatures = PythonFeatures(
    huMoments: seq<real>, contourArea: real, contourLen: real, lbpUniformity: real,
    firingPinRadii: seq<real>, striations: seq<StriationPattern>,
    filename: string, contentType: string, fileSize: int)

  /** A metadata value: a piece of text or a byte count. */
  datatype MetaValue = MetaText(text: string) | MetaSize(size: int)

  function Angle(p: StriationPattern): real { p.angle }
  function Length(p: StriationPattern): real { p.length }
  function Strength(p: StriationPattern): real { p.strength }

  function SumOf<T>(xs: seq<T>, f: T -> real): real
  {
    if xs == [] then 0.0 else SumOf(xs[..|xs| - 1], f) + f(xs[|xs| - 1])
  }

  function Id(x: real): real { x }

  const LocalKeys: set<string> := {"glcm_contrast", "glcm_energy", "glcm_homogeneity", "circularity", "aspect_ratio"}

  function HuKey(i: nat): string { "hu_moment_" + NatToString(i) }

  /** The keys hu_moment_1 .. hu_moment_n. */
  function HuKeys(n: nat): set<string>
  {
    set i | 1 <= i <= n :: HuKey(i)
  }

  lemma HuKeyInjective(i: nat, j: nat)
    requires HuKey(i) == HuKey(j)
    ensures i == j
  {
    assert HuKey(i)[10..] == NatToString(i);
    assert HuKey(j)[10..] == NatToString(j);
    NatToStringInjective(i, j);
  }

  /** The fixed keys the Python branch writes besides the moments and averages. */
  const PythonKeys: set<string> := {"contour_area", "contour_length", "lbp_uniformity", "firing_pin_count", "striation_count"}

  const StriationAverageKeys: set<string> := {"striation_avg_angle", "striation_avg_length", "striation_avg_strength"}

  /** No moment key clashes with a named key: they all start with a letter other than 'h'. */
  lemma HuKeyFresh(i: nat)
    ensures HuKey(i) !in LocalKeys + PythonKeys + StriationAverageKeys + {"firing_pin_avg_radius"}
  {
    assert HuKey(i)[0] == 'h';
  }

  /** The local keys are not among the keys the Python branch writes. */
  lemma KeyGroupsDisjoint()
    ensures forall k :: k in LocalKeys ==> k !in PythonKeys + StriationAverageKeys + {"firing_pin_avg_radius"}
  {
  }

  /** The key set of a successful extraction with the Python service present. */
  function PythonFeatureKeys(py: PythonFeatures): set<string>
  {
    LocalKeys + HuKeys(|py.huMoments|) + PythonKeys
    + (if |py.firingPinRadii| > 0 then {"firing_pin_avg_radius"} else {})
    + (if |py.striations| > 0 then StriationAverageKeys else {})
  }

  /** The metadata rule: only non-empty names and positive sizes are recorded. */
  function MetadataOf(py: PythonFeatures): (m: map<string, MetaValue>)
    ensures "filename" in m <==> py.filename != ""
    ensures "content_type" in m <==> py.contentType != ""
    ensures "file_size" in m <==> py.fileSize > 0
    ensures m.Keys <= {"filename", "content_type", "file_size"}
  {
    var m1: map<string, MetaValue> := if py.filename != "" then map["filename" := MetaText(py.filename)] else map[];
    var m2 := if py.contentType != "" then m1["content_type" := MetaText(py.contentType)] else m1;
    if py.fileSize > 0 then m2["file_size" := MetaSize(py.fileSize)] else m2
  }

  /** The moment loop: hu_moment_i holds the i-th moment (from 1); earlier keys are kept. */
  method AddHuMoments(features0: map<string, Float>, hu: seq<real>) returns (features: map<string, Float>)
    requires forall i :: HuKey(i) !in features0
    ensures features.Keys == features0.Keys + HuKeys(|hu|)
    ensures forall k :: k in features0 ==> features[k] == features0[k]
    ensures forall i :: 1 <= i <= |hu| ==> features[HuKey(i)] == Finite(hu[i - 1])
  {
    features := features0;
    var n := 0;
    assert HuKeys(0) == {};
    while n < |hu|
      invariant 0 <= n <= |hu|
      invariant HuAdded(features0, hu, n, features)
    {
      HuStep(features0, hu, n, features);
      features := features[HuKey(n + 1) := Finite(hu[n])];
      n := n + 1;
    }
  }

  /** The features after the first `n` moments were written. */
  ghost predicate HuAdded(features0: map<string, Float>, hu: seq<real>, n: nat, features: map<string, Float>)
    requires n <= |hu|
  {
    && features.Keys == features0.Keys + HuKeys(n)
    && (forall k :: k in features0 ==> features[k] == features0[k])
    && (forall i :: 1 <= i <= n ==> features[HuKey(i)] == Finite(hu[i - 1]))
  }

  lemma HuStep(features0: map<string, Float>, hu: seq<real>, n: nat, features: map<string, Float>)
    requires n < |hu| && (forall i :: HuKey(i) !in features0) && HuAdded(features0, hu, n, features)
    ensures HuAdded(features0, hu, n + 1, features[HuKey(n + 1) := Finite(hu[n])])
  {
    HuKeyNew(n);
    HuKeysStep(n);
  }

  lemma HuKeyNew(n: nat)
    ensures forall i :: 1 <= i <= n ==> HuKey(i) != HuKey(n + 1)
  {
    forall i | 1 <= i <= n
      ensures HuKey(i) != HuKey(n + 1)
    {
      if HuKey(i) == HuKey(n + 1) {
        HuKeyInjective(i, n + 1);
      }
    }
  }

  lemma HuKeysStep(n: nat)
    ensures HuKeys(n + 1) == HuKeys(n) + {HuKey(n + 1)}
  {
  }

  /** A running total over a list, as the averaging loops keep it. */
  method Total<T>(xs: seq<T>, f: T -> real) returns (sum: real)
    ensures sum == SumOf(xs, f)
  {
    sum := 0.0;
    var i := 0;
    while i < |xs|
      invariant 0 <= i <= |xs|
      invariant sum == SumOf(xs[..i], f)
    {
      assert xs[..i + 1][..i] == xs[..i];
      sum := sum + f(xs[i]);
      i := i + 1;
    }
    assert xs[..|xs|] == xs;
  }

  /** The contour and texture measurements copied as they are. */
  method AddContour(features0: map<string, Float>, py: PythonFeatures) returns (features: map<string, Float>)
    ensures features.Keys == features0.Keys + {"contour_area", "contour_length", "lbp_uniformity"}
    ensures forall k :: k in features0 && k !in {"contour_area", "contour_length", "lbp_uniformity"} ==> features[k] == features0[k]
    ensures features["contour_area"] == Finite(py.contourArea)
    ensures features["contour_length"] == Finite(py.contourLen)
    ensures features["lbp_uniformity"] == Finite(py.lbpUniformity)
  {
    features := features0["contour_area" := Finite(py.contourArea)];
    features := features["contour_length" := Finite(py.contourLen)];
    features := features["lbp_uniformity" := Finite(py.lbpUniformity)];
  }

  /** The firing-pin count, and the mean radius when there is at least one mark. */
  method AddFiringPins(features0: map<string, Float>, radii: seq<real>) returns (features: map<string, Float>)
    ensures features.Keys == features0.Keys + {"firing_pin_count"} + (if |radii| > 0 then {"firing_pin_avg_radius"} else {})
    ensures forall k :: k in features0 && k !in {"firing_pin_count", "firing_pin_avg_radius"} ==> features[k] == features0[k]
    ensures features["firing_pin_count"] == Finite(|radii| as real)
    ensures |radii| > 0 ==> features["firing_pin_avg_radius"] == Finite(SumOf(radii, Id) / |radii| as real)
  {
    features := features0["firing_pin_count" := Finite(|radii| as real)];
    if |radii| > 0 {
      var avgRadius := Total(radii, Id);
      features := features["firing_pin_avg_radius" := Finite(avgRadius / |radii| as real)];
    }
  }

  /** The striation count, and the three means when there is at least one pattern. */
  method AddStriations(features0: map<string, Float>, ps: seq<StriationPattern>) returns (features: map<string, Float>)
    ensures features.Keys == features0.Keys + {"striation_count"} + (if |ps| > 0 then StriationAverageKeys else {})
    ensures forall k :: k in features0 && k !in {"striation_count"} + StriationAverageKeys ==> features[k] == features0[k]
    ensures features["striation_count"] == Finite(|ps| as real)
    ensures |ps| > 0 ==>
              var n := |ps| as real;
              features["striation_avg_angle"] == Finite(SumOf(ps, Angle) / n) &&
              features["striation_avg_length"] == Finite(SumOf(ps, Length) / n) &&
              features["striation_avg_strength"] == Finite(SumOf(ps, Strength) / n)
  {
    features := features0["striation_count" := Finite(|ps| as real)];
    if |ps| > 0 {
      var avgAngle := Total(ps, Angle);
      var avgLength := Total(ps, Length);
      var avgStrength := Total(ps, Strength);
      var count := |ps| as real;
      features := features["striation_avg_angle" := Finite(avgAngle / count)];
      features := features["striation_avg_length" := Finite(avgLength / count)];
      features := features["striation_avg_strength" := Finite(avgStrength / count)];
    }
  }

  /** The named counts and means of the Python branch. */
  method AddMarks(features0: map<string, Float>, py: PythonFeatures) returns (features: map<string, Float>)
    ensures features.Keys == features0.Keys + PythonKeys
              + (if |py.firingPinRadii| > 0 then {"firing_pin_avg_radius"} else {})
              + (if |py.striations| > 0 then StriationAverageKeys else {})
    ensures forall k :: k in features0 && k !in PythonKeys + StriationAverageKeys + {"firing_pin_avg_radius"} ==>
              features[k] == features0[k]
    ensures MarkValues(py, features)
  {
    var withContour := AddContour(features0, py);
    var withPins := AddFiringPins(withContour, py.firingPinRadii);
    features := AddStriations(withPins, py.striations);
    MarkKeysDistinct();
  }

  /**
   * The values the Python branch writes besides the moments: the contour and
   * texture measurements as given, the mark counts, and the means when there
   * is at least one mark.
   */
  ghost predicate MarkValues(py: PythonFeatures, features: map<string, Float>)
  {
    var radii := py.firingPinRadii;
    var ps := py.striations;
    && PythonKeys <= features.Keys
    && features["contour_area"] == Finite(py.contourArea)
    && features["contour_length"] == Finite(py.contourLen)
    && features["lbp_uniformity"] == Finite(py.lbpUniformity)
    && features["firing_pin_count"] == Finite(|radii| as real)
    && (|radii| > 0 ==>
          "firing_pin_avg_radius" in features &&
          features["firing_pin_avg_radius"] == Finite(SumOf(radii, Id) / |radii| as real))
    && features["striation_count"] == Finite(|ps| as real)
    && (|ps| > 0 ==>
          StriationAverageKeys <= features.Keys &&
          features["striation_avg_angle"] == Finite(SumOf(ps, Angle) / |ps| as real) &&
          features["striation_avg_length"] == Finite(SumOf(ps, Length) / |ps| as real) &&
          features["striation_avg_strength"] == Finite(SumOf(ps, Strength) / |ps| as real))
  }

  /** The names each step of AddMarks writes are not touched by the later steps. */
  lemma MarkKeysDistinct()
    ensures "contour_area" !in {"firing_pin_count", "firing_pin_avg_radius"}
    ensures "contour_length" !in {"firing_pin_count", "firing_pin_avg_radius"}
    ensures "lbp_uniformity" !in {"firing_pin_count", "firing_pin_avg_radius"}
    ensures "contour_area" !in {"striation_count"} + StriationAverageKeys
    ensures "contour_length" !in {"striation_count"} + StriationAverageKeys
    ensures "lbp_uniformity" !in {"striation_count"} + StriationAverageKeys
    ensures "firing_pin_count" !in {"striation_count"} + StriationAverageKeys
    ensures "firing_pin_avg_radius" !in {"striation_count"} + StriationAverageKeys
    ensures PythonKeys == {"contour_area", "contour_length", "lbp_uniformity"} + {"firing_pin_count"} + {"striation_count"}
  {
    assert "contour_area"[0] == 'c' && "contour_length"[0] == 'c' && "lbp_uniformity"[0] == 'l';
    assert "firing_pin_count"[0] == 'f' && "firing_pin_avg_radius"[0] == 'f';
    assert "striation_count"[0] == 's' && "striation_avg_angle"[0] == 's';
    assert "striation_avg_length"[0] == 's' && "striation_avg_strength"[0] == 's';
  }

  /** Everything the Python branch writes: hu_moment_i is the i-th moment, then the mark values. */
  ghost predicate PythonValues(py: PythonFeatures, features: map<string, Float>)
  {
    && (forall i :: 1 <= i <= |py.huMoments| ==>
          HuKey(i) in features && features[HuKey(i)] == Finite(py.huMoments[i - 1]))
    && MarkValues(py, features)
  }

  /** The part of ExtractFeatures after the local features, given a Python reply. */
  method AddPythonFeatures(features0: map<string, Float>, py: PythonFeatures) returns (features: map<string, Float>)
    requires features0.Keys == LocalKeys
    ensures features.Keys == PythonFeatureKeys(py)
    ensures forall k :: k in LocalKeys ==> features[k] == features0[k]
    ensures PythonValues(py, features)
  {
    forall i: nat ensures HuKey(i) !in features0 {
      HuKeyFresh(i);
    }
    var withHu := AddHuMoments(features0, py.huMoments);
    features := AddMarks(withHu, py);
    forall i | 1 <= i <= |py.huMoments|
      ensures features[HuKey(i)] == withHu[HuKey(i)]
    {
      HuKeyFresh(i);
    }
    forall k | k in LocalKeys
      ensures features[k] == features0[k]
    {
      KeyGroupsDisjoint();
    }
  }

  /**
   * ExtractFeatures. `python` is None when no Python service is configured,
   * otherwise the service's reply or error; `saved` says whether writing the
   * temporary image for it succeeded.
   */
  method ExtractFeatures(img: Image, python: Option<Result<PythonFeatures>>, saved: bool)
    returns (r: Result<(map<string, Float>, map<string, MetaValue>)>)
    requires img.bounds.WellFormed()
    ensures python.None? ==> r.Ok? && r.value.0.Keys == LocalKeys && r.value.1 == map[]
    ensures python.Some? && (!saved || python.value.Err?) ==> r.Err?
    ensures python.Some? && saved && python.value.Ok? ==>
              var py := python.value.value;
              r.Ok? && r.value.0.Keys == PythonFeatureKeys(py) && r.value.1 == MetadataOf(py) &&
              PythonValues(py, r.value.0)
    ensures r.Ok? ==> LocalValues(img, r.value.0)
  {
    var goFeatures := ExtractLocalFeatures(img);
    var features := goFeatures;
    if python.None? {
      return Ok((features, map[]));
    }
    if !saved {
      return Err("error guardando imagen temporal");
    }
    if python.value.Err? {
      return Err("error en extracción Python: " + python.value.error);
    }
    var py := python.value.value;
    features := AddPythonFeatures(features, py);
    r := Ok((features, MetadataOf(py)));
  }

  // ------------------------------------------------------------------
  // Sobel operator and edge map.
  // ------------------------------------------------------------------

  const KernelX: seq<seq<int>> := [[-1, 0, 1], [-2, 0, 2], [-1, 0, 1]]
  const KernelY: seq<seq<int>> := [[-1, -2, -1], [0, 0, 0], [1, 2, 1]]

  /** The horizontal gradient written out: right column minus left column, middle row doubled. */
  function SobelX(img: Image, x: int, y: int): int
  {
    (img.red(x + 1, y - 1) as int - img.red(x - 1, y - 1) as int)
    + 2 * (img.red(x + 1, y) as int - img.red(x - 1, y) as int)
    + (img.red(x + 1, y + 1) as int - img.red(x - 1, y + 1) as int)
  }

  /** The vertical gradient written out: bottom row minus top row, middle column doubled. */
  function SobelY(img: Image, x: int, y: int): int
  {
    (img.red(x - 1, y + 1) as int - img.red(x - 1, y - 1) as int)
    + 2 * (img.red(x, y + 1) as int - img.red(x, y - 1) as int)
    + (img.red(x + 1, y + 1) as int - img.red(x + 1, y - 1) as int)
  }

  /**
   * The kernel product over the rows above `ky` and the first `n` cells of
   * row `ky`, in the order the two kernel loops visit them.
   */
  function KernelPartial(k: seq<seq<int>>, img: Image, x: int, y: int, ky: int, n: int): int
    requires |k| == 3 && forall i :: 0 <= i < 3 ==> |k[i]| == 3
    requires -1 <= ky <= 1 && 0 <= n <= 3
    decreases ky + 1, n
  {
    if n > 0 then KernelPartial(k, img, x, y, ky, n - 1) + img.red(x + n - 2, y + ky) as int * k[ky + 1][n - 1]
    else if ky > -1 then KernelPartial(k, img, x, y, ky - 1, 3)
    else 0
  }

  /** sobelOperator: the two 3x3 integer convolutions over the red channel. */
  method SobelOperator(img: Image, x: int, y: int) returns (gx: int, gy: int)
    ensures gx == SobelX(img, x, y) && gy == SobelY(img, x, y)
    ensures -1020 <= gx <= 1020 && -1020 <= gy <= 1020
  {
    gx, gy := 0, 0;
    var ky := -1;
    while ky <= 1
      invariant -1 <= ky <= 2
      invariant ky <= 1 ==> gx == KernelPartial(KernelX, img, x, y, ky, 0) && gy == KernelPartial(KernelY, img, x, y, ky, 0)
      invariant ky == 2 ==> gx == KernelPartial(KernelX, img, x, y, 1, 3) && gy == KernelPartial(KernelY, img, x, y, 1, 3)
    {
      var kx := -1;
      while kx <= 1
        invariant -1 <= kx <= 2
        invariant gx == KernelPartial(KernelX, img, x, y, ky, kx + 1)
        invariant gy == KernelPartial(KernelY, img, x, y, ky, kx + 1)
      {
        var gray := img.red(x + kx, y + ky) as int;
        gx := gx + gray * KernelX[ky + 1][kx + 1];
        gy := gy + gray * KernelY[ky + 1][kx + 1];
        kx := kx + 1;
      }
      ky := ky + 1;
    }
    SobelUnfold(img, x, y);
  }

  lemma SobelUnfold(img: Image, x: int, y: int)
    ensures KernelPartial(KernelX, img, x, y, 1, 3) == SobelX(img, x, y)
    ensures KernelPartial(KernelY, img, x, y, 1, 3) == SobelY(img, x, y)
  {
    var a, b, c := img.red(x - 1, y - 1) as int, img.red(x, y - 1) as int, img.red(x + 1, y - 1) as int;
    var d, e, f := img.red(x - 1, y) as int, img.red(x, y) as int, img.red(x + 1, y) as int;
    var g, h, i := img.red(x - 1, y + 1) as int, img.red(x, y + 1) as int, img.red(x + 1, y + 1) as int;
    assert KernelPartial(KernelX, img, x, y, -1, 3) == -a + c;
    assert KernelPartial(KernelY, img, x, y, -1, 3) == -a - 2 * b - c;
    assert KernelPartial(KernelX, img, x, y, 0, 3) == -a + c - 2 * d + 2 * f;
    assert KernelPartial(KernelY, img, x, y, 0, 3) == -a - 2 * b - c;
    assert KernelPartial(KernelX, img, x, y, 1, 3) == -a + c - 2 * d + 2 * f - g + i;
    assert KernelPartial(KernelY, img, x, y, 1, 3) == -a - 2 * b - c + g + 2 * h + i;
  }

  /** The 3x3 neighbourhood of (x, y) has one red level throughout. */
  predicate UniformAround(img: Image, x: int, y: int)
  {
    var v := img.red(x, y);
    img.red(x - 1, y - 1) == v && img.red(x, y - 1) == v && img.red(x + 1, y - 1) == v &&
    img.red(x - 1, y) == v && img.red(x + 1, y) == v &&
    img.red(x - 1, y + 1) == v && img.red(x, y + 1) == v && img.red(x + 1, y + 1) == v
  }

  /** Each kernel's weights sum to zero, so a uniform neighbourhood has no gradient. */
  lemma SobelUniform(img: Image, x: int, y: int)
    requires UniformAround(img, x, y)
    ensures SobelX(img, x, y) == 0 && SobelY(img, x, y) == 0
  {
  }

  /**
   * sqrt(gx*gx + gy*gy) > threshold, decided on integers: for a threshold
   * t >= 0 it holds iff gx*gx + gy*gy > t*t, and a negative threshold is
   * always exceeded.
   */
  predicate Exceeds(gx: int, gy: int, threshold: int)
  {
    threshold < 0 || gx * gx + gy * gy > threshold * threshold
  }

  /** The level detectEdges leaves at (x, y): borders are never written and stay 0. */
  function EdgeLevel(img: Image, threshold: int, x: int, y: int): Byte
  {
    var r := img.bounds;
    if r.minX + 1 <= x < r.maxX - 1 && r.minY + 1 <= y < r.maxY - 1
       && Exceeds(SobelX(img, x, y), SobelY(img, x, y), threshold)
    then 255 else 0
  }

  /**
   * detectEdges: a new grey buffer over the bounds (row i, column j holds the
   * pixel (minX + j, minY + i)) with 255 on strong interior gradients.
   */
  method DetectEdges(img: Image, threshold: int) returns (edges: array2<Byte>)
    requires img.bounds.WellFormed()
    ensures fresh(edges)
    ensures edges.Length0 == img.bounds.Dy() && edges.Length1 == img.bounds.Dx()
    ensures forall i, j :: 0 <= i < edges.Length0 && 0 <= j < edges.Length1 ==>
              edges[i, j] == EdgeLevel(img, threshold, img.bounds.minX + j, img.bounds.minY + i)
  {
    var r := img.bounds;
    edges := new Byte[r.Dy(), r.Dx()]((i, j) => 0);
    var y := r.minY + 1;
    while y < r.maxY - 1
      invariant r.minY + 1 <= y && (y <= r.maxY - 1 || y == r.minY + 1)
      invariant forall i, j :: 0 <= i < edges.Length0 && 0 <= j < edges.Length1 ==>
                  edges[i, j] == EdgesAbove(img, threshold, y, i, j)
      decreases r.maxY - y
    {
      DetectEdgesRow(img, threshold, edges, y);
      EdgesAboveStep(img, threshold, y, y + 1);
      y := y + 1;
    }
    EdgesAboveDone(img, threshold, y);
  }

  /** The buffer once the rows above `y` are done: their levels, and 0 below. */
  function EdgesAbove(img: Image, threshold: int, y: int, i: int, j: int): Byte
  {
    if img.bounds.minY + i < y then EdgeLevel(img, threshold, img.bounds.minX + j, img.bounds.minY + i) else 0
  }

  /** One more row (`next` is y + 1): that row's interior levels appear, the border columns stay 0. */
  lemma EdgesAboveStep(img: Image, threshold: int, y: int, next: int)
    requires next == y + 1
    ensures forall i, j :: EdgesAbove(img, threshold, next, i, j)
              == (if img.bounds.minY + i == y && 1 <= j && img.bounds.minX + j < img.bounds.maxX - 1
                  then EdgeLevel(img, threshold, img.bounds.minX + j, y) else EdgesAbove(img, threshold, y, i, j))
  {
  }

  /** Past the last interior row every level is in place, border rows included. */
  lemma EdgesAboveDone(img: Image, threshold: int, y: int)
    requires img.bounds.maxY - 1 <= y && (y <= img.bounds.maxY - 1 || y == img.bounds.minY + 1)
    ensures forall i, j :: EdgesAbove(img, threshold, y, i, j)
              == EdgeLevel(img, threshold, img.bounds.minX + j, img.bounds.minY + i)
  {
  }

  /** The column loop of detectEdges: row `y` gets its interior levels, nothing else changes. */
  method DetectEdgesRow(img: Image, threshold: int, edges: array2<Byte>, y: int)
    requires edges.Length0 == img.bounds.Dy() && edges.Length1 == img.bounds.Dx()
    requires img.bounds.minY + 1 <= y < img.bounds.maxY - 1
    modifies edges
    ensures forall i, j :: 0 <= i < edges.Length0 && 0 <= j < edges.Length1 ==>
              edges[i, j] == (if img.bounds.minY + i == y && 1 <= j && img.bounds.minX + j < img.bounds.maxX - 1
                              then EdgeLevel(img, threshold, img.bounds.minX + j, y) else old(edges[i, j]))
  {
    var r := img.bounds;
    var x := r.minX + 1;
    while x < r.maxX - 1
      invariant r.minX + 1 <= x && (x <= r.maxX - 1 || x == r.minX + 1)
      invariant forall i, j :: 0 <= i < edges.Length0 && 0 <= j < edges.Length1 ==>
                  edges[i, j] == (if r.minY + i == y && 1 <= j && r.minX + j < x
                                  then EdgeLevel(img, threshold, r.minX + j, y) else old(edges[i, j]))
      decreases r.maxX - x
    {
      var gx, gy := SobelOperator(img, x, y);
      if Exceeds(gx, gy, threshold) {
        edges[y - r.minY, x - r.minX] := 255;
      } else {
        edges[y - r.minY, x - r.minX] := 0;
      }
      x := x + 1;
    }
  }

  /** No interior pixel of a uniform neighbourhood is marked, whatever threshold >= 0. */
  lemma UniformNoEdge(img: Image, threshold: int, x: int, y: int)
    requires threshold >= 0
    requires UniformAround(img, x, y)
    ensures EdgeLevel(img, threshold, x, y) == 0
  {
    SobelUniform(img, x, y);
  }
}
