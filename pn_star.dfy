/** The discrete part of the stellar-leakage noise source: choosing the
    target star, validating the transmission-map variant and deriving its
    index, the circular mask of the stellar disk over the pixel grid, and
    the mask-weighted mean transmission. */
module PnStar {
  import opened Wrappers
  import opened Grids

  /** Pixels along one axis of the grid the leakage is computed on. */
  const ImageSize: nat := 50

  /** The transmission-map variant the leakage is taken from. */
  const MapSelection: string := "tm3"

  /** The recognised variants, in the order their trailing digit numbers them. */
  const Variants: seq<string> := ["tm1", "tm2", "tm3", "tm4"]

  /** Radius [solar radii], distance [pc] and temperature [K] of a star. */
  datatype StarParams = StarParams(radius: real, distance: real, temp: real)

  /** The errors the computation raises. */
  datatype Error =
    | KeyError(key: string)             // a field missing from the single-system record
    | IndexError(index: int)            // a positional index outside a sequence
    | NonexistentMap(selection: string) // an unrecognised transmission-map variant
    | ShapeError                        // a transmission map not of the mask's shape

  // ---------------------------------------------------------------------------
  // Target selection

  /** The row a positional index selects in a column of n rows: a negative
      index counts from the end. */
  function RowOf(n: nat, index: int): int {
    if index < 0 then n + index else index
  }

  /** Positional lookup in a column: indices -n .. n-1 are valid. */
  function ILoc(column: seq<real>, index: int): (r: Result<real, Error>)
    ensures r.Ok? <==> -|column| <= index < |column|
    ensures r.Ok? ==> 0 <= RowOf(|column|, index) < |column| && r.value == column[RowOf(|column|, index)]
    ensures r.Err? ==> r.error == IndexError(index)
  {
    if 0 <= index < |column| then Ok(column[index])
    else if -|column| <= index < 0 then Ok(column[|column| + index])
    else Err(IndexError(index))
  }

  /** Field lookup in the single-system record. */
  function Field(record: map<string, real>, key: string): (r: Result<real, Error>)
    ensures r.Ok? <==> key in record
    ensures r.Ok? ==> r.value == record[key]
    ensures r.Err? ==> r.error == KeyError(key)
  {
    if key in record then Ok(record[key]) else Err(KeyError(key))
  }

  function RadiusColumn(catalog: seq<StarParams>): seq<real> {
    seq(|catalog|, i requires 0 <= i < |catalog| => catalog[i].radius)
  }

  function DistanceColumn(catalog: seq<StarParams>): seq<real> {
    seq(|catalog|, i requires 0 <= i < |catalog| => catalog[i].distance)
  }

  function TempColumn(catalog: seq<StarParams>): seq<real> {
    seq(|catalog|, i requires 0 <= i < |catalog| => catalog[i].temp)
  }

  /** The star the noise is computed for: with no index, the single-system
      record's fields; otherwise the catalog row at that position, looked up
      column by column. */
  function SelectTarget(single: map<string, real>, catalog: seq<StarParams>, index: Option<int>)
    : (r: Result<StarParams, Error>)
    ensures index.None? ==>
      (r.Ok? <==> "radius_s" in single && "distance_s" in single && "temp_s" in single)
    ensures index.None? && r.Ok? ==>
      r.value == StarParams(single["radius_s"], single["distance_s"], single["temp_s"])
    ensures index.None? && r.Err? ==>
      r.error == KeyError(if "radius_s" !in single then "radius_s"
                          else if "distance_s" !in single then "distance_s" else "temp_s")
    ensures index.Some? ==> (r.Ok? <==> -|catalog| <= index.value < |catalog|)
    ensures index.Some? && r.Ok? ==> r.value == catalog[RowOf(|catalog|, index.value)]
    ensures index.Some? && r.Err? ==> r.error == IndexError(index.value)
  {
    match index
    case None =>
      var radius :- Field(single, "radius_s");
      var distance :- Field(single, "distance_s");
      var temp :- Field(single, "temp_s");
      Ok(StarParams(radius, distance, temp))
    case Some(i) =>
      // the three columns have the catalog's length: once the first lookup
      // succeeds, so do the other two
      match ILoc(RadiusColumn(catalog), i)
      case Err(e) => Err(e)
      case Ok(radius) =>
        Ok(StarParams(radius, ILoc(DistanceColumn(catalog), i).value, ILoc(TempColumn(catalog), i).value))
  }

  /** Index i and index i - n select the same catalog row. */
  lemma NegativeIndexSelectsSameRow(single: map<string, real>, catalog: seq<StarParams>, i: nat)
    requires i < |catalog|
    ensures SelectTarget(single, catalog, Some(i - |catalog|)) == SelectTarget(single, catalog, Some(i))
  {
  }

  // ---------------------------------------------------------------------------
  // Variant selection

  /** The value of the trailing digit of a variant name. */
  function DigitValue(c: char): int {
    c as int - '0' as int
  }

  /** The position of a variant in the transmission maps, taken from its
      trailing digit: the digit minus one. */
  function MapIndex(selection: string): (r: nat)
    requires selection in Variants
    ensures r < |Variants| && Variants[r] == selection
  {
    DigitValue(selection[|selection| - 1]) - 1
  }

  /** Distinct variants have distinct indices, and the fixed variant has
      index 2. */
  lemma MapIndexInjective(a: string, b: string)
    requires a in Variants && b in Variants && a != b
    ensures MapIndex(a) != MapIndex(b)
    ensures MapIndex(MapSelection) == 2
  {
  }

  // ---------------------------------------------------------------------------
  // The stellar-disk mask

  /** The mask test as the source computes it: the squared distance of pixel
      (x, y) from the grid centre (n - 1) / 2 is below the squared grid
      radius n / 2. */
  predicate InDiskReal(n: nat, x: int, y: int) {
    var c := (n as real - 1.0) / 2.0;
    var dx := x as real - c;
    var dy := y as real - c;
    dx * dx + dy * dy < (n as real / 2.0) * (n as real / 2.0)
  }

  /** The same test scaled by four, over the integers. */
  predicate InDisk(n: nat, x: int, y: int) {
    (2 * x - n + 1) * (2 * x - n + 1) + (2 * y - n + 1) * (2 * y - n + 1) < n * n
  }

  /** Scaling by four turns the real-valued test into the integer one: the
      source's test has no rounding. */
  lemma DiskTestsAgree(n: nat, x: int, y: int)
    ensures InDiskReal(n, x, y) <==> InDisk(n, x, y)
  {
  }

  /** The 0/1 mask of the stellar disk over an n by n grid; row i holds the
      pixels with y = i, column j those with x = j. */
  function Mask(n: nat): (m: seq<seq<int>>)
    ensures IsSquare(m, n) && IsZeroOne(m)
    ensures forall i, j :: 0 <= i < n && 0 <= j < n ==> m[i][j] == if InDisk(n, j, i) then 1 else 0
  {
    var m := seq(n, i => seq(n, j => if InDiskReal(n, j, i) then 1 else 0));
    assert forall i, j :: 0 <= i < n && 0 <= j < n ==> m[i][j] == if InDisk(n, j, i) then 1 else 0 by {
      forall i, j | 0 <= i < n && 0 <= j < n ensures m[i][j] == if InDisk(n, j, i) then 1 else 0 {
        DiskTestsAgree(n, j, i);
      }
    }
    m
  }

  /** Mirroring a coordinate about the grid centre keeps the mask test. */
  lemma InDiskMirror(n: nat, x: int, y: int)
    ensures InDisk(n, x, y) == InDisk(n, n - 1 - x, y) == InDisk(n, x, n - 1 - y) == InDisk(n, y, x)
  {
  }

  /** The mask is symmetric under transposition and under both mirrors. */
  lemma MaskSymmetric(n: nat, i: nat, j: nat)
    requires i < n && j < n
    ensures Mask(n)[i][j] == Mask(n)[j][i]
    ensures Mask(n)[i][j] == Mask(n)[n - 1 - i][j]
    ensures Mask(n)[i][j] == Mask(n)[i][n - 1 - j]
  {
    InDiskMirror(n, j, i);
  }

  /** For every grid of at least one pixel the mask covers at least one and
      at most all pixels, so the leakage divisor is never zero. */
  lemma MaskCountBounds(n: nat)
    requires n >= 1
    ensures 0 < Sum(Mask(n)) <= n * n
  {
    var m := Mask(n);
    SumBounds(m, n);
    var c := n / 2;
    if n % 2 == 1 {
      assert 2 * c - n + 1 == 0;
    } else {
      assert 2 * c - n + 1 == 1;
      assert n * n >= 4;
    }
    assert InDisk(n, c, c);
    assert m[c][c] == 1;
  }

  /** The fixed grid covers the disk with at least one pixel. */
  lemma FixedMaskNonEmpty()
    ensures 0 < Sum(Mask(ImageSize)) <= 2500
  {
    MaskCountBounds(ImageSize);
  }

  // ---------------------------------------------------------------------------
  // Mask-weighted mean transmission

  /** A quotient of a non-negative numerator by a positive denominator at
      least as large lies in [0, 1]. */
  lemma QuotientInUnitRange(a: real, b: real)
    requires 0.0 < b && 0.0 <= a <= b
    ensures 0.0 <= a / b <= 1.0
  {
  }

  /** The mean transmission over the stellar disk, sum(mask * tm) / sum(mask);
      a transmission in [0, 1] everywhere gives a mean in [0, 1]. */
  function MaskedMean(n: nat, tm: seq<seq<real>>): (r: real)
    requires n >= 1 && IsSquare(tm, n)
    ensures InUnitRange(tm) ==> 0.0 <= r <= 1.0
  {
    var m := Mask(n);
    MaskCountBounds(n);
    var r := WeightedSum(m, tm) / (Sum(m) as real);
    assert InUnitRange(tm) ==> 0.0 <= r <= 1.0 by {
      if InUnitRange(tm) {
        WeightedSumBounds(m, tm);
        QuotientInUnitRange(WeightedSum(m, tm), Sum(m) as real);
      }
    }
    r
  }

  /** A transmission stack holds one n by n map per wavelength bin. */
  predicate IsStack(stack: seq<seq<seq<real>>>, n: nat) {
    forall w :: 0 <= w < |stack| ==> IsSquare(stack[w], n)
  }

  // ---------------------------------------------------------------------------
  // The leakage computation up to the transmission fractions

  /** What the leakage computation has established before it asks for a
      transmission map: the star, the variant list it requests, the index it
      will read from the answer and the grid size. */
  datatype LeakagePlan = LeakagePlan(star: StarParams, request: seq<string>, mapIndex: nat, imageSize: nat)

  /** Target selection, then the variant check; only a plan that passes both
      leads to a transmission-map request. */
  function PlanLeakage(single: map<string, real>, catalog: seq<StarParams>, index: Option<int>,
                       selection: string, imageSize: nat): (r: Result<LeakagePlan, Error>)
    ensures SelectTarget(single, catalog, index).Err? ==>
      r == Err(SelectTarget(single, catalog, index).error)
    ensures SelectTarget(single, catalog, index).Ok? && selection !in Variants ==>
      r == Err(NonexistentMap(selection))
    ensures r.Ok? <==> SelectTarget(single, catalog, index).Ok? && selection in Variants
    ensures r.Ok? ==>
      && r.value.star == SelectTarget(single, catalog, index).value
      && r.value.request == [selection]
      && r.value.mapIndex < |Variants| && Variants[r.value.mapIndex] == selection
      && r.value.imageSize == imageSize
  {
    var star :- SelectTarget(single, catalog, index);
    if selection !in Variants then Err(NonexistentMap(selection))
    else Ok(LeakagePlan(star, [selection], MapIndex(selection), imageSize))
  }

  /** The leakage computation with its fixed variant and grid size: the
      modelled steps fail only when the target cannot be read, and otherwise
      read map index 2 on a 50 by 50 grid. */
  function NoisePlan(single: map<string, real>, catalog: seq<StarParams>, index: Option<int>)
    : (r: Result<LeakagePlan, Error>)
    ensures r.Ok? <==> SelectTarget(single, catalog, index).Ok?
    ensures r.Ok? ==> r.value.mapIndex == 2 && r.value.imageSize == 50 && r.value.request == ["tm3"]
  {
    PlanLeakage(single, catalog, index, MapSelection, ImageSize)
  }

  /** The mean transmission over the stellar disk in each wavelength bin,
      from the peer's answer to the plan's request: the answer's entry at the
      plan's map index, one map per bin. Nothing is assumed of the answer's
      shape: a missing entry or a map of another shape is an error. */
  function LeakageFractions(plan: LeakagePlan, answer: seq<seq<seq<seq<real>>>>)
    : (r: Result<seq<real>, Error>)
    requires plan.imageSize >= 1
    ensures plan.mapIndex >= |answer| ==> r == Err(IndexError(plan.mapIndex))
    ensures plan.mapIndex < |answer| ==> (r.Ok? <==> IsStack(answer[plan.mapIndex], plan.imageSize))
    ensures r.Ok? ==> plan.mapIndex < |answer| && |r.value| == |answer[plan.mapIndex]|
    ensures r.Ok? ==> forall w :: 0 <= w < |r.value| && InUnitRange(answer[plan.mapIndex][w]) ==>
      0.0 <= r.value[w] <= 1.0
  {
    if plan.mapIndex >= |answer| then Err(IndexError(plan.mapIndex))
    else
      var stack := answer[plan.mapIndex];
      if !IsStack(stack, plan.imageSize) then Err(ShapeError)
      else Ok(seq(|stack|, w requires 0 <= w < |stack| => MaskedMean(plan.imageSize, stack[w])))
  }
}
