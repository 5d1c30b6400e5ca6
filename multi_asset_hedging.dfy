/**
 * The multi-asset view: a fixed six-asset correlation heat map, its colour
 * bands and opacities, and the listed cross-asset hedges.
 */
module MultiAssetHedging {
  import opened Wrappers
  import opened Matrices

  /** The five colour bands of `getCorrelationColor`, from red (High) down to slate (Negligible). */
  datatype CorrelationBand = Negligible | VeryLow | Low | Medium | High {
    function Rank(): nat {
      match this
      case Negligible => 0
      case VeryLow => 1
      case Low => 2
      case Medium => 3
      case High => 4
    }
  }

  /** `getCorrelationColor(correlation)`: every value in exactly one band, a boundary value in the lower one. */
  function BandOf(c: real): (b: CorrelationBand)
    ensures b.High? <==> c > 0.8
    ensures b.Medium? <==> 0.6 < c <= 0.8
    ensures b.Low? <==> 0.4 < c <= 0.6
    ensures b.VeryLow? <==> 0.2 < c <= 0.4
    ensures b.Negligible? <==> c <= 0.2
  {
    if c > 0.8 then High
    else if c > 0.6 then Medium
    else if c > 0.4 then Low
    else if c > 0.2 then VeryLow
    else Negligible
  }

  /** A larger correlation never gets a lower band. */
  lemma BandMonotone(a: real, b: real)
    requires a <= b
    ensures BandOf(a).Rank() <= BandOf(b).Rank()
  {
  }

  /**
   * Banding uses the signed value: every negative correlation is negligible,
   * and one below -0.2 is shown as negligible although its magnitude is not.
   */
  lemma NegativeIsNegligible(c: real)
    requires c < 0.0
    ensures BandOf(c) == Negligible
    ensures c < -0.2 ==> BandOf(-c) != Negligible
  {
  }

  /** `getCorrelationIntensity(correlation)`, the absolute value. */
  function Intensity(c: real): (r: real)
    ensures r >= 0.0 && (r == c || r == -c)
    ensures -1.0 <= c <= 1.0 ==> r <= 1.0
  {
    if c < 0.0 then -c else c
  }

  /** The opacity of heat-map cell (i, j): full on the diagonal, the intensity elsewhere. */
  function CellOpacity(m: seq<seq<real>>, i: nat, j: nat): (r: real)
    requires IsSquare(m, |m|) && i < |m| && j < |m|
    ensures i == j ==> r == 1.0
    ensures EntriesInUnitRange(m) ==> 0.0 <= r <= 1.0
    ensures UnitDiagonal(m) ==> r == Intensity(m[i][j])
  {
    if i == j then 1.0 else Intensity(m[i][j])
  }

  const Assets: seq<string> := ["BTC", "ETH", "SOL", "AVAX", "MATIC", "DOT"]

  /** The heat map's matrix, rows and columns in the order of `Assets`. */
  const Correlations: seq<seq<real>> := [
    [1.00, 0.85, 0.72, 0.68, 0.61, 0.58],
    [0.85, 1.00, 0.78, 0.74, 0.69, 0.65],
    [0.72, 0.78, 1.00, 0.82, 0.71, 0.67],
    [0.68, 0.74, 0.82, 1.00, 0.75, 0.72],
    [0.61, 0.69, 0.71, 0.75, 1.00, 0.68],
    [0.58, 0.65, 0.67, 0.72, 0.68, 1.00]]

  datatype CrossAssetHedge = CrossAssetHedge(primaryAsset: string, hedgeAsset: string, correlation: real, hedgeRatio: real, effectiveness: real)

  const CrossAssetHedges: seq<CrossAssetHedge> := [
    CrossAssetHedge("SOL", "ETH", 0.78, 0.65, 0.89),
    CrossAssetHedge("AVAX", "SOL", 0.82, 0.72, 0.91),
    CrossAssetHedge("MATIC", "AVAX", 0.75, 0.58, 0.85)]

  /** The position of an asset in the heat map, None when it is not shown. */
  function AssetIndex(name: string): (k: Option<nat>)
    ensures k.Some? <==> name in Assets
    ensures k.Some? ==> k.value < |Assets| && Assets[k.value] == name
  {
    IndexIn(Assets, name)
  }

  function IndexIn(xs: seq<string>, x: string): (k: Option<nat>)
    ensures k.Some? <==> x in xs
    ensures k.Some? ==> k.value < |xs| && xs[k.value] == x
  {
    if xs == [] then None
    else if xs[0] == x then Some(0)
    else
      var k := IndexIn(xs[1..], x);
      if k.Some? then Some(k.value + 1) else None
  }

  /** The heat map is 6-by-6 over six assets, symmetric, with a unit diagonal and entries in [-1, 1]. */
  lemma FixtureMatrixIsCorrelationMatrix()
    ensures |Assets| == 6 && IsSquare(Correlations, 6)
    ensures IsCorrelationMatrix(Correlations)
  {
    var m := Correlations;
    assert m[0] == [1.00, 0.85, 0.72, 0.68, 0.61, 0.58];
    assert m[1] == [0.85, 1.00, 0.78, 0.74, 0.69, 0.65];
    assert m[2] == [0.72, 0.78, 1.00, 0.82, 0.71, 0.67];
    assert m[3] == [0.68, 0.74, 0.82, 1.00, 0.75, 0.72];
    assert m[4] == [0.61, 0.69, 0.71, 0.75, 1.00, 0.68];
    assert m[5] == [0.58, 0.65, 0.67, 0.72, 0.68, 1.00];
  }

  /** Each listed hedge pairs two shown assets, and its correlation is the matrix entry for the pair. */
  lemma HedgeMatchesMatrix(k: nat)
    requires k < |CrossAssetHedges|
    ensures var h := CrossAssetHedges[k];
      && AssetIndex(h.primaryAsset).Some? && AssetIndex(h.hedgeAsset).Some?
      && Correlations[AssetIndex(h.primaryAsset).value][AssetIndex(h.hedgeAsset).value] == h.correlation
  {
    AssetIndices();
    var h := CrossAssetHedges[k];
    var m := Correlations;
    if k == 0 {
      assert h.primaryAsset == "SOL" && h.hedgeAsset == "ETH" && h.correlation == 0.78;
      assert m[2] == [0.72, 0.78, 1.00, 0.82, 0.71, 0.67];
    } else if k == 1 {
      assert h.primaryAsset == "AVAX" && h.hedgeAsset == "SOL" && h.correlation == 0.82;
      assert m[3] == [0.68, 0.74, 0.82, 1.00, 0.75, 0.72];
    } else {
      assert h.primaryAsset == "MATIC" && h.hedgeAsset == "AVAX" && h.correlation == 0.75;
      assert m[4] == [0.61, 0.69, 0.71, 0.75, 1.00, 0.68];
    }
  }

  /** The positions of the hedged assets in the heat map. */
  lemma AssetIndices()
    ensures AssetIndex("ETH") == Some(1) && AssetIndex("SOL") == Some(2)
    ensures AssetIndex("AVAX") == Some(3) && AssetIndex("MATIC") == Some(4)
  {
    AssetIndexOf(1);
    AssetIndexOf(2);
    AssetIndexOf(3);
    AssetIndexOf(4);
  }

  /** The asset at position i is found at position i: no two assets share a name. */
  lemma AssetIndexOf(i: nat)
    requires i < |Assets|
    ensures AssetIndex(Assets[i]) == Some(i)
  {
    AssetsDistinct();
    IndexInDistinct(Assets, i);
  }

  /** The assets have pairwise different initials, hence different names. */
  lemma AssetsDistinct()
    ensures forall i, j :: 0 <= i < j < |Assets| ==> Assets[i] != Assets[j]
  {
    var initials := ['B', 'E', 'S', 'A', 'M', 'D'];
    assert forall j :: 0 <= j < |Assets| ==> Assets[j][0] == initials[j];
  }

  /** In a list without repeats, an element is found at its own position. */
  lemma {:induction false} IndexInDistinct(xs: seq<string>, i: nat)
    requires i < |xs| && forall a, b :: 0 <= a < b < |xs| ==> xs[a] != xs[b]
    ensures IndexIn(xs, xs[i]) == Some(i)
  {
    if i > 0 {
      assert xs[1..][i - 1] == xs[i];
      IndexInDistinct(xs[1..], i - 1);
    }
  }

  /** Each listed hedge uses a different asset from the one it hedges, with ratio and effectiveness in [0, 1]. */
  lemma HedgesWellFormed()
    ensures forall h :: h in CrossAssetHedges ==>
      && h.primaryAsset != h.hedgeAsset
      && 0.0 <= h.hedgeRatio <= 1.0
      && 0.0 <= h.effectiveness <= 1.0
  {
    assert "SOL"[0] != "ETH"[0] && "AVAX"[0] != "SOL"[0] && "MATIC"[0] != "AVAX"[0];
  }

  /** The listed hedges sit in the Medium, High and Medium bands. */
  lemma HedgeBands()
    ensures BandOf(CrossAssetHedges[0].correlation) == Medium
    ensures BandOf(CrossAssetHedges[1].correlation) == High
    ensures BandOf(CrossAssetHedges[2].correlation) == Medium
  {
  }
}
