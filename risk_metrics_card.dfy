/**
 * The risk metrics card: severity colours of the Greeks against fixed
 * thresholds and the strength bands of the correlation grid.
 */
module RiskMetricsCard {
  import opened Wrappers
  import opened Types
  import opened Matrices

  /** The colours of `getRiskColor`: green, yellow, red. */
  datatype Severity = Green | Yellow | Red {
    function Rank(): nat {
      match this
      case Green => 0
      case Yellow => 1
      case Red => 2
    }
  }

  /** `getRiskColor(value, threshold)`: red above the threshold, yellow above 70% of it. */
  function SeverityOf(v: real, t: real): (s: Severity)
    ensures s.Red? <==> Abs(v) > t
    ensures s.Yellow? <==> 0.7 * t < Abs(v) <= t
    ensures s.Green? <==> Abs(v) <= t && Abs(v) <= 0.7 * t
  {
    if Abs(v) > t then Red else if Abs(v) > t * 0.7 then Yellow else Green
  }

  /** Only the magnitude counts. */
  lemma SeveritySymmetric(v: real, t: real)
    ensures SeverityOf(v, t) == SeverityOf(-v, t)
  {
  }

  /** A larger magnitude never gets a milder colour. */
  lemma SeverityMonotone(v: real, w: real, t: real)
    requires Abs(v) <= Abs(w)
    ensures SeverityOf(v, t).Rank() <= SeverityOf(w, t).Rank()
  {
  }

  /** The six tiles of the card. */
  datatype Metric = VaRTile | DrawdownTile | DeltaTile | GammaTile | ThetaTile | VegaTile

  /** The threshold a tile is coloured against; VaR, drawdown and theta have fixed colours. */
  function ThresholdOf(k: Metric): (t: Option<real>)
    ensures t.Some? <==> k.DeltaTile? || k.GammaTile? || k.VegaTile?
    ensures k.DeltaTile? ==> t == Some(30.0)
    ensures k.GammaTile? ==> t == Some(3.0)
    ensures k.VegaTile? ==> t == Some(500.0)
  {
    match k
    case DeltaTile => Some(30.0)
    case GammaTile => Some(3.0)
    case VegaTile => Some(500.0)
    case _ => None
  }

  /** The value a tile shows. */
  function ValueOf(m: RiskMetrics, k: Metric): real {
    match k
    case VaRTile => m.portfolioVaR
    case DrawdownTile => m.maxDrawdown
    case DeltaTile => m.totalDelta
    case GammaTile => m.totalGamma
    case ThetaTile => m.totalTheta
    case VegaTile => m.totalVega
  }

  /** The severity colour of a tile, None for the tiles that are not classified. */
  function TileSeverity(m: RiskMetrics, k: Metric): (s: Option<Severity>)
    ensures s.Some? <==> ThresholdOf(k).Some?
    ensures ThresholdOf(k).Some? ==> s == Some(SeverityOf(ValueOf(m, k), ThresholdOf(k).value))
    ensures k.DeltaTile? ==> (s == Some(Red) <==> Abs(m.totalDelta) > 30.0)
    ensures k.GammaTile? ==> (s == Some(Red) <==> Abs(m.totalGamma) > 3.0)
    ensures k.VegaTile? ==> (s == Some(Red) <==> Abs(m.totalVega) > 500.0)
  {
    var t := ThresholdOf(k);
    if t.Some? then Some(SeverityOf(ValueOf(m, k), t.value)) else None
  }

  /** The strength bands of a correlation cell. */
  datatype Strength = Weak | Moderate | Strong

  function StrengthOf(v: real): (s: Strength)
    ensures s.Strong? <==> v > 0.7
    ensures s.Moderate? <==> 0.3 < v <= 0.7
    ensures s.Weak? <==> v <= 0.3
  {
    if v > 0.7 then Strong else if v > 0.3 then Moderate else Weak
  }

  /** One cell of the correlation grid, keyed by its row and column. */
  datatype Cell = Cell(row: nat, col: nat, value: real, strength: Strength)

  function CellOf(i: nat, j: nat, v: real): Cell {
    Cell(i, j, v, StrengthOf(v))
  }

  /** The cells of one row of the grid. */
  function RowCells(row: seq<real>, i: nat): (cs: seq<Cell>)
    ensures |cs| == |row|
    ensures forall j :: 0 <= j < |row| ==> cs[j] == CellOf(i, j, row[j])
  {
    seq(|row|, j requires 0 <= j < |row| => CellOf(i, j, row[j]))
  }

  /** `matrix.map((row, i) => row.map((value, j) => ...))`, flattened, rows numbered from `first`. */
  function CellsFrom(m: seq<seq<real>>, first: nat): (cs: seq<Cell>)
  {
    if m == [] then [] else RowCells(m[0], first) + CellsFrom(m[1..], first + 1)
  }

  /** The grid's cells. */
  function Cells(m: seq<seq<real>>): seq<Cell> {
    CellsFrom(m, 0)
  }

  predicate RowsOfLength(m: seq<seq<real>>, n: nat) {
    forall i :: 0 <= i < |m| ==> |m[i]| == n
  }

  lemma {:induction false} CellsFromRowMajor(m: seq<seq<real>>, n: nat, first: nat, i: nat, j: nat)
    requires RowsOfLength(m, n) && i < |m| && j < n
    ensures i * n + j < |CellsFrom(m, first)|
    ensures CellsFrom(m, first)[i * n + j] == CellOf(first + i, j, m[i][j])
  {
    CellsFromLength(m, n, first);
    RowMajorBound(i, j, |m|, n);
    var row := RowCells(m[0], first);
    var rest := CellsFrom(m[1..], first + 1);
    assert CellsFrom(m, first) == row + rest;
    if i == 0 {
      RowMajorShift(i, j, n);
    } else {
      CellsFromRowMajor(m[1..], n, first + 1, i - 1, j);
      RowMajorShift(i, j, n);
      assert m[1..][i - 1] == m[i];
    }
  }

  lemma RowMajorBound(i: nat, j: nat, rows: nat, n: nat)
    requires i < rows && j < n
    ensures i * n + j < rows * n
  {
    MulMonotone(i + 1, rows, n);
    assert (i + 1) * n == i * n + n;
  }

  lemma {:induction false} MulMonotone(a: nat, b: nat, n: nat)
    requires a <= b
    ensures a * n <= b * n
  {
    if a < b {
      MulMonotone(a, b - 1, n);
      LengthStep(b, n);
    }
  }

  lemma RowMajorShift(i: nat, j: nat, n: nat)
    ensures i == 0 ==> i * n + j == j
    ensures i > 0 ==> (i - 1) * n + j + n == i * n + j
  {
  }

  lemma {:induction false} CellsFromLength(m: seq<seq<real>>, n: nat, first: nat)
    requires RowsOfLength(m, n)
    ensures |CellsFrom(m, first)| == |m| * n
  {
    if m != [] {
      CellsFromLength(m[1..], n, first + 1);
      LengthStep(|m|, n);
    }
  }

  lemma LengthStep(rows: nat, n: nat)
    requires rows > 0
    ensures (rows - 1) * n + n == rows * n
  {
  }

  /** The n-by-n grid has n*n cells in row-major order: cell (i, j) sits at i*n + j. */
  lemma CellsRowMajor(m: seq<seq<real>>, n: nat, i: nat, j: nat)
    requires IsSquare(m, n) && i < n && j < n
    ensures |Cells(m)| == n * n
    ensures i * n + j < n * n
    ensures Cells(m)[i * n + j] == Cell(i, j, m[i][j], StrengthOf(m[i][j]))
  {
    CellsFromLength(m, n, 0);
    CellsFromRowMajor(m, n, 0, i, j);
  }

  /** The diagonal of a correlation matrix always shows as strong. */
  lemma DiagonalIsStrong(m: seq<seq<real>>, i: nat)
    requires IsCorrelationMatrix(m) && i < |m|
    ensures i * |m| + i < |Cells(m)|
    ensures Cells(m)[i * |m| + i].strength == Strong
  {
    CellsRowMajor(m, |m|, i, i);
  }
}
