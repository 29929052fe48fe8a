/** The transformer helpers of the line recognizer: the causal mask of the decoder, the
    classic sinusoidal positional table for sequences, the 2-D positional table for feature
    maps, and the two modules that add a table to their input. */
module TransformerUtil {
  import opened Tensors

  // ---------------------------------------------------------------------------
  // The causal ("square subsequent") mask

  /** An entry of a float mask: a finite value or minus infinity. */
  datatype MaskValue = Finite(v: real) | NegInf

  /** The n by n grid whose entry (i, j) is f(i, j). */
  function Grid<T>(n: nat, f: (nat, nat) --> T): (g: seq<seq<T>>)
    requires forall i: nat, j: nat :: i < n && j < n ==> f.requires(i, j)
    ensures IsSquare(g, n)
    ensures forall i: nat, j: nat :: i < n && j < n ==> g[i][j] == f(i, j)
  {
    seq(n, i requires 0 <= i < n => seq(n, j requires 0 <= j < n => f(i, j)))
  }

  predicate IsSquare<T>(g: seq<seq<T>>, n: nat) {
    |g| == n && forall i | 0 <= i < n :: |g[i]| == n
  }

  /** `torch.ones(n, n)`. */
  function Ones(n: nat): (g: seq<seq<real>>)
    ensures IsSquare(g, n)
    ensures forall i: nat, j: nat :: i < n && j < n ==> g[i][j] == 1.0
  {
    Grid(n, (i: nat, j: nat) => 1.0)
  }

  /** `torch.triu(m)`: the entries below the diagonal become 0. */
  function Triu(m: seq<seq<real>>, n: nat): (g: seq<seq<real>>)
    requires IsSquare(m, n)
    ensures IsSquare(g, n)
    ensures forall i: nat, j: nat :: i < n && j < n ==>
      (i <= j ==> g[i][j] == m[i][j]) && (j < i ==> g[i][j] == 0.0)
  {
    Grid(n, (i: nat, j: nat) requires i < n && j < n => if i <= j then m[i][j] else 0.0)
  }

  /** `m == 1`, entrywise. */
  function EqualsOne(m: seq<seq<real>>, n: nat): (g: seq<seq<bool>>)
    requires IsSquare(m, n)
    ensures IsSquare(g, n)
    ensures forall i: nat, j: nat :: i < n && j < n ==> (g[i][j] <==> m[i][j] == 1.0)
  {
    Grid(n, (i: nat, j: nat) requires i < n && j < n => m[i][j] == 1.0)
  }

  /** `m.transpose(0, 1)`. */
  function Transpose<T>(m: seq<seq<T>>, n: nat): (g: seq<seq<T>>)
    requires IsSquare(m, n)
    ensures IsSquare(g, n)
    ensures forall i: nat, j: nat :: i < n && j < n ==> g[i][j] == m[j][i]
  {
    Grid(n, (i: nat, j: nat) requires i < n && j < n => m[j][i])
  }

  /** `m == 0` for a boolean mask: true where m is false. */
  function EqualsZero(m: seq<seq<bool>>, n: nat): (g: seq<seq<bool>>)
    requires IsSquare(m, n)
    ensures IsSquare(g, n)
    ensures forall i: nat, j: nat :: i < n && j < n ==> (g[i][j] <==> !m[i][j])
  {
    Grid(n, (i: nat, j: nat) requires i < n && j < n => !m[i][j])
  }

  /** `m.float()` for a boolean mask: 1.0 for true, 0.0 for false. */
  function AsFloat(m: seq<seq<bool>>, n: nat): (g: seq<seq<MaskValue>>)
    requires IsSquare(m, n)
    ensures IsSquare(g, n)
    ensures forall i: nat, j: nat :: i < n && j < n ==>
      (g[i][j] == Finite(1.0) <==> m[i][j]) && (g[i][j] == Finite(0.0) <==> !m[i][j])
  {
    Grid(n, (i: nat, j: nat) requires i < n && j < n => if m[i][j] then Finite(1.0) else Finite(0.0))
  }

  /** `m.masked_fill(cond, v)`: a copy of m with v wherever cond holds. */
  function MaskedFill(m: seq<seq<MaskValue>>, cond: seq<seq<bool>>, v: MaskValue, n: nat): (g: seq<seq<MaskValue>>)
    requires IsSquare(m, n) && IsSquare(cond, n)
    ensures IsSquare(g, n)
    ensures forall i: nat, j: nat :: i < n && j < n ==>
      (cond[i][j] ==> g[i][j] == v) && (!cond[i][j] ==> g[i][j] == m[i][j])
  {
    Grid(n, (i: nat, j: nat) requires i < n && j < n => if cond[i][j] then v else m[i][j])
  }

  /** generate_square_subsequent_mask(size): position i may attend to positions 0..i (entry
      0.0) and not to later ones (entry minus infinity). */
  function SquareSubsequentMask(size: nat): (mask: seq<seq<MaskValue>>)
    ensures IsSquare(mask, size)
    ensures forall i: nat, j: nat :: i < size && j < size ==>
      (mask[i][j] == Finite(0.0) <==> j <= i) && (mask[i][j] == NegInf <==> i < j)
  {
    var allowed := Transpose(EqualsOne(Triu(Ones(size), size), size), size);
    MaskedFill(MaskedFill(AsFloat(allowed, size), EqualsZero(allowed, size), NegInf, size),
               allowed, Finite(0.0), size)
  }

  /** The number of 0.0 entries in a mask row. */
  function CountZeros(row: seq<MaskValue>): (n: nat)
    ensures n <= |row|
  {
    if |row| == 0 then 0
    else CountZeros(row[..|row| - 1]) + (if row[|row| - 1] == Finite(0.0) then 1 else 0)
  }

  /** A row that is 0.0 exactly up to column i has min(k, i + 1) zeros among its first k
      entries. */
  lemma {:induction false} CountZerosOfPrefix(row: seq<MaskValue>, i: nat, k: nat)
    requires k <= |row|
    requires forall j | 0 <= j < |row| :: row[j] == Finite(0.0) <==> j <= i
    ensures CountZeros(row[..k]) == Min(k, i + 1)
  {
    if k > 0 {
      CountZerosOfPrefix(row, i, k - 1);
      assert row[..k][..k - 1] == row[..k - 1];
    }
  }

  /** Row i of the mask holds exactly i + 1 zeros, at columns 0..i, and its diagonal entry
      is one of them. */
  lemma MaskRowZeros(size: nat, i: nat)
    requires i < size
    ensures CountZeros(SquareSubsequentMask(size)[i]) == i + 1
    ensures SquareSubsequentMask(size)[i][i] == Finite(0.0)
  {
    var row := SquareSubsequentMask(size)[i];
    CountZerosOfPrefix(row, i, |row|);
    assert row[..|row|] == row;
  }

  // ---------------------------------------------------------------------------
  // The 1-D sinusoidal table

  /** The float functions the tables are built from; only sin(0) = 0 and cos(0) = 1 are
      relied on. */
  datatype Numerics = Numerics(sin: real -> real, cos: real -> real, exp: real -> real,
                               log: real -> real)
  {
    predicate Sound() { sin(0.0) == 0.0 && cos(0.0) == 1.0 }
  }

  /** `div_term[k] = exp(2k * (-log(10000) / d_model))`; the first pair turns at exp(0),
      whatever the depth. */
  function DivTerm(num: Numerics, d: nat, k: nat): (f: real)
    requires d > 0
    ensures k == 0 ==> f == num.exp(0.0)
  {
    assert k == 0 ==> (2 * k) as real * (-num.log(10000.0) / d as real) == 0.0;
    num.exp((2 * k) as real * (-num.log(10000.0) / d as real))
  }

  /** The angle of position p in frequency pair k. */
  function Angle(num: Numerics, d: nat, p: nat, k: nat): real
    requires d > 0
  {
    p as real * DivTerm(num, d, k)
  }

  /** Whether a slice of `target` columns can be assigned from `source` columns: the
      counts agree, or a single column is broadcast. */
  predicate Assignable(source: nat, target: nat) {
    source == target || source == 1
  }

  /** Entry c of position p in a table of depth d: the sine of pair c / 2 in an even slot,
      its cosine in an odd slot. At position 0 every angle is 0, so the entries alternate
      0, 1, 0, 1, ... */
  function PeEntry(num: Numerics, d: nat, p: nat, c: nat): (e: real)
    requires d > 0
    ensures num.Sound() && p == 0 ==> e == (if c % 2 == 0 then 0.0 else 1.0)
  {
    if c % 2 == 0 then num.sin(Angle(num, d, p, c / 2)) else num.cos(Angle(num, d, p, c / 2))
  }

  /** Slots 2k and 2k + 1 hold the sine and the cosine of the same angle. */
  lemma PeEntryPairs(num: Numerics, d: nat, p: nat, k: nat)
    requires d > 0
    ensures PeEntry(num, d, p, 2 * k) == num.sin(Angle(num, d, p, k))
    ensures PeEntry(num, d, p, 2 * k + 1) == num.cos(Angle(num, d, p, k))
  {
    assert (2 * k) / 2 == k && (2 * k) % 2 == 0;
    assert (2 * k + 1) / 2 == k && (2 * k + 1) % 2 == 1;
  }

  /** The 1-D table make_pe(d_model, max_len) builds: shape (max_len, 1, d_model), or the
      error it raises. */
  function PeTable1D(num: Numerics, d: nat, maxLen: nat): (r: Result<Tensor3>)
    ensures r.Ok? <==> d == 1 || (d > 0 && d % 2 == 0)
    ensures r.Err? ==> (r.error == ZeroDivision <==> d == 0) &&
                       (r.error == ShapeMismatch <==> d != 0)
    ensures r.Ok? ==> r.value.Valid() && r.value.d0 == maxLen && r.value.d1 == 1 && r.value.d2 == d
    ensures r.Ok? ==> forall p: nat, c: nat :: p < maxLen && c < d ==>
      r.value.data[p][0][c] == PeEntry(num, d, p, c)
  {
    if d == 0 then Err(ZeroDivision)
    else if !Assignable((d + 1) / 2, d / 2) then Err(ShapeMismatch)
    else Ok(Build3(maxLen, 1, d, (p: nat, z: nat, c: nat) requires c < d => PeEntry(num, d, p, c)))
  }

  /** The sinusoidal layout of the 1-D table: slot 2k of position p is sin(p * div_term[k])
      and slot 2k + 1 is cos(p * div_term[k]). */
  lemma PeTable1DLayout(num: Numerics, d: nat, maxLen: nat, p: nat, k: nat)
    requires PeTable1D(num, d, maxLen).Ok? && p < maxLen
    ensures 2 * k < d ==>
      PeTable1D(num, d, maxLen).value.data[p][0][2 * k] == num.sin(Angle(num, d, p, k))
    ensures 2 * k + 1 < d ==>
      PeTable1D(num, d, maxLen).value.data[p][0][2 * k + 1] == num.cos(Angle(num, d, p, k))
  {
    PeEntryPairs(num, d, p, k);
  }

  /** Position 0 of the table is 0 in the even slots and 1 in the odd slots. */
  lemma PeTable1DFirstRow(num: Numerics, d: nat, maxLen: nat)
    requires num.Sound() && maxLen > 0 && PeTable1D(num, d, maxLen).Ok?
    ensures forall c: nat :: c < d ==>
      PeTable1D(num, d, maxLen).value.data[0][0][c] == if c % 2 == 0 then 0.0 else 1.0
  {
    forall c: nat | c < d
      ensures PeEntry(num, d, 0, c) == if c % 2 == 0 then 0.0 else 1.0
    {
      assert Angle(num, d, 0, c / 2) == 0.0;
    }
  }

  /** make_pe(d_model, max_len): a zero (max_len, d_model) buffer whose even columns are
      set to the sines and whose odd columns are set to the cosines, in place, then given
      a middle axis of size 1. */
  method MakePe1D(num: Numerics, dModel: nat, maxLen: nat) returns (r: Result<Tensor3>)
    ensures r == PeTable1D(num, dModel, maxLen)
  {
    var pe := new real[maxLen, dModel]((p, c) => 0.0);
    if dModel == 0 {
      return Err(ZeroDivision);
    }
    forall p, c | 0 <= p < maxLen && 0 <= c < dModel && c % 2 == 0 {
      pe[p, c] := num.sin(Angle(num, dModel, p, c / 2));
    }
    if !Assignable((dModel + 1) / 2, dModel / 2) {
      return Err(ShapeMismatch);
    }
    forall p, c | 0 <= p < maxLen && 0 <= c < dModel && c % 2 == 1 {
      pe[p, c] := num.cos(Angle(num, dModel, p, c / 2));
    }
    r := Ok(Unsqueeze1(pe));
    TableFromBuffer(num, dModel, maxLen, r.value);
  }

  /** The unsqueezed buffer is the table PeTable1D describes. */
  lemma TableFromBuffer(num: Numerics, d: nat, maxLen: nat, t: Tensor3)
    requires d > 0 && Assignable((d + 1) / 2, d / 2)
    requires t.Valid() && t.d0 == maxLen && t.d1 == 1 && t.d2 == d
    requires forall p: nat, c: nat :: p < maxLen && c < d ==> t.data[p][0][c] == PeEntry(num, d, p, c)
    ensures PeTable1D(num, d, maxLen) == Ok(t)
  {
    Extensionality3(t, PeTable1D(num, d, maxLen).value);
  }

  /** The classic positional-encoding module: its dropout probability and its table of
      shape (max_len, 1, d_model). Dropout is taken as the identity (evaluation mode). */
  datatype PositionalEncoding = PositionalEncoding(dropout: real, pe: Tensor3)
  {
    predicate Valid() { 0.0 <= dropout <= 1.0 && pe.Valid() && pe.d1 == 1 }

    /** forward(x) for x of shape (S, B, d_model): rejects a depth other than the table's,
        then adds the first S positions of the table to every batch entry. */
    function Forward(x: Tensor3): (r: Result<Tensor3>)
      requires Valid() && x.Valid()
      ensures r.Err? && r.error == DimensionMismatch <==> x.d2 != pe.d2
      ensures r.Err? ==> r.error == DimensionMismatch || r.error == BroadcastMismatch
    {
      if x.d2 != pe.d2 then Err(DimensionMismatch)
      else BroadcastAdd3(x, Narrow0(pe, x.d0))
    }
  }

  /** A sequence no longer than the table, of the table's depth, gets position s of the
      table added to each of its batch entries at step s; the shape is unchanged. */
  lemma ForwardAddsPositions(enc: PositionalEncoding, x: Tensor3)
    requires enc.Valid() && x.Valid() && x.d2 == enc.pe.d2 && x.d0 <= enc.pe.d0
    ensures var r := enc.Forward(x);
      r.Ok? && r.value.Valid() && r.value.d0 == x.d0 && r.value.d1 == x.d1 && r.value.d2 == x.d2 &&
      forall s: nat, b: nat, c: nat :: s < x.d0 && b < x.d1 && c < x.d2 ==>
        r.value.data[s][b][c] == x.data[s][b][c] + enc.pe.data[s][0][c]
  {
    AddAcrossAxis1(x, Narrow0(enc.pe, x.d0));
  }

  /** A sequence longer than the table is accepted only where broadcasting lets it through:
      a table of one position, or a single step against an empty table. */
  lemma ForwardBeyondTable(enc: PositionalEncoding, x: Tensor3)
    requires enc.Valid() && x.Valid() && x.d2 == enc.pe.d2 && x.d0 > enc.pe.d0
    ensures enc.Forward(x).Ok? <==> enc.pe.d0 == 1 || x.d0 == 1
  {
    assert Narrow0(enc.pe, x.d0).d0 == enc.pe.d0;
  }

  /** PositionalEncoding(d_model, dropout, max_len): a dropout probability outside [0, 1]
      is rejected first, then the table is built. */
  method NewPositionalEncoding(num: Numerics, dModel: nat, dropout: real := 0.1, maxLen: nat := 5000)
    returns (r: Result<PositionalEncoding>)
    ensures !(0.0 <= dropout <= 1.0) ==> r == Err(InvalidProbability)
    ensures 0.0 <= dropout <= 1.0 ==>
      var table := PeTable1D(num, dModel, maxLen);
      (r.Ok? <==> table.Ok?) &&
      (r.Err? ==> r.error == table.error) &&
      (r.Ok? ==> r.value.Valid() && r.value.dropout == dropout && r.value.pe == table.value)
  {
    if !(0.0 <= dropout <= 1.0) {
      return Err(InvalidProbability);
    }
    var table := MakePe1D(num, dModel, maxLen);
    if table.Err? {
      return Err(table.error);
    }
    r := Ok(PositionalEncoding(dropout, table.value));
  }

  // ---------------------------------------------------------------------------
  // The 2-D table

  /** `t.permute(2, 0, 1).expand(-1, -1, width)` for a 1-D table t of shape (H, 1, D):
      channel c at (h, w) is entry c of row h, for every column w. */
  function RowsAcross(t: Tensor3, width: nat): (r: Tensor3)
    requires t.Valid() && t.d1 == 1
    ensures r.Valid() && r.d0 == t.d2 && r.d1 == t.d0 && r.d2 == width
    ensures forall c: nat, h: nat, w: nat :: c < t.d2 && h < t.d0 && w < width ==>
      r.data[c][h][w] == t.data[h][0][c]
  {
    Expand(Permute(t, 2, 0, 1), t.d2, t.d0, width)
  }

  /** `t.permute(2, 1, 0).expand(-1, height, -1)` for a 1-D table t of shape (W, 1, D):
      channel c at (h, w) is entry c of column w, for every row h. */
  function ColumnsDown(t: Tensor3, height: nat): (r: Tensor3)
    requires t.Valid() && t.d1 == 1
    ensures r.Valid() && r.d0 == t.d2 && r.d1 == height && r.d2 == t.d0
    ensures forall c: nat, h: nat, w: nat :: c < t.d2 && h < height && w < t.d0 ==>
      r.data[c][h][w] == t.data[w][0][c]
  {
    Expand(Permute(t, 2, 1, 0), t.d2, height, t.d0)
  }

  /** `torch.cat([pe_h, pe_w], dim=0)` of the two broadcast tables: the channels of the row
      table, then those of the column table. */
  function RowsThenColumns(rows: Tensor3, cols: Tensor3): (r: Tensor3)
    requires rows.Valid() && rows.d1 == 1 && cols.Valid() && cols.d1 == 1 && rows.d2 == cols.d2
    ensures r.Valid() && r.d0 == rows.d2 + cols.d2 && r.d1 == rows.d0 && r.d2 == cols.d0
    ensures forall c: nat, h: nat, w: nat :: c < r.d0 && h < r.d1 && w < r.d2 ==>
      r.data[c][h][w] == if c < rows.d2 then rows.data[h][0][c] else cols.data[w][0][c - rows.d2]
  {
    Cat0(RowsAcross(rows, cols.d0), ColumnsDown(cols, rows.d0))
  }

  /** The 2-D make_pe(d_model, max_h, max_w): half the depth encodes the row, broadcast
      across the width, the other half the column, broadcast across the height. An odd
      depth is rejected by the constructor's check. */
  function PeTable2D(num: Numerics, d: nat, maxH: nat, maxW: nat): (r: Result<Tensor3>)
    ensures d % 2 != 0 ==> r == Err(OddDepth)
    ensures r.Ok? ==>
      r.value.Valid() && r.value.d0 == d && r.value.d1 == maxH && r.value.d2 == maxW
  {
    if d % 2 != 0 then Err(OddDepth)
    else
      var rows := PeTable1D(num, d / 2, maxH);
      if rows.Err? then Err(rows.error)
      else Ok(RowsThenColumns(rows.value, PeTable1D(num, d / 2, maxW).value))
  }

  /** The 2-D table exists exactly for depth 2 and the positive multiples of 4: an odd
      depth fails the evenness check, and an even depth whose half is 0 or odd and above 1
      fails in the 1-D builder, with the 1-D builder's error. */
  lemma PeTable2DDepths(num: Numerics, d: nat, maxH: nat, maxW: nat)
    ensures PeTable2D(num, d, maxH, maxW).Ok? <==> d == 2 || (d > 0 && d % 4 == 0)
    ensures d % 2 == 0 && PeTable2D(num, d, maxH, maxW).Err? ==>
      PeTable2D(num, d, maxH, maxW).error == PeTable1D(num, d / 2, maxH).error
  {
    if d % 2 == 0 {
      assert (d / 2) % 2 == 0 <==> d % 4 == 0;
      assert PeTable2D(num, d, maxH, maxW).Ok? <==> PeTable1D(num, d / 2, maxH).Ok?;
    }
  }

  /** A 2-D table that exists is the concatenation of the broadcast row and column tables of
      depth d_model / 2, both of which exist. */
  lemma PeTable2DStacks(num: Numerics, d: nat, maxH: nat, maxW: nat)
    requires PeTable2D(num, d, maxH, maxW).Ok?
    ensures d / 2 > 0 && PeTable1D(num, d / 2, maxH).Ok? && PeTable1D(num, d / 2, maxW).Ok?
    ensures PeTable2D(num, d, maxH, maxW).value ==
      RowsThenColumns(PeTable1D(num, d / 2, maxH).value, PeTable1D(num, d / 2, maxW).value)
  {
  }

  /** In the first half of the 2-D table, channel c at (h, w) is channel c of row h of the
      1-D table of depth d_model / 2: the sinusoid of row h, the same for every column. */
  lemma PeTable2DRowHalf(num: Numerics, d: nat, maxH: nat, maxW: nat, c: nat, h: nat, w: nat)
    requires PeTable2D(num, d, maxH, maxW).Ok? && c < d / 2 && h < maxH && w < maxW
    ensures var t := PeTable2D(num, d, maxH, maxW).value;
      t.data[c][h][w] == PeTable1D(num, d / 2, maxH).value.data[h][0][c] &&
      t.data[c][h][w] == PeEntry(num, d / 2, h, c) &&
      forall w': nat :: w' < maxW ==> t.data[c][h][w'] == t.data[c][h][w]
  {
    PeTable2DStacks(num, d, maxH, maxW);
    var t, rows := PeTable2D(num, d, maxH, maxW).value, PeTable1D(num, d / 2, maxH).value;
    forall w': nat | w' < maxW ensures t.data[c][h][w'] == rows.data[h][0][c] {
    }
  }

  /** In the second half of the 2-D table, channel c at (h, w) is channel c - d_model / 2 of
      column w of the 1-D table of depth d_model / 2: the sinusoid of column w, the same for
      every row. */
  lemma PeTable2DColumnHalf(num: Numerics, d: nat, maxH: nat, maxW: nat, c: nat, h: nat, w: nat)
    requires PeTable2D(num, d, maxH, maxW).Ok? && d / 2 <= c < d && h < maxH && w < maxW
    ensures var t := PeTable2D(num, d, maxH, maxW).value;
      t.data[c][h][w] == PeTable1D(num, d / 2, maxW).value.data[w][0][c - d / 2] &&
      t.data[c][h][w] == PeEntry(num, d / 2, w, c - d / 2) &&
      forall h': nat :: h' < maxH ==> t.data[c][h'][w] == t.data[c][h][w]
  {
    PeTable2DStacks(num, d, maxH, maxW);
    var t, cols := PeTable2D(num, d, maxH, maxW).value, PeTable1D(num, d / 2, maxW).value;
    forall h': nat | h' < maxH ensures t.data[c][h'][w] == cols.data[w][0][c - d / 2] {
    }
  }

  /** `pe[:, :h, :w]` aligned with a batch of feature maps: shape (1, D, min(H, h), min(W, w)). */
  function Corner(pe: Tensor3, h: nat, w: nat): (r: Tensor4)
    requires pe.Valid()
    ensures r.Valid() && r.d0 == 1 && r.d1 == pe.d0 && r.d2 == Min(pe.d1, h) && r.d3 == Min(pe.d2, w)
    ensures forall c: nat, i: nat, j: nat :: c < r.d1 && i < r.d2 && j < r.d3 ==>
      r.data[0][c][i][j] == pe.data[c][i][j]
  {
    Unsqueeze0(Narrow12(pe, h, w))
  }

  /** The 2-D positional-encoding module: its depth and its table of shape
      (d_model, max_h, max_w). */
  datatype PositionalEncoding2D = PositionalEncoding2D(dModel: nat, pe: Tensor3)
  {
    predicate Valid() { pe.Valid() && pe.d0 == dModel }

    /** forward(x) for x of shape (B, d_model, H, W): rejects a depth other than the
        table's, then adds the table's top-left H by W corner to every batch entry. */
    function Forward(x: Tensor4): (r: Result<Tensor4>)
      requires Valid() && x.Valid()
      ensures r.Err? && r.error == DimensionMismatch <==> x.d1 != pe.d0
      ensures r.Err? ==> r.error == DimensionMismatch || r.error == BroadcastMismatch
    {
      if x.d1 != pe.d0 then Err(DimensionMismatch)
      else BroadcastAdd4(x, Corner(pe, x.d2, x.d3))
    }
  }

  /** A feature map of the table's depth that fits inside the table gets the table's entry
      at (c, h, w) added to channel c at (h, w) of every batch entry; the shape is
      unchanged. */
  lemma Forward2DAddsPositions(enc: PositionalEncoding2D, x: Tensor4)
    requires enc.Valid() && x.Valid() && x.d1 == enc.pe.d0 && x.d2 <= enc.pe.d1 && x.d3 <= enc.pe.d2
    ensures var r := enc.Forward(x);
      r.Ok? && r.value.Valid() &&
      r.value.d0 == x.d0 && r.value.d1 == x.d1 && r.value.d2 == x.d2 && r.value.d3 == x.d3 &&
      forall b: nat, c: nat, h: nat, w: nat :: b < x.d0 && c < x.d1 && h < x.d2 && w < x.d3 ==>
        r.value.data[b][c][h][w] == x.data[b][c][h][w] + enc.pe.data[c][h][w]
  {
    AddAcrossAxis0(x, Corner(enc.pe, x.d2, x.d3));
  }

  /** PositionalEncoding2D(d_model, max_h, max_w): the table of PeTable2D. */
  function NewPositionalEncoding2D(num: Numerics, dModel: nat, maxH: nat := 2000, maxW: nat := 2000)
    : (r: Result<PositionalEncoding2D>)
    ensures dModel % 2 != 0 ==> r == Err(OddDepth)
    ensures r.Ok? <==> PeTable2D(num, dModel, maxH, maxW).Ok?
    ensures r.Ok? ==>
      r.value.Valid() && r.value.dModel == dModel && r.value.pe == PeTable2D(num, dModel, maxH, maxW).value &&
      r.value.pe.d1 == maxH && r.value.pe.d2 == maxW
  {
    var table := PeTable2D(num, dModel, maxH, maxW);
    if table.Err? then Err(table.error) else Ok(PositionalEncoding2D(dModel, table.value))
  }
}
