/** LineCNNSimple: a line image is cut into fixed-width windows along its width, a CNN scores
    every window, and the scores are laid out as a (batch, classes, sequence) tensor, optionally
    cut down to the label length. */
module LineCnn {
  import opened Tensors

  /** Default window width and stride, in pixels. */
  const WINDOW_WIDTH: nat := 28
  const WINDOW_STRIDE: nat := 28

  // ---------------------------------------------------------------------------
  // Window geometry

  /** The sequence length S = math.floor((W - WW) / WS + 1). With a positive divisor, Dafny's
      `/` on int rounds toward negative infinity, which is what math.floor does: S - 1 is the
      largest integer whose multiple of the stride does not exceed W - WW. */
  function SeqLen(w: nat, ww: nat, ws: nat): (s: int)
    requires ws > 0
    ensures ws * (s - 1) <= w - ww < ws * (s - 1) + ws
  {
    (w - ww) / ws + 1
  }

  /** Window s covers the columns [WindowStart(s), WindowEnd(s)). */
  function WindowStart(ws: nat, s: nat): nat { ws * s }

  function WindowEnd(ww: nat, ws: nat, s: nat): nat { ws * s + ww }

  lemma MulMonotonic(a: nat, b: int, c: int)
    requires b <= c
    ensures a * b <= a * c
  {
    assert a * c - a * b == a * (c - b);
  }

  lemma DivOfMultiple(d: nat, q: nat)
    requires d > 0
    ensures (d * q) / d == q
  {
    var r := (d * q) / d;
    assert d * q == d * r + (d * q) % d;
    if r < q {
      MulMonotonic(d, r + 1, q);
    } else if r > q {
      MulMonotonic(d, q + 1, r);
    }
  }

  /** S counts exactly the windows that fit inside the image: window s is one of the S
      windows if and only if it ends at or before the last column. */
  lemma {:induction false} SeqLenCountsFittingWindows(w: nat, ww: nat, ws: nat)
    requires ws > 0
    ensures forall s: nat :: s < SeqLen(w, ww, ws) <==> WindowEnd(ww, ws, s) <= w
  {
    var q, r := (w - ww) / ws, (w - ww) % ws;
    assert w - ww == ws * q + r && 0 <= r < ws;
    forall s: nat ensures s < SeqLen(w, ww, ws) <==> WindowEnd(ww, ws, s) <= w {
      if s <= q {
        MulMonotonic(ws, s, q);
      } else {
        MulMonotonic(ws, q + 1, s);
      }
    }
  }

  /** When S >= 1, window s for s < S, the last one included, ends inside the image. */
  lemma WindowInside(w: nat, ww: nat, ws: nat, s: nat)
    requires ws > 0 && s < SeqLen(w, ww, ws)
    ensures WindowEnd(ww, ws, s) <= w
  {
    SeqLenCountsFittingWindows(w, ww, ws);
  }

  /** There is at least one window exactly when the image is at least one window wide. */
  lemma SeqLenPositive(w: nat, ww: nat, ws: nat)
    requires ws > 0
    ensures SeqLen(w, ww, ws) >= 1 <==> w >= ww
  {
    SeqLenCountsFittingWindows(w, ww, ws);
    assert WindowEnd(ww, ws, 0) == ww;
  }

  /** S is negative (and torch.zeros refuses it) exactly when the image is narrower than the
      window by more than a stride; an image narrower than the window by at most a stride
      (within a stride, inclusive) gives S == 0 and no windows. */
  lemma {:induction false} SeqLenNonNegative(w: nat, ww: nat, ws: nat)
    requires ws > 0
    ensures SeqLen(w, ww, ws) >= 0 <==> w + ws >= ww
  {
    var q, r := (w - ww) / ws, (w - ww) % ws;
    assert w - ww == ws * q + r && 0 <= r < ws;
    if q >= -1 {
      MulMonotonic(ws, -1, q);
    } else {
      MulMonotonic(ws, q, -2);
    }
  }

  /** Every window is exactly WW wide, and each starts WS columns after the one before. */
  lemma WindowSpans(ww: nat, ws: nat, s: nat)
    requires ws > 0
    ensures WindowEnd(ww, ws, s) - WindowStart(ws, s) == ww
    ensures WindowStart(ws, 0) == 0
    ensures WindowStart(ws, s + 1) == WindowStart(ws, s) + ws > WindowStart(ws, s)
  {
  }

  /** Window s covers column c. */
  predicate Covers(ww: nat, ws: nat, s: nat, c: nat) {
    WindowStart(ws, s) <= c < WindowEnd(ww, ws, s)
  }

  /** Column c of an image whose windows are as wide as their stride lies in window c / WW
      and in no other. */
  lemma {:induction false} AdjacentWindowOfColumn(ww: nat, c: nat, s: nat)
    requires ww > 0
    ensures Covers(ww, ww, s, c) <==> s == c / ww
  {
    var q, r := c / ww, c % ww;
    assert c == ww * q + r && 0 <= r < ww;
    if s < q {
      MulMonotonic(ww, s + 1, q);
    } else if s > q {
      MulMonotonic(ww, q + 1, s);
    }
  }

  /** With the window width equal to the stride and an image a whole number k of windows
      wide, there are k windows; they start at column 0, end at the last column, each starts
      where the previous one ends, and every column lies in exactly one of them. */
  lemma {:induction false} AdjacentWindowsTile(w: nat, ww: nat, k: nat)
    requires ww > 0 && k >= 1 && w == ww * k
    ensures SeqLen(w, ww, ww) == k
    ensures WindowStart(ww, 0) == 0 && WindowEnd(ww, ww, k - 1) == w
    ensures forall s: nat :: s + 1 < k ==> WindowEnd(ww, ww, s) == WindowStart(ww, s + 1)
    ensures forall c: nat, s: nat :: c < w && s < k ==> (Covers(ww, ww, s, c) <==> s == c / ww)
  {
    assert w - ww == ww * (k - 1) + 0;
    DivOfMultiple(ww, k - 1);
    forall c: nat, s: nat | c < w && s < k ensures Covers(ww, ww, s, c) <==> s == c / ww {
      AdjacentWindowOfColumn(ww, c, s);
    }
  }

  /** With the default width and stride of 28 pixels, an image 28 * k pixels wide gives k
      windows that tile it. */
  lemma DefaultWindowsTile(k: nat)
    requires k >= 1
    ensures SeqLen(WINDOW_WIDTH * k, WINDOW_WIDTH, WINDOW_STRIDE) == k
    ensures WindowStart(WINDOW_STRIDE, 0) == 0
    ensures WindowEnd(WINDOW_WIDTH, WINDOW_STRIDE, k - 1) == WINDOW_WIDTH * k
    ensures forall s: nat :: s + 1 < k ==>
      WindowEnd(WINDOW_WIDTH, WINDOW_STRIDE, s) == WindowStart(WINDOW_STRIDE, s + 1)
    ensures forall c: nat, s: nat :: c < WINDOW_WIDTH * k && s < k ==>
      (Covers(WINDOW_WIDTH, WINDOW_STRIDE, s, c) <==> s == c / WINDOW_WIDTH)
  {
    AdjacentWindowsTile(WINDOW_WIDTH * k, WINDOW_WIDTH, k);
  }

  // ---------------------------------------------------------------------------
  // The encoder, as a function of its configuration and input

  /** The per-window CNN: cnn(window, b, c) is the score of class c for sample b of a batch
      of windows of shape (B, C, H, WW). */
  type Cnn = (Tensor4, nat, nat) -> real

  /** The dataset description: the character mapping and the output dimensions. */
  datatype DataConfig = DataConfig(mapping: seq<string>, outputDims: seq<nat>)

  /** The encoder's settings; imageSize is the CNN's fixed input height. */
  datatype Config = Config(ww: nat, ws: nat, limitOutputLength: bool, numClasses: nat,
                           outputLength: nat, imageSize: nat)
  {
    predicate Valid() { ww > 0 && ws > 0 }
  }

  /** `x[:, :, :, start_w:end_w]` for window s, one of the S windows of x. */
  function Window(x: Tensor4, ww: nat, ws: nat, s: nat): (win: Tensor4)
    requires x.Valid() && ws > 0 && s < SeqLen(x.d3, ww, ws)
    ensures win.Valid() && win.d0 == x.d0 && win.d1 == x.d1 && win.d2 == x.d2 && win.d3 == ww
    ensures forall i: nat, j: nat, k: nat, l: nat ::
      i < x.d0 && j < x.d1 && k < x.d2 && l < ww ==>
        WindowStart(ws, s) + l < x.d3 &&
        win.data[i][j][k][l] == x.data[i][j][k][WindowStart(ws, s) + l]
  {
    WindowInside(x.d3, ww, ws, s);
    SliceLast(x, WindowStart(ws, s), WindowEnd(ww, ws, s))
  }

  /** The CNN's score of class c for sample b in window s. */
  function SlotScore(x: Tensor4, cnn: Cnn, ww: nat, ws: nat, s: nat, b: nat, c: nat): real
    requires x.Valid() && ws > 0 && s < SeqLen(x.d3, ww, ws)
  {
    cnn(Window(x, ww, ws, s), b, c)
  }

  /** The window the encoder slices for slot s is the one SlotScore scores. */
  lemma WindowScores(x: Tensor4, cnn: Cnn, ww: nat, ws: nat, s: nat, window: Tensor4)
    requires x.Valid() && ws > 0 && s < SeqLen(x.d3, ww, ws)
    requires window == SliceLast(x, WindowStart(ws, s), WindowEnd(ww, ws, s))
    ensures forall b: nat, c: nat :: SlotScore(x, cnn, ww, ws, s, b, c) == cnn(window, b, c)
  {
  }

  /** The untruncated activations of the first n windows: slot s of the sequence axis holds
      the CNN's scores for window s. */
  function Activations(x: Tensor4, cnn: Cnn, ww: nat, ws: nat, numClasses: nat, n: nat): (t: Tensor3)
    requires x.Valid() && ws > 0 && n <= SeqLen(x.d3, ww, ws)
    ensures t.Valid() && t.d0 == x.d0 && t.d1 == numClasses && t.d2 == n
    ensures forall b: nat, c: nat, s: nat :: b < x.d0 && c < numClasses && s < n ==>
      t.data[b][c][s] == SlotScore(x, cnn, ww, ws, s, b, c)
  {
    Build3(x.d0, numClasses, n,
      (b: nat, c: nat, s: nat) requires s < n => SlotScore(x, cnn, ww, ws, s, b, c))
  }

  /** A buffer holding every window's scores reads back as the activations. */
  lemma ActivationsFromBuffer(a: array3<real>, x: Tensor4, cnn: Cnn, ww: nat, ws: nat,
                              numClasses: nat, n: nat)
    requires x.Valid() && ws > 0 && n <= SeqLen(x.d3, ww, ws)
    requires a.Length0 == x.d0 && a.Length1 == numClasses && a.Length2 == n
    requires forall b, c, u :: 0 <= b < x.d0 && 0 <= c < numClasses && 0 <= u < n ==>
      a[b, c, u] == SlotScore(x, cnn, ww, ws, u, b, c)
    ensures FromArray3(a) == Activations(x, cnn, ww, ws, numClasses, n)
  {
    FromArray3Equals(a, Activations(x, cnn, ww, ws, numClasses, n));
  }

  /** What LineCNNSimple.forward returns for the image x. */
  function Encode(cfg: Config, cnn: Cnn, x: Tensor4): (r: Result<Tensor3>)
    requires cfg.Valid() && x.Valid()
    ensures r.Err? ==> r.error == HeightMismatch || r.error == NegativeDimension
    ensures r.Ok? ==>
      r.value.Valid() && r.value.d0 == x.d0 && r.value.d1 == cfg.numClasses &&
      r.value.d2 <= SeqLen(x.d3, cfg.ww, cfg.ws)
  {
    if x.d2 != cfg.imageSize then Err(HeightMismatch)
    else
      var s := SeqLen(x.d3, cfg.ww, cfg.ws);
      if s < 0 then Err(NegativeDimension)
      else
        var full := Activations(x, cnn, cfg.ww, cfg.ws, cfg.numClasses, s);
        Ok(if cfg.limitOutputLength then Narrow2(full, cfg.outputLength) else full)
  }

  /** An image of the wrong height is rejected whatever the CNN computes. */
  lemma EncodeRejectsHeight(cfg: Config, cnn: Cnn, x: Tensor4)
    requires cfg.Valid() && x.Valid()
    ensures Encode(cfg, cnn, x).Err? && Encode(cfg, cnn, x).error == HeightMismatch
        <==> x.d2 != cfg.imageSize
  {
  }

  /** Forward succeeds exactly for images of the right height that are not narrower than a
      window by more than a stride. Without truncation the result has shape (B, num_classes, S)
      and slot s of sample b holds the CNN's scores for window s, columns
      [WS * s, WS * s + WW) of the image. */
  lemma EncodeFillsEverySlot(cfg: Config, cnn: Cnn, x: Tensor4)
    requires cfg.Valid() && x.Valid() && !cfg.limitOutputLength
    ensures Encode(cfg, cnn, x).Ok? <==> x.d2 == cfg.imageSize && x.d3 + cfg.ws >= cfg.ww
    ensures Encode(cfg, cnn, x).Ok? ==>
      var r, n := Encode(cfg, cnn, x).value, SeqLen(x.d3, cfg.ww, cfg.ws);
      r.Valid() && r.d0 == x.d0 && r.d1 == cfg.numClasses && r.d2 == n &&
      forall b: nat, c: nat, s: nat :: b < x.d0 && c < cfg.numClasses && s < n ==>
        r.data[b][c][s] == cnn(Window(x, cfg.ww, cfg.ws, s), b, c)
  {
    SeqLenNonNegative(x.d3, cfg.ww, cfg.ws);
  }

  /** With limit_output_length set, the result keeps the first min(S, output_length) slots
      of the untruncated result, unchanged. */
  lemma EncodeTruncates(cfg: Config, cnn: Cnn, x: Tensor4)
    requires cfg.Valid() && x.Valid() && cfg.limitOutputLength
    ensures var full := Encode(cfg.(limitOutputLength := false), cnn, x);
      Encode(cfg, cnn, x).Ok? == full.Ok? &&
      (full.Err? ==> Encode(cfg, cnn, x) == full) &&
      (full.Ok? ==>
        var r := Encode(cfg, cnn, x).value;
        r.Valid() && r.d0 == full.value.d0 && r.d1 == full.value.d1 &&
        r.d2 == Min(full.value.d2, cfg.outputLength) &&
        forall b: nat, c: nat, s: nat :: b < r.d0 && c < r.d1 && s < r.d2 ==>
          r.data[b][c][s] == full.value.data[b][c][s])
  {
    var full := Encode(cfg.(limitOutputLength := false), cnn, x);
    if full.Ok? {
      assert Encode(cfg, cnn, x).value == Narrow2(full.value, cfg.outputLength);
    }
  }

  /** One pass of the loop: slices window t out of x, runs the CNN on it and stores
      the scores in slot t (`activations[:, :, t] = self.cnn(window)`); nothing else
      changes. */
  method FillSlot(activations: array3<real>, x: Tensor4, cnn: Cnn, ww: nat, ws: nat, t: nat)
    requires x.Valid() && ws > 0 && t < SeqLen(x.d3, ww, ws) && t < activations.Length2
    modifies activations
    ensures forall b, c :: 0 <= b < activations.Length0 && 0 <= c < activations.Length1 ==>
      activations[b, c, t] == SlotScore(x, cnn, ww, ws, t, b, c)
    ensures forall b, c, u | 0 <= b < activations.Length0 && 0 <= c < activations.Length1 &&
      0 <= u < activations.Length2 && u != t :: activations[b, c, u] == old(activations[b, c, u])
  {
    var startW := WindowStart(ws, t);
    var endW := WindowEnd(ww, ws, t);
    WindowInside(x.d3, ww, ws, t);
    var window := SliceLast(x, startW, endW);
    WindowScores(x, cnn, ww, ws, t, window);
    forall b, c | 0 <= b < activations.Length0 && 0 <= c < activations.Length1 {
      activations[b, c, t] := cnn(window, b, c);
    }
  }

  /** Allocates the zeroed (B, num_classes, S) buffer and fills slot s with the CNN's
      scores for window s, for every one of the S windows. */
  method ScoreWindows(x: Tensor4, cnn: Cnn, ww: nat, ws: nat, numClasses: nat)
    returns (activations: array3<real>)
    requires x.Valid() && ws > 0 && SeqLen(x.d3, ww, ws) >= 0
    ensures FromArray3(activations) == Activations(x, cnn, ww, ws, numClasses, SeqLen(x.d3, ww, ws))
  {
    var s := SeqLen(x.d3, ww, ws);
    activations := new real[x.d0, numClasses, s]((b, c, t) => 0.0);
    for t := 0 to s
      invariant forall b, c, u :: 0 <= b < x.d0 && 0 <= c < numClasses && 0 <= u < t ==>
        activations[b, c, u] == SlotScore(x, cnn, ww, ws, u, b, c)
      invariant forall b, c, u :: 0 <= b < x.d0 && 0 <= c < numClasses && t <= u < s ==>
        activations[b, c, u] == 0.0
    {
      FillSlot(activations, x, cnn, ww, ws, t);
    }
    ActivationsFromBuffer(activations, x, cnn, ww, ws, numClasses, s);
  }

  // ---------------------------------------------------------------------------
  // The module itself

  class LineCnnSimple {
    const ww: nat
    const ws: nat
    const limitOutputLength: bool
    const numClasses: nat
    const outputLength: nat
    const imageSize: nat
    const cnn: Cnn

    /** The settings are fixed at construction; window width and stride default to 28. */
    constructor (dataConfig: DataConfig, cnn: Cnn, imageSize: nat,
                 windowWidth: nat := WINDOW_WIDTH, windowStride: nat := WINDOW_STRIDE,
                 limitOutputLength: bool := false)
      requires windowWidth > 0 && windowStride > 0 && |dataConfig.outputDims| > 0
      ensures Valid()
      ensures ww == windowWidth && ws == windowStride && this.limitOutputLength == limitOutputLength
      ensures numClasses == |dataConfig.mapping| && outputLength == dataConfig.outputDims[0]
      ensures this.imageSize == imageSize && this.cnn == cnn
    {
      ww := windowWidth;
      ws := windowStride;
      this.limitOutputLength := limitOutputLength;
      numClasses := |dataConfig.mapping|;
      outputLength := dataConfig.outputDims[0];
      this.imageSize := imageSize;
      this.cnn := cnn;
    }

    /** The settings the forward pass runs with. */
    function Settings(): Config
    {
      Config(ww, ws, limitOutputLength, numClasses, outputLength, imageSize)
    }

    predicate Valid() { Settings().Valid() }

    /** Rejects an image of the wrong height and a negative window count, scores the
        windows, and cuts the result to output_length when asked to. */
    method Forward(x: Tensor4) returns (r: Result<Tensor3>)
      requires Valid() && x.Valid()
      ensures r == Encode(Settings(), cnn, x)
    {
      if x.d2 != imageSize {
        return Err(HeightMismatch);
      }
      var s := SeqLen(x.d3, ww, ws);
      if s < 0 {
        return Err(NegativeDimension);
      }
      var activations := ScoreWindows(x, cnn, ww, ws, numClasses);
      var full := FromArray3(activations);
      r := Ok(if limitOutputLength then Narrow2(full, outputLength) else full);
    }
  }
}
