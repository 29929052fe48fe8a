# Line recognizer core: sliding-window encoder, causal mask, positional tables

This project models the index and shape logic of two parts of a handwritten-line recognizer.

**The sliding-window encoder `LineCNNSimple`.** A batch of line images `(B, C, H, W)` is cut into windows `WW` pixels wide, every `WS` pixels. The number of windows is `S = floor((W - WW) / WS + 1)`. A per-window CNN scores each window, and the scores fill a `(B, num_classes, S)` buffer one slot at a time. The result is optionally cut to the first `output_length` slots.

**The transformer helpers:**
- the causal ("square subsequent") mask of the decoder;
- the classic sinusoidal positional table and the module that adds it to a sequence;
- the 2-D positional table and the module that adds it to a feature map. This table uses half the depth for the row's encoding and half for the column's.

The source file defines both positional classes under the same name, so the later, 1-D class shadows the 2-D one. Here they are two distinct components: `PositionalEncoding` and `PositionalEncoding2D`. The 2-D builder calls the 1-D builder, as the source's lines 27 and 30 do at run time.

Files:
- `tensors.dfy` (module `Tensors`): shaped tensors as nested sequences with explicit sizes, so an empty axis keeps its other sizes. It also holds the errors the code raises and the torch operations the core uses. Slicing clamps as Python's does, and addition follows torch's broadcasting rule axis by axis.
- `line_cnn.dfy` (module `LineCnn`): the window geometry and the encoder. `Encode` is the specification function. The class `LineCnnSimple` holds the settings, and its `Forward` fills an `array3` buffer in a loop, proved equal to `Encode`.
- `transformer_util.dfy` (module `TransformerUtil`): the mask, the 1-D table (the `MakePe1D` method fills an `array2` in place, proved equal to the `PeTable1D` function), the 2-D table, and both modules' `Forward`.

At these edges the model follows the code:
- **Narrow images.** An image narrower than a window by at most a stride (within a stride, inclusive: `WW - WS <= W < WW`) gives `S == 0` and an empty `(B, num_classes, 0)` result, not a geometry error. An image narrower than a window by more than a stride (`W + WS < WW`) gives a negative `S`, which `torch.zeros` refuses (`NegativeDimension`).
- **Oversized inputs.** An input larger than a positional table is not reported as a dimension mismatch. The addition fails on broadcasting (`BroadcastMismatch`), except where broadcasting lets it through (`ForwardBeyondTable`).
- **Mask of size 0.** This is an empty matrix.
- **The 2-D table's depth.** The 1-D builder assigns `ceil(d/2)` cosine columns into `floor(d/2)` odd slots. So it fails for an odd depth above 1, and it divides by zero for depth 0. Hence the 2-D table exists only for depth 2 and positive multiples of 4, not for every even depth (`PeTable2DDepths`).

Float functions (`sin`, `cos`, `exp`, `log`) are the fields of a `Numerics` value. Only `sin(0) = 0` and `cos(0) = 1` are assumed, through `Numerics.Sound`. The CNN is a function value `Cnn` from a window and a (sample, class) pair to a score.

## Model

| member | source | states |
|---|---|---|
| LineCnn.SeqLen | LABs/lab5/text_recognizer/models/line_cnn_simple.py:50 | S - 1 is the floor of (W - WW) / WS: WS*(S-1) <= W - WW < WS*(S-1) + WS |
| LineCnn.SeqLenCountsFittingWindows | LABs/lab5/text_recognizer/models/line_cnn_simple.py:50-57 | window s is among the S windows iff it ends at or before column W (S is floor division, WS > 0) |
| LineCnn.WindowInside | LABs/lab5/text_recognizer/models/line_cnn_simple.py:50-57 | every window taken by the loop, the last included, lies inside the image: WS*s + WW <= W |
| LineCnn.SeqLenPositive | LABs/lab5/text_recognizer/models/line_cnn_simple.py:50-54 | S >= 1 iff W >= WW; otherwise the loop takes no window |
| LineCnn.SeqLenNonNegative | LABs/lab5/text_recognizer/models/line_cnn_simple.py:50-53 | S >= 0 (so the buffer can be allocated) iff W + WS >= WW |
| LineCnn.WindowSpans | LABs/lab5/text_recognizer/models/line_cnn_simple.py:55-56 | every window is exactly WW wide; window 0 starts at 0 and each start is WS past the previous one, strictly increasing |
| LineCnn.AdjacentWindowOfColumn | LABs/lab5/text_recognizer/models/line_cnn_simple.py:55-56 | with WW == WS, column c lies in window c / WW and in no other |
| LineCnn.AdjacentWindowsTile | LABs/lab5/text_recognizer/models/line_cnn_simple.py:50-56 | with WW == WS and W == WW*k (k >= 1): S == k, windows start at 0, the last ends at W, neighbours meet, each column is in exactly one window |
| LineCnn.DefaultWindowsTile | LABs/lab5/text_recognizer/models/line_cnn_simple.py:11-50 | with the default 28/28, an image 28*k wide gives k windows: the first starts at 0, the last ends at W, each starts where the previous one ends, and every column is in exactly one |
| LineCnn.Window | LABs/lab5/text_recognizer/models/line_cnn_simple.py:55-57 | window s is the (B, C, H, WW) slice of x whose column l is image column WS*s + l |
| LineCnn.Activations | LABs/lab5/text_recognizer/models/line_cnn_simple.py:53-58 | the filled buffer has shape (B, num_classes, n) and slot s holds the CNN's scores for window s |
| LineCnn.Encode | LABs/lab5/text_recognizer/models/line_cnn_simple.py:47-63 | forward fails only with a height error or a negative window count; a result has shape (B, num_classes, n) with n at most S |
| LineCnn.EncodeRejectsHeight | LABs/lab5/text_recognizer/models/line_cnn_simple.py:48 | forward fails with a height error iff H differs from the CNN's input size, whatever the CNN |
| LineCnn.EncodeFillsEverySlot | LABs/lab5/text_recognizer/models/line_cnn_simple.py:47-63 | without truncation, forward succeeds iff H fits and W + WS >= WW; the result is (B, num_classes, S) with slot s = CNN(columns [WS*s, WS*s+WW)) |
| LineCnn.EncodeTruncates | LABs/lab5/text_recognizer/models/line_cnn_simple.py:60-61 | with limit_output_length, the result has min(S, output_length) slots, equal to the first slots of the untruncated result, and fails exactly when it does |
| LineCnn.FillSlot | LABs/lab5/text_recognizer/models/line_cnn_simple.py:55-58 | one loop pass: slot t of every sample and class gets the CNN's score of window t; no other entry changes |
| LineCnn.ScoreWindows | LABs/lab5/text_recognizer/models/line_cnn_simple.py:53-58 | allocating the zero buffer and running the loop leaves exactly Activations(x, ..., S) in it |
| LineCnn.LineCnnSimple.constructor | LABs/lab5/text_recognizer/models/line_cnn_simple.py:17-30 | WW, WS default to 28, limit_output_length to false; num_classes is the mapping's length and output_length the first output dimension |
| LineCnn.LineCnnSimple.Forward | LABs/lab5/text_recognizer/models/line_cnn_simple.py:33-63 | the in-place loop over the buffer returns exactly Encode(settings, cnn, x), height and negative-S errors included |
| TransformerUtil.Ones | LABs/lab7/text_recognizer/models/transformer_util.py:80 | `torch.ones(n, n)`: n x n, every entry 1.0 |
| TransformerUtil.Triu | LABs/lab7/text_recognizer/models/transformer_util.py:80 | `torch.triu`: n x n; entries on and above the diagonal are kept, entries below it are 0.0 |
| TransformerUtil.EqualsOne | LABs/lab7/text_recognizer/models/transformer_util.py:80 | `m == 1`: n x n; an entry is true iff m's entry is 1.0 |
| TransformerUtil.Transpose | LABs/lab7/text_recognizer/models/transformer_util.py:80 | `transpose(0, 1)`: n x n; entry (i, j) is m's entry (j, i) |
| TransformerUtil.EqualsZero | LABs/lab7/text_recognizer/models/transformer_util.py:81 | `mask == 0` on a boolean mask: n x n; an entry is true iff the mask's is false |
| TransformerUtil.AsFloat | LABs/lab7/text_recognizer/models/transformer_util.py:81 | `mask.float()`: n x n; an entry is 1.0 iff the mask's is true and 0.0 iff it is false |
| TransformerUtil.MaskedFill | LABs/lab7/text_recognizer/models/transformer_util.py:81 | `masked_fill(cond, v)`: n x n; v where cond holds, m's entry elsewhere |
| TransformerUtil.SquareSubsequentMask | LABs/lab7/text_recognizer/models/transformer_util.py:75-82 | the mask is size x size; entry (i, j) is 0.0 iff j <= i and minus infinity iff j > i |
| TransformerUtil.MaskRowZeros | LABs/lab7/text_recognizer/models/transformer_util.py:80-81 | row i has exactly i + 1 zero entries, and the diagonal entry is zero |
| TransformerUtil.CountZerosOfPrefix | LABs/lab7/text_recognizer/models/transformer_util.py:80-81 | a row zero exactly up to column i has min(k, i + 1) zeros among its first k entries |
| TransformerUtil.PeTable1D | LABs/lab7/text_recognizer/models/transformer_util.py:56-65 | the table exists iff d_model is 1 or positive and even; depth 0 divides by zero, other odd depths fail the cosine slice assignment; shape (max_len, 1, d_model) |
| TransformerUtil.DivTerm | LABs/lab7/text_recognizer/models/transformer_util.py:61 | the frequency of pair 0 is exp(0), whatever d_model |
| TransformerUtil.PeEntry | LABs/lab7/text_recognizer/models/transformer_util.py:61-63 | at position 0 (with sin(0) = 0, cos(0) = 1) an even slot is 0 and an odd slot is 1 |
| TransformerUtil.PeEntryPairs | LABs/lab7/text_recognizer/models/transformer_util.py:61-63 | slots 2k and 2k + 1 of a position hold the sine and cosine of the same angle p * div_term[k] |
| TransformerUtil.PeTable1DLayout | LABs/lab7/text_recognizer/models/transformer_util.py:57-64 | table[p][0][2k] = sin(p * div_term[k]) and table[p][0][2k+1] = cos(p * div_term[k]) |
| TransformerUtil.PeTable1DFirstRow | LABs/lab7/text_recognizer/models/transformer_util.py:58-63 | at position 0, even slots are 0 and odd slots are 1 |
| TransformerUtil.MakePe1D | LABs/lab7/text_recognizer/models/transformer_util.py:56-65 | filling the zero buffer's even then odd columns in place yields exactly PeTable1D, errors included |
| TransformerUtil.PositionalEncoding.Forward | LABs/lab7/text_recognizer/models/transformer_util.py:67-71 | fails with a depth error iff the input depth differs from the table's; any other failure is a broadcast failure |
| TransformerUtil.ForwardAddsPositions | LABs/lab7/text_recognizer/models/transformer_util.py:69-70 | for S <= max_len and matching depth, the result has x's shape and entry (s, b, c) = x[s][b][c] + table[s][0][c] |
| TransformerUtil.ForwardBeyondTable | LABs/lab7/text_recognizer/models/transformer_util.py:70 | for S > max_len, the addition succeeds iff the table has one position or the input has one step |
| TransformerUtil.NewPositionalEncoding | LABs/lab7/text_recognizer/models/transformer_util.py:49-53 | a dropout probability outside [0, 1] is rejected; otherwise the module exists iff the table does and holds that table; defaults 0.1 and 5000 |
| TransformerUtil.RowsAcross | LABs/lab7/text_recognizer/models/transformer_util.py:28 | the permuted, expanded row table has channel c at (h, w) equal to entry c of row h, for every w |
| TransformerUtil.ColumnsDown | LABs/lab7/text_recognizer/models/transformer_util.py:31 | the permuted, expanded column table has channel c at (h, w) equal to entry c of column w, for every h |
| TransformerUtil.RowsThenColumns | LABs/lab7/text_recognizer/models/transformer_util.py:33 | the concatenation has the row table's channels first, then the column table's |
| Tensors.Narrow0 | LABs/lab7/text_recognizer/models/transformer_util.py:70 | `pe[:n]` keeps min(max_len, n) positions, each unchanged, and the other axes |
| TransformerUtil.PeTable2D | LABs/lab7/text_recognizer/models/transformer_util.py:16-34 | an odd depth is rejected; a built table has shape (d_model, max_h, max_w) |
| TransformerUtil.PeTable2DDepths | LABs/lab7/text_recognizer/models/transformer_util.py:16-63 | the 2-D table exists iff d_model is 2 or a positive multiple of 4; an even depth otherwise fails with the 1-D builder's error |
| TransformerUtil.PeTable2DRowHalf | LABs/lab7/text_recognizer/models/transformer_util.py:27-33 | channel c < d_model/2 at (h, w) is pe_h[h][0][c], the sinusoid of row h, the same for every column |
| TransformerUtil.PeTable2DColumnHalf | LABs/lab7/text_recognizer/models/transformer_util.py:30-33 | channel c >= d_model/2 at (h, w) is pe_w[w][0][c - d_model/2], the sinusoid of column w, the same for every row |
| Tensors.Narrow12 | LABs/lab7/text_recognizer/models/transformer_util.py:40 | `pe[:, :h, :w]` keeps all channels, min(max_h, h) rows and min(max_w, w) columns, entries unchanged |
| TransformerUtil.Corner | LABs/lab7/text_recognizer/models/transformer_util.py:40 | the cut table seen as one batch: shape (1, D, min(max_h, h), min(max_w, w)) and entry (0, c, i, j) = pe[c][i][j] |
| TransformerUtil.PositionalEncoding2D.Forward | LABs/lab7/text_recognizer/models/transformer_util.py:36-41 | fails with a depth error iff the input depth differs from the table's; any other failure is a broadcast failure |
| TransformerUtil.Forward2DAddsPositions | LABs/lab7/text_recognizer/models/transformer_util.py:39-40 | for H <= max_h, W <= max_w and matching depth, the result has x's shape and entry (b, c, h, w) = x[b][c][h][w] + table[c][h][w] |
| TransformerUtil.NewPositionalEncoding2D | LABs/lab7/text_recognizer/models/transformer_util.py:13-18 | the module exists iff the 2-D table does (odd depth rejected) and holds it; defaults 2000 and 2000 |
| Tensors.BroadcastAdd3 | LABs/lab7/text_recognizer/models/transformer_util.py:70 | torch's `+`: succeeds iff every axis pair is equal or has a 1; the result's axes and entries follow the broadcast rule |
| Tensors.BroadcastAdd4 | LABs/lab7/text_recognizer/models/transformer_util.py:40 | the same for rank-4 tensors |
| Tensors.SliceLast | LABs/lab5/text_recognizer/models/line_cnn_simple.py:57 | `x[:, :, :, lo:hi]` has shape (B, C, H, hi - lo) and column l is image column lo + l |
| Tensors.Narrow2 | LABs/lab5/text_recognizer/models/line_cnn_simple.py:61 | `t[:, :, :n]` keeps min(size, n) positions of the last axis, unchanged |

## Left out

- The CNN's internals (`CNN` in `cnn.py`, not part of this model) are a function value from a window to scores. `IMAGE_SIZE` comes from the same file, so it is a constructor parameter.
- Floating point: the values of `sin`, `cos`, `exp` and `log` are abstract, and rounding is not modelled. Positions and `div_term` are reals, not float32. `math.floor` of a float quotient is modelled as exact floor division, which differs only for widths far beyond float precision.
- Dropout (transformer_util.py lines 51 and 71) is taken as the identity, as in evaluation mode. Only its probability check is kept.
- `register_buffer`, `type_as` and device handling are framework plumbing. A table is an immutable field set at construction.
- `add_to_argparse` and the `vars(args)` lookups are configuration plumbing. Window width, stride and `limit_output_length` are constructor parameters with the same defaults.
- LineCnn.LineCnnSimple.constructor: requires a positive window width and stride. A zero stride makes line 50 divide by zero, and a zero width gives windows the source never intends. It also requires a non-empty `output_dims`: with an empty one, line 30 raises an IndexError, which the model does not represent.
- Sizes are natural numbers. A negative `d_model`, `max_len`, `max_h` or `max_w` (a torch error) is outside the model.
- LineCnn.ScoreWindows: states the final buffer and, through FillSlot and its loop invariant, that only slot t changes in pass t and later slots are still zero. It does not state, as a trace property, that each slot is written exactly once.
- The training wrapper in `lit_models/transformer.py` and the re-exports in `models/__init__.py` are outside this model.
