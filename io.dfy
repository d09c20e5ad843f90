/** Decoding Elk's optics output files.  Loading a file (`np.loadtxt`) is not
    modelled: each file arrives as the outcome of loading it, a `Load`. */
module Io {
  import opened Py
  import opened Numerics
  import opened Fields
  import Misc

  /** A two-dimensional numpy array: its shape and its entries in row-major order. */
  datatype Array2 = Array2(rows: nat, cols: nat, data: seq<Float>)

  /** The shape agrees with the number of entries. */
  predicate Wf(a: Array2)
  {
    |a.data| == a.rows * a.cols
  }

  /** What `np.loadtxt` returns for a data file: a 2-D array with at least one column. */
  predicate Loaded(a: Array2)
  {
    Wf(a) && a.cols >= 1
  }

  /** What `np.loadtxt` does with one file: the file cannot be opened
      (FileNotFoundError or another OSError), its text does not parse as
      numbers (ValueError), or it loads as a 2-D array. */
  datatype Load = Missing | Malformed | Read(value: Array2)

  /** The file as a reader that catches both failures sees it: `readScalar`
      returns (None, None) for either, so it takes this `Option`. */
  function AsOption(l: Load): (o: Option<Array2>)
    ensures o.Some? <==> l.Read?
    ensures o.Some? ==> o.value == l.value
  {
    if l.Read? then Some(l.value) else None
  }

  /** Every file that loads is a data file. */
  predicate LoadsWf(loads: seq<Load>)
  {
    forall k | 0 <= k < |loads| && loads[k].Read? :: Loaded(loads[k].value)
  }

  /** Some element file does not parse. */
  predicate AnyMalformed(loads: seq<Load>)
  {
    exists k | 0 <= k < |loads| :: loads[k].Malformed?
  }

  /** The files `readTensor` goes on with when none of them is malformed. */
  function Present(loads: seq<Load>): (files: seq<Option<Array2>>)
    ensures |files| == |loads|
    ensures forall k | 0 <= k < |loads| :: files[k] == AsOption(loads[k])
  {
    seq(|loads|, k requires 0 <= k < |loads| => AsOption(loads[k]))
  }

  /** `np.full((rows, cols), np.nan)`. */
  function NaNArray(rows: nat, cols: nat): (a: Array2)
    ensures Wf(a) && a.rows == rows && a.cols == cols
    ensures AllNaNArray(a)
  {
    Array2(rows, cols, seq(rows * cols, _ => NaN))
  }

  /** `np.isnan(a).all()`. */
  predicate AllNaNArray(a: Array2)
  {
    forall m | 0 <= m < |a.data| :: a.data[m].NaN?
  }

  lemma MulMono(x: nat, y: nat, c: nat)
    requires x <= y
    ensures x * c <= y * c
  {
  }

  /** `a[:-2]`: the array without its last two rows. */
  function DropTwoRows(a: Array2): (b: Array2)
    requires Wf(a)
    ensures Wf(b) && b.cols == a.cols && b.rows == if a.rows >= 2 then a.rows - 2 else 0
    ensures AllNaNArray(a) ==> AllNaNArray(b)
  {
    var r := if a.rows >= 2 then a.rows - 2 else 0;
    MulMono(r, a.rows, a.cols);
    Array2(r, a.cols, a.data[..r * a.cols])
  }

  /** `x * Hartree2eV` when `hartree` is set; NaN stays NaN. */
  function ToEv(x: Float, hartree: bool): Float
  {
    if hartree && x.Fin? then Fin(x.v * Misc.Hartree2eV) else x
  }

  /** `re + im * 1j` in numpy's complex arithmetic: a NaN imaginary part
      makes the real part NaN as well (NaN * 0). */
  function Combine(re: Float, im: Float): (z: CFloat)
    ensures z.IsNaN() <==> re.NaN? || im.NaN?
  {
    CFloat(if re.NaN? || im.NaN? then NaN else re, im)
  }

  /** Row r and column col of a. */
  function At(a: Array2, r: nat, col: nat): Float
    requires Wf(a) && r < a.rows && col < a.cols
  {
    MulMono(r + 1, a.rows, a.cols);
    a.data[r * a.cols + col]
  }

  /** `a[0:stop, col]`, with stop clipped to the number of rows (None: all rows). */
  function Column(a: Array2, col: nat, stop: Option<nat>): (c: seq<Float>)
    requires Wf(a) && col < a.cols
    ensures |c| == if stop.Some? && stop.value <= a.rows then stop.value else a.rows
    ensures forall w | 0 <= w < |c| :: c[w] == At(a, w, col)
  {
    var hi := if stop.Some? && stop.value <= a.rows then stop.value else a.rows;
    seq(hi, w requires 0 <= w < hi => At(a, w, col))
  }

  /** `a[start:, col]`: the rows from start on. */
  function ColumnFrom(a: Array2, col: nat, start: nat): (c: seq<Float>)
    requires Wf(a) && col < a.cols
    ensures |c| == if start <= a.rows then a.rows - start else 0
    ensures forall w | 0 <= w < |c| :: c[w] == At(a, start + w, col)
  {
    if start <= a.rows then seq(a.rows - start, w requires 0 <= w < a.rows - start => At(a, start + w, col)) else []
  }

  // ---------------------------------------------------------------------
  // readTensor

  /** The number of frequencies a file holds: its rows, or half of them in
      the stacked two-column layout. */
  function FileFreqs(a: Array2, threeColumn: bool): nat
  {
    if threeColumn then a.rows else a.rows / 2
  }

  /** The first successfully loaded file among `files`. */
  function FirstLoaded(files: seq<Option<Array2>>): (r: Option<Array2>)
    ensures r.None? <==> forall k | 0 <= k < |files| :: files[k].None?
    ensures r.Some? ==> exists k | 0 <= k < |files| :: files[k] == r
  {
    if files == [] then None
    else
      var init := files[..|files| - 1];
      match FirstLoaded(init)
      case Some(a) => assert init[|init| - 1] == files[|init| - 1]; Some(a)
      case None => files[|files| - 1]
  }

  /** The last successfully loaded file among `files`. */
  function LastLoaded(files: seq<Option<Array2>>): (r: Option<Array2>)
    ensures r.None? <==> forall k | 0 <= k < |files| :: files[k].None?
    ensures r.Some? ==> exists k | 0 <= k < |files| :: files[k] == r
  {
    if files == [] then None
    else if files[|files| - 1].Some? then files[|files| - 1]
    else
      var r := LastLoaded(files[..|files| - 1]);
      assert forall k | 0 <= k < |files| - 1 :: files[..|files| - 1][k] == files[k];
      r
  }

  /** The frequency count in force after the first k files: elk.in's value
      until a file has been read, then the first file's count. */
  function NumFreqsAfter(files: seq<Option<Array2>>, numfreqs: nat, threeColumn: bool): nat
  {
    match FirstLoaded(files)
    case None => numfreqs
    case Some(a) => FileFreqs(a, threeColumn)
  }

  /** The NaN block appended for a missing element file; `padWidth` is the
      column count of the three-column block. */
  function MissingBlock(numfreqs: nat, threeColumn: bool, padWidth: nat): Array2
  {
    if threeColumn then NaNArray(numfreqs, padWidth) else NaNArray(2 * numfreqs, 2)
  }

  /** The state of the loop over the element files. */
  datatype Collected = Collected(blocks: seq<Array2>, numfreqs: nat, fileFreqs: Option<nat>, last: Option<Array2>)

  /** The loop state after the first n element files. */
  function Collect(files: seq<Option<Array2>>, n: nat, numfreqs: nat, threeColumn: bool, padWidth: nat): (c: Collected)
    requires n <= |files|
    ensures |c.blocks| == n
  {
    if n == 0 then Collected([], numfreqs, None, None)
    else
      var c := Collect(files, n - 1, numfreqs, threeColumn, padWidth);
      match files[n - 1]
      case None => c.(blocks := c.blocks + [MissingBlock(c.numfreqs, threeColumn, padWidth)])
      case Some(load) =>
        if c.fileFreqs.None? then
          var f := FileFreqs(load, threeColumn);
          Collected(c.blocks + [load], f, Some(f), Some(load))
        else c.(blocks := c.blocks + [load], last := Some(load))
  }

  /** The frequency count and the last loaded file after the first n files:
      the count is taken from the first loaded file and elk.in's value is
      kept while no file has been loaded. */
  lemma {:induction false} CollectCount(files: seq<Option<Array2>>, n: nat, numfreqs: nat, threeColumn: bool, padWidth: nat)
    requires n <= |files|
    ensures var c := Collect(files, n, numfreqs, threeColumn, padWidth);
      && (c.fileFreqs.None? <==> forall k | 0 <= k < n :: files[k].None?)
      && c.numfreqs == NumFreqsAfter(files[..n], numfreqs, threeColumn)
      && (c.fileFreqs.Some? ==> c.fileFreqs.value == c.numfreqs)
      && c.last == LastLoaded(files[..n])
  {
    if n > 0 {
      CollectCount(files, n - 1, numfreqs, threeColumn, padWidth);
      assert files[..n][..n - 1] == files[..n - 1];
      assert files[..n][n - 1] == files[n - 1];
    }
  }

  /** The loop only appends: the first m blocks stay as they were after m files. */
  lemma {:induction false} CollectPrefix(files: seq<Option<Array2>>, n: nat, m: nat, numfreqs: nat, threeColumn: bool, padWidth: nat)
    requires m <= n <= |files|
    ensures Collect(files, n, numfreqs, threeColumn, padWidth).blocks[..m] == Collect(files, m, numfreqs, threeColumn, padWidth).blocks
    decreases n
  {
    if n > m {
      CollectPrefix(files, n - 1, m, numfreqs, threeColumn, padWidth);
      var b := Collect(files, n, numfreqs, threeColumn, padWidth).blocks;
      assert b[..m] == b[..n - 1][..m];
    }
  }

  /** The block collected for element file k: the loaded array, or a NaN
      block sized by the frequency count in force when k was reached. */
  function BlockFor(files: seq<Option<Array2>>, k: nat, numfreqs: nat, threeColumn: bool, padWidth: nat): Array2
    requires k < |files|
  {
    match files[k]
    case Some(a) => a
    case None => MissingBlock(NumFreqsAfter(files[..k], numfreqs, threeColumn), threeColumn, padWidth)
  }

  /** Each loaded file is collected as it is, and each missing one as a NaN
      block sized by the frequency count in force when it was reached. */
  lemma CollectBlockAt(files: seq<Option<Array2>>, n: nat, k: nat, numfreqs: nat, threeColumn: bool, padWidth: nat)
    requires k < n <= |files|
    ensures Collect(files, n, numfreqs, threeColumn, padWidth).blocks[k] == BlockFor(files, k, numfreqs, threeColumn, padWidth)
  {
    CollectPrefix(files, n, k + 1, numfreqs, threeColumn, padWidth);
    CollectCount(files, k, numfreqs, threeColumn, padWidth);
    var b := Collect(files, n, numfreqs, threeColumn, padWidth).blocks;
    assert b[k] == b[..k + 1][k];
  }

  /** Every collected block is a well-formed array when the files are, and a
      file has been loaded exactly when a frequency count was taken from one. */
  lemma {:induction false} CollectWf(files: seq<Option<Array2>>, n: nat, numfreqs: nat, threeColumn: bool, padWidth: nat)
    requires n <= |files|
    requires forall k | 0 <= k < |files| && files[k].Some? :: Loaded(files[k].value)
    ensures var c := Collect(files, n, numfreqs, threeColumn, padWidth);
      && (forall k | 0 <= k < n :: Wf(c.blocks[k]))
      && (c.last.Some? ==> Loaded(c.last.value))
      && (c.fileFreqs.Some? <==> c.last.Some?)
  {
    if n > 0 {
      CollectWf(files, n - 1, numfreqs, threeColumn, padWidth);
    }
  }

  /** The fix for TDDFT data with one frequency fewer: every all-NaN block
      longer than 2 n loses its last two rows. */
  function Trim(blocks: seq<Array2>, n: nat): (r: seq<Array2>)
    requires forall k | 0 <= k < |blocks| :: Wf(blocks[k])
    ensures |r| == |blocks| && forall k | 0 <= k < |r| :: Wf(r[k])
  {
    seq(|blocks|, k requires 0 <= k < |blocks| => TrimBlock(blocks[k], n))
  }

  /** One block after the fix: dropped by two rows when it is all NaN and
      longer than 2 n. */
  function TrimBlock(b: Array2, n: nat): (r: Array2)
    requires Wf(b)
    ensures Wf(r)
  {
    if b.rows > 2 * n && AllNaNArray(b) then DropTwoRows(b) else b
  }

  /** The in-place trimming loop over the collected blocks. */
  method TrimBlocks(blocks: seq<Array2>, n: nat) returns (r: seq<Array2>)
    requires forall k | 0 <= k < |blocks| :: Wf(blocks[k])
    ensures r == Trim(blocks, n)
  {
    r := blocks;
    for idx := 0 to |blocks|
      invariant |r| == |blocks|
      invariant forall k | 0 <= k < idx :: r[k] == TrimBlock(blocks[k], n)
      invariant forall k | idx <= k < |blocks| :: r[k] == blocks[k]
    {
      if r[idx].rows > 2 * n && AllNaNArray(r[idx]) {
        r := r[idx := DropTwoRows(r[idx])];
      }
    }
  }

  /** `np.asarray(blocks).reshape(3, 3, rows, cols)` succeeds: nine blocks of
      one shape with as many entries as rows x cols. */
  predicate Reshapes(blocks: seq<Array2>, rows: nat, cols: nat)
  {
    && |blocks| == 9
    && (forall k | 0 <= k < 9 :: Wf(blocks[k]) && blocks[k].rows == blocks[0].rows && blocks[k].cols == blocks[0].cols)
    && blocks[0].rows * blocks[0].cols == rows * cols
  }

  /** The stored layout: (n, 3) rows of frequency, real and imaginary part,
      or (2 n, 2) with real parts above imaginary parts. */
  function LayoutRows(n: nat, threeColumn: bool): nat { if threeColumn then n else 2 * n }

  function LayoutCols(threeColumn: bool): nat { if threeColumn then 3 else 2 }

  /** Element (i, j) at frequency w from its reshaped block: `real + imag * 1j`
      with real and imaginary parts as the layout places them. */
  function Entry(b: Array2, n: nat, threeColumn: bool, w: nat): CFloat
    requires |b.data| == LayoutRows(n, threeColumn) * LayoutCols(threeColumn) && w < n
  {
    if threeColumn then Combine(b.data[3 * w + 1], b.data[3 * w + 2])
    else Combine(b.data[2 * w + 1], b.data[2 * (n + w) + 1])
  }

  /** The entries of all nine elements at frequency w, `real[:, :, w] + imag[:, :, w] * 1j`. */
  function SliceAt(blocks: seq<Array2>, n: nat, threeColumn: bool, w: nat): (m: seq<seq<CFloat>>)
    requires Reshapes(blocks, LayoutRows(n, threeColumn), LayoutCols(threeColumn)) && w < n
    ensures |m| == 3 && forall i | 0 <= i < 3 :: |m[i]| == 3
    ensures forall i, j | 0 <= i < 3 && 0 <= j < 3 :: m[i][j] == Entry(blocks[3 * i + j], n, threeColumn, w)
  {
    seq(3, i requires 0 <= i < 3 => seq(3, j requires 0 <= j < 3 => Entry(blocks[3 * i + j], n, threeColumn, w)))
  }

  /** The (3, 3, n) complex field assembled from the nine blocks. */
  function TensorField(blocks: seq<Array2>, n: nat, threeColumn: bool): (t: Field)
    requires Reshapes(blocks, LayoutRows(n, threeColumn), LayoutCols(threeColumn))
    ensures Shaped(t) && NumFreqs(t) == n
    ensures forall i, j, w | 0 <= i < 3 && 0 <= j < 3 && 0 <= w < n ::
              t[i][j][w] == Entry(blocks[3 * i + j], n, threeColumn, w)
  {
    seq(3, i requires 0 <= i < 3 => seq(3, j requires 0 <= j < 3 =>
      seq(n, w requires 0 <= w < n => Entry(blocks[3 * i + j], n, threeColumn, w))))
  }

  /** The loop filling a zero field one frequency at a time. */
  method FillTensor(blocks: seq<Array2>, n: nat, threeColumn: bool) returns (ten: Field)
    requires Reshapes(blocks, LayoutRows(n, threeColumn), LayoutCols(threeColumn))
    ensures ten == TensorField(blocks, n, threeColumn)
  {
    ten := ZeroField(n);
    for iw := 0 to n
      invariant Shaped(ten) && NumFreqs(ten) == n
      invariant forall i, j, w | 0 <= i < 3 && 0 <= j < 3 && 0 <= w < iw ::
                  ten[i][j][w] == Entry(blocks[3 * i + j], n, threeColumn, w)
    {
      ten := PutSlice(ten, iw, SliceAt(blocks, n, threeColumn, iw));
    }
    FieldEq(ten, TensorField(blocks, n, threeColumn));
  }

  /** `load[0:n, 0]`, converted to eV when `hartree` is set. */
  function Frequencies(load: Array2, n: Option<nat>, hartree: bool): (f: seq<Float>)
    requires Loaded(load)
    ensures |f| == |Column(load, 0, n)|
    ensures forall w | 0 <= w < |f| :: f[w] == ToEv(At(load, w, 0), hartree)
  {
    var c := Column(load, 0, n);
    seq(|c|, w requires 0 <= w < |c| => ToEv(c[w], hartree))
  }

  /** Reshaping and assembly once the blocks are collected: ValueError when
      the blocks do not reshape to the layout. */
  function Assemble(blocks: seq<Array2>, n: nat, last: Array2, threeColumn: bool, hartree: bool)
    : (r: Result<(seq<Float>, Field)>)
    requires |blocks| == 9 && forall k | 0 <= k < 9 :: Wf(blocks[k])
    requires Loaded(last)
    ensures r.Ok? <==> Reshapes(blocks, LayoutRows(n, threeColumn), LayoutCols(threeColumn))
    ensures r.Raise? ==> r.exc == ValueError
  {
    if !Reshapes(blocks, LayoutRows(n, threeColumn), LayoutCols(threeColumn)) then Raise(ValueError)
    else Ok((Frequencies(last, Some(n), hartree), TensorField(blocks, n, threeColumn)))
  }

  /** The nine blocks as reshaped: the collected blocks, trimmed in the
      two-column layout. */
  function FinalBlocks(files: seq<Option<Array2>>, numfreqs: nat, threeColumn: bool, padWidth: nat): (blocks: seq<Array2>)
    requires |files| == 9
    requires forall k | 0 <= k < 9 && files[k].Some? :: Loaded(files[k].value)
    ensures |blocks| == 9 && forall k | 0 <= k < 9 :: Wf(blocks[k])
  {
    var c := Collect(files, 9, numfreqs, threeColumn, padWidth);
    CollectWf(files, 9, numfreqs, threeColumn, padWidth);
    if threeColumn then c.blocks else Trim(c.blocks, c.numfreqs)
  }

  /** `readTensor(froot, numfreqs, threeColumn, hartree)` on the nine element
      files 11, 12, 13, 21, ..., 33 in that order: Ok(None) for (None, None). */
  function TensorOf(files: seq<Option<Array2>>, numfreqs: nat, threeColumn: bool, hartree: bool, padWidth: nat)
    : (r: Result<Option<(seq<Float>, Field)>>)
    requires |files| == 9
    requires forall k | 0 <= k < 9 && files[k].Some? :: Loaded(files[k].value)
    ensures r.Raise? ==> r.exc == ValueError
    ensures r.Ok? && r.value.Some? ==> Shaped(r.value.value.1) && |r.value.value.0| <= NumFreqs(r.value.value.1)
  {
    var c := Collect(files, 9, numfreqs, threeColumn, padWidth);
    CollectWf(files, 9, numfreqs, threeColumn, padWidth);
    if c.fileFreqs.None? then Ok(None)
    else
      var r :- Assemble(FinalBlocks(files, numfreqs, threeColumn, padWidth), c.numfreqs, c.last.value, threeColumn, hartree);
      Ok(Some(r))
  }

  /** `readTensor` on the outcomes of loading the nine element files: it
      catches only FileNotFoundError and OSError, so the ValueError of a file
      that does not parse leaves it; otherwise it reads the files that
      loaded and pads the missing ones. */
  function TensorFrom(loads: seq<Load>, numfreqs: nat, threeColumn: bool, hartree: bool, padWidth: nat)
    : (r: Result<Option<(seq<Float>, Field)>>)
    requires |loads| == 9 && LoadsWf(loads)
    ensures r.Raise? ==> r.exc == ValueError
    ensures AnyMalformed(loads) ==> r == Raise(ValueError)
    ensures r == Ok(None) <==> forall k | 0 <= k < 9 :: loads[k].Missing?
    ensures r.Ok? && r.value.Some? ==> Shaped(r.value.value.1) && |r.value.value.0| <= NumFreqs(r.value.value.1)
  {
    if AnyMalformed(loads) then Raise(ValueError)
    else
      TensorNone(Present(loads), numfreqs, threeColumn, hartree, padWidth);
      TensorOf(Present(loads), numfreqs, threeColumn, hartree, padWidth)
  }

  /** The block reshaped for element k: as collected, and in the two-column
      layout trimmed against the final frequency count. */
  lemma FinalBlockAt(files: seq<Option<Array2>>, numfreqs: nat, threeColumn: bool, padWidth: nat, k: nat)
    requires |files| == 9
    requires forall k | 0 <= k < 9 && files[k].Some? :: Loaded(files[k].value)
    requires k < 9
    ensures Wf(BlockFor(files, k, numfreqs, threeColumn, padWidth))
    ensures FinalBlocks(files, numfreqs, threeColumn, padWidth)[k]
            == if threeColumn then BlockFor(files, k, numfreqs, threeColumn, padWidth)
               else TrimBlock(BlockFor(files, k, numfreqs, threeColumn, padWidth), Collect(files, 9, numfreqs, threeColumn, padWidth).numfreqs)
  {
    CollectWf(files, 9, numfreqs, threeColumn, padWidth);
    CollectBlockAt(files, 9, k, numfreqs, threeColumn, padWidth);
  }

  /** The loop over the element files, the in-place trimming of padding
      blocks and the frequency-by-frequency assembly of the complex field. */
  method ReadTensorWith(loads: seq<Load>, numfreqs: nat, threeColumn: bool, hartree: bool, padWidth: nat)
    returns (r: Result<Option<(seq<Float>, Field)>>)
    requires |loads| == 9 && LoadsWf(loads)
    ensures r == TensorFrom(loads, numfreqs, threeColumn, hartree, padWidth)
  {
    ghost var files := Present(loads);
    var blocks: seq<Array2> := [];
    var fileFreqs: Option<nat> := None;
    var last: Option<Array2> := None;
    var nf := numfreqs;
    for k := 0 to 9
      invariant Collected(blocks, nf, fileFreqs, last) == Collect(files, k, numfreqs, threeColumn, padWidth)
      invariant forall j | 0 <= j < k :: !loads[j].Malformed?
    {
      match loads[k]
      case Malformed =>
        return Raise(ValueError);
      case Missing =>
        if threeColumn {
          blocks := blocks + [NaNArray(nf, padWidth)];
        } else {
          blocks := blocks + [NaNArray(2 * nf, 2)];
        }
      case Read(load) =>
        blocks := blocks + [load];
        last := Some(load);
        if fileFreqs.None? {
          var f := if threeColumn then load.rows else load.rows / 2;
          fileFreqs := Some(f);
          if f != nf {
            nf := f;
          }
        }
    }
    assert !AnyMalformed(loads);
    CollectWf(files, 9, numfreqs, threeColumn, padWidth);
    if fileFreqs.None? {
      return Ok(None);
    }
    if !threeColumn {
      blocks := TrimBlocks(blocks, nf);
    }
    var freqs := Column(last.value, 0, Some(nf));
    if !Reshapes(blocks, LayoutRows(nf, threeColumn), LayoutCols(threeColumn)) {
      return Raise(ValueError);
    }
    var ten := FillTensor(blocks, nf, threeColumn);
    if hartree {
      freqs := seq(|freqs|, w requires 0 <= w < |freqs| => ToEv(freqs[w], true));
    }
    assert freqs == Frequencies(last.value, Some(nf), hartree);
    r := Ok(Some((freqs, ten)));
  }

  /** `io.readTensor`: the three-column NaN block has two columns. */
  method ReadTensor(loads: seq<Load>, numfreqs: nat, threeColumn: bool, hartree: bool)
    returns (r: Result<Option<(seq<Float>, Field)>>)
    requires |loads| == 9 && LoadsWf(loads)
    ensures r == TensorFrom(loads, numfreqs, threeColumn, hartree, 2)
  {
    r := ReadTensorWith(loads, numfreqs, threeColumn, hartree, 2);
  }

  /** The entries of a block stored in the layout: columns 1 and 2 of row w,
      or column 1 of rows w and n + w. */
  lemma EntryAt(b: Array2, n: nat, threeColumn: bool, w: nat)
    requires Wf(b) && b.rows == LayoutRows(n, threeColumn) && b.cols == LayoutCols(threeColumn) && w < n
    ensures threeColumn ==> Entry(b, n, threeColumn, w) == Combine(At(b, w, 1), At(b, w, 2))
    ensures !threeColumn ==> Entry(b, n, threeColumn, w) == Combine(At(b, w, 1), At(b, n + w, 1))
  {
  }

  /** The tensor is (None, None) exactly when no element file could be loaded. */
  lemma TensorNone(files: seq<Option<Array2>>, numfreqs: nat, threeColumn: bool, hartree: bool, padWidth: nat)
    requires |files| == 9
    requires forall k | 0 <= k < 9 && files[k].Some? :: Loaded(files[k].value)
    ensures TensorOf(files, numfreqs, threeColumn, hartree, padWidth) == Ok(None)
            <==> forall k | 0 <= k < 9 :: files[k].None?
  {
    CollectCount(files, 9, numfreqs, threeColumn, padWidth);
  }

  /** The frequency count is the one of the first loaded file, whatever
      elk.in says, and the frequencies are the first column of the last
      loaded file, converted to eV when `hartree` is set. */
  lemma TensorFrequencies(files: seq<Option<Array2>>, numfreqs: nat, threeColumn: bool, hartree: bool, padWidth: nat)
    requires |files| == 9
    requires forall k | 0 <= k < 9 && files[k].Some? :: Loaded(files[k].value)
    ensures var r := TensorOf(files, numfreqs, threeColumn, hartree, padWidth);
      r.Ok? && r.value.Some? ==>
        && FirstLoaded(files).Some? && LastLoaded(files).Some?
        && NumFreqs(r.value.value.1) == FileFreqs(FirstLoaded(files).value, threeColumn)
        && Loaded(LastLoaded(files).value)
        && r.value.value.0 == Frequencies(LastLoaded(files).value, Some(NumFreqs(r.value.value.1)), hartree)
  {
    CollectCount(files, 9, numfreqs, threeColumn, padWidth);
    CollectWf(files, 9, numfreqs, threeColumn, padWidth);
    assert files[..9] == files;
  }

  /** A missing element file leaves that element NaN at every frequency. */
  lemma MissingElementIsNaN(files: seq<Option<Array2>>, numfreqs: nat, threeColumn: bool, hartree: bool,
                            padWidth: nat, k: nat)
    requires |files| == 9
    requires forall k | 0 <= k < 9 && files[k].Some? :: Loaded(files[k].value)
    requires k < 9 && files[k].None?
    ensures var r := TensorOf(files, numfreqs, threeColumn, hartree, padWidth);
      r.Ok? && r.value.Some? ==>
        forall w | 0 <= w < NumFreqs(r.value.value.1) :: r.value.value.1[k / 3][k % 3][w].IsNaN()
  {
    FinalBlockAt(files, numfreqs, threeColumn, padWidth, k);
    assert AllNaNArray(FinalBlocks(files, numfreqs, threeColumn, padWidth)[k]);
    assert 3 * (k / 3) + k % 3 == k;
  }

  /** A loaded element file supplies its element: real and imaginary parts
      as its layout places them (a two-column file that is all NaN excepted,
      as the trimming may shorten it). */
  lemma PresentElement(files: seq<Option<Array2>>, numfreqs: nat, threeColumn: bool, hartree: bool,
                       padWidth: nat, k: nat)
    requires |files| == 9
    requires forall k | 0 <= k < 9 && files[k].Some? :: Loaded(files[k].value)
    requires k < 9 && files[k].Some?
    requires threeColumn || !AllNaNArray(files[k].value)
    ensures var r := TensorOf(files, numfreqs, threeColumn, hartree, padWidth);
      r.Ok? && r.value.Some? ==>
        var n := NumFreqs(r.value.value.1);
        && |files[k].value.data| == LayoutRows(n, threeColumn) * LayoutCols(threeColumn)
        && forall w | 0 <= w < n :: r.value.value.1[k / 3][k % 3][w] == Entry(files[k].value, n, threeColumn, w)
  {
    FinalBlockAt(files, numfreqs, threeColumn, padWidth, k);
    assert FinalBlocks(files, numfreqs, threeColumn, padWidth)[k] == files[k].value;
    assert 3 * (k / 3) + k % 3 == k;
  }

  /** io.py pads a missing element of a three-column tensor with a block of
      two columns: as soon as one element is missing and another was loaded
      with its three columns, the blocks cannot be reshaped and reading fails. */
  lemma ThreeColumnDefect(files: seq<Option<Array2>>, numfreqs: nat, hartree: bool, k: nat, m: nat)
    requires |files| == 9
    requires forall k | 0 <= k < 9 && files[k].Some? :: Loaded(files[k].value)
    requires k < 9 && files[k].Some? && files[k].value.cols == 3
    requires m < 9 && files[m].None?
    ensures TensorOf(files, numfreqs, true, hartree, 2) == Raise(ValueError)
  {
    CollectCount(files, 9, numfreqs, true, 2);
    FinalBlockAt(files, numfreqs, true, 2, k);
    FinalBlockAt(files, numfreqs, true, 2, m);
  }

  /** With three-column padding, files of frequency, real and imaginary part
      read as a tensor of those entries and NaN for the missing elements,
      provided elk.in's count agrees with the files or element 11 is there. */
  lemma ThreeColumnReads(files: seq<Option<Array2>>, numfreqs: nat, hartree: bool, n: nat)
    requires |files| == 9
    requires forall k | 0 <= k < 9 && files[k].Some? :: Loaded(files[k].value)
    requires forall k | 0 <= k < 9 && files[k].Some? :: files[k].value.rows == n && files[k].value.cols == 3
    requires exists k | 0 <= k < 9 :: files[k].Some?
    requires numfreqs == n || files[0].Some?
    ensures var r := TensorOf(files, numfreqs, true, hartree, 3);
      && r.Ok? && r.value.Some? && NumFreqs(r.value.value.1) == n
      && (forall k, w | 0 <= k < 9 && files[k].Some? && 0 <= w < n ::
            r.value.value.1[k / 3][k % 3][w] == Combine(At(files[k].value, w, 1), At(files[k].value, w, 2)))
  {
    CollectWf(files, 9, numfreqs, true, 3);
    CollectCount(files, 9, numfreqs, true, 3);
    assert files[..9] == files;
    assert Collect(files, 9, numfreqs, true, 3).numfreqs == n;
    var blocks := FinalBlocks(files, numfreqs, true, 3);
    forall k | 0 <= k < 9
      ensures blocks[k].rows == n && blocks[k].cols == 3
    {
      FinalBlockAt(files, numfreqs, true, 3, k);
      if files[k].None? && files[0].Some? {
        assert files[..k][0] == files[0];
      }
    }
    assert Reshapes(blocks, LayoutRows(n, true), LayoutCols(true));
    forall k, w | 0 <= k < 9 && files[k].Some? && 0 <= w < n
      ensures TensorOf(files, numfreqs, true, hartree, 3).value.value.1[k / 3][k % 3][w]
              == Combine(At(files[k].value, w, 1), At(files[k].value, w, 2))
    {
      PresentElement(files, numfreqs, true, hartree, 3, k);
      EntryAt(files[k].value, n, true, w);
    }
  }

  /** Elk's own two-column files of n frequencies read as a tensor whatever
      elk.in's count, if that count is n or one more (the TDDFT case, where
      the NaN blocks of missing elements are cut back to 2 n rows). */
  lemma ElkFilesRead(files: seq<Option<Array2>>, numfreqs: nat, hartree: bool, padWidth: nat, n: nat)
    requires |files| == 9
    requires forall k | 0 <= k < 9 && files[k].Some? :: Loaded(files[k].value)
    requires forall k | 0 <= k < 9 && files[k].Some? :: files[k].value.rows == 2 * n && files[k].value.cols == 2
    requires exists k | 0 <= k < 9 :: files[k].Some?
    requires numfreqs == n || numfreqs == n + 1 || files[0].Some?
    ensures var r := TensorOf(files, numfreqs, false, hartree, padWidth);
      && r.Ok? && r.value.Some? && NumFreqs(r.value.value.1) == n
      && (forall k, w | 0 <= k < 9 && files[k].Some? && !AllNaNArray(files[k].value) && 0 <= w < n ::
            r.value.value.1[k / 3][k % 3][w] == Combine(At(files[k].value, w, 1), At(files[k].value, n + w, 1)))
  {
    CollectWf(files, 9, numfreqs, false, padWidth);
    CollectCount(files, 9, numfreqs, false, padWidth);
    assert files[..9] == files;
    assert Collect(files, 9, numfreqs, false, padWidth).numfreqs == n;
    var blocks := FinalBlocks(files, numfreqs, false, padWidth);
    forall k | 0 <= k < 9
      ensures blocks[k].rows == 2 * n && blocks[k].cols == 2
    {
      FinalBlockAt(files, numfreqs, false, padWidth, k);
      if files[k].None? && files[0].Some? {
        assert files[..k][0] == files[0];
      }
    }
    assert Reshapes(blocks, LayoutRows(n, false), LayoutCols(false));
    forall k, w | 0 <= k < 9 && files[k].Some? && !AllNaNArray(files[k].value) && 0 <= w < n
      ensures TensorOf(files, numfreqs, false, hartree, padWidth).value.value.1[k / 3][k % 3][w]
              == Combine(At(files[k].value, w, 1), At(files[k].value, n + w, 1))
    {
      PresentElement(files, numfreqs, false, hartree, padWidth, k);
      EntryAt(files[k].value, n, false, w);
    }
  }

  /** `io.readTenElk`: Elk's stacked two-column files, frequencies in Hartree. */
  method ReadTenElk(loads: seq<Load>, numfreqs: nat) returns (r: Result<Option<(seq<Float>, Field)>>)
    requires |loads| == 9 && LoadsWf(loads)
    ensures r == TensorFrom(loads, numfreqs, false, true, 2)
  {
    r := ReadTensor(loads, numfreqs, false, true);
  }

  /** `io.readTen635`: the three-column files of Elk task 635. */
  method ReadTen635(loads: seq<Load>, numfreqs: nat) returns (r: Result<Option<(seq<Float>, Field)>>)
    requires |loads| == 9 && LoadsWf(loads)
    ensures r == TensorFrom(loads, numfreqs, true, true, 2)
  {
    r := ReadTensor(loads, numfreqs, true, true);
  }

  // ---------------------------------------------------------------------
  // readScalar

  /** `real + imag * 1j` under numpy broadcasting: equal lengths pair up, a
      side of length one is repeated, anything else is a ValueError. */
  function Broadcast(re: seq<Float>, im: seq<Float>): (r: Result<seq<CFloat>>)
    ensures r.Ok? <==> |re| == |im| || |re| == 1 || |im| == 1
    ensures r.Raise? ==> r.exc == ValueError
    ensures r.Ok? ==> |r.value| == (if |re| == 1 then |im| else |re|)
    ensures r.Ok? && |re| == |im| ==> forall w | 0 <= w < |re| :: r.value[w] == Combine(re[w], im[w])
  {
    if |re| == |im| then Ok(seq(|re|, w requires 0 <= w < |re| => Combine(re[w], im[w])))
    else if |re| == 1 then Ok(seq(|im|, w requires 0 <= w < |im| => Combine(re[0], im[w])))
    else if |im| == 1 then Ok(seq(|re|, w requires 0 <= w < |re| => Combine(re[w], im[0])))
    else Raise(ValueError)
  }

  /** `readScalar(filename, numfreqs, threeColumn, hartree)` on `AsOption`
      of the file's `Load` (None for a missing file as for a malformed one):
      (None, None) is Ok(None). In the two-column layout a file with a
      single column leaves `real` unbound. */
  function ReadScalarOf(load: Option<Array2>, numfreqs: Option<nat>, threeColumn: bool, hartree: bool)
    : (r: Result<Option<(seq<Float>, seq<CFloat>)>>)
    requires load.Some? ==> Loaded(load.value)
    ensures r == Ok(None) <==> load.None?
    ensures r.Ok? && r.value.Some? ==> |r.value.value.0| <= load.value.rows
    ensures r.Ok? && r.value.Some? ==>
              forall w | 0 <= w < |r.value.value.0| :: r.value.value.0[w] == ToEv(At(load.value, w, 0), hartree)
  {
    match load
    case None => Ok(None)
    case Some(a) =>
      if threeColumn then
        if a.cols < 3 then Raise(IndexError)
        else
          var field :- Broadcast(Column(a, 1, None), Column(a, 2, None));
          Ok(Some((Frequencies(a, None, hartree), field)))
      else if a.cols < 2 then Raise(UnboundLocalError)
      else
        var start := if numfreqs.Some? then numfreqs.value else 0;
        var field :- Broadcast(Column(a, 1, numfreqs), ColumnFrom(a, 1, start));
        Ok(Some((Frequencies(a, numfreqs, hartree), field)))
  }

  /** A three-column file reads as frequency, real and imaginary part per
      row; with fewer columns reading fails with an IndexError. */
  lemma ScalarThreeColumn(a: Array2, numfreqs: Option<nat>, hartree: bool)
    requires Loaded(a)
    ensures var r := ReadScalarOf(Some(a), numfreqs, true, hartree);
      && (a.cols < 3 <==> r == Raise(IndexError))
      && (a.cols >= 3 ==>
            && r.Ok? && r.value.Some?
            && |r.value.value.0| == a.rows && |r.value.value.1| == a.rows
            && forall w | 0 <= w < a.rows :: r.value.value.1[w] == Combine(At(a, w, 1), At(a, w, 2)))
  {
  }

  /** An Elk file of 2 n rows read with n frequencies: real parts in the upper
      half of column 1, imaginary parts in the lower half. */
  lemma ScalarElk(a: Array2, n: nat, hartree: bool)
    requires Loaded(a) && a.rows == 2 * n && a.cols >= 2
    ensures var r := ReadScalarOf(Some(a), Some(n), false, hartree);
      && r.Ok? && r.value.Some?
      && |r.value.value.0| == n && |r.value.value.1| == n
      && forall w | 0 <= w < n :: r.value.value.1[w] == Combine(At(a, w, 1), At(a, n + w, 1))
  {
  }

  /** Without a frequency count every slice of a two-column file is the whole
      column, so column 1 serves as real and as imaginary part. */
  lemma ScalarWithoutCount(a: Array2, hartree: bool)
    requires Loaded(a) && a.cols >= 2
    ensures var r := ReadScalarOf(Some(a), None, false, hartree);
      && r.Ok? && r.value.Some? && |r.value.value.1| == a.rows
      && forall w | 0 <= w < a.rows :: r.value.value.1[w] == Combine(At(a, w, 1), At(a, w, 1))
  {
  }

  /** With a frequency count that is not half the rows, the real and
      imaginary slices differ in length and cannot broadcast unless one of
      them has length one. */
  lemma ScalarCountMismatch(a: Array2, n: nat, hartree: bool)
    requires Loaded(a) && a.cols >= 2 && n <= a.rows && 2 * n != a.rows
    requires n != 1 && a.rows - n != 1
    ensures ReadScalarOf(Some(a), Some(n), false, hartree) == Raise(ValueError)
  {
  }

  /** `io.readScalarElk`: an Elk scalar file of n frequencies. */
  function ReadScalarElk(load: Option<Array2>, numfreqs: nat): (r: Result<Option<(seq<Float>, seq<CFloat>)>>)
    requires load.Some? ==> Loaded(load.value)
    ensures load.Some? && load.value.rows == 2 * numfreqs && load.value.cols >= 2 ==>
              && r.Ok? && r.value.Some? && |r.value.value.1| == numfreqs
              && forall w | 0 <= w < numfreqs ::
                   r.value.value.1[w] == Combine(At(load.value, w, 1), At(load.value, numfreqs + w, 1))
  {
    ReadScalarOf(load, Some(numfreqs), false, true)
  }

  /** `io.readScalar635`: three columns, frequencies in Hartree; the count
      passed in is not used. */
  function ReadScalar635(load: Option<Array2>, numfreqs: nat): (r: Result<Option<(seq<Float>, seq<CFloat>)>>)
    requires load.Some? ==> Loaded(load.value)
    ensures r.Ok? && r.value.Some? ==>
              load.Some? && |r.value.value.0| == load.value.rows
              && forall w | 0 <= w < load.value.rows :: r.value.value.0[w] == ToEv(At(load.value, w, 0), true)
  {
    ReadScalarOf(load, None, true, true)
  }

  /** The frequency count handed to `readScalar635` makes no difference. */
  lemma Scalar635IgnoresCount(load: Option<Array2>, n: nat, m: nat)
    requires load.Some? ==> Loaded(load.value)
    ensures ReadScalar635(load, n) == ReadScalar635(load, m)
  {
  }

  /** `io.readAdditionalData`: three columns whose frequencies are already
      in eV and stay as read. */
  function ReadAdditionalData(load: Option<Array2>): (r: Result<Option<(seq<Float>, seq<CFloat>)>>)
    requires load.Some? ==> Loaded(load.value)
    ensures r.Ok? && r.value.Some? ==>
              load.Some? && |r.value.value.0| == load.value.rows
              && forall w | 0 <= w < load.value.rows :: r.value.value.0[w] == At(load.value, w, 0)
  {
    ReadScalarOf(load, None, true, false)
  }
}
