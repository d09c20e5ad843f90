/** The pre-package analyzer in Utilities.py: its tensor reader (`Read`), its
    own elk.in parser and projection operators (`ElkInput`), and the helpers
    of its `misc` class.  Where it does what the package does, the package's
    model serves for both; what follows is what differs. */
module Legacy {
  import opened Py
  import opened Numerics
  import Fields
  import Misc
  import Elk
  import Io
  import Convert

  // ---------------------------------------------------------------------
  // Read.readTensor

  /** `Read.readTensor(froot, numfreqs, threeColumn, hartree)`: the reader of
      io.py, except that a missing element of a three-column tensor is padded
      with a block of three columns.  Like it, it catches only
      FileNotFoundError and OSError, so a malformed file raises ValueError. */
  method ReadTensor(loads: seq<Io.Load>, numfreqs: nat, threeColumn: bool, hartree: bool)
    returns (r: Result<Option<(seq<Float>, Fields.Field)>>)
    requires |loads| == 9 && Io.LoadsWf(loads)
    ensures r == Io.TensorFrom(loads, numfreqs, threeColumn, hartree, 3)
  {
    r := Io.ReadTensorWith(loads, numfreqs, threeColumn, hartree, 3);
  }

  /** `Read.getTenElk`: stacked two-column files, frequencies in Hartree. */
  method GetTenElk(loads: seq<Io.Load>, numfreqs: nat)
    returns (r: Result<Option<(seq<Float>, Fields.Field)>>)
    requires |loads| == 9 && Io.LoadsWf(loads)
    ensures r == Io.TensorFrom(loads, numfreqs, false, true, 3)
  {
    r := ReadTensor(loads, numfreqs, false, true);
  }

  /** `Read.getTen635`: three-column files, frequencies in Hartree. */
  method GetTen635(loads: seq<Io.Load>, numfreqs: nat)
    returns (r: Result<Option<(seq<Float>, Fields.Field)>>)
    requires |loads| == 9 && Io.LoadsWf(loads)
    ensures r == Io.TensorFrom(loads, numfreqs, true, true, 3)
  {
    r := ReadTensor(loads, numfreqs, true, true);
  }

  /** The width of the three-column padding never enters the collection of
      two-column files. */
  lemma {:induction false} CollectTwoColumn(files: seq<Option<Io.Array2>>, n: nat, numfreqs: nat, p: nat, q: nat)
    requires n <= |files|
    ensures Io.Collect(files, n, numfreqs, false, p) == Io.Collect(files, n, numfreqs, false, q)
  {
    if n > 0 {
      CollectTwoColumn(files, n - 1, numfreqs, p, q);
    }
  }

  /** On Elk's two-column files the legacy reader and io.py's agree. */
  lemma TwoColumnAgrees(files: seq<Option<Io.Array2>>, numfreqs: nat, hartree: bool)
    requires |files| == 9
    requires forall k | 0 <= k < 9 && files[k].Some? :: Io.Loaded(files[k].value)
    ensures Io.TensorOf(files, numfreqs, false, hartree, 3) == Io.TensorOf(files, numfreqs, false, hartree, 2)
  {
    CollectTwoColumn(files, 9, numfreqs, 3, 2);
  }

  /** On three-column files of n frequencies with one element missing, the
      legacy `getTen635` reads the tensor, NaN at the missing element, where
      io.py's `readTen635` fails with a ValueError. */
  lemma PaddingDecides(files: seq<Option<Io.Array2>>, numfreqs: nat, n: nat, k: nat, m: nat)
    requires |files| == 9
    requires forall k | 0 <= k < 9 && files[k].Some? :: Io.Loaded(files[k].value)
    requires forall k | 0 <= k < 9 && files[k].Some? :: files[k].value.rows == n && files[k].value.cols == 3
    requires k < 9 && files[k].Some? && m < 9 && files[m].None?
    requires numfreqs == n || files[0].Some?
    ensures Io.TensorOf(files, numfreqs, true, true, 2) == Raise(ValueError)
    ensures var r := Io.TensorOf(files, numfreqs, true, true, 3);
      && r.Ok? && r.value.Some? && Fields.NumFreqs(r.value.value.1) == n
      && forall w | 0 <= w < n :: r.value.value.1[m / 3][m % 3][w].IsNaN()
  {
    Io.ThreeColumnDefect(files, numfreqs, true, k, m);
    Io.ThreeColumnReads(files, numfreqs, true, n);
    Io.MissingElementIsNaN(files, numfreqs, true, true, 3, m);
  }

  // ---------------------------------------------------------------------
  // ElkInput.parseElkInput

  /** `os.path.join(a, b)` on POSIX: an absolute b replaces a, otherwise b is
      appended after a separator unless a is empty or already ends with one. */
  function PathJoin(a: string, b: string): (r: string)
    ensures |b| > 0 && b[0] == '/' ==> r == b
    ensures !(|b| > 0 && b[0] == '/') ==> |a| <= |r| && r[..|a|] == a && |b| <= |r| && r[|r| - |b|..] == b
    ensures !(|b| > 0 && b[0] == '/') ==> |r| == |a| + |b| || (|r| == |a| + |b| + 1 && r[|a|] == '/')
  {
    if |b| > 0 && b[0] == '/' then b
    else if a == [] || a[|a| - 1] == '/' then a + b
    else a + "/" + b
  }

  /** The file parseElkInput opens: the folder is joined onto "elk.in" and
      then joined again onto the result. */
  function InputFileAsWritten(path: Option<string>): (f: string)
    ensures path.None? ==> f == "elk.in"
    ensures path.Some? ==> f == PathJoin(path.value, InputFile(path))
  {
    if path.None? then "elk.in"
    else PathJoin(path.value, PathJoin(path.value, "elk.in"))
  }

  /** The file the folder evidently names: elk.in inside it. */
  function InputFile(path: Option<string>): (f: string)
    ensures path.None? ==> f == "elk.in"
    ensures path.Some? && path.value != [] ==> f == path.value + "/elk.in" || f == path.value + "elk.in"
    ensures path.Some? && path.value != [] && path.value[|path.value| - 1] != '/' ==> f == path.value + "/elk.in"
  {
    if path.None? then "elk.in" else PathJoin(path.value, "elk.in")
  }

  /** For a relative folder the double join names elk.in inside a
      sub-folder of the same name; for an absolute folder the second join
      is harmless. */
  lemma DoubleJoin(d: string)
    requires d != [] && d[0] != '/' && d[|d| - 1] != '/'
    ensures InputFileAsWritten(Some(d)) == d + "/" + d + "/elk.in"
    ensures InputFileAsWritten(Some(d)) != InputFile(Some(d))
  {
    var once := d + "/elk.in";
    assert once[0] == d[0];
    assert |InputFileAsWritten(Some(d))| == 2 * |d| + 8;
  }

  lemma AbsoluteJoin(d: string)
    requires d != [] && d[0] == '/'
    ensures InputFileAsWritten(Some(d)) == InputFile(Some(d))
  {
  }

  /** The lines the loop reacts to; anything else, "wplot" without its line
      break or with trailing blanks included, is skipped. */
  const SectionLines: set<string> := {"wplot\n", "vecql\n", "scale\n"}

  /** `[float(n) for n in ts]` as plain numbers. */
  function Reals(ts: seq<string>, toFloat: string -> Option<real>): (r: Result<seq<real>>)
    ensures r.Ok? <==> forall i | 0 <= i < |ts| :: toFloat(ts[i]).Some?
    ensures r.Raise? ==> r.exc == ValueError
    ensures r.Ok? ==> |r.value| == |ts| && forall i | 0 <= i < |ts| :: r.value[i] == toFloat(ts[i]).value
  {
    var vs :- Elk.Floats(ts, toFloat);
    Ok(seq(|vs|, k requires 0 <= k < |vs| => vs[k].x))
  }

  /** `minw, maxw = [float(i) for i in line.split()[0:2]]`: the unpacking
      fails with a ValueError unless the line has two numbers up front. */
  function Bounds(line: string, toFloat: string -> Option<real>): (r: Result<(real, real)>)
    ensures var ts := Elk.Tokens(line);
      r.Ok? <==> |ts| >= 2 && toFloat(ts[0]).Some? && toFloat(ts[1]).Some?
    ensures r.Raise? ==> r.exc == ValueError
    ensures r.Ok? ==> r.value == (toFloat(Elk.Tokens(line)[0]).value, toFloat(Elk.Tokens(line)[1]).value)
  {
    var xs :- Reals(Elk.Take2(Elk.Tokens(line)), toFloat);
    if |xs| != 2 then Raise(ValueError) else Ok((xs[0], xs[1]))
  }

  /** The local variables the line loop assigns: the wplot section (count,
      minimum, maximum) and the fractional q-vector, None while unassigned,
      and the scale, 1.0 unless set. */
  datatype Sections = Sections(wplot: Option<(int, real, real)>, vecqFrac: Option<seq<real>>, scale: real)

  const Unset: Sections := Sections(None, None, 1.0)

  /** The loop from line i on, with `next(f)` taking the following line
      (StopIteration past the end). */
  function ScanFrom(lines: seq<string>, i: nat, s: Sections, toFloat: string -> Option<real>): (r: Result<Sections>)
    requires i <= |lines|
    ensures r.Raise? ==> r.exc == StopIteration || r.exc == IndexError || r.exc == ValueError
    ensures r.Raise? ==> exists j | i <= j < |lines| :: lines[j] in SectionLines
    decreases |lines| - i
  {
    if i == |lines| then Ok(s)
    else if lines[i] == "wplot\n" then
      var counts :- Elk.NextLine(lines, i + 1);
      var n :- Elk.FirstInt(counts);
      var range :- Elk.NextLine(lines, i + 2);
      var w :- Bounds(range, toFloat);
      ScanFrom(lines, i + 3, s.(wplot := Some((n, w.0, w.1))), toFloat)
    else if lines[i] == "vecql\n" then
      var line :- Elk.NextLine(lines, i + 1);
      var q :- Reals(Elk.Tokens(line), toFloat);
      ScanFrom(lines, i + 2, s.(vecqFrac := Some(q)), toFloat)
    else if lines[i] == "scale\n" then
      var line :- Elk.NextLine(lines, i + 1);
      var x :- Elk.FirstFloat(line, toFloat);
      ScanFrom(lines, i + 2, s.(scale := x), toFloat)
    else ScanFrom(lines, i + 1, s, toFloat)
  }

  /** The `for line in f` loop of parseElkInput over the lines of elk.in,
      each with its line break. */
  method ScanElkInput(lines: seq<string>, toFloat: string -> Option<real>) returns (r: Result<Sections>)
    ensures r == ScanFrom(lines, 0, Unset, toFloat)
  {
    var s := Unset;
    var i := 0;
    while i < |lines|
      invariant i <= |lines|
      invariant ScanFrom(lines, i, s, toFloat) == ScanFrom(lines, 0, Unset, toFloat)
      decreases |lines| - i
    {
      var line := lines[i];
      if line == "wplot\n" {
        if i + 1 == |lines| { return Raise(StopIteration); }
        var n := Elk.FirstInt(lines[i + 1]);
        if n.Raise? { return Raise(n.exc); }
        if i + 2 == |lines| { return Raise(StopIteration); }
        var w := Bounds(lines[i + 2], toFloat);
        if w.Raise? { return Raise(w.exc); }
        s := s.(wplot := Some((n.value, w.value.0, w.value.1)));
        i := i + 3;
      } else if line == "vecql\n" {
        if i + 1 == |lines| { return Raise(StopIteration); }
        var q := Reals(Elk.Tokens(lines[i + 1]), toFloat);
        if q.Raise? { return Raise(q.exc); }
        s := s.(vecqFrac := Some(q.value));
        i := i + 2;
      } else if line == "scale\n" {
        if i + 1 == |lines| { return Raise(StopIteration); }
        var x := Elk.FirstFloat(lines[i + 1], toFloat);
        if x.Raise? { return Raise(x.exc); }
        s := s.(scale := x.value);
        i := i + 2;
      } else {
        i := i + 1;
      }
    }
    r := Ok(s);
  }

  /** Lines none of which opens a section leave the variables as they were. */
  lemma {:induction false} ScanSkips(lines: seq<string>, i: nat, s: Sections, toFloat: string -> Option<real>)
    requires i <= |lines|
    requires forall j | i <= j < |lines| :: lines[j] !in SectionLines
    ensures ScanFrom(lines, i, s, toFloat) == Ok(s)
    decreases |lines| - i
  {
    if i < |lines| {
      assert lines[i] !in SectionLines;
      ScanSkips(lines, i + 1, s, toFloat);
    }
  }

  /** A variable the loop assigns was assigned before it started or has a
      line of its own that reads exactly "wplot", "vecql" or "scale". */
  lemma {:induction false} ScanAssigns(lines: seq<string>, i: nat, s: Sections, toFloat: string -> Option<real>)
    requires i <= |lines|
    ensures var r := ScanFrom(lines, i, s, toFloat);
      r.Ok? ==>
        && (r.value.wplot.Some? ==> s.wplot.Some? || exists j | i <= j < |lines| :: lines[j] == "wplot\n")
        && (r.value.vecqFrac.Some? ==> s.vecqFrac.Some? || exists j | i <= j < |lines| :: lines[j] == "vecql\n")
        && (r.value.scale != s.scale ==> exists j | i <= j < |lines| :: lines[j] == "scale\n")
    decreases |lines| - i
  {
    if i < |lines| {
      var r := ScanFrom(lines, i, s, toFloat);
      if r.Ok? {
        if lines[i] == "wplot\n" {
          var t := s.(wplot := Some((Elk.FirstInt(lines[i + 1]).value,
                                     Bounds(lines[i + 2], toFloat).value.0, Bounds(lines[i + 2], toFloat).value.1)));
          ScanAssigns(lines, i + 3, t, toFloat);
        } else if lines[i] == "vecql\n" {
          var t := s.(vecqFrac := Some(Reals(Elk.Tokens(lines[i + 1]), toFloat).value));
          ScanAssigns(lines, i + 2, t, toFloat);
        } else if lines[i] == "scale\n" {
          var t := s.(scale := Elk.FirstFloat(lines[i + 1], toFloat).value);
          ScanAssigns(lines, i + 2, t, toFloat);
        } else {
          ScanAssigns(lines, i + 1, s, toFloat);
        }
      }
    }
  }

  /** What parseElkInput returns: numfreqs, minw and maxw in eV, the
      cartesian q-vector and its squared norm. */
  datatype Parsed = Parsed(numfreqs: int, minw: real, maxw: real, vecq: Option<seq<real>>, vecql2: Option<real>)

  /** `np.dot(vecq.T, vecq)[0, 0]`: the sum of the squared components. */
  function SumSquares(v: seq<real>): real
  {
    if v == [] then 0.0 else v[0] * v[0] + SumSquares(v[1..])
  }

  /** `vecqFrac * qscale`. */
  function Scaled(v: seq<real>, c: real): (w: seq<real>)
    ensures |w| == |v| && forall i | 0 <= i < |v| :: w[i] == v[i] * c
  {
    seq(|v|, i requires 0 <= i < |v| => v[i] * c)
  }

  /** Scaling a vector by c scales its squared norm by c². */
  lemma {:induction false} SumSquaresScaled(v: seq<real>, c: real)
    ensures SumSquares(Scaled(v, c)) == c * c * SumSquares(v)
  {
    if v != [] {
      SumSquaresScaled(v[1..], c);
      var w := Scaled(v, c);
      assert forall i | 0 <= i < |v| - 1 :: w[1..][i] == v[1..][i] * c;
      assert w[1..] == Scaled(v[1..], c);
      assert (v[0] * c) * (v[0] * c) == c * c * (v[0] * v[0]);
    }
  }

  lemma SumSquaresNonNegative(v: seq<real>)
    ensures SumSquares(v) >= 0.0
  {
    if v != [] {
      SumSquaresNonNegative(v[1..]);
      SquareNonNegative(v[0]);
    }
  }

  /** The three-vector case is the euclidean norm of the converter. */
  lemma SumSquaresNorm2(q: Vec3)
    ensures SumSquares(q) == Norm2(q)
  {
    assert q[1..][1..][1..] == [];
    assert SumSquares(q[1..][1..]) == q[2] * q[2];
    assert SumSquares(q[1..]) == q[1] * q[1] + q[2] * q[2];
  }

  /** x (π / scale) times scale is π x. */
  lemma Rescale(x: real, scale: real)
    requires scale != 0.0
    ensures x * (Pi / scale) * scale == Pi * x
  {
    assert Pi / scale * scale == Pi;
  }

  /** The results derived from the section variables: minw and maxw in eV,
      and q in cartesian coordinates, q · scale = π q_frac, with its squared norm. */
  predicate Derived(s: Sections, p: Parsed)
  {
    && s.wplot.Some?
    && p.numfreqs == s.wplot.value.0
    && p.minw == s.wplot.value.1 * Misc.Hartree2eV
    && p.maxw == s.wplot.value.2 * Misc.Hartree2eV
    && (p.vecq.Some? <==> s.vecqFrac.Some?)
    && (p.vecq.Some? ==>
          && |p.vecq.value| == |s.vecqFrac.value|
          && (forall i | 0 <= i < |p.vecq.value| :: p.vecq.value[i] * s.scale == Pi * s.vecqFrac.value[i])
          && p.vecql2 == Some(SumSquares(p.vecq.value)))
    && (p.vecq.None? ==> p.vecql2.None?)
  }

  /** The q-vector of a scan with q set and a non-zero scale. */
  function CartesianQ(s: Sections): (q: seq<real>)
    requires s.vecqFrac.Some? && s.scale != 0.0
    ensures |q| == |s.vecqFrac.value|
    ensures forall i | 0 <= i < |q| :: q[i] * s.scale == Pi * s.vecqFrac.value[i]
  {
    var q := Scaled(s.vecqFrac.value, Pi / s.scale);
    forall i | 0 <= i < |q|
      ensures q[i] * s.scale == Pi * s.vecqFrac.value[i]
    {
      Rescale(s.vecqFrac.value[i], s.scale);
    }
    q
  }

  /** The code after the loop as written: printing numfreqs and vecqFrac
      raises UnboundLocalError when wplot or vecql was never read, so its
      `vecq = None` branch cannot be reached; π / scale fails for scale 0. */
  function FinishAsWritten(s: Sections): (r: Result<Parsed>)
    ensures r.Ok? <==> s.wplot.Some? && s.vecqFrac.Some? && s.scale != 0.0
    ensures r.Raise? ==> r.exc == if s.wplot.None? || s.vecqFrac.None? then UnboundLocalError else ZeroDivisionError
    ensures r.Ok? ==> r.value.vecq.Some? && Derived(s, r.value)
  {
    if s.wplot.None? || s.vecqFrac.None? then Raise(UnboundLocalError)
    else if s.scale == 0.0 then Raise(ZeroDivisionError)
    else
      var q := CartesianQ(s);
      Ok(Parsed(s.wplot.value.0, s.wplot.value.1 * Misc.Hartree2eV, s.wplot.value.2 * Misc.Hartree2eV,
                Some(q), Some(SumSquares(q))))
  }

  /** The code after the loop as evidently intended: without a vecql section
      q and its norm are None. */
  function Finish(s: Sections): (r: Result<Parsed>)
    ensures r.Ok? <==> s.wplot.Some? && s.scale != 0.0
    ensures r.Raise? ==> r.exc == if s.wplot.None? then UnboundLocalError else ZeroDivisionError
    ensures r.Ok? ==> Derived(s, r.value)
  {
    if s.wplot.None? then Raise(UnboundLocalError)
    else if s.scale == 0.0 then Raise(ZeroDivisionError)
    else if s.vecqFrac.None? then
      Ok(Parsed(s.wplot.value.0, s.wplot.value.1 * Misc.Hartree2eV, s.wplot.value.2 * Misc.Hartree2eV, None, None))
    else
      var q := CartesianQ(s);
      Ok(Parsed(s.wplot.value.0, s.wplot.value.1 * Misc.Hartree2eV, s.wplot.value.2 * Misc.Hartree2eV,
                Some(q), Some(SumSquares(q))))
  }

  /** `parseElkInput()` on the lines of elk.in, as written. */
  function ParseElkInputAsWritten(lines: seq<string>, toFloat: string -> Option<real>): (r: Result<Parsed>)
    ensures r.Ok? ==> r.value.vecq.Some? && r.value.vecql2.Some?
    ensures r.Ok? ==> r == ParseElkInputOf(lines, toFloat)
  {
    var s :- ScanFrom(lines, 0, Unset, toFloat);
    FinishAsWritten(s)
  }

  /** `parseElkInput()` on the lines of elk.in, with the missing q-vector
      reported as None. */
  function ParseElkInputOf(lines: seq<string>, toFloat: string -> Option<real>): (r: Result<Parsed>)
    ensures r.Ok? ==> (r.value.vecq.Some? <==> r.value.vecql2.Some?)
    ensures r.Ok? && r.value.vecq.Some? ==> r.value.vecql2 == Some(SumSquares(r.value.vecq.value))
  {
    var s :- ScanFrom(lines, 0, Unset, toFloat);
    Finish(s)
  }

  /** Both versions agree whenever the file has a vecql section that was read. */
  lemma ParseAgrees(lines: seq<string>, toFloat: string -> Option<real>)
    ensures var s := ScanFrom(lines, 0, Unset, toFloat);
      s.Ok? && s.value.vecqFrac.Some? ==> ParseElkInputAsWritten(lines, toFloat) == ParseElkInputOf(lines, toFloat)
    ensures ParseElkInputAsWritten(lines, toFloat).Ok? ==> ParseElkInputAsWritten(lines, toFloat) == ParseElkInputOf(lines, toFloat)
  {
  }

  /** Parsing succeeds only for a file with a line "wplot", and as written
      only for one that has a line "vecql" too; a q-vector is returned
      exactly when the as-written parser succeeds. */
  lemma ParseNeedsSections(lines: seq<string>, toFloat: string -> Option<real>)
    ensures ParseElkInputOf(lines, toFloat).Ok? ==> exists j | 0 <= j < |lines| :: lines[j] == "wplot\n"
    ensures ParseElkInputAsWritten(lines, toFloat).Ok? ==>
              && (exists j | 0 <= j < |lines| :: lines[j] == "wplot\n")
              && (exists j | 0 <= j < |lines| :: lines[j] == "vecql\n")
              && ParseElkInputAsWritten(lines, toFloat).value.vecq.Some?
  {
    ScanAssigns(lines, 0, Unset, toFloat);
  }

  /** A file none of whose lines reads exactly "wplot", "vecql" or "scale"
      (for instance one whose section names carry trailing blanks) fails
      with UnboundLocalError. */
  lemma ExactSectionNames(lines: seq<string>, toFloat: string -> Option<real>)
    requires forall j | 0 <= j < |lines| :: lines[j] !in SectionLines
    ensures ParseElkInputAsWritten(lines, toFloat) == Raise(UnboundLocalError)
    ensures ParseElkInputOf(lines, toFloat) == Raise(UnboundLocalError)
  {
    ScanSkips(lines, 0, Unset, toFloat);
  }

  /** A file with a wplot section and no vecql section: the code as written
      raises UnboundLocalError, the intended parser returns no q-vector. */
  lemma WithoutVecql(counts: string, range: string, toFloat: string -> Option<real>)
    requires Elk.FirstInt(counts).Ok? && Bounds(range, toFloat).Ok?
    ensures var lines := ["wplot\n", counts, range];
      && ParseElkInputAsWritten(lines, toFloat) == Raise(UnboundLocalError)
      && ParseElkInputOf(lines, toFloat) == Ok(Parsed(Elk.FirstInt(counts).value,
                                                       Bounds(range, toFloat).value.0 * Misc.Hartree2eV,
                                                       Bounds(range, toFloat).value.1 * Misc.Hartree2eV, None, None))
  {
    var lines := ["wplot\n", counts, range];
    var s := Unset.(wplot := Some((Elk.FirstInt(counts).value, Bounds(range, toFloat).value.0, Bounds(range, toFloat).value.1)));
    assert ScanFrom(lines, 3, s, toFloat) == Ok(s);
    assert ScanFrom(lines, 0, Unset, toFloat) == Ok(s);
  }

  /** The squared norm of the cartesian q-vector is (π / scale)² times the
      squared norm of the fractional one. */
  lemma QNormScales(s: Sections)
    requires s.vecqFrac.Some? && s.scale != 0.0
    ensures SumSquares(CartesianQ(s)) == (Pi / s.scale) * (Pi / s.scale) * SumSquares(s.vecqFrac.value)
  {
    SumSquaresScaled(s.vecqFrac.value, Pi / s.scale);
  }

  // ---------------------------------------------------------------------
  // ElkInput.buildProjectionOperators and the constructor

  /** `np.identity(3) - pL` under numpy broadcasting: a 3x3 pL subtracts
      entrywise, a 1x1 pL is subtracted from every entry, any other shape
      is a ValueError. */
  function IdentityMinus(pL: seq<seq<real>>): (r: Result<seq<seq<real>>>)
    requires forall i | 0 <= i < |pL| :: |pL[i]| == |pL|
    ensures r.Ok? <==> |pL| == 3 || |pL| == 1
    ensures r.Raise? ==> r.exc == ValueError
    ensures r.Ok? ==> |r.value| == 3 && forall i | 0 <= i < 3 :: |r.value[i]| == 3
    ensures r.Ok? ==> forall i, j | 0 <= i < 3 && 0 <= j < 3 ::
              r.value[i][j] + (if |pL| == 3 then pL[i][j] else pL[0][0]) == if i == j then 1.0 else 0.0
  {
    if |pL| == 3 then Ok(seq(3, i requires 0 <= i < 3 => seq(3, j requires 0 <= j < 3 => (if i == j then 1.0 else 0.0) - pL[i][j])))
    else if |pL| == 1 then Ok(seq(3, i requires 0 <= i < 3 => seq(3, j requires 0 <= j < 3 => (if i == j then 1.0 else 0.0) - pL[0][0])))
    else Raise(ValueError)
  }

  /** `np.dot(vecq, vecq.T) / vecql2` for the column vector vecq. */
  function OuterOf(v: seq<real>, c: real): (m: seq<seq<real>>)
    ensures |m| == |v| && forall i | 0 <= i < |v| :: |m[i]| == |v|
  {
    seq(|v|, i requires 0 <= i < |v| => seq(|v|, j requires 0 <= j < |v| => v[i] * v[j] * c))
  }

  /** `buildProjectionOperators()` for the q-vector vecq (vecql2 being its
      squared norm): (None, None) below the threshold, otherwise q qᵀ / |q|²
      and identity minus it. */
  function BuildProjectionOperators(vecq: seq<real>): (r: Result<Option<(seq<seq<real>>, seq<seq<real>>)>>)
    ensures r == Ok(None) <==> SumSquares(vecq) < ZeroThreshold
    ensures r.Raise? <==> SumSquares(vecq) >= ZeroThreshold && |vecq| != 3 && |vecq| != 1
  {
    var vecql2 := SumSquares(vecq);
    if vecql2 < ZeroThreshold then Ok(None)
    else
      var pL := OuterOf(vecq, 1.0 / vecql2);
      var pT :- IdentityMinus(pL);
      Ok(Some((pL, pT)))
  }

  /** For a three-component q the operators are those of the converter:
      complementary orthogonal projectors. */
  lemma ProjectorsAsConverter(q: Vec3)
    ensures var r := BuildProjectionOperators(q);
      var c := Convert.ProjectionOperators(q);
      && r.Ok?
      && (r.value.None? <==> c.None?)
      && (c.Some? ==> r.value.value.0 == c.value.0 && r.value.value.1 == c.value.1)
      && (c.Some? ==> Convert.ProjectorPair(c.value.0, c.value.1))
  {
    SumSquaresNorm2(q);
    var c := Convert.ProjectionOperators(q);
    if c.Some? {
      var r := BuildProjectionOperators(q);
      var pL := OuterOf(q, 1.0 / Norm2(q));
      assert pL == Convert.Outer(q, 1.0 / Norm2(q));
      assert r.value.value.0 == c.value.0;
      var pT: RMat := r.value.value.1;
      RMatEq(pT, c.value.1);
    }
  }

  /** A one-component q is broadcast: pL is the 1x1 matrix [1] and pT the
      3x3 matrix with 0 on and -1 off the diagonal, which is no projector. */
  lemma OneComponent(x: real)
    requires x * x >= ZeroThreshold
    ensures var r := BuildProjectionOperators([x]);
      && r.Ok? && r.value.Some? && r.value.value.0 == [[1.0]]
      && |r.value.value.1| == 3 && (forall i | 0 <= i < 3 :: |r.value.value.1[i]| == 3)
      && forall i, j | 0 <= i < 3 && 0 <= j < 3 :: r.value.value.1[i][j] == if i == j then 0.0 else -1.0
  {
    var n := x * x;
    assert [x][1..] == [];
    assert SumSquares([x]) == n;
    assert n * (1.0 / n) == 1.0;
    var pL := OuterOf([x], 1.0 / n);
    assert pL[0][0] == 1.0;
    assert pL[0] == [1.0];
    assert pL == [[1.0]];
  }

  /** What the constructor keeps: the parsed values and the projectors, or
      None for both when there is no q-vector or it is zero. The cell
      volume, charge and k-point count come from INFO.OUT. */
  datatype Input = Input(numfreqs: int, minw: real, maxw: real, vecq: Option<seq<real>>, vecql2: Option<real>,
                         projLong: Option<seq<seq<real>>>, projTrans: Option<seq<seq<real>>>)

  /** `ElkInput(path)` on the lines of its elk.in, as evidently intended:
      built on the corrected parser `Finish`, so that an elk.in without a
      vecql section gives no projectors. The call to parseElkInfoOut that
      precedes the projectors, and its errors for a missing or incomplete
      INFO.OUT, are not part of this model. */
  function ElkInputOf(lines: seq<string>, toFloat: string -> Option<real>): (r: Result<Input>)
    ensures r.Ok? ==> ParseElkInputOf(lines, toFloat).Ok?
    ensures r.Ok? ==> var p := ParseElkInputOf(lines, toFloat).value;
      && r.value.numfreqs == p.numfreqs && r.value.minw == p.minw && r.value.maxw == p.maxw
      && r.value.vecq == p.vecq && r.value.vecql2 == p.vecql2
      && (r.value.projLong.Some? <==> r.value.projTrans.Some?)
      && (r.value.projLong.Some? <==> p.vecq.Some? && SumSquares(p.vecq.value) >= ZeroThreshold)
    ensures ParseElkInputOf(lines, toFloat).Raise? ==> r.Raise? && r.exc == ParseElkInputOf(lines, toFloat).exc
  {
    var p :- ParseElkInputOf(lines, toFloat);
    if p.vecql2.None? then Ok(Input(p.numfreqs, p.minw, p.maxw, p.vecq, p.vecql2, None, None))
    else
      var ops :- BuildProjectionOperators(p.vecq.value);
      if ops.None? then Ok(Input(p.numfreqs, p.minw, p.maxw, p.vecq, p.vecql2, None, None))
      else Ok(Input(p.numfreqs, p.minw, p.maxw, p.vecq, p.vecql2, Some(ops.value.0), Some(ops.value.1)))
  }

  /** An elk.in whose q-vector has three components gives complementary
      orthogonal projectors whenever it gives projectors at all. */
  lemma InputProjectors(lines: seq<string>, toFloat: string -> Option<real>)
    requires ElkInputOf(lines, toFloat).Ok?
    requires var e := ElkInputOf(lines, toFloat).value; e.vecq.Some? && |e.vecq.value| == 3
    ensures var e := ElkInputOf(lines, toFloat).value;
      e.projLong.Some? ==>
        && |e.projLong.value| == 3 && |e.projTrans.value| == 3
        && (forall i | 0 <= i < 3 :: |e.projLong.value[i]| == 3 && |e.projTrans.value[i]| == 3)
        && Convert.ProjectorPair(e.projLong.value, e.projTrans.value)
  {
    var e := ElkInputOf(lines, toFloat).value;
    var q: Vec3 := e.vecq.value;
    ProjectorsAsConverter(q);
  }

  // ---------------------------------------------------------------------
  // misc.readElkInputParameter and misc.convertFileNameToLatex

  /** Line v follows the last line that starts with the parameter. */
  predicate ValueLine(lines: seq<string>, parameter: string, v: nat)
    requires 0 < v < |lines|
  {
    Misc.StartsWith(lines[v - 1], parameter) && forall j | v < j < |lines| :: !Misc.StartsWith(lines[j], parameter)
  }

  /** `misc.readElkInputParameter(folder, parameter)` on the lines of elk.in:
      the tokens of the line after the last line starting with the
      parameter, None when there is no such line, StopIteration when that
      line is the last one. */
  function ParameterTokens(lines: seq<string>, parameter: string): (r: Result<Option<seq<string>>>)
    ensures r == Ok(None) <==> forall j | 0 <= j < |lines| :: !Misc.StartsWith(lines[j], parameter)
    ensures r.Raise? ==> r.exc == StopIteration && Misc.StartsWith(lines[|lines| - 1], parameter)
    ensures r.Ok? && r.value.Some? ==>
              exists v | 0 < v < |lines| :: ValueLine(lines, parameter, v) && r.value.value == Elk.Tokens(lines[v])
  {
    Elk.ScanFacts(lines, parameter, 0, None);
    var s := Elk.ScanForValue(lines, parameter, 0, None);
    if s.Raise? then Raise(s.exc)
    else if s.value.None? then Ok(None)
    else Ok(Some(Elk.Tokens(lines[s.value.value])))
  }

  /** The loop over the lines, `p = next(f).split()` at each match. */
  method ReadElkInputParameter(lines: seq<string>, parameter: string) returns (r: Result<Option<seq<string>>>)
    ensures r == ParameterTokens(lines, parameter)
  {
    var p: Option<seq<string>> := None;
    ghost var at: Option<nat> := None;
    var i := 0;
    while i < |lines|
      invariant i <= |lines|
      invariant at.Some? ==> 0 < at.value < |lines|
      invariant p == if at.Some? then Some(Elk.Tokens(lines[at.value])) else None
      invariant Elk.ScanForValue(lines, parameter, i, at) == Elk.ScanForValue(lines, parameter, 0, None)
      decreases |lines| - i
    {
      if Misc.StartsWith(lines[i], parameter) {
        if i + 1 == |lines| {
          return Raise(StopIteration);
        }
        p := Some(Elk.Tokens(lines[i + 1]));
        at := Some(i + 1);
        i := i + 2;
      } else {
        i := i + 1;
      }
    }
    r := Ok(p);
  }

  /** The package's reader raises NameError where this one returns None,
      and otherwise converts the same tokens. */
  lemma ParameterAsPackage(lines: seq<string>, parameter: string, toFloat: string -> Option<real>)
    ensures var r := ParameterTokens(lines, parameter);
      var e := Elk.ElkInputParameter(lines, parameter, toFloat);
      && (r == Ok(None) <==> e == Raise(NameError))
      && (r.Raise? ==> e == r.PropagateFailure())
      && (r.Ok? && r.value.Some? ==>
            Elk.ConvertTokens(r.value.value, toFloat).Ok? ==> e == Ok(Elk.Collapse(Elk.ConvertTokens(r.value.value, toFloat).value)))
  {
    Elk.ParameterLookup(lines, parameter, toFloat);
  }

  /** The label for field name `field` and subscript `idx`: "EPSILON" is ε,
      "SIGMA" is σ, each as a function of ω, and any other name keeps the stem. */
  function LabelOf(field: string, idx: string, stem: string): string
  {
    if field == "EPSILON" then "$\\varepsilon_{" + idx + "}(\\omega)$"
    else if field == "SIGMA" then "$\\sigma_{" + idx + "}(\\omega)$"
    else stem
  }

  /** For EPSILON and SIGMA the label is the package's, with "(\omega)"
      before its closing "$". */
  lemma LabelAsPackage(field: string, idx: string, stem: string)
    requires field == "EPSILON" || field == "SIGMA"
    ensures var current := Misc.LabelOf(field, idx, stem);
      |current| >= 1 && LabelOf(field, idx, stem) == current[..|current| - 1] + "(\\omega)$"
  {
    var low := Misc.Lower(field);
    var core := if field == "EPSILON" then "$\\varepsilon_{" + idx + "}" else "$\\sigma_{" + idx + "}";
    if field == "EPSILON" {
      assert low[..3] == "eps";
    } else {
      assert low[0] == 's';
    }
    assert Misc.LabelOf(field, idx, stem) == core + "$";
    assert (core + "$")[..|core|] == core;
  }

  /** `misc.convertFileNameToLatex(s)`: the extension is dropped, the first
      "_" piece is the field name and the last one the subscript. */
  function ConvertFileNameToLatex(s: string): (r: string)
    ensures var parts := Misc.Split(Misc.SplitExt(s).0, '_');
      parts[0] == "EPSILON" || parts[0] == "SIGMA" ==>
        |r| >= 10 && r[0] == '$' && r[|r| - 9..] == "(\\omega)$"
    ensures var stem := Misc.SplitExt(s).0;
      var parts := Misc.Split(stem, '_');
      parts[0] != "EPSILON" && parts[0] != "SIGMA" ==> r == stem
  {
    var stem := Misc.SplitExt(s).0;
    var parts := Misc.Split(stem, '_');
    LabelOf(parts[0], parts[|parts| - 1], stem)
  }

  /** For EPSILON and SIGMA files the label is the package's label without
      unit, with "(\omega)" before its closing "$"; any other file keeps its
      stem. */
  lemma LatexAsPackage(s: string)
    ensures var stem := Misc.SplitExt(s).0;
      var parts := Misc.Split(stem, '_');
      var current := Misc.ConvertFileNameToLatex(s, false);
      && (parts[0] == "EPSILON" || parts[0] == "SIGMA" ==>
            |current| >= 1 && ConvertFileNameToLatex(s) == current[..|current| - 1] + "(\\omega)$")
      && (parts[0] != "EPSILON" && parts[0] != "SIGMA" ==> ConvertFileNameToLatex(s) == stem)
  {
    var stem := Misc.SplitExt(s).0;
    var parts := Misc.Split(stem, '_');
    if parts[0] == "EPSILON" || parts[0] == "SIGMA" {
      LabelAsPackage(parts[0], parts[|parts| - 1], stem);
    }
  }

  /** A file name made of "_"-separated pieces and an extension is labelled
      by its first and last piece. */
  lemma LatexOfPieces(field: string, middle: seq<string>, idx: string, ext: string)
    requires '_' !in field && '_' !in idx
    requires forall i | 0 <= i < |middle| :: '_' !in middle[i]
    requires field != [] && field[0] != '.'
    requires '/' !in Misc.Join([field] + middle + [idx], '_')
    requires |ext| >= 1 && ext[0] == '.' && '.' !in ext[1..] && '/' !in ext
    ensures var stem := Misc.Join([field] + middle + [idx], '_');
      ConvertFileNameToLatex(stem + ext) == LabelOf(field, idx, stem)
  {
    var stem := Misc.Join([field] + middle + [idx], '_');
    assert stem[0] == field[0];
    assert Misc.RFind(stem, '/') == -1;
    Misc.SplitExtOf(stem, ext);
    StemPieces(field, middle, idx);
    LatexOfStem(stem + ext, stem);
  }

  lemma LatexOfStem(s: string, stem: string)
    requires Misc.SplitExt(s).0 == stem
    ensures var parts := Misc.Split(stem, '_');
      ConvertFileNameToLatex(s) == LabelOf(parts[0], parts[|parts| - 1], stem)
  {
  }

  lemma StemPieces(field: string, middle: seq<string>, idx: string)
    requires '_' !in field && '_' !in idx
    requires forall i | 0 <= i < |middle| :: '_' !in middle[i]
    ensures var stem := Misc.Join([field] + middle + [idx], '_');
      var parts := Misc.Split(stem, '_');
      LabelOf(parts[0], parts[|parts| - 1], stem) == LabelOf(field, idx, stem)
  {
    Misc.SplitEnds(field, middle, idx);
  }
}
