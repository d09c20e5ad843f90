/** The helpers of elkoa/utils/misc.py: the Hartree-to-eV constant, tensor
    shape detection, per-element availability states and the file-name to
    LaTeX label conversion, with the pieces of Python's string library they
    use (`str.split`, `str.lower`, `str.startswith`, `os.path.splitext`). */
module Misc {
  import opened Numerics
  import opened Fields

  /** Hartree to electron volt, CODATA 2014 (`Hartree2eV`). The converter and
      the input parser use it under the names `misc.hartree2ev` and
      `misc.hartreeInEv`, which misc.py does not define; the model takes them
      to be this constant. */
  const Hartree2eV: real := 27.21138602

  /** The speed of light in atomic units (`misc.sol_au`, likewise not defined
      in misc.py); the CODATA 2014 value 1 / alpha. */
  const SolAu: real := 137.035999139

  // ---------------------------------------------------------------------
  // Shapes and element states

  /** `isTensor(field)` for an array of the given shape: its first two
      dimensions are (3, 3). A shape with fewer than two dimensions has a
      shorter `shape[:2]` and is no tensor. */
  predicate IsTensor(shape: seq<nat>): (b: bool)
    ensures b <==> |shape| >= 2 && shape[0] == 3 && shape[1] == 3
  {
    |shape| >= 2 && shape[..2] == [3, 3]
  }

  /** A (3, 3, N) field is a tensor, for every N; a shape (3, N) or (N,) is not. */
  lemma IsTensorShapes(n: nat)
    ensures IsTensor([3, 3, n]) && IsTensor([3, 3])
    ensures n != 3 ==> !IsTensor([3, n]) && !IsTensor([n, 3, 3])
    ensures !IsTensor([n]) && !IsTensor([])
  {
    assert [3, 3, n][..2] == [3, 3];
    assert [3, n][..2] == [3, n];
    assert [n, 3, 3][..2] == [n, 3];
  }

  /** `Qt.PartiallyChecked`, the state of an element that is NaN throughout. */
  const PartiallyChecked: int := 1
  /** `Qt.Checked`, the state of an element with data. */
  const Checked: int := 2

  /** `checkStates(field)`: one state per element, in the row-major order of
      `reshape(9, numfreqs)`; an element is PartiallyChecked iff it is NaN at
      every frequency (vacuously so when there are no frequencies). */
  function CheckStates(t: Field): (states: seq<int>)
    requires Shaped(t)
    ensures |states| == 9
    ensures forall k | 0 <= k < 9 :: states[k] == PartiallyChecked || states[k] == Checked
    ensures forall k | 0 <= k < 9 ::
              states[k] == PartiallyChecked <==> forall f | 0 <= f < NumFreqs(t) :: t[k / 3][k % 3][f].IsNaN()
  {
    var rows := Elements(t);
    forall k | 0 <= k < 9
      ensures AllNaN(rows[k]) <==> forall f | 0 <= f < NumFreqs(t) :: t[k / 3][k % 3][f].IsNaN()
    {
      AllNaNIff(rows[k]);
    }
    seq(9, k requires 0 <= k < 9 => if AllNaN(rows[k]) then PartiallyChecked else Checked)
  }

  /** A single value that is not NaN makes its element Checked. */
  lemma OneValueChecks(t: Field, i: nat, j: nat, f: nat)
    requires Shaped(t) && i < 3 && j < 3 && f < NumFreqs(t)
    requires !t[i][j][f].IsNaN()
    ensures CheckStates(t)[3 * i + j] == Checked
  {
    var k := 3 * i + j;
    assert k / 3 == i && k % 3 == j;
  }

  // ---------------------------------------------------------------------
  // Strings

  /** The last index of c in s, or -1 (`str.rfind`). */
  function RFind(s: string, c: char): (i: int)
    ensures -1 <= i < |s|
    ensures i >= 0 ==> s[i] == c
    ensures forall k | i < k < |s| :: s[k] != c
  {
    if |s| == 0 then -1
    else if s[|s| - 1] == c then |s| - 1
    else RFind(s[..|s| - 1], c)
  }

  /** `os.path.splitext(p)` on POSIX: the extension starts at the last dot
      after the last "/", provided the base name has a character other than
      a dot before it; otherwise the extension is empty. */
  function SplitExt(p: string): (r: (string, string))
    ensures r.0 + r.1 == p
    ensures r.1 == [] || (r.1[0] == '.' && '.' !in r.1[1..] && '/' !in r.1)
  {
    var sep := RFind(p, '/');
    var dot := RFind(p, '.');
    if dot > sep && exists i | sep + 1 <= i < dot :: p[i] != '.' then
      assert p[..dot] + p[dot..] == p;
      (p[..dot], p[dot..])
    else (p, [])
  }

  /** Appending text without c does not move the last c. */
  lemma {:induction false} RFindAppend(s: string, t: string, c: char)
    requires c !in t
    ensures RFind(s + t, c) == RFind(s, c)
    decreases |t|
  {
    if |t| > 0 {
      var u := t[..|t| - 1];
      assert (s + t)[..|s + t| - 1] == s + u;
      RFindAppend(s, u, c);
    } else {
      assert s + t == s;
    }
  }

  /** A stem whose base name has a character other than a dot, followed by an
      extension (a dot and then neither dots nor slashes), splits back into
      the two. */
  lemma SplitExtOf(stem: string, ext: string)
    requires |ext| >= 1 && ext[0] == '.' && '.' !in ext[1..] && '/' !in ext
    requires exists i | RFind(stem, '/') < i < |stem| :: stem[i] != '.'
    ensures SplitExt(stem + ext) == (stem, ext)
  {
    var p := stem + ext;
    RFindAppend(stem, ext, '/');
    var dot := RFind(p, '.');
    assert p[|stem|] == '.';
    assert dot == |stem|;
    var i :| RFind(stem, '/') < i < |stem| && stem[i] != '.';
    assert p[i] != '.';
    assert p[..dot] == stem && p[dot..] == ext;
  }

  /** `s.split(c)` for a one-character separator: the pieces between the
      separators, empty pieces included. */
  function Split(s: string, c: char): (parts: seq<string>)
    ensures |parts| >= 1
    ensures forall i | 0 <= i < |parts| :: c !in parts[i]
    decreases |s|
  {
    if |s| == 0 then [[]]
    else
      var rest := Split(s[1..], c);
      if s[0] == c then [[]] + rest else [[s[0]] + rest[0]] + rest[1..]
  }

  /** `c.join(parts)`. */
  function Join(parts: seq<string>, c: char): string
    requires |parts| >= 1
  {
    if |parts| == 1 then parts[0] else parts[0] + [c] + Join(parts[1..], c)
  }

  /** Joining the pieces of a split gives the string back. */
  lemma {:induction false} JoinSplit(s: string, c: char)
    ensures Join(Split(s, c), c) == s
    decreases |s|
  {
    if |s| > 0 {
      var rest := Split(s[1..], c);
      JoinSplit(s[1..], c);
      if s[0] == c {
        assert Split(s, c)[1..] == rest;
      } else {
        var parts := Split(s, c);
        if |rest| == 1 {
          assert parts == [[s[0]] + rest[0]];
        } else {
          assert parts[1..] == rest[1..];
          assert Join(parts, c) == [s[0]] + rest[0] + [c] + Join(rest[1..], c);
        }
      }
    }
  }

  /** Splitting a join of separator-free pieces gives the pieces back. */
  lemma {:induction false} SplitJoin(parts: seq<string>, c: char)
    requires |parts| >= 1
    requires forall i | 0 <= i < |parts| :: c !in parts[i]
    ensures Split(Join(parts, c), c) == parts
    decreases |parts|, |parts[0]|
  {
    var p := parts[0];
    if |p| > 0 {
      var tail := [p[1..]] + parts[1..];
      assert Join(parts, c) == [p[0]] + Join(tail, c) by {
        if |parts| > 1 {
          assert Join(tail, c) == p[1..] + [c] + Join(parts[1..], c) by {
            assert tail[1..] == parts[1..];
          }
        }
      }
      SplitJoin(tail, c);
      assert Join(parts, c)[1..] == Join(tail, c);
      assert p[0] != c;
      assert [p[0]] + p[1..] == p;
      assert [[p[0]] + tail[0]] + tail[1..] == parts;
    } else if |parts| > 1 {
      SplitJoin(parts[1..], c);
      assert Join(parts, c)[1..] == Join(parts[1..], c);
    }
  }

  /** A string without the separator splits into itself alone. */
  lemma SplitWithout(s: string, c: char)
    requires c !in s
    ensures Split(s, c) == [s]
  {
    SplitJoin([s], c);
  }

  /** One character of `str.lower()`: an ASCII capital becomes its small letter. */
  function LowerChar(c: char): char
  {
    if 'A' <= c <= 'Z' then (c as int + 32) as char else c
  }

  /** `str.lower()` on ASCII letters, character by character. */
  function Lower(s: string): (r: string)
    ensures |r| == |s|
    ensures forall i | 0 <= i < |s| :: r[i] == if 'A' <= s[i] <= 'Z' then (s[i] as int + 32) as char else s[i]
  {
    if s == [] then [] else [LowerChar(s[0])] + Lower(s[1..])
  }

  /** `s.startswith(prefix)`. */
  predicate StartsWith(s: string, prefix: string)
  {
    |prefix| <= |s| && s[..|prefix|] == prefix
  }

  /** `field.lower().startswith("eps")` holds exactly when the name begins
      with e, p and s, each in either case. */
  lemma LowerEps(f: string)
    ensures StartsWith(Lower(f), "eps") <==> |f| >= 3 && f[0] in "eE" && f[1] in "pP" && f[2] in "sS"
  {
    EpsOfLowered(f, Lower(f));
  }

  /** The "eps" test on any string that lowers `f` character by character. */
  lemma EpsOfLowered(f: string, l: string)
    requires |l| == |f|
    requires forall i | 0 <= i < |f| :: l[i] == if 'A' <= f[i] <= 'Z' then (f[i] as int + 32) as char else f[i]
    ensures StartsWith(l, "eps") <==> |f| >= 3 && f[0] in "eE" && f[1] in "pP" && f[2] in "sS"
  {
    StartsWithEps(l);
    if |f| >= 3 {
      assert l[0] == LowerChar(f[0]) && l[1] == LowerChar(f[1]) && l[2] == LowerChar(f[2]);
      LowerCharIs(f[0], 'e', 'E');
      LowerCharIs(f[1], 'p', 'P');
      LowerCharIs(f[2], 's', 'S');
    }
  }

  /** A string starts with "eps" exactly when its first three characters are e, p and s. */
  lemma StartsWithEps(l: string)
    ensures StartsWith(l, "eps") <==> |l| >= 3 && l[0] == 'e' && l[1] == 'p' && l[2] == 's'
  {
    assert "eps"[0] == 'e' && "eps"[1] == 'p' && "eps"[2] == 's';
    if |l| >= 3 && l[0] == 'e' && l[1] == 'p' && l[2] == 's' {
      assert l[..3] == "eps";
    }
  }

  /** The characters that lower to a small letter are that letter and its capital. */
  lemma LowerCharIs(c: char, small: char, capital: char)
    requires 'a' <= small <= 'z' && capital as int == small as int - 32
    ensures LowerChar(c) == small <==> c == small || c == capital
  {
  }

  // ---------------------------------------------------------------------
  // File names to LaTeX labels

  /** The suffix appended when `unit` is true. */
  const UnitSuffix: string := "$(\\omega)$ [a.u.]"

  /** The label for field name `field` and subscript `sub`: a name starting
      with "eps" in any case is ε, exactly "SIGMA" is σ, any other name with
      a non-empty subscript is typeset as given, and otherwise the stem is
      kept. */
  function LabelOf(field: string, sub: string, stem: string): string
  {
    if StartsWith(Lower(field), "eps") then "$\\varepsilon_{" + sub + "}$"
    else if field == "SIGMA" then "$\\sigma_{" + sub + "}$"
    else if sub != [] then "${" + field + "}_{" + sub + "}$"
    else stem
  }

  /** The label of an extension-free file name: the first "_" piece is the
      field name, the last one the subscript. */
  function Label(stem: string): string
  {
    LabelOfParts(Split(stem, '_'), stem)
  }

  /** The label given the "_" pieces of the stem. */
  function LabelOfParts(parts: seq<string>, stem: string): string
    requires |parts| >= 1
  {
    LabelOf(parts[0], parts[|parts| - 1], stem)
  }

  /** `convertFileNameToLatex(s, unit=True)`. */
  function ConvertFileNameToLatex(s: string, unit: bool := true): (latex: string)
    ensures unit <==> |latex| >= |UnitSuffix| && latex == Label(SplitExt(s).0) + UnitSuffix
    ensures !unit ==> latex == Label(SplitExt(s).0)
  {
    var text := Label(SplitExt(s).0);
    if unit then text + UnitSuffix else text
  }

  /** The first and the last piece of a join are its first and last part. */
  lemma SplitEnds(field: string, middle: seq<string>, sub: string)
    requires '_' !in field && '_' !in sub
    requires forall i | 0 <= i < |middle| :: '_' !in middle[i]
    ensures Split(Join([field] + middle + [sub], '_'), '_') == [field] + middle + [sub]
    ensures var parts := Split(Join([field] + middle + [sub], '_'), '_');
      parts[0] == field && parts[|parts| - 1] == sub
  {
    var parts := [field] + middle + [sub];
    forall i | 0 <= i < |parts|
      ensures '_' !in parts[i]
    {
      if 0 < i < |parts| - 1 {
        assert parts[i] == middle[i - 1];
      }
    }
    SplitJoin(parts, '_');
  }

  /** The label of a name made of a field name and a subscript joined by "_"
      (with any middle pieces in between) depends on those two only. */
  lemma LabelOfPieces(field: string, middle: seq<string>, sub: string)
    requires '_' !in field && '_' !in sub
    requires forall i | 0 <= i < |middle| :: '_' !in middle[i]
    ensures var stem := Join([field] + middle + [sub], '_');
      Label(stem) == LabelOf(field, sub, stem)
  {
    var parts := [field] + middle + [sub];
    SplitEnds(field, middle, sub);
    LabelOfSplit(Join(parts, '_'), parts);
  }

  /** The label is decided by the first and last "_" pieces. */
  lemma LabelOfSplit(stem: string, parts: seq<string>)
    requires Split(stem, '_') == parts
    ensures Label(stem) == LabelOf(parts[0], parts[|parts| - 1], stem)
  {
  }

  /** A stem without "_" serves as both field name and subscript. */
  lemma LabelWithoutSeparator(stem: string)
    requires '_' !in stem && stem != []
    requires !StartsWith(Lower(stem), "eps") && stem != "SIGMA"
    ensures Label(stem) == "${" + stem + "}_{" + stem + "}$"
  {
    SplitWithout(stem, '_');
  }

  /** An empty stem (a name that is all extension, or empty) is returned unchanged. */
  lemma LabelEmpty()
    ensures Label([]) == []
  {
  }

  /** A file name made of "_"-separated pieces and an extension gets the
      label of its first and last piece, followed by the unit suffix. */
  lemma LatexOfPieces(field: string, middle: seq<string>, sub: string, ext: string)
    requires '_' !in field && '_' !in sub
    requires forall i | 0 <= i < |middle| :: '_' !in middle[i]
    requires field != [] && field[0] != '.'
    requires '/' !in Join([field] + middle + [sub], '_')
    requires |ext| >= 1 && ext[0] == '.' && '.' !in ext[1..] && '/' !in ext
    ensures var stem := Join([field] + middle + [sub], '_');
      ConvertFileNameToLatex(stem + ext) == LabelOf(field, sub, stem) + UnitSuffix
  {
    var stem := Join([field] + middle + [sub], '_');
    assert stem[0] == field[0];
    assert RFind(stem, '/') == -1;
    SplitExtOf(stem, ext);
    LabelOfPieces(field, middle, sub);
  }
}
