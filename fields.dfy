/** Response fields as the analyzer stores them: a complex128 array of shape
    (3, 3, N) whose entry (i, j, f) is tensor element (i+1)(j+1) at the f-th
    frequency.  The model keeps the same index order: t[i][j][f]. */
module Fields {
  import opened Numerics

  type Field = seq<seq<seq<CFloat>>>

  /** `t` has shape (3, 3, n). */
  predicate IsField(t: Field, n: nat)
  {
    && |t| == 3
    && (forall i | 0 <= i < 3 :: |t[i]| == 3)
    && (forall i, j | 0 <= i < 3 && 0 <= j < 3 :: |t[i][j]| == n)
  }

  /** `t` has shape (3, 3, n) for some n. */
  predicate Shaped(t: Field)
  {
    |t| == 3 && |t[0]| == 3 && IsField(t, |t[0][0]|)
  }

  /** The number of frequencies, `field.shape[2]`. */
  function NumFreqs(t: Field): nat
    requires Shaped(t)
  {
    |t[0][0]|
  }

  /** `field.reshape(9, n)`: the nine element rows in row-major order 11, 12, ..., 33. */
  function Elements(t: Field): (rows: seq<seq<CFloat>>)
    requires |t| == 3 && forall i | 0 <= i < 3 :: |t[i]| == 3
    ensures |rows| == 9
    ensures forall k | 0 <= k < 9 :: rows[k] == t[k / 3][k % 3]
  {
    [t[0][0], t[0][1], t[0][2], t[1][0], t[1][1], t[1][2], t[2][0], t[2][1], t[2][2]]
  }

  /** numpy's `np.isnan(xs).any()`, a left-to-right scan. */
  function AnyNaN(xs: seq<CFloat>): bool
  {
    if xs == [] then false else xs[0].IsNaN() || AnyNaN(xs[1..])
  }

  /** numpy's `np.isnan(xs).all()`; true of an empty sequence. */
  function AllNaN(xs: seq<CFloat>): bool
  {
    if xs == [] then true else xs[0].IsNaN() && AllNaN(xs[1..])
  }

  lemma {:induction false} AnyNaNIff(xs: seq<CFloat>)
    ensures AnyNaN(xs) <==> exists k | 0 <= k < |xs| :: xs[k].IsNaN()
  {
    if xs != [] {
      AnyNaNIff(xs[1..]);
      if xs[1..] != [] && AnyNaN(xs[1..]) {
        var k :| 0 <= k < |xs[1..]| && xs[1..][k].IsNaN();
        assert xs[k + 1].IsNaN();
      }
      if exists k | 0 <= k < |xs| :: xs[k].IsNaN() {
        var k :| 0 <= k < |xs| && xs[k].IsNaN();
        if k > 0 {
          assert xs[1..][k - 1].IsNaN();
        }
      }
    }
  }

  lemma {:induction false} AllNaNIff(xs: seq<CFloat>)
    ensures AllNaN(xs) <==> forall k | 0 <= k < |xs| :: xs[k].IsNaN()
  {
    if xs != [] {
      AllNaNIff(xs[1..]);
      if forall k | 0 <= k < |xs| :: xs[k].IsNaN() {
        assert forall k | 0 <= k < |xs[1..]| :: xs[1..][k].IsNaN() by {
          forall k | 0 <= k < |xs[1..]|
            ensures xs[1..][k].IsNaN()
          {
            assert xs[1..][k] == xs[k + 1];
          }
        }
      }
      if AllNaN(xs) {
        forall k | 0 <= k < |xs|
          ensures xs[k].IsNaN()
        {
          if k > 0 {
            assert xs[k] == xs[1..][k - 1];
          }
        }
      }
    }
  }

  /** Whether any row of a list of element rows holds a NaN. */
  function AnyNaNRows(rows: seq<seq<CFloat>>): bool
  {
    if rows == [] then false else AnyNaN(rows[0]) || AnyNaNRows(rows[1..])
  }

  /** `np.isnan(field).any()` for a (3, 3, n) field. */
  function HasNaN(t: Field): bool
    requires |t| == 3 && forall i | 0 <= i < 3 :: |t[i]| == 3
  {
    AnyNaNRows(Elements(t))
  }

  lemma {:induction false} AnyNaNRowsIff(rows: seq<seq<CFloat>>)
    ensures AnyNaNRows(rows) <==> exists k, f | 0 <= k < |rows| && 0 <= f < |rows[k]| :: rows[k][f].IsNaN()
  {
    if rows != [] {
      AnyNaNIff(rows[0]);
      AnyNaNRowsIff(rows[1..]);
      if AnyNaNRows(rows[1..]) {
        var k, f :| 0 <= k < |rows[1..]| && 0 <= f < |rows[1..][k]| && rows[1..][k][f].IsNaN();
        assert rows[k + 1][f].IsNaN();
      }
      if exists k, f | 0 <= k < |rows| && 0 <= f < |rows[k]| :: rows[k][f].IsNaN() {
        var k, f :| 0 <= k < |rows| && 0 <= f < |rows[k]| && rows[k][f].IsNaN();
        if k > 0 {
          assert rows[1..][k - 1][f].IsNaN();
        }
      }
    }
  }

  /** The field holds a NaN exactly when some entry (i, j, f) is NaN. */
  lemma HasNaNIff(t: Field)
    requires |t| == 3 && forall i | 0 <= i < 3 :: |t[i]| == 3
    ensures HasNaN(t) <==> exists i, j, f | 0 <= i < 3 && 0 <= j < 3 && 0 <= f < |t[i][j]| :: t[i][j][f].IsNaN()
  {
    var rows := Elements(t);
    AnyNaNRowsIff(rows);
    if HasNaN(t) {
      var k, f :| 0 <= k < |rows| && 0 <= f < |rows[k]| && rows[k][f].IsNaN();
      assert t[k / 3][k % 3][f].IsNaN();
    }
    if exists i, j, f | 0 <= i < 3 && 0 <= j < 3 && 0 <= f < |t[i][j]| :: t[i][j][f].IsNaN() {
      var i, j, f :| 0 <= i < 3 && 0 <= j < 3 && 0 <= f < |t[i][j]| && t[i][j][f].IsNaN();
      assert rows[3 * i + j][f].IsNaN();
    }
  }

  /** `t[:, :, f]` as a complex matrix, for a field without NaN. */
  function Slice(t: Field, f: nat): (m: CMat)
    requires Shaped(t) && f < NumFreqs(t)
    requires !HasNaN(t)
    ensures forall i, j | 0 <= i < 3 && 0 <= j < 3 :: ToCFloat(m[i][j]) == t[i][j][f]
  {
    HasNaNIff(t);
    seq(3, i requires 0 <= i < 3 => seq(3, j requires 0 <= j < 3 => ToComplex(t[i][j][f])))
  }

  /** `t[:, :, f] = m`: the field with frequency f replaced by m. */
  function Put(t: Field, f: nat, m: CMat): (r: Field)
    requires Shaped(t) && f < NumFreqs(t)
    ensures Shaped(r) && NumFreqs(r) == NumFreqs(t)
    ensures forall i, j, g | 0 <= i < 3 && 0 <= j < 3 && 0 <= g < NumFreqs(t) ::
              r[i][j][g] == if g == f then ToCFloat(m[i][j]) else t[i][j][g]
  {
    seq(3, i requires 0 <= i < 3 => seq(3, j requires 0 <= j < 3 => t[i][j][f := ToCFloat(m[i][j])]))
  }

  /** The field whose f-th frequency slice is ms[f]: numpy's stacking of
      3x3 complex matrices along the last axis. */
  function FieldOf(ms: seq<CMat>): (t: Field)
    ensures Shaped(t) && NumFreqs(t) == |ms|
    ensures forall i, j, f | 0 <= i < 3 && 0 <= j < 3 && 0 <= f < |ms| :: t[i][j][f] == ToCFloat(ms[f][i][j])
  {
    seq(3, i requires 0 <= i < 3 => seq(3, j requires 0 <= j < 3 => seq(|ms|, f requires 0 <= f < |ms| => ToCFloat(ms[f][i][j]))))
  }

  /** A field stacked from complex matrices holds no NaN, and slicing it gives the matrices back. */
  lemma FieldOfSlices(ms: seq<CMat>)
    ensures !HasNaN(FieldOf(ms))
    ensures forall f | 0 <= f < |ms| :: Slice(FieldOf(ms), f) == ms[f]
  {
    var t := FieldOf(ms);
    HasNaNIff(t);
    forall f | 0 <= f < |ms|
      ensures Slice(t, f) == ms[f]
    {
      var m := Slice(t, f);
      forall i, j | 0 <= i < 3 && 0 <= j < 3
        ensures m[i][j] == ms[f][i][j]
      {
        assert ToCFloat(m[i][j]) == ToCFloat(ms[f][i][j]);
      }
      CMatEq(m, ms[f]);
    }
  }

  /** Fields of the same shape with the same entries are equal. */
  lemma FieldEq(a: Field, b: Field)
    requires Shaped(a) && Shaped(b) && NumFreqs(a) == NumFreqs(b)
    requires forall i, j, f | 0 <= i < 3 && 0 <= j < 3 && 0 <= f < NumFreqs(a) :: a[i][j][f] == b[i][j][f]
    ensures a == b
  {
    assert forall i, j | 0 <= i < 3 && 0 <= j < 3 :: a[i][j] == b[i][j];
    assert forall i | 0 <= i < 3 :: a[i] == b[i];
  }

  /** A field stacked from the slices of a NaN-free field is that field. */
  lemma FieldOfSliceAll(t: Field)
    requires Shaped(t) && !HasNaN(t)
    ensures FieldOf(seq(NumFreqs(t), f requires 0 <= f < NumFreqs(t) => Slice(t, f))) == t
  {
    var ms := seq(NumFreqs(t), f requires 0 <= f < NumFreqs(t) => Slice(t, f));
    FieldEq(FieldOf(ms), t);
  }

  /** `t[i, j, :] = row`: the field with element row (i, j) replaced. */
  function PutRow(t: Field, i: nat, j: nat, row: seq<CFloat>): (r: Field)
    requires Shaped(t) && i < 3 && j < 3 && |row| == NumFreqs(t)
    ensures Shaped(r) && NumFreqs(r) == NumFreqs(t)
    ensures forall a, b | 0 <= a < 3 && 0 <= b < 3 :: r[a][b] == if a == i && b == j then row else t[a][b]
  {
    t[i := t[i][j := row]]
  }

  /** `t[:, :, f] = m` for a 3x3 array of possibly-NaN entries. */
  function PutSlice(t: Field, f: nat, m: seq<seq<CFloat>>): (r: Field)
    requires Shaped(t) && f < NumFreqs(t)
    requires |m| == 3 && forall i | 0 <= i < 3 :: |m[i]| == 3
    ensures Shaped(r) && NumFreqs(r) == NumFreqs(t)
    ensures forall i, j, g | 0 <= i < 3 && 0 <= j < 3 && 0 <= g < NumFreqs(t) ::
              r[i][j][g] == if g == f then m[i][j] else t[i][j][g]
  {
    seq(3, i requires 0 <= i < 3 => seq(3, j requires 0 <= j < 3 => t[i][j][f := m[i][j]]))
  }

  /** `np.zeros((3, 3, n), dtype=complex)`. */
  function ZeroField(n: nat): (t: Field)
    ensures Shaped(t) && NumFreqs(t) == n
    ensures forall i, j, f | 0 <= i < 3 && 0 <= j < 3 && 0 <= f < n :: t[i][j][f] == CFloat(Fin(0.0), Fin(0.0))
  {
    seq(3, i requires 0 <= i < 3 => seq(3, j requires 0 <= j < 3 => seq(n, f requires 0 <= f < n => CFloat(Fin(0.0), Fin(0.0)))))
  }
}
