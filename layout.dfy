/**
 * Flat buffer layout of the 4-state CPU kernels.
 *
 * A partial-likelihood buffer is indexed [category][pattern][state], four
 * states per (category, pattern) pair. A transition-matrix buffer holds one
 * 4x5 block per category: row `s` (the parent state) starts at `s * 5`, its
 * columns 0..3 are the child states and column 4 is padding.
 */
module Layout {

  /** Number of states of this specialisation. */
  const StateCount: int := 4

  /** Stride of one matrix row: four probabilities and one padding entry. */
  const RowStride: int := 5

  /** Size of one category's matrix block (`kMatrixSize`). */
  const MatrixSize: int := 20

  /** Index of state `s` of pattern `k` in category `l` of a partials buffer. */
  function Idx(P: int, l: int, k: int, s: int): int
  {
    (l * P + k) * StateCount + s
  }

  /** Index of the entry in row `row`, column `col` of category `l`'s matrix. */
  function MIdx(l: int, row: int, col: int): int
  {
    l * MatrixSize + row * RowStride + col
  }

  /** True of the padding column of every row. */
  predicate IsPadding(i: int)
  {
    i % RowStride == RowStride - 1
  }

  lemma MulMonotone(a: int, b: int, c: int)
    requires 0 <= c && a <= b
    ensures a * c <= b * c
  {
  }

  /** Every cell of a well-shaped (category, pattern, state) lies inside the C*P*4 buffer. */
  lemma IdxInRange(C: int, P: int, l: int, k: int, s: int)
    requires 0 <= l < C && 0 <= k < P && 0 <= s < StateCount
    ensures 0 <= Idx(P, l, k, s) < C * P * StateCount
  {
    MulMonotone(l + 1, C, P);
    assert l * P + k < C * P;
  }

  /** Where category l starts in a [category][pattern][state] buffer: l blocks of P*4 cells. */
  function CategoryStart(P: nat, l: nat): nat
  {
    if l == 0 then 0 else CategoryStart(P, l - 1) + P * StateCount
  }

  /** Closed form of CategoryStart. */
  lemma {:induction false} CategoryStartIs(P: nat, l: nat)
    ensures CategoryStart(P, l) == l * P * StateCount
  {
    if l > 0 {
      CategoryStartIs(P, l - 1);
      CategoriesGrow(l, P);
    }
  }

  /** Category start offsets grow with the category. */
  lemma {:induction false} CategoryStartMonotone(P: nat, l: nat, n: nat)
    requires l <= n
    ensures CategoryStart(P, l) <= CategoryStart(P, n)
    decreases n
  {
    if l < n {
      CategoryStartMonotone(P, l, n - 1);
    }
  }

  /** Pattern k's four cells lie inside a category block of P patterns. */
  lemma PatternFits(P: int, k: int)
    requires 0 <= k < P
    ensures 0 <= k * StateCount && k * StateCount + StateCount <= P * StateCount
  {
    MulMonotone(k + 1, P, StateCount);
  }

  /** Cell (l, k, s) lies k patterns and s states past the start of category l. */
  lemma IdxStart(P: nat, l: nat, k: int, s: int)
    ensures Idx(P, l, k, s) == CategoryStart(P, l) + k * StateCount + s
  {
    CategoryStartIs(P, l);
  }

  /** Appending one more category of P patterns to n - 1 of them gives n. */
  lemma CategoriesGrow(n: int, P: int)
    ensures (n - 1) * P * StateCount + P * StateCount == n * P * StateCount
  {
    assert (n - 1) * P + P == n * P;
  }

  /** Category l's P*4 cells end within a buffer of C categories. */
  lemma CategoryFits(C: int, P: int, l: int)
    requires 0 <= l < C && 0 <= P
    ensures l * P * StateCount + P * StateCount <= C * P * StateCount
  {
    CategoriesGrow(l + 1, P);
    MulMonotone(l + 1, C, P * StateCount);
    assert (l + 1) * P * StateCount == (l + 1) * (P * StateCount);
    assert C * P * StateCount == C * (P * StateCount);
  }

  /** The first cell of pattern k in category l: l blocks of P*4 cells, then k blocks of 4. */
  lemma IdxSplit(P: int, l: int, k: int)
    ensures Idx(P, l, k, 0) == l * P * StateCount + k * StateCount
  {
  }

  /** Uniqueness of Euclidean division. */
  lemma DivModUnique(n: int, d: int, q: int, r: int)
    requires 0 < d && 0 <= r < d && n == q * d + r
    ensures n / d == q && n % d == r
  {
    var q', r' := n / d, n % d;
    assert n == q' * d + r';
    if q' < q {
      MulMonotone(q' + 1, q, d);
    } else if q < q' {
      MulMonotone(q + 1, q', d);
    }
  }

  /**
   * Every index below C*P*4 is the cell of exactly one (category, pattern,
   * state): the one obtained by dividing it out.
   */
  lemma {:induction false} IdxCovers(C: nat, P: nat, i: int)
    requires 0 <= i < C * P * StateCount
    ensures P > 0
    ensures 0 <= CategoryOf(P, i) < C && 0 <= PatternOf(P, i) < P && 0 <= StateOf(i) < StateCount
    ensures Idx(P, CategoryOf(P, i), PatternOf(P, i), StateOf(i)) == i
  {
    if P == 0 {
      assert false;
    }
    var q := i / StateCount;
    var l, k := q / P, q % P;
    assert q == l * P + k;
    if C <= l {
      MulMonotone(C, l, P);
      assert false;
    }
  }

  /** Category of flat cell `i` of a buffer with P patterns. */
  function CategoryOf(P: int, i: int): int
    requires P > 0
  {
    i / StateCount / P
  }

  /** Pattern of flat cell `i` of a buffer with P patterns. */
  function PatternOf(P: int, i: int): int
    requires P > 0
  {
    i / StateCount % P
  }

  /** State of flat cell `i`. */
  function StateOf(i: int): int
  {
    i % StateCount
  }

  /** The decomposition of IdxCovers inverts Idx. */
  lemma {:induction false} IdxInverse(P: int, l: int, k: int, s: int)
    requires 0 <= l && 0 <= k < P && 0 <= s < StateCount
    ensures Idx(P, l, k, s) / StateCount == l * P + k
    ensures Idx(P, l, k, s) % StateCount == s
    ensures (l * P + k) / P == l && (l * P + k) % P == k
    ensures CategoryOf(P, Idx(P, l, k, s)) == l && PatternOf(P, Idx(P, l, k, s)) == k && StateOf(Idx(P, l, k, s)) == s
  {
    DivModUnique(Idx(P, l, k, s), StateCount, l * P + k, s);
    DivModUnique(l * P + k, P, l, k);
  }

  /** Distinct (category, pattern, state) triples occupy distinct cells. */
  lemma IdxInjective(P: int, l0: int, k0: int, s0: int, l1: int, k1: int, s1: int)
    requires 0 <= l0 && 0 <= k0 < P && 0 <= s0 < StateCount
    requires 0 <= l1 && 0 <= k1 < P && 0 <= s1 < StateCount
    requires Idx(P, l0, k0, s0) == Idx(P, l1, k1, s1)
    ensures l0 == l1 && k0 == k1 && s0 == s1
  {
    IdxInverse(P, l0, k0, s0);
    IdxInverse(P, l1, k1, s1);
  }

  /** A read at row `row < 4`, column `col < 4` of a category below C is in range and not padding. */
  lemma MIdxInRange(C: int, l: int, row: int, col: int)
    requires 0 <= l < C && 0 <= row < StateCount && 0 <= col < StateCount
    ensures 0 <= MIdx(l, row, col) < C * MatrixSize
    ensures !IsPadding(MIdx(l, row, col))
  {
    DivModUnique(MIdx(l, row, col), RowStride, l * 4 + row, col);
  }
}
