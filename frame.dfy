/** The feature table of the dashboard (a GeoDataFrame read from the consolidated
    GeoJSON layer) reduced to what the views compute with: each feature's hierarchical
    code `COD` and its integer score columns. Also the two reductions pandas performs
    for the views, column means and column sums, and rounding to two decimals. */
module Frame {

  /** One feature: a department, municipality, locality or block. `scores` maps a
      column name such as "d-a1" or "op-c3" to that feature's compliance score. */
  datatype Feature = Feature(cod: string, scores: map<string, int>)

  /** A table: the set of names of every column of the frame (the score columns and the
      descriptive ones such as `DEPARTAMENTO`) and the rows in file order. A row keeps an
      entry in `scores` for every column; the entries of descriptive columns are never
      read. */
  datatype Table = Table(columns: set<string>, rows: seq<Feature>)

  /** Compliance scores are integers from 0 to 4. */
  const MaxScore: int := 4

  /** Every row carries a value for every column of the table. */
  ghost predicate WellFormed(t: Table) {
    forall f :: f in t.rows ==> t.columns <= f.scores.Keys
  }

  // ---------------------------------------------------------------------------
  // Order-preserving selection (a boolean mask or a list comprehension with `if`)
  // ---------------------------------------------------------------------------

  /** The elements of `s` that `keep` accepts, in their original order. */
  function Filter<T(!new)>(s: seq<T>, keep: T -> bool): (r: seq<T>)
    ensures |r| <= |s|
    ensures forall x :: x in r <==> x in s && keep(x)
  {
    if s == [] then []
    else if keep(s[0]) then [s[0]] + Filter(s[1..], keep)
    else Filter(s[1..], keep)
  }

  /** `a` is obtained from `b` by deleting elements, keeping the order of the rest. */
  ghost predicate IsSubsequence<T>(a: seq<T>, b: seq<T>)
    decreases |b|
  {
    if b == [] then a == []
    else (a != [] && a[0] == b[0] && IsSubsequence(a[1..], b[1..])) || IsSubsequence(a, b[1..])
  }

  /** The selection keeps the original order. */
  lemma {:induction false} FilterIsSubsequence<T(!new)>(s: seq<T>, keep: T -> bool)
    ensures IsSubsequence(Filter(s, keep), s)
  {
    if s != [] {
      FilterIsSubsequence(s[1..], keep);
      if keep(s[0]) {
        assert Filter(s, keep)[1..] == Filter(s[1..], keep);
      }
    }
  }

  /** Every accepted element is kept as many times as it occurs; every other one is dropped. */
  lemma {:induction false} FilterCounts<T(!new)>(s: seq<T>, keep: T -> bool, x: T)
    ensures multiset(Filter(s, keep))[x] == if keep(x) then multiset(s)[x] else 0
  {
    if s != [] {
      FilterCounts(s[1..], keep, x);
      assert s == [s[0]] + s[1..];
      assert multiset(s) == multiset{s[0]} + multiset(s[1..]);
    }
  }

  /** Selecting twice with the same test selects nothing further. */
  lemma {:induction false} FilterIdempotent<T(!new)>(s: seq<T>, keep: T -> bool)
    ensures Filter(Filter(s, keep), keep) == Filter(s, keep)
  {
    if s != [] {
      FilterIdempotent(s[1..], keep);
    }
  }

  /** Selection distributes over concatenation. */
  lemma {:induction false} FilterAppend<T(!new)>(a: seq<T>, b: seq<T>, keep: T -> bool)
    ensures Filter(a + b, keep) == Filter(a, keep) + Filter(b, keep)
  {
    if a != [] {
      assert (a + b)[1..] == a[1..] + b;
      FilterAppend(a[1..], b, keep);
    } else {
      assert a + b == b;
    }
  }

  /** When every element passes, the selection is the whole sequence. */
  lemma {:induction false} FilterAll<T(!new)>(s: seq<T>, keep: T -> bool)
    requires forall x :: x in s ==> keep(x)
    ensures Filter(s, keep) == s
  {
    if s != [] {
      FilterAll(s[1..], keep);
      assert [s[0]] + s[1..] == s;
    }
  }

  /** Rows whose code starts with `prefix` (pandas `str.startswith`, case-sensitive),
      in file order; the columns are those of the input table. */
  function SelectPrefix(t: Table, prefix: string): (r: Table)
    ensures r.columns == t.columns
    ensures forall f :: f in r.rows <==> f in t.rows && prefix <= f.cod
    ensures WellFormed(t) ==> WellFormed(r)
  {
    Table(t.columns, Filter(t.rows, (f: Feature) => prefix <= f.cod))
  }

  /** Selecting by the same prefix a second time removes no further row. */
  lemma SelectPrefixIdempotent(t: Table, prefix: string)
    ensures SelectPrefix(SelectPrefix(t, prefix), prefix) == SelectPrefix(t, prefix)
  {
    FilterIdempotent(t.rows, (f: Feature) => prefix <= f.cod);
  }

  /** The selected rows keep their file order. */
  lemma SelectPrefixKeepsOrder(t: Table, prefix: string)
    ensures IsSubsequence(SelectPrefix(t, prefix).rows, t.rows)
  {
    FilterIsSubsequence(t.rows, (f: Feature) => prefix <= f.cod);
  }

  // ---------------------------------------------------------------------------
  // Column reductions
  // ---------------------------------------------------------------------------

  /** Every row has column `c`. */
  ghost predicate HasColumn(rows: seq<Feature>, c: string) {
    forall f :: f in rows ==> c in f.scores
  }

  /** Every row has column `c`, with a score from 0 to `MaxScore`. */
  ghost predicate InRange(rows: seq<Feature>, c: string) {
    forall f :: f in rows ==> c in f.scores && 0 <= f.scores[c] <= MaxScore
  }

  /** The sum of column `c` over the rows. */
  function ColumnSum(rows: seq<Feature>, c: string): int
    requires HasColumn(rows, c)
  {
    if rows == [] then 0 else rows[0].scores[c] + ColumnSum(rows[1..], c)
  }

  /** pandas `Series.mean()` of column `c`, no value missing. */
  function Mean(rows: seq<Feature>, c: string): real
    requires rows != [] && HasColumn(rows, c)
  {
    ColumnSum(rows, c) as real / |rows| as real
  }

  lemma {:induction false} ColumnSumBounds(rows: seq<Feature>, c: string)
    requires InRange(rows, c)
    ensures 0 <= ColumnSum(rows, c) <= MaxScore * |rows|
  {
    if rows != [] {
      assert rows[0] in rows;
      ColumnSumBounds(rows[1..], c);
    }
  }

  /** A mean of scores lies within the score range. */
  lemma MeanBounds(rows: seq<Feature>, c: string)
    requires rows != [] && InRange(rows, c)
    ensures 0.0 <= Mean(rows, c) <= MaxScore as real
  {
    ColumnSumBounds(rows, c);
    var n := |rows| as real;
    var s := ColumnSum(rows, c) as real;
    var top := MaxScore as real * n;
    assert s / n <= top / n;
    assert top / n == MaxScore as real;
  }

  /** The sum of a sequence of reals (pandas `DataFrame.sum()` on one column). */
  function Sum(xs: seq<real>): real {
    if xs == [] then 0.0 else xs[0] + Sum(xs[1..])
  }

  /** A sum of `|xs|` values from [0, bound] lies in [0, bound * |xs|]. */
  lemma {:induction false} SumBounds(xs: seq<real>, bound: real)
    requires forall x :: x in xs ==> 0.0 <= x <= bound
    ensures 0.0 <= Sum(xs) <= bound * |xs| as real
  {
    if xs != [] {
      assert xs[0] in xs;
      assert forall x :: x in xs[1..] ==> x in xs;
      SumBounds(xs[1..], bound);
    }
  }

  // ---------------------------------------------------------------------------
  // Rounding to two decimals
  // ---------------------------------------------------------------------------

  /** pandas `.round(2)`: to the nearest hundredth, halves to the even hundredth. */
  function Round2(x: real): (r: real)
    ensures -0.005 <= r - x <= 0.005
    ensures (r * 100.0).Floor as real == r * 100.0
  {
    var y := x * 100.0;
    var n := y.Floor;
    var frac := y - n as real;
    var m := if frac < 0.5 then n
             else if frac > 0.5 then n + 1
             else if n % 2 == 0 then n else n + 1;
    m as real / 100.0
  }

  /** Rounding never crosses a whole number: a value within [lo, hi] stays there. */
  lemma Round2Within(x: real, lo: int, hi: int)
    requires lo as real <= x <= hi as real
    ensures lo as real <= Round2(x) <= hi as real
  {
    var y := x * 100.0;
    var n := y.Floor;
    assert 100 * lo <= n <= 100 * hi;
    assert n == 100 * hi ==> y - n as real == 0.0;
  }

  /** Each element rounded to two decimals. */
  function RoundAll(xs: seq<real>): (r: seq<real>)
    ensures |r| == |xs|
    ensures forall k :: 0 <= k < |xs| ==> r[k] == Round2(xs[k])
  {
    if xs == [] then [] else [Round2(xs[0])] + RoundAll(xs[1..])
  }

  /** Summing the rounded values drifts from the sum of the exact values by at most
      half a hundredth per value. */
  lemma {:induction false} RoundedSumDrift(xs: seq<real>)
    ensures -0.005 * |xs| as real <= Sum(RoundAll(xs)) - Sum(xs) <= 0.005 * |xs| as real
  {
    if xs != [] {
      RoundedSumDrift(xs[1..]);
      assert RoundAll(xs)[1..] == RoundAll(xs[1..]);
    }
  }
}
