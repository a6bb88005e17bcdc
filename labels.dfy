/** Conversion between class indices and one-hot label matrices (one boolean row per sample). */
module Labels {
  import opened Results

  type LabelMatrix = seq<seq<bool>>

  const NegativeMessage := "received negative values"
  const TooLargeMessage := "max value does not match argument `num_classes`"

  /** Every row has exactly `cols` entries. */
  predicate IsLabelMatrix(m: LabelMatrix, cols: nat) {
    forall r :: 0 <= r < |m| ==> |m[r]| == cols
  }

  /** The row has exactly one true entry, at column `k`. */
  predicate OneHotAt(row: seq<bool>, k: int) {
    0 <= k < |row| && row[k] && forall c :: 0 <= c < |row| && c != k ==> !row[c]
  }

  /** The row has exactly one true entry. */
  ghost predicate IsOneHotRow(row: seq<bool>) {
    exists k :: OneHotAt(row, k)
  }

  /** Every row of `m` has `cols` entries and exactly one of them true. */
  ghost predicate IsOneHot(m: LabelMatrix, cols: nat) {
    IsLabelMatrix(m, cols) && forall r :: 0 <= r < |m| ==> IsOneHotRow(m[r])
  }

  /** Every index is a class: `0 <= v[i] < numClasses`. */
  predicate ValidIndices(v: seq<int>, numClasses: nat) {
    forall i :: 0 <= i < |v| ==> 0 <= v[i] < numClasses
  }

  /** The column index vector `0, 1, ..., n - 1`, taken as what the code's linear spacing from 0 to
      n yields; Eigen's integer rule gives exactly this for `n >= 3` only. */
  function IndexVector(n: nat): (idx: seq<int>)
    ensures |idx| == n && forall c :: 0 <= c < n ==> idx[c] == c
  {
    seq(n, c requires 0 <= c < n => c)
  }

  /** Inner product of a boolean row, cast to 0/1, with an integer vector. */
  function DotInt(row: seq<bool>, idx: seq<int>): int
    requires |row| == |idx|
    decreases |row|
  {
    if |row| == 0 then 0
    else DotInt(row[..|row| - 1], idx[..|idx| - 1]) + (if row[|row| - 1] then idx[|idx| - 1] else 0)
  }

  /** The indices of a one-hot matrix with `cols` columns: each row times the column index vector.
      No check is made that a row really is one-hot. */
  function ToIndices(m: LabelMatrix, cols: nat): (v: seq<int>)
    requires IsLabelMatrix(m, cols)
    ensures |v| == |m|
  {
    seq(|m|, r requires 0 <= r < |m| => DotInt(m[r], IndexVector(cols)))
  }

  /** The row-by-row product with the index vector picks out the column of the single true entry. */
  lemma {:induction false} OneHotRowIndex(row: seq<bool>, k: int)
    requires OneHotAt(row, k)
    ensures DotInt(row, IndexVector(|row|)) == k
  {
    var n := |row|;
    var prefix := row[..n - 1];
    assert IndexVector(n)[..n - 1] == IndexVector(n - 1);
    if k == n - 1 {
      AllFalseRowIndex(prefix, IndexVector(n - 1));
    } else {
      OneHotRowIndex(prefix, k);
    }
  }

  /** A row with no true entry contributes nothing. */
  lemma {:induction false} AllFalseRowIndex(row: seq<bool>, idx: seq<int>)
    requires |row| == |idx|
    requires forall c :: 0 <= c < |row| ==> !row[c]
    ensures DotInt(row, idx) == 0
    decreases |row|
  {
    if |row| > 0 {
      AllFalseRowIndex(row[..|row| - 1], idx[..|idx| - 1]);
    }
  }

  /** A row that is all false decodes to class 0, without any error. */
  lemma AllFalseRowDecodesToZero(m: LabelMatrix, cols: nat, r: nat)
    requires IsLabelMatrix(m, cols) && r < |m|
    requires forall c :: 0 <= c < cols ==> !m[r][c]
    ensures ToIndices(m, cols)[r] == 0
  {
    AllFalseRowIndex(m[r], IndexVector(cols));
  }

  /** A row with several true entries decodes to the sum of their columns, which may lie outside the
      class range: three classes, all true, decodes to 0 + 1 + 2 = 3. */
  lemma SeveralTruesOutOfRange()
    ensures ToIndices([[true, true, true]], 3) == [3]
    ensures !ValidIndices(ToIndices([[true, true, true]], 3), 3)
  {
    var row := [true, true, true];
    assert row[..2] == [true, true] && row[..2][..1] == [true] && row[..2][..1][..0] == [];
    assert IndexVector(3)[..2] == [0, 1] && IndexVector(3)[..2][..1] == [0] && IndexVector(3)[..2][..1][..0] == [];
    assert DotInt([true], [0]) == 0;
    assert DotInt([true, true], [0, 1]) == 1;
    assert DotInt(row, IndexVector(3)) == 3;
    assert ToIndices([row], 3)[0] == 3;
  }

  /** The smallest entry of a non-empty vector. */
  function MinCoeff(v: seq<int>): (m: int)
    requires |v| > 0
    ensures forall i :: 0 <= i < |v| ==> m <= v[i]
    ensures exists i :: 0 <= i < |v| && m == v[i]
    decreases |v|
  {
    if |v| == 1 then v[0]
    else
      var rest := MinCoeff(v[..|v| - 1]);
      if v[|v| - 1] < rest then v[|v| - 1] else rest
  }

  /** The largest entry of a non-empty vector. */
  function MaxCoeff(v: seq<int>): (m: int)
    requires |v| > 0
    ensures forall i :: 0 <= i < |v| ==> v[i] <= m
    ensures exists i :: 0 <= i < |v| && m == v[i]
    decreases |v|
  {
    if |v| == 1 then v[0]
    else
      var rest := MaxCoeff(v[..|v| - 1]);
      if v[|v| - 1] > rest then v[|v| - 1] else rest
  }

  /** The one-hot matrix of valid indices: row r is true exactly at column `v[r]`. */
  function OneHot(v: seq<int>, numClasses: nat): (m: LabelMatrix)
    requires ValidIndices(v, numClasses)
  {
    seq(|v|, r requires 0 <= r < |v| => seq(numClasses, c requires 0 <= c < numClasses => c == v[r]))
  }

  /** Each row of the one-hot matrix of valid indices has its single true entry at the index. */
  lemma OneHotRows(v: seq<int>, numClasses: nat)
    requires ValidIndices(v, numClasses)
    ensures IsOneHot(OneHot(v, numClasses), numClasses)
    ensures forall r :: 0 <= r < |v| ==> OneHotAt(OneHot(v, numClasses)[r], v[r])
  {
    var m := OneHot(v, numClasses);
    forall r | 0 <= r < |v| ensures OneHotAt(m[r], v[r]) && IsOneHotRow(m[r]) {
      assert m[r][v[r]];
    }
  }

  /** The zeroed matrix: `rows` rows of `cols` false entries. */
  function Zeros(rows: nat, cols: nat): (m: LabelMatrix)
    ensures |m| == rows && IsLabelMatrix(m, cols)
    ensures forall r, c :: 0 <= r < rows && 0 <= c < cols ==> !m[r][c]
  {
    seq(rows, r requires 0 <= r < rows => seq(cols, c requires 0 <= c < cols => false))
  }

  /** The write performed for row `r`: set entry `(r, v[r])`; it touches no other row. */
  function WriteRow(m: LabelMatrix, v: seq<int>, r: nat): (m': LabelMatrix)
    requires r < |m| == |v| && 0 <= v[r] < |m[r]|
    ensures |m'| == |m| && m'[r] == m[r][v[r] := true]
    ensures forall q :: 0 <= q < |m| && q != r ==> m'[q] == m[q]
  {
    m[r := m[r][v[r] := true]]
  }

  /** The writes for the rows listed in `order`, performed one after the other in that order. */
  function ApplyWrites(m: LabelMatrix, v: seq<int>, numClasses: nat, order: seq<nat>): (m': LabelMatrix)
    requires |m| == |v| && IsLabelMatrix(m, numClasses) && ValidIndices(v, numClasses)
    requires forall k :: 0 <= k < |order| ==> order[k] < |v|
    ensures |m'| == |m| && IsLabelMatrix(m', numClasses)
    decreases |order|
  {
    if |order| == 0 then m
    else WriteRow(ApplyWrites(m, v, numClasses, order[..|order| - 1]), v, order[|order| - 1])
  }

  /** After the writes listed in `order`, from zero, entry (r, c) is set exactly when row r was
      listed and c is its index, whatever the order. */
  lemma {:induction false} ApplyWritesAt(v: seq<int>, numClasses: nat, order: seq<nat>, r: nat, c: nat)
    requires ValidIndices(v, numClasses)
    requires forall k :: 0 <= k < |order| ==> order[k] < |v|
    requires r < |v| && c < numClasses
    ensures ApplyWrites(Zeros(|v|, numClasses), v, numClasses, order)[r][c] == (r in order && c == v[r])
    decreases |order|
  {
    if |order| > 0 {
      var prefix := order[..|order| - 1];
      ApplyWritesAt(v, numClasses, prefix, r, c);
      assert order == prefix + [order[|order| - 1]];
    }
  }

  /** The rows are written independently of each other, so performing the writes in any order that
      lists every row yields the one-hot matrix. */
  lemma AnyOrderYieldsOneHot(v: seq<int>, numClasses: nat, order: seq<nat>)
    requires ValidIndices(v, numClasses)
    requires forall k :: 0 <= k < |order| ==> order[k] < |v|
    requires forall r :: 0 <= r < |v| ==> r in order
    ensures ApplyWrites(Zeros(|v|, numClasses), v, numClasses, order) == OneHot(v, numClasses)
  {
    var m := ApplyWrites(Zeros(|v|, numClasses), v, numClasses, order);
    var o := OneHot(v, numClasses);
    forall r | 0 <= r < |v| ensures m[r] == o[r] {
      ApplyWritesRow(v, numClasses, order, r);
    }
  }

  /** The same, for one row that the order lists. */
  lemma ApplyWritesRow(v: seq<int>, numClasses: nat, order: seq<nat>, r: nat)
    requires ValidIndices(v, numClasses)
    requires forall k :: 0 <= k < |order| ==> order[k] < |v|
    requires r < |v| && r in order
    ensures ApplyWrites(Zeros(|v|, numClasses), v, numClasses, order)[r] == OneHot(v, numClasses)[r]
  {
    var row := ApplyWrites(Zeros(|v|, numClasses), v, numClasses, order)[r];
    var want := OneHot(v, numClasses)[r];
    forall c | 0 <= c < numClasses ensures row[c] == want[c] {
      ApplyWritesAt(v, numClasses, order, r, c);
    }
  }

  /** Converts class indices to a one-hot matrix with `numClasses` columns. Fails with the source's
      messages when an index is negative (checked first) or not below `numClasses`; otherwise sets
      exactly one entry per row in a zeroed matrix, one row per iteration. */
  method ToOneHot(v: seq<int>, numClasses: nat) returns (result: Result<LabelMatrix>)
    requires |v| > 0
    ensures (exists i :: 0 <= i < |v| && v[i] < 0) ==> result == Failure(InvalidArgument(NegativeMessage))
    ensures (forall i :: 0 <= i < |v| ==> v[i] >= 0) && (exists i :: 0 <= i < |v| && v[i] >= numClasses) ==>
              result == Failure(InvalidArgument(TooLargeMessage))
    ensures ValidIndices(v, numClasses) ==> result == Success(OneHot(v, numClasses))
  {
    if MinCoeff(v) < 0 {
      return Failure(InvalidArgument(NegativeMessage));
    }
    if MaxCoeff(v) >= numClasses {
      return Failure(InvalidArgument(TooLargeMessage));
    }
    var rows := |v|;
    var m := Zeros(rows, numClasses);
    var r := 0;
    while r < rows
      invariant 0 <= r <= rows
      invariant |m| == rows && IsLabelMatrix(m, numClasses)
      invariant forall i, c :: 0 <= i < rows && 0 <= c < numClasses ==> m[i][c] == (i < r && c == v[i])
    {
      m := WriteRow(m, v, r);
      r := r + 1;
    }
    forall i | 0 <= i < rows ensures m[i] == OneHot(v, numClasses)[i] {
      assert forall c :: 0 <= c < numClasses ==> m[i][c] == OneHot(v, numClasses)[i][c];
    }
    assert m == OneHot(v, numClasses);
    result := Success(m);
  }

  /** Decoding the encoding of valid indices gives them back. */
  lemma IndicesRoundTrip(v: seq<int>, numClasses: nat)
    requires ValidIndices(v, numClasses)
    ensures ToIndices(OneHot(v, numClasses), numClasses) == v
  {
    var m := OneHot(v, numClasses);
    OneHotRows(v, numClasses);
    forall r | 0 <= r < |v| ensures ToIndices(m, numClasses)[r] == v[r] {
      OneHotRowIndex(m[r], v[r]);
    }
  }

  /** Encoding the decoding of a one-hot matrix, with its own column count, gives it back. */
  lemma OneHotRoundTrip(m: LabelMatrix, cols: nat)
    requires IsOneHot(m, cols)
    ensures ValidIndices(ToIndices(m, cols), cols)
    ensures OneHot(ToIndices(m, cols), cols) == m
  {
    var v := ToIndices(m, cols);
    forall r | 0 <= r < |m| ensures OneHotAt(m[r], v[r]) {
      var k :| OneHotAt(m[r], k);
      OneHotRowIndex(m[r], k);
    }
    forall r | 0 <= r < |m| ensures OneHot(v, cols)[r] == m[r] {
      assert forall c :: 0 <= c < cols ==> OneHot(v, cols)[r][c] == m[r][c];
    }
  }
}
