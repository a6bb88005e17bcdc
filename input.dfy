/** Reading a table of numbers line by line into a row buffer that doubles when full and is
    trimmed to the exact number of lines at the end. Each line arrives already split into values. */
module Input {
  import opened Matrices

  /** The values of the first line, which fix the number of columns; an empty input reads as one
      empty line. */
  function FirstLine(lines: seq<seq<real>>): seq<real> {
    if |lines| > 0 then lines[0] else []
  }

  /** The first `n` rows of a buffer, as a matrix. */
  function Rows(data: array2<real>, n: nat): (m: Matrix)
    reads data
    requires n <= data.Length0
    ensures IsMatrix(m, n, data.Length1)
    ensures forall r, c :: 0 <= r < n && 0 <= c < data.Length1 ==> m[r][c] == data[r, c]
  {
    seq(n, r requires 0 <= r < n reads data =>
      seq(data.Length1, c requires 0 <= c < data.Length1 reads data => data[r, c]))
  }

  /** Makes room for one more row: when all rows are filled the buffer is replaced by one with twice
      as many rows and the same columns, holding the old rows in place; otherwise it is kept as is. */
  method AddRow(data: array2<real>, numFilledRows: nat) returns (grown: array2<real>)
    ensures grown.Length1 == data.Length1
    ensures grown.Length0 == if numFilledRows == data.Length0 then 2 * data.Length0 else data.Length0
    ensures numFilledRows != data.Length0 ==> grown == data
    ensures numFilledRows == data.Length0 ==> fresh(grown)
    ensures forall r, c :: 0 <= r < data.Length0 && 0 <= c < data.Length1 ==> grown[r, c] == data[r, c]
  {
    var numTotalRows := data.Length0;
    if numFilledRows != numTotalRows {
      return data;
    }
    grown := new real[2 * numTotalRows, data.Length1];
    var r := 0;
    while r < numTotalRows
      invariant 0 <= r <= numTotalRows
      invariant forall i, c :: 0 <= i < r && 0 <= c < data.Length1 ==> grown[i, c] == data[i, c]
    {
      var c := 0;
      while c < data.Length1
        invariant 0 <= c <= data.Length1
        invariant forall i, k :: 0 <= i < r && 0 <= k < data.Length1 ==> grown[i, k] == data[i, k]
        invariant forall k :: 0 <= k < c ==> grown[r, k] == data[r, k]
      {
        grown[r, c] := data[r, c];
        c := c + 1;
      }
      r := r + 1;
    }
  }

  /** Reads the lines into a table: the first line fixes the column count, every later line
      contributes its first that many values, and the result has one row per line. */
  method ReadData(lines: seq<seq<real>>) returns (table: Matrix)
    requires forall r :: 0 <= r < |lines| ==> |lines[r]| >= |FirstLine(lines)|
    ensures |table| == if |lines| == 0 then 1 else |lines|
    ensures IsMatrix(table, |table|, |FirstLine(lines)|)
    ensures forall r :: 0 <= r < |lines| ==> table[r] == lines[r][..|FirstLine(lines)|]
  {
    var first := FirstLine(lines);
    var singleRow: seq<real> := [];
    var k := 0;
    while k < |first|
      invariant 0 <= k <= |first| && singleRow == first[..k]
    {
      singleRow := singleRow + [first[k]];
      k := k + 1;
    }
    var numCols := |singleRow|;
    var data := new real[1, numCols];
    var c := 0;
    while c < numCols
      invariant 0 <= c <= numCols
      invariant forall j :: 0 <= j < c ==> data[0, j] == singleRow[j]
    {
      data[0, c] := singleRow[c];
      c := c + 1;
    }

    var rowCounter := 1;
    while rowCounter < |lines|
      invariant 1 <= rowCounter && (if |lines| == 0 then rowCounter == 1 else rowCounter <= |lines|)
      invariant fresh(data) && data.Length0 >= rowCounter && data.Length1 == numCols
      invariant |singleRow| == numCols
      invariant forall r, j :: 0 <= r < rowCounter && r < |lines| && 0 <= j < numCols ==> data[r, j] == lines[r][j]
    {
      data := AddRow(data, rowCounter);
      assert data.Length0 > rowCounter;
      var line := lines[rowCounter];
      var i := 0;
      while i < numCols
        invariant 0 <= i <= numCols && |singleRow| == numCols
        invariant forall j :: 0 <= j < i ==> singleRow[j] == line[j]
      {
        singleRow := singleRow[i := line[i]];
        i := i + 1;
      }
      c := 0;
      while c < numCols
        invariant 0 <= c <= numCols
        invariant forall r, j :: 0 <= r < rowCounter && r < |lines| && 0 <= j < numCols ==> data[r, j] == lines[r][j]
        invariant forall j :: 0 <= j < c ==> data[rowCounter, j] == singleRow[j]
      {
        data[rowCounter, c] := singleRow[c];
        c := c + 1;
      }
      rowCounter := rowCounter + 1;
    }

    table := Rows(data, rowCounter);
    forall r | 0 <= r < |lines| ensures table[r] == lines[r][..numCols] {
      assert forall j :: 0 <= j < numCols ==> table[r][j] == lines[r][j];
    }
  }
}
