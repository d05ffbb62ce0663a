/** Matrix positions and firmware key indices of the GMK67 board. */
module KeyMatrix {
  import opened Basics

  const ROWS := 5
  const COLS := 15

  /** Marks a matrix cell with no key. */
  const NA: u8 := 0xFF

  const KEY_INDEX: seq<seq<u8>> := [
    [1, 20, 21, 22, 23, 24, 25, 26, 27, 28, 29, 30, 31, 103, NA],
    [37, 38, 39, 40, 41, 42, 43, 44, 45, 46, 47, 48, 49, 67, 119],
    [55, 56, 57, 58, 59, 60, 61, 62, 63, 64, 65, 66, 85, 118, NA],
    [73, 74, 75, 76, 77, 78, 79, 80, 81, 82, 83, 84, 101, 121, NA],
    [91, 92, 93, 94, 95, 96, 99, 100, 102, NA, NA, NA, NA, NA, NA]]

  datatype Pos = Pos(row: u8, col: u8)

  /** The key index at a matrix position; none for an empty cell or a position
      off the matrix. */
  function KeyIndexFor(row: u8, col: u8): (r: Option<u8>)
    ensures r.Some? ==> 1 <= r.value <= 121 && row < ROWS && col < COLS
  {
    if row < ROWS && col < COLS && KEY_INDEX[row][col] != NA then
      CellsAreSmall(row, col);
      Some(KEY_INDEX[row][col])
    else None
  }

  lemma CellsAreSmall(row: u8, col: u8)
    requires row < ROWS && col < COLS && KEY_INDEX[row][col] != NA
    ensures 1 <= KEY_INDEX[row][col] <= 121
  {
  }

  /** The first cell of row `row` from column `col` on that holds `ki`. */
  function ColumnOf(ki: u8, row: u8, col: nat): (r: Option<u8>)
    requires row < ROWS && col <= COLS
    ensures r.Some? ==> r.value < COLS && KEY_INDEX[row][r.value] == ki
    ensures r.None? ==> forall c :: col <= c < COLS ==> KEY_INDEX[row][c] != ki
    decreases COLS - col
  {
    if col == COLS then None
    else if KEY_INDEX[row][col] == ki then Some(col)
    else ColumnOf(ki, row, col + 1)
  }

  function SearchFrom(ki: u8, row: nat): (r: Option<Pos>)
    requires row <= ROWS
    ensures r.Some? ==> r.value.row < ROWS && r.value.col < COLS && KEY_INDEX[r.value.row][r.value.col] == ki
    ensures r.None? ==> forall i, c :: row <= i < ROWS && 0 <= c < COLS ==> KEY_INDEX[i][c] != ki
    decreases ROWS - row
  {
    if row == ROWS then None
    else match ColumnOf(ki, row, 0)
      case Some(col) => Some(Pos(row, col))
      case None => SearchFrom(ki, row + 1)
  }

  /** The matrix position of a key index, found by scanning the table. */
  function MatrixPosFor(ki: u8): Option<Pos> {
    if ki == NA then None else SearchFrom(ki, 0)
  }

  // ── The two maps are inverse ───────────────────────────────────────────

  /** Where each index sits, worked out from the runs of consecutive indices. */
  function Located(ki: u8): Pos {
    if ki == 1 then Pos(0, 0)
    else if 20 <= ki <= 31 then Pos(0, ki - 19)
    else if ki == 103 then Pos(0, 13)
    else if 37 <= ki <= 49 then Pos(1, ki - 37)
    else if ki == 67 then Pos(1, 13)
    else if ki == 119 then Pos(1, 14)
    else if 55 <= ki <= 66 then Pos(2, ki - 55)
    else if ki == 85 then Pos(2, 12)
    else if ki == 118 then Pos(2, 13)
    else if 73 <= ki <= 84 then Pos(3, ki - 73)
    else if ki == 101 then Pos(3, 12)
    else if ki == 121 then Pos(3, 13)
    else if 91 <= ki <= 96 then Pos(4, ki - 91)
    else if ki == 99 then Pos(4, 6)
    else if ki == 100 then Pos(4, 7)
    else Pos(4, 8)
  }

  lemma CellIsLocated(row: u8, col: u8)
    requires row < ROWS && col < COLS && KEY_INDEX[row][col] != NA
    ensures Located(KEY_INDEX[row][col]) == Pos(row, col)
  {
  }

  /** The 66 keys: five rows of consecutive indices, with strays at their ends. */
  predicate IsKey(ki: u8) {
    || ki == 1 || 20 <= ki <= 31 || ki == 103
    || 37 <= ki <= 49 || ki == 67 || ki == 119
    || 55 <= ki <= 66 || ki == 85 || ki == 118
    || 73 <= ki <= 84 || ki == 101 || ki == 121
    || 91 <= ki <= 96 || ki == 99 || ki == 100 || ki == 102
  }

  /** Every key is where the runs of indices put it, and nowhere else. */
  lemma KeysAreLocated(row: u8, col: u8, ki: u8)
    ensures KeyIndexFor(row, col) == Some(ki) <==> IsKey(ki) && Located(ki) == Pos(row, col)
  {
    if KeyIndexFor(row, col) == Some(ki) {
      CellIsLocated(row, col);
    }
  }

  /** No two keys share an index, so each map undoes the other. */
  lemma MapsAreInverse(row: u8, col: u8, ki: u8)
    ensures KeyIndexFor(row, col) == Some(ki) <==> MatrixPosFor(ki) == Some(Pos(row, col))
  {
    if KeyIndexFor(row, col) == Some(ki) {
      CellIsLocated(row, col);
      var p := MatrixPosFor(ki).value;
      CellIsLocated(p.row, p.col);
    }
    if MatrixPosFor(ki) == Some(Pos(row, col)) {
      assert KEY_INDEX[row][col] == ki;
    }
  }
}
