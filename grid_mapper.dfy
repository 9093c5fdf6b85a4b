/**
 * The grid mapper: turns a map label such as "R-16" into a position in the
 * scene. A label names one cell of a 21 x 21 grid (columns A to U, rows 1 to
 * 21); the mapper centres the grid on the origin, spaces cells evenly over
 * `gridSize` scene units and inverts the row axis so that higher row numbers
 * lie lower on the screen.
 */
module GridMapping {
  import opened Wrappers

  /** A position `[x, y, z]` in scene units. */
  datatype Vec3 = Vec3(x: real, y: real, z: real)

  /** The alphabet the column letter is looked up in. */
  const GridLetters: string := "ABCDEFGHIJKLMNOPQRSTUVWXYZ"

  // ---------------------------------------------------------------------------
  // The label grammar  ^([A-Ua-u])-([1-9]|1[0-9]|2[0-1])$
  // ---------------------------------------------------------------------------

  /** The character class `[A-Ua-u]`. */
  predicate IsColumnLetter(c: char) {
    'A' <= c <= 'U' || 'a' <= c <= 'u'
  }

  /** `parseInt` of one decimal digit. */
  function DigitValue(c: char): (d: nat)
    requires '0' <= c <= '9'
    ensures d <= 9 && (d == 0 <==> c == '0')
  {
    c as nat - '0' as nat
  }

  /**
   * The second group `([1-9]|1[0-9]|2[0-1])` anchored at the end of the
   * input, read with `parseInt(_, 10)`: the row number, or None when the
   * text is not one of the alternatives.
   */
  function MatchRowNumber(t: string): (n: Option<nat>)
    ensures n.Some? ==> 1 <= n.value <= 21
    ensures n.Some? ==> |t| == 1 || |t| == 2
  {
    if |t| == 1 && '1' <= t[0] <= '9' then Some(DigitValue(t[0]))
    else if |t| == 2 && t[0] == '1' && '0' <= t[1] <= '9' then Some(10 + DigitValue(t[1]))
    else if |t| == 2 && t[0] == '2' && '0' <= t[1] <= '1' then Some(20 + DigitValue(t[1]))
    else None
  }

  /** What a successful match captures: the column letter and the row number. */
  datatype LabelMatch = LabelMatch(letter: char, rowNumber: nat)

  /**
   * `coordinates.match(...)` with the label pattern: the captured letter and
   * row number, or None when the whole input is not a label.
   */
  function MatchLabel(s: string): (r: Option<LabelMatch>)
    ensures r.Some? ==> (|s| == 3 || |s| == 4) && s[1] == '-'
    ensures r.Some? ==> r.value.letter == s[0] && IsColumnLetter(r.value.letter)
    ensures r.Some? ==> 1 <= r.value.rowNumber <= 21
    ensures !IsColumnLetter(if |s| > 0 then s[0] else ' ') ==> r.None?
  {
    if |s| >= 3 && IsColumnLetter(s[0]) && s[1] == '-' then
      match MatchRowNumber(s[2..])
      case Some(n) => Some(LabelMatch(s[0], n))
      case None => None
    else None
  }

  /**
   * `String.prototype.toUpperCase` on one character of the ASCII range: a
   * lower-case letter becomes the upper-case letter at the same place in the
   * alphabet; any other character is unchanged.
   */
  function ToUpper(c: char): (u: char)
    ensures 'a' <= c <= 'z' ==> 'A' <= u <= 'Z' && u as int - 'A' as int == c as int - 'a' as int
    ensures !('a' <= c <= 'z') ==> u == c
  {
    if 'a' <= c <= 'z' then (c as int - 32) as char else c
  }

  /**
   * `String.prototype.indexOf` for one character: the first index of `c` in
   * `s`, or -1 when `c` does not occur.
   */
  function IndexOf(s: string, c: char): (i: int)
    ensures -1 <= i < |s|
    ensures 0 <= i ==> s[i] == c && forall j :: 0 <= j < i ==> s[j] != c
    ensures i == -1 ==> forall j :: 0 <= j < |s| ==> s[j] != c
  {
    if |s| == 0 then -1
    else if s[0] == c then 0
    else
      var k := IndexOf(s[1..], c);
      if k == -1 then -1 else k + 1
  }

  lemma GridLettersAreTheAlphabet()
    ensures |GridLetters| == 26
    ensures forall j :: 0 <= j < 26 ==> GridLetters[j] as int == 'A' as int + j
  {
  }

  /** The column index of an accepted letter is its distance from 'A', in either case. */
  lemma ColumnIndexOfLetter(c: char)
    requires IsColumnLetter(c)
    ensures IndexOf(GridLetters, ToUpper(c)) == ToUpper(c) as int - 'A' as int
    ensures 0 <= IndexOf(GridLetters, ToUpper(c)) <= 20
  {
    GridLettersAreTheAlphabet();
    var k := ToUpper(c) as int - 'A' as int;
    assert GridLetters[k] == ToUpper(c);
  }

  /**
   * The zero-based (column, row) indices of a label, or None when the label
   * does not match the pattern.
   */
  function LabelIndices(s: string): (r: Option<(int, int)>)
    ensures r.Some? <==> MatchLabel(s).Some?
    ensures r.Some? ==> 0 <= r.value.0 <= 20 && 0 <= r.value.1 <= 20
  {
    match MatchLabel(s)
    case None => None
    case Some(m) =>
      ColumnIndexOfLetter(m.letter);
      Some((IndexOf(GridLetters, ToUpper(m.letter)), m.rowNumber - 1))
  }

  // ---------------------------------------------------------------------------
  // Layout arithmetic
  // ---------------------------------------------------------------------------

  /** Side of one grid cell: the grid spans `divisions - 1` cells. */
  function SquareSize(gridSize: real, divisions: real): (size: real)
    requires divisions != 1.0
    ensures size * (divisions - 1.0) == gridSize
  {
    gridSize / (divisions - 1.0)
  }

  /** Index of the centre line of the grid (a half-integer when `divisions` is even). */
  function CentreIndex(divisions: real): (centre: real)
    ensures centre - 0.0 == (divisions - 1.0) - centre
  {
    (divisions - 1.0) / 2.0
  }

  /** Position of the cell with the given zero-based indices; the grid is planar. */
  function CellPosition(col: int, row: int, gridSize: real, divisions: real): (p: Vec3)
    requires divisions != 1.0
    ensures p.z == 0.0
  {
    var size := SquareSize(gridSize, divisions);
    var offset := CentreIndex(divisions);
    Vec3((col as real - offset) * size, -(row as real - offset) * size, 0.0)
  }

  /**
   * On a grid of non-zero size a cell lies on the y axis exactly when its
   * column is the centre line, and on the x axis exactly when its row is.
   */
  lemma CellOnCentreLines(col: int, row: int, gridSize: real, divisions: real)
    requires divisions != 1.0 && gridSize != 0.0
    ensures var p := CellPosition(col, row, gridSize, divisions);
      && (p.x == 0.0 <==> col as real == CentreIndex(divisions))
      && (p.y == 0.0 <==> row as real == CentreIndex(divisions))
  {
    var size := SquareSize(gridSize, divisions);
    assert size != 0.0;
    var o := CentreIndex(divisions);
    var a, b := col as real - o, row as real - o;
    assert a * size == 0.0 <==> a == 0.0;
    assert -b * size == 0.0 <==> b == 0.0;
  }

  /**
   * `GridMapper(coordinates, gridSize, divisions)`: the position of the cell
   * a label names, or None for a label outside the grammar (where the
   * program throws).
   */
  function GridMapper(coordinates: string, gridSize: real := 200.0, divisions: real := 21.0): (p: Option<Vec3>)
    requires divisions != 1.0
    ensures p.Some? <==> MatchLabel(coordinates).Some?
    ensures p.Some? ==> p.value.z == 0.0
  {
    match LabelIndices(coordinates)
    case None => None
    case Some((col, row)) => Some(CellPosition(col, row, gridSize, divisions))
  }

  lemma GridMapperOfIndices(s: string, gridSize: real, divisions: real)
    requires divisions != 1.0 && LabelIndices(s).Some?
    ensures GridMapper(s, gridSize, divisions)
         == Some(CellPosition(LabelIndices(s).value.0, LabelIndices(s).value.1, gridSize, divisions))
  {
  }

  // ---------------------------------------------------------------------------
  // The accepted language, stated independently of the matcher
  // ---------------------------------------------------------------------------

  /** Decimal text of a row number in 1..21, without a leading zero. */
  function RowText(n: nat): string
    requires 1 <= n <= 21
  {
    if n < 10 then [('0' as int + n) as char]
    else [('0' as int + n / 10) as char, ('0' as int + n % 10) as char]
  }

  /** The label of the cell at zero-based indices (col, row), written in lower or upper case. */
  function FormatLabel(col: nat, row: nat, lower: bool): string
    requires col <= 20 && row <= 20
  {
    [CellLetter(col, lower)] + "-" + RowText(row + 1)
  }

  /** A grid label: one of the 21 x 21 cells, the letter in either case. */
  ghost predicate IsGridLabel(s: string) {
    exists col: nat, row: nat, lower: bool | col <= 20 && row <= 20 :: s == FormatLabel(col, row, lower)
  }

  lemma {:induction false} RowTextMatches(n: nat)
    requires 1 <= n <= 21
    ensures MatchRowNumber(RowText(n)) == Some(n)
  {
    if n >= 10 {
      var t := RowText(n);
      assert t[0] == ('0' as int + n / 10) as char;
      assert DigitValue(t[1]) == n % 10;
    }
  }

  /** The letter a cell's label starts with. */
  function CellLetter(col: nat, lower: bool): char
    requires col <= 20
  {
    ((if lower then 'a' else 'A') as int + col) as char
  }

  lemma FormatLabelMatches(col: nat, row: nat, lower: bool)
    requires col <= 20 && row <= 20
    ensures MatchLabel(FormatLabel(col, row, lower)) == Some(LabelMatch(CellLetter(col, lower), row + 1))
  {
    var s := FormatLabel(col, row, lower);
    assert s == [CellLetter(col, lower)] + "-" + RowText(row + 1);
    assert s[0] == CellLetter(col, lower) && s[1] == '-' && s[2..] == RowText(row + 1);
    RowTextMatches(row + 1);
  }

  /** Every cell's label, in either case, is accepted and decodes to that cell. */
  lemma FormatLabelAccepted(col: nat, row: nat, lower: bool)
    requires col <= 20 && row <= 20
    ensures LabelIndices(FormatLabel(col, row, lower)) == Some((col, row))
  {
    var letter := CellLetter(col, lower);
    FormatLabelMatches(col, row, lower);
    assert ToUpper(letter) as int == 'A' as int + col;
    ColumnIndexOfLetter(letter);
  }

  lemma {:induction false} MatchedRowIsRowText(t: string)
    requires MatchRowNumber(t).Some?
    ensures t == RowText(MatchRowNumber(t).value)
  {
    var n := MatchRowNumber(t).value;
    if |t| == 2 {
      assert n / 10 == DigitValue(t[0]) && n % 10 == DigitValue(t[1]);
      assert t == [t[0], t[1]];
    } else {
      assert t == [t[0]];
    }
  }

  /** Every accepted label is the label of the cell it decodes to, in one of the two cases. */
  lemma {:induction false} AcceptedIsFormatted(s: string)
    requires LabelIndices(s).Some?
    ensures var (col, row) := LabelIndices(s).value;
      s == FormatLabel(col, row, false) || s == FormatLabel(col, row, true)
  {
    var (col, row) := LabelIndices(s).value;
    var m := MatchLabel(s).value;
    assert m.letter == s[0] && row == m.rowNumber - 1;
    MatchedRowIsRowText(s[2..]);
    ColumnIndexOfLetter(s[0]);
    assert col == ToUpper(s[0]) as int - 'A' as int;
    var lower := 'a' <= s[0];
    assert CellLetter(col, lower) == s[0];
    assert RowText(row + 1) == s[2..];
    assert FormatLabel(col, row, lower) == [s[0]] + "-" + s[2..];
    assert s == [s[0]] + "-" + s[2..];
  }

  /** The mapper accepts exactly the grid labels. */
  lemma GridMapperAcceptsExactlyGridLabels(s: string, gridSize: real, divisions: real)
    requires divisions != 1.0
    ensures GridMapper(s, gridSize, divisions).Some? <==> IsGridLabel(s)
  {
    if GridMapper(s, gridSize, divisions).Some? {
      AcceptedIsFormatted(s);
      var (col, row) := LabelIndices(s).value;
      assert s == FormatLabel(col, row, false) || s == FormatLabel(col, row, true);
    }
    if IsGridLabel(s) {
      var col: nat, row: nat, lower: bool :| col <= 20 && row <= 20 && s == FormatLabel(col, row, lower);
      FormatLabelAccepted(col, row, lower);
    }
  }

  /** The label of cell (col, row) maps to that cell's position, whatever the case of its letter. */
  lemma GridMapperOfCell(col: nat, row: nat, lower: bool, gridSize: real, divisions: real)
    requires col <= 20 && row <= 20 && divisions != 1.0
    ensures GridMapper(FormatLabel(col, row, lower), gridSize, divisions)
         == Some(CellPosition(col, row, gridSize, divisions))
  {
    FormatLabelAccepted(col, row, lower);
  }

  lemma ColumnLetterIgnoresCase(c: char, d: char)
    requires ToUpper(c) == ToUpper(d)
    ensures IsColumnLetter(c) <==> IsColumnLetter(d)
  {
  }

  lemma MatchLabelIgnoresCase(s: string, t: string)
    requires |s| == |t| > 0 && s[1..] == t[1..] && ToUpper(s[0]) == ToUpper(t[0])
    ensures MatchLabel(s).Some? <==> MatchLabel(t).Some?
    ensures MatchLabel(s).Some? ==>
      && MatchLabel(s).value.rowNumber == MatchLabel(t).value.rowNumber
      && ToUpper(MatchLabel(s).value.letter) == ToUpper(MatchLabel(t).value.letter)
  {
    ColumnLetterIgnoresCase(s[0], t[0]);
    if |s| >= 3 {
      assert s[1] == s[1..][0] && t[1] == t[1..][0];
      assert s[2..] == s[1..][1..] && t[2..] == t[1..][1..];
    }
  }

  /** Labels differing only in the case of the letter map to the same position. */
  lemma CaseInsensitive(s: string, t: string, gridSize: real, divisions: real)
    requires divisions != 1.0
    requires |s| == |t| > 0 && s[1..] == t[1..] && ToUpper(s[0]) == ToUpper(t[0])
    ensures GridMapper(s, gridSize, divisions) == GridMapper(t, gridSize, divisions)
  {
    MatchLabelIgnoresCase(s, t);
    assert LabelIndices(s) == LabelIndices(t);
  }

  // ---------------------------------------------------------------------------
  // Geometry of the layout
  // ---------------------------------------------------------------------------

  /**
   * One row further down (same column) lies exactly one cell lower, at the
   * same x; one column further right (same row) lies exactly one cell to the
   * right, at the same y.
   */
  lemma CellSteps(col: int, row: int, gridSize: real, divisions: real)
    requires gridSize > 0.0 && divisions > 1.0
    ensures var here := CellPosition(col, row, gridSize, divisions);
      var below := CellPosition(col, row + 1, gridSize, divisions);
      var right := CellPosition(col + 1, row, gridSize, divisions);
      && below.x == here.x && here.y - below.y == SquareSize(gridSize, divisions) > 0.0
      && right.y == here.y && right.x - here.x == SquareSize(gridSize, divisions) > 0.0
  {
    var size := SquareSize(gridSize, divisions);
    assert size > 0.0;
    var o := CentreIndex(divisions);
    assert -((row + 1) as real - o) * size == -(row as real - o) * size - size;
    assert ((col + 1) as real - o) * size == (col as real - o) * size + size;
  }

  /** The next row of a label, same column and case, maps strictly lower and at the same x. */
  lemma NextRowIsLower(col: nat, row: nat, lower: bool, gridSize: real, divisions: real)
    requires col <= 20 && row < 20 && gridSize > 0.0 && divisions > 1.0
    ensures var here := GridMapper(FormatLabel(col, row, lower), gridSize, divisions);
      var below := GridMapper(FormatLabel(col, row + 1, lower), gridSize, divisions);
      here.Some? && below.Some? && below.value.y < here.value.y && below.value.x == here.value.x
  {
    GridMapperOfCell(col, row, lower, gridSize, divisions);
    GridMapperOfCell(col, row + 1, lower, gridSize, divisions);
    CellSteps(col, row, gridSize, divisions);
  }

  /** The next column of a label, same row and case, maps strictly right and at the same y. */
  lemma NextColumnIsRight(col: nat, row: nat, lower: bool, gridSize: real, divisions: real)
    requires col < 20 && row <= 20 && gridSize > 0.0 && divisions > 1.0
    ensures var here := GridMapper(FormatLabel(col, row, lower), gridSize, divisions);
      var right := GridMapper(FormatLabel(col + 1, row, lower), gridSize, divisions);
      here.Some? && right.Some? && right.value.x > here.value.x && right.value.y == here.value.y
  {
    GridMapperOfCell(col, row, lower, gridSize, divisions);
    GridMapperOfCell(col + 1, row, lower, gridSize, divisions);
    CellSteps(col, row, gridSize, divisions);
  }

  /**
   * On the 21-division grid the layout is point-symmetric about the origin:
   * the cell mirrored through the centre lands on the negated position.
   */
  lemma CentredGridIsSymmetric(col: nat, row: nat, gridSize: real)
    requires col <= 20 && row <= 20
    ensures var p := CellPosition(col, row, gridSize, 21.0);
      var q := CellPosition(20 - col, 20 - row, gridSize, 21.0);
      q.x == -p.x && q.y == -p.y && q.z == p.z
  {
    var size := SquareSize(gridSize, 21.0);
    var a, b := col as real - 10.0, row as real - 10.0;
    assert CentreIndex(21.0) == 10.0;
    assert (20 - col) as real - 10.0 == -a && (20 - row) as real - 10.0 == -b;
    assert CellPosition(col, row, gridSize, 21.0) == Vec3(a * size, -b * size, 0.0);
    assert CellPosition(20 - col, 20 - row, gridSize, 21.0) == Vec3(-a * size, b * size, 0.0);
  }

  /** On the 21-division grid the centre label "K-11" maps to the origin, whatever the grid size. */
  lemma CentreLabelIsOrigin(gridSize: real)
    ensures GridMapper("K-11", gridSize, 21.0) == Some(Vec3(0.0, 0.0, 0.0))
  {
    var size := SquareSize(gridSize, 21.0);
    assert CentreIndex(21.0) == 10.0;
    assert (10 as real - 10.0) * size == 0.0;
    assert -(10 as real - 10.0) * size == 0.0;
    assert CellPosition(10, 10, gridSize, 21.0) == Vec3(0.0, 0.0, 0.0);
    ExampleLabels();
    GridMapperOfCell(10, 10, false, gridSize, 21.0);
  }

  /**
   * On the 21-division grid every accepted label lands inside the square of
   * side `gridSize` centred on the origin, the corners included.
   */
  lemma CentredGridBounds(s: string, gridSize: real)
    requires gridSize >= 0.0 && GridMapper(s, gridSize, 21.0).Some?
    ensures var p := GridMapper(s, gridSize, 21.0).value;
      -gridSize / 2.0 <= p.x <= gridSize / 2.0 && -gridSize / 2.0 <= p.y <= gridSize / 2.0
  {
    var (col, row) := LabelIndices(s).value;
    assert GridMapper(s, gridSize, 21.0).value == CellPosition(col, row, gridSize, 21.0);
    CellWithinGrid(col, row, gridSize);
  }

  lemma CellWithinGrid(col: int, row: int, gridSize: real)
    requires 0 <= col <= 20 && 0 <= row <= 20 && gridSize >= 0.0
    ensures var p := CellPosition(col, row, gridSize, 21.0);
      -gridSize / 2.0 <= p.x <= gridSize / 2.0 && -gridSize / 2.0 <= p.y <= gridSize / 2.0
  {
    var size := SquareSize(gridSize, 21.0);
    assert size == gridSize / 20.0 && size >= 0.0;
    assert CentreIndex(21.0) == 10.0;
    var dx, dy := col as real - 10.0, 10.0 - row as real;
    assert CellPosition(col, row, gridSize, 21.0) == Vec3(dx * size, dy * size, 0.0);
    ScaledWithin(dx, size);
    ScaledWithin(dy, size);
  }

  lemma ScaledWithin(a: real, size: real)
    requires -10.0 <= a <= 10.0 && size >= 0.0
    ensures -10.0 * size <= a * size <= 10.0 * size
  {
  }

  /**
   * With the configured grid (size 200, 21 divisions) a cell is 10 units
   * wide and the centre index is 10: the label of cell (col, row) lands on
   * the integer lattice point (10 (col - 10), 10 (10 - row), 0).
   */
  lemma ConfiguredGridLattice(s: string)
    requires LabelIndices(s).Some?
    ensures var c := LabelIndices(s).value;
      GridMapper(s, 200.0, 21.0) == Some(Vec3((10 * (c.0 - 10)) as real, (10 * (10 - c.1)) as real, 0.0))
  {
    var c := LabelIndices(s).value;
    GridMapperOfIndices(s, 200.0, 21.0);
    ConfiguredCellPosition(c.0, c.1);
  }

  lemma ConfiguredCellPosition(col: int, row: int)
    ensures CellPosition(col, row, 200.0, 21.0) == Vec3((10 * (col - 10)) as real, (10 * (10 - row)) as real, 0.0)
  {
    assert SquareSize(200.0, 21.0) == 10.0;
    assert CentreIndex(21.0) == 10.0;
    assert (col as real - 10.0) * 10.0 == (10 * (col - 10)) as real;
    assert -(row as real - 10.0) * 10.0 == (10 * (10 - row)) as real;
  }

  /** The label of cell (col, row) on the configured grid lands on (10 (col - 10), 10 (10 - row), 0). */
  lemma ConfiguredCell(col: nat, row: nat, lower: bool)
    requires col <= 20 && row <= 20
    ensures GridMapper(FormatLabel(col, row, lower), 200.0, 21.0)
         == Some(Vec3((10 * (col - 10)) as real, (10 * (10 - row)) as real, 0.0))
  {
    var s := FormatLabel(col, row, lower);
    FormatLabelAccepted(col, row, lower);
    GridMapperOfIndices(s, 200.0, 21.0);
    ConfiguredCellPosition(col, row);
  }

  /** Worked examples on the configured grid. */
  lemma ConfiguredExampleR16()
    ensures GridMapper("R-16", 200.0, 21.0) == Some(Vec3(70.0, -50.0, 0.0))
    ensures GridMapper("r-16", 200.0, 21.0) == Some(Vec3(70.0, -50.0, 0.0))
  {
    ExampleLabels();
    ConfiguredCell(17, 15, false);
    ConfiguredCell(17, 15, true);
  }

  lemma ConfiguredExampleK11()
    ensures GridMapper("K-11", 200.0, 21.0) == Some(Vec3(0.0, 0.0, 0.0))
    ensures GridMapper("K-11") == Some(Vec3(0.0, 0.0, 0.0))
  {
    ExampleLabels();
    ConfiguredCell(10, 10, false);
  }

  lemma ConfiguredExampleCorners()
    ensures GridMapper("A-1", 200.0, 21.0) == Some(Vec3(-100.0, 100.0, 0.0))
    ensures GridMapper("U-21", 200.0, 21.0) == Some(Vec3(100.0, -100.0, 0.0))
  {
    ExampleLabels();
    ConfiguredCell(0, 0, false);
    ConfiguredCell(20, 20, false);
  }

  lemma ExampleLabels()
    ensures FormatLabel(17, 15, false) == "R-16"
    ensures FormatLabel(17, 15, true) == "r-16"
    ensures FormatLabel(10, 10, false) == "K-11"
    ensures FormatLabel(0, 0, false) == "A-1"
    ensures FormatLabel(20, 20, false) == "U-21"
  {
    assert RowText(16) == "16";
    assert RowText(11) == "11";
    assert RowText(1) == "1";
    assert RowText(21) == "21";
  }

  /** Labels outside the grammar are rejected rather than mapped to a default position. */
  lemma RejectedExamples(gridSize: real, divisions: real)
    requires divisions != 1.0
    ensures GridMapper("V-1", gridSize, divisions).None?
    ensures GridMapper("Z-5", gridSize, divisions).None?
    ensures GridMapper("A-0", gridSize, divisions).None?
    ensures GridMapper("A-22", gridSize, divisions).None?
    ensures GridMapper("A-01", gridSize, divisions).None?
    ensures GridMapper("A16", gridSize, divisions).None?
    ensures GridMapper("AA-1", gridSize, divisions).None?
    ensures GridMapper("R-16 ", gridSize, divisions).None?
    ensures GridMapper("", gridSize, divisions).None?
  {
    assert MatchLabel("V-1").None? && MatchLabel("Z-5").None?;
    assert MatchRowNumber("0").None? && MatchLabel("A-0").None?;
    assert MatchRowNumber("22").None? && MatchLabel("A-22").None?;
    assert MatchRowNumber("01").None? && MatchLabel("A-01").None?;
    assert MatchLabel("A16").None? && MatchLabel("AA-1").None?;
    assert MatchRowNumber("16 ").None? && MatchLabel("R-16 ").None?;
  }
}
