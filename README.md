# Grid-label positions for the holographic star map

This project models how the star map places its planets. Each planet
record carries a grid label such as `"R-16"`. The label names one cell of a
fixed 21 x 21 grid: columns `A`–`U` (either case) and rows `1`–`21`. The
grid mapper turns the label into a scene position `[x, y, z]`:

- the grid is centred on the origin;
- cells are spaced `gridSize / (divisions - 1)` units apart;
- `x` grows with the column;
- `y` falls as the row number grows (the row axis is inverted, as on a printed map);
- `z` is always 0.

The planet-data module then maps every raw record through the mapper on the
configured grid (`gridSize = 200`, `divisions = 21`). It adds the record's
optional offset component by component and keeps every other field.

Files:

- `wrappers.dfy`: the `Option` type (`None` stands for "throws").
- `grid_mapper.dfy`, module `GridMapping`: the label grammar, letter and row
  to index conversion, the layout arithmetic, and the properties of the mapping.
- `planet_data.dfy`, module `PlanetData`: the configured constants, the
  per-record derivation, `Array.map` with a callback that may throw
  (`MapOrThrow`), and the derivation of the whole list.

Positions are exact `real`s, so the model has no rounding. On the configured
grid a cell is 10 units wide and the centre index is 10, so `GridMapper` with
size 200 and 21 divisions yields only integer multiples of 10
(`ConfiguredGridLattice`). Those values are exact in IEEE-754 doubles as
well. The other results are exact-real statements (see "## Left out").

Behaviour of the program that the model keeps:

- **Invalid labels throw.** The rejection branch of `gridMapper`
  (src/utils/gridMapper.js:5-8) builds its warning from an identifier `label`
  that is not defined (the parameter is `coordinates`). In a module that is a
  `ReferenceError`, so the call throws before it reaches the
  `return [0, 0, 0]`. The model returns `None` for a rejected label.
  `ProcessPlanets` is `None` as soon as any record's label is rejected,
  because the exception escapes `Array.map`.
- **Labels carry a hyphen.** The pattern requires a hyphen between the letter
  and the row number: `"R-16"` is accepted and `"R16"` is rejected.
- **No guard on `divisions`.** `gridMapper` accepts any number of divisions.
  The model requires only `divisions != 1`, the one value where the cell size
  would divide by zero. The geometry lemmas assume `gridSize > 0` and
  `divisions > 1`.

## Model

| member | source | states |
|---|---|---|
| `GridMapping.MatchRowNumber` | src/utils/gridMapper.js:3 | the row group yields a row number in 1..21 read from one or two characters, or nothing |
| `GridMapping.RowTextMatches` | src/utils/gridMapper.js:3 | the decimal text (no leading zero) of every row number 1..21 matches the row group and reads back as that number |
| `GridMapping.MatchedRowIsRowText` | src/utils/gridMapper.js:3 | any text the row group accepts is exactly the decimal text of the number it yields, so `"01"`, `"0"` and `"22"` are not accepted |
| `GridMapping.GridLettersAreTheAlphabet` | src/utils/gridMapper.js:2 | the lookup alphabet has 26 letters, letter j being `'A' + j` |
| `GridMapping.IndexOf` | src/utils/gridMapper.js:14 | `indexOf` returns the first index holding the character, or -1 exactly when the character is absent |
| `GridMapping.ColumnIndexOfLetter` | src/utils/gridMapper.js:10-14 | an accepted letter, upper-cased and looked up, has column index (letter - 'A') in 0..20 |
| `GridMapping.LabelIndices` | src/utils/gridMapper.js:3-15 | indices exist exactly when the label matches the pattern, and then the column and row indices lie in 0..20 |
| `GridMapping.MatchLabel` | src/utils/gridMapper.js:3 | a match has length 3 or 4 with a hyphen second, captures the first character as a letter in `[A-Ua-u]` and a row number in 1..21; input not starting with such a letter never matches |
| `GridMapping.ToUpper` | src/utils/gridMapper.js:10 | a lower-case ASCII letter becomes the upper-case letter at the same alphabet position; every other character is unchanged |
| `GridMapping.DigitValue` | src/utils/gridMapper.js:11 | a decimal digit reads as a value in 0..9, and as 0 exactly for `'0'` |
| `GridMapping.SquareSize` | src/utils/gridMapper.js:18 | `divisions - 1` cells of the computed size span exactly `gridSize` |
| `GridMapping.CentreIndex` | src/utils/gridMapper.js:19 | the centre index is equally far from the first index 0 and the last index `divisions - 1` |
| `GridMapping.CellPosition` | src/utils/gridMapper.js:18-23 | every cell lies in the plane z = 0 |
| `GridMapping.CellOnCentreLines` | src/utils/gridMapper.js:19-22 | on a grid of non-zero size a cell has x = 0 exactly when its column is the centre index, and y = 0 exactly when its row is |
| `GridMapping.GridMapperOfIndices` | src/utils/gridMapper.js:14-25 | an accepted label maps to the position of the cell its decoded indices name |
| `GridMapping.GridMapper` | src/utils/gridMapper.js:1-26 | a position is produced exactly when the label matches the pattern, and its z is 0 |
| `GridMapping.FormatLabelMatches` | src/utils/gridMapper.js:3 | the label of cell (col, row) matches the pattern, capturing its letter and the row number row + 1 |
| `GridMapping.FormatLabelAccepted` | src/utils/gridMapper.js:3-15 | the label of every cell (col, row), in either letter case, is accepted and decodes to (col, row) |
| `GridMapping.AcceptedIsFormatted` | src/utils/gridMapper.js:3-15 | every accepted label is the upper- or lower-case label of the cell it decodes to (no other spelling gets through) |
| `GridMapping.GridMapperAcceptsExactlyGridLabels` | src/utils/gridMapper.js:3-8 | the mapper yields a position if and only if the input is a grid label; everything else is rejected, with no default position |
| `GridMapping.GridMapperOfCell` | src/utils/gridMapper.js:10-25 | the label of cell (col, row) maps to that cell's position under the layout arithmetic, in either letter case |
| `GridMapping.ColumnLetterIgnoresCase` | src/utils/gridMapper.js:3 | two characters with the same upper case are both in the letter class `[A-Ua-u]` or both outside it |
| `GridMapping.MatchLabelIgnoresCase` | src/utils/gridMapper.js:3-11 | two inputs differing only in the case of the first character both match or both fail, with the same row number and the same upper-cased letter |
| `GridMapping.CaseInsensitive` | src/utils/gridMapper.js:3-14 | two inputs that differ only in the case of the first character map to the same result |
| `GridMapping.CellSteps` | src/utils/gridMapper.js:18-22 | for a positive grid size and more than one division, the next row is exactly one cell lower at the same x, and the next column is exactly one cell to the right at the same y |
| `GridMapping.NextRowIsLower` | src/utils/gridMapper.js:21-22 | the label one row further down maps to a strictly smaller y and the same x |
| `GridMapping.NextColumnIsRight` | src/utils/gridMapper.js:21-22 | the label one column further right maps to a strictly larger x and the same y |
| `GridMapping.CentredGridIsSymmetric` | src/utils/gridMapper.js:18-22 | with 21 divisions, the cell mirrored through the centre maps to the negated x and y |
| `GridMapping.CentreLabelIsOrigin` | src/utils/gridMapper.js:18-23 | with 21 divisions, `"K-11"` maps to the origin for every grid size, and also with the default arguments |
| `GridMapping.CentredGridBounds` | src/utils/gridMapper.js:18-22 | with 21 divisions, every accepted label lands in the square of side gridSize centred on the origin |
| `GridMapping.CellWithinGrid` | src/utils/gridMapper.js:18-22 | with 21 divisions and a non-negative grid size, every cell with indices in 0..20 lies within gridSize/2 of the origin on both axes |
| `GridMapping.ConfiguredCellPosition` | src/utils/gridMapper.js:18-23 | with size 200 and 21 divisions, cell (col, row) is at (10(col-10), 10(10-row), 0) |
| `GridMapping.ConfiguredGridLattice` | src/utils/gridMapper.js:18-23 | with size 200 and 21 divisions, the label of cell (col, row) maps to (10(col-10), 10(10-row), 0) |
| `GridMapping.ConfiguredCell` | src/utils/gridMapper.js:10-25 | with size 200 and 21 divisions, the formatted label of cell (col, row) maps to (10(col-10), 10(10-row), 0) |
| `GridMapping.ExampleLabels` | src/utils/gridMapper.js:3 | `"R-16"`, `"r-16"`, `"K-11"`, `"A-1"` and `"U-21"` are the labels of cells (17,15), (17,15), (10,10), (0,0) and (20,20) |
| `GridMapping.ConfiguredExampleR16` | src/utils/gridMapper.js:10-25 | `"R-16"` and `"r-16"` map to (70, -50, 0) on the configured grid |
| `GridMapping.ConfiguredExampleK11` | src/utils/gridMapper.js:10-25 | `"K-11"` maps to (0, 0, 0) on the configured grid |
| `GridMapping.ConfiguredExampleCorners` | src/utils/gridMapper.js:10-25 | `"A-1"` maps to (-100, 100, 0) and `"U-21"` to (100, -100, 0) on the configured grid |
| `GridMapping.RejectedExamples` | src/utils/gridMapper.js:3-8 | `"V-1"`, `"Z-5"`, `"A-0"`, `"A-22"`, `"A-01"`, `"A16"`, `"AA-1"`, `"R-16 "` and `""` are rejected for every grid configuration |
| `PlanetData.OffsetOrZero` | src/data/processedPlanetData.js:16 | a present offset is used as it is, and a missing one is the zero vector |
| `PlanetData.Add` | src/data/processedPlanetData.js:18-22 | adding an offset leaves a position unchanged exactly when the offset is the zero vector |
| `PlanetData.ProcessPlanet` | src/data/processedPlanetData.js:14-28 | a record is processed exactly when its label is accepted; the result keeps coord, offset and all other fields, and its position is the grid position of coord on the 200/21 grid plus the offset (zero when absent) |
| `PlanetData.MapOrThrow` | src/data/processedPlanetData.js:14 | `Array.map` with a callback that may throw: it succeeds exactly when every call succeeds, and then result i is the callback's result on element i, with the input's length |
| `PlanetData.MapOrThrowAppend` | src/data/processedPlanetData.js:14 | mapping a concatenation succeeds exactly when both parts succeed, and then gives the concatenation of the parts' results, so elements are mapped independently and in order |
| `PlanetData.ProcessPlanets` | src/data/processedPlanetData.js:14-28 | the list is processed exactly when every label is accepted; the output has the input's length, and output i is derived from input i |
| `PlanetData.MissingOffsetIsZero` | src/data/processedPlanetData.js:16 | a record without an offset sits exactly on its grid position |
| `PlanetData.HeightComesFromOffset` | src/data/processedPlanetData.js:18-22 | a planet's z equals its offset's z, because the grid contributes none |
| `PlanetData.PlanetOnConfiguredGrid` | src/data/processedPlanetData.js:7-22 | a planet whose label names cell (col, row) sits at (10(col-10), 10(10-row), 0) plus its offset |

## Left out

- GridMapping.GridMapper: requires `divisions != 1`. With `divisions == 1` the program divides by zero and gets non-finite numbers rather than an exception; exact reals cannot represent that.
- IEEE-754 behaviour of JavaScript numbers: positions are exact reals. Only `GridMapper` on the configured 200/21 grid is exact in doubles too, since its results are integer multiples of 10.
- The offset sum in `PlanetData.Add` and `PlanetData.ProcessPlanet` is exact here, while the program rounds it (`70 + 0.1` is not exactly 70.1 in doubles).
- The lemmas about arbitrary grid configurations (`CellSteps`, `NextRowIsLower`, `NextColumnIsRight`, `CentredGridIsSymmetric`, `CentredGridBounds`, `CellOnCentreLines`) are statements about exact reals. In doubles they can fail: with `divisions = 1e20` the centre index absorbs the row index, so rows 0 and 1 get the same y.
- The `console.warn` of the rejection branch is I/O, and the branch throws before it prints anything.
- Loading `planetData.json` is I/O. The raw records are an input sequence.
- Record shapes outside the modelled types are not represented: a `coord` that is not a string (where `.match` throws a `TypeError`), and a truthy `offset` that is not a three-number array (which yields `NaN` or string concatenation).
- The input record's own `position` field, if it has one, is not represented. The spread replaces it, and the modelled output has exactly one `position`.
- A record whose offset key is misspelled (for example `offsest`) is a record without an offset. The misspelled key is just one of the carried fields.
- Letter case is mapped for the ASCII range only. The pattern admits only `A`–`U` and `a`–`u` before `toUpperCase` runs, so this is exact.
- Camera fly-to, damping and arrival detection are not part of this model. None of the source files implements them: `src/components/GalaxyCanvas.jsx` sets only a static initial camera.
- Rendering is outside the model: `src/components/GalaxyCanvas.jsx`, `src/components/Planet.jsx`, `src/components/PlanetInfoPanel.jsx` and `src/shaders/HolographicMaterial.jsx` hold scene-graph, UI and shader code with GPU floating point.
