# MemoryMap: the agent's belief grid and its sensor decoder

`MemoryMap` is what a Maeden agent believes about its world. It is an `xDomain × yDomain` grid of
tile states (`TileValue`: unknown, potential food, food, wall, rock, key, hammer, door, agent,
nothing). The grid starts all-unknown, is written one tile at a time, is cleared on demand and is
listed tile by tile. Every turn the agent gets a sensor reading: a string covering the 7 × 5 field
around it. `updateMemoryMap` splits that string on `(`, keeping the delimiters as tokens. It skips a
header token and then walks rows 6 down to 0 and, within each row, columns 0 to 4. For each cell it
skips a delimiter and hands the next token to `updateSightField`. That method turns the local cell
into an absolute coordinate (`visualToActual`, by the agent's position and compass direction) and
writes the state the token reports. A token starting with `)` means an empty cell. Otherwise the
token's second character is decoded by the code table (`getValueFromChar`).

The model has eight modules:

- `Wrappers` holds `Option`, `Result` and `Outcome`. They stand in for Java's `null` results and
  exceptions.
- `Tiles` has the tile states, points, tiles and the character-code table.
- `FrameTransform` has the four-way rotation from the sensor field to the grid and its inverse.
- `Tokenizer` models `StringTokenizer(s, "(", true)` as a pure function. It has exactly one
  result: the only list of non-empty tokens that joins back to `s`, keeps every `(` as its own
  token and never puts two non-delimiter tokens next to each other.
- `BeliefGrid` has the grid as a value (`seq<seq<TileValue>>`) with writing, clearing and the
  x-major tile list.
- `SightField` applies one content token. It also defines a scan over a list of steps as a left
  fold that stops at the first failure and keeps the writes already made.
- `Perception` instantiates that scan with the fixed schedule of `updateMemoryMap`: 78 tokens and
  35 writes, in order. It proves what a reading does to the grid.
- `Memory` is the class `MemoryMap` over an `array2`. Every method that changes the array is proved
  against the value-level functions through the ghost function `Contents()`.

Java's exceptions become failures that leave everything as it was at the failing step:
`NoSuchElementException` from a short reading, the index exception from `toCharArray()[1]` on a
short token, and `ArrayIndexOutOfBoundsException` from `map[x][y]`. Writes made before the failure
stay, as they do in Java. A content token is decoded from its second character alone. Any further
characters, such as a second object reported for the same cell, are ignored, as in Java (the warning
on `updateSightField`, line 170). Separately, no two steps of one reading share a target: the 35
steps write 35 distinct cells (`Perception.TargetsDistinct`).

## Model

| member | source | states |
|---|---|---|
| `Tiles.CharOf` | memoryAgent/src/MemoryMap.java:21-29 | the code character of each state, as the constants give it; `Nothing` has none |
| `Tiles.CodedStates` | memoryAgent/src/MemoryMap.java:21-29 | exactly `Nothing` has no code character, and every code is one of the nine code characters |
| `Tiles.ValueFromChar` | memoryAgent/src/MemoryMap.java:108-131 | a decoded state's code character is the character decoded; when nothing decodes, no state has that character as its code |
| `Tiles.CodeTableRoundTrip` | memoryAgent/src/MemoryMap.java:21-29 | `c` decodes to `v` exactly when `v`'s code character is `c` |
| `Tiles.CodeTableExact` | memoryAgent/src/MemoryMap.java:108-131 | a character decodes exactly when it is one of the nine code characters; the nine are distinct and decoding is injective on them |
| `Tiles.NothingHasNoCode` | memoryAgent/src/MemoryMap.java:108-131 | no character decodes to `Nothing` |
| `FrameTransform.VisualToActual` | memoryAgent/src/MemoryMap.java:195-209 | the four formulas: the offset of the local cell from (5, 2) as (column distance, row distance), rotated by the compass direction and added to the agent's position |
| `FrameTransform.VisualToActualInverse` | memoryAgent/src/MemoryMap.java:195-209 | the inverse rotation recovers the local cell from its absolute cell |
| `FrameTransform.ActualToVisualInverse` | memoryAgent/src/MemoryMap.java:195-209 | every absolute cell is the image of its local cell (the transform is onto) |
| `FrameTransform.VisualToActualInjective` | memoryAgent/src/MemoryMap.java:195-209 | for one position and direction, distinct local cells land on distinct absolute cells |
| `FrameTransform.VisualToActualKeepsDistance` | memoryAgent/src/MemoryMap.java:195-209 | the Manhattan distance from the agent equals the local distance from the agent's own sensor cell |
| `FrameTransform.OriginIsAgent` | memoryAgent/src/MemoryMap.java:142-144 | the local cell (5, 2) maps to the agent's own position in every direction |
| `FrameTransform.TurnRightRotates` | memoryAgent/src/MemoryMap.java:199-208 | the four formulas are one rotation: turning clockwise turns every absolute offset (dx, dy) into (-dy, dx) |
| `FrameTransform.OneAheadExamples` | memoryAgent/src/MemoryMap.java:199-203 | an agent at (5, 5) sees local cell (6, 2) at (6, 5) facing North and at (5, 6) facing East |
| `Tokenizer.RunLength` | memoryAgent/src/MemoryMap.java:156 | the length of the longest `(`-free prefix: it is `(`-free and followed by `(` or the end |
| `Tokenizer.Tokenize` | memoryAgent/src/MemoryMap.java:156 | the tokens join back to the input, each is `(` or a non-empty `(`-free word, no two words are adjacent, and the first token starts with the input's first character |
| `Tokenizer.TokenizeUnique` | memoryAgent/src/MemoryMap.java:156 | any token list with those properties is the one the tokenizer returns for its join |
| `BeliefGrid.Uniform` | memoryAgent/src/MemoryMap.java:35-45 | the all-`v` grid of the given width and height |
| `BeliefGrid.SetCell` | memoryAgent/src/MemoryMap.java:67-69 | the shape stays, the written cell holds the value, every other cell is unchanged |
| `BeliefGrid.SetThenGet` | memoryAgent/src/MemoryMap.java:82-84 | reading back after a write gives the written value at the written cell and the old state elsewhere |
| `BeliefGrid.Cleared` | memoryAgent/src/MemoryMap.java:55-61 | the same shape with every cell `Unknown` |
| `BeliefGrid.ClearedForgets` | memoryAgent/src/MemoryMap.java:55-61 | two grids of the same shape clear to the same grid, the all-`Unknown` one, whatever they held |
| `BeliefGrid.ClearedIdempotent` | memoryAgent/src/MemoryMap.java:55-61 | clearing twice is clearing once |
| `BeliefGrid.TilesUpToLength` | memoryAgent/src/MemoryMap.java:100-104 | the tiles of the first `n` columns number `n * h` |
| `BeliefGrid.TilesUpToAt` | memoryAgent/src/MemoryMap.java:100-104 | tile (a, b) of the first `n` columns sits at index `a * h + b` and carries its cell's state |
| `BeliefGrid.TilesUpToEntry` | memoryAgent/src/MemoryMap.java:100-104 | every entry of the list is an in-bounds cell of those columns carrying that cell's state |
| `BeliefGrid.AllTilesLayout` | memoryAgent/src/MemoryMap.java:94-106 | the full list has `xDomain * yDomain` tiles, tile (x, y) at index `x * yDomain + y`, each with its cell's state |
| `BeliefGrid.CellAt` | memoryAgent/src/MemoryMap.java:82-84 | the state at (x, y), or `None` outside the grid where Java's index throws |
| `BeliefGrid.AllTiles` | memoryAgent/src/MemoryMap.java:98-106 | the x-major list of all tiles: column 0's tiles for y ascending, then column 1's, and so on |
| `SightField.WriteCell` | memoryAgent/src/MemoryMap.java:67-69 | writes `v` at the cell inside the grid; outside it, fails as out of bounds (the index exception) |
| `SightField.Observation` | memoryAgent/src/MemoryMap.java:179-183 | a token reports `Nothing` exactly when it starts with `)` |
| `SightField.WriteChar` | memoryAgent/src/MemoryMap.java:75-77 | succeeds exactly for a code character at an in-bounds cell, and then writes the decoded state; otherwise fails as out of bounds outside the grid and as an unrecognized code inside it |
| `SightField.ApplyToken` | memoryAgent/src/MemoryMap.java:177-184 | succeeds exactly when the token reports a state and the cell is in the grid, and then writes that state; a short token, an out-of-bounds cell and an unmapped code each fail with their own error |
| `SightField.StepAt` | memoryAgent/src/MemoryMap.java:161-164 | one step of a scan: a missing token fails as a malformed reading, a failing token fails with the grid unchanged, otherwise the grid `ApplyToken` gives |
| `SightField.RunSteps` | memoryAgent/src/MemoryMap.java:154-167 | the first `n` steps as a left fold that stops at the first failure and keeps the writes made before it, as an exception leaving `updateMemoryMap` does |
| `SightField.StepAtSpec` | memoryAgent/src/MemoryMap.java:177-184 | a step goes through exactly when acceptable, keeps the shape, records its observation and changes nothing but its target |
| `SightField.RunFailureSticks` | memoryAgent/src/MemoryMap.java:154-167 | once a step has failed, later steps change neither the grid nor the outcome |
| `SightField.RunTouchesOnlyTargets` | memoryAgent/src/MemoryMap.java:154-167 | a scan, failed or not, keeps the shape and changes only cells some step targets |
| `SightField.RunPassIff` | memoryAgent/src/MemoryMap.java:154-167 | a scan goes through exactly when every one of its steps is acceptable on the starting grid |
| `SightField.RunRecords` | memoryAgent/src/MemoryMap.java:154-167 | after a scan with distinct targets goes through, every target holds its step's observation |
| `Perception.ScanCell` | memoryAgent/src/MemoryMap.java:158-163 | the local cell of scan step `k`: the first five steps are row 6, columns 0 to 4, and each later group of five is the row above |
| `Perception.ContentIndex` | memoryAgent/src/MemoryMap.java:157-162 | the index of the content token read at step `k`: the header, the row delimiter and column delimiter before it, and 11 tokens per earlier row group |
| `Perception.Plan` | memoryAgent/src/MemoryMap.java:157-164 | the 35 steps of a reading: step `k` writes the transformed `ScanCell(k)` from token `ContentIndex(k)`, or has no token if the reading is too short |
| `Perception.RunFrame` | memoryAgent/src/MemoryMap.java:154-167 | `updateMemoryMap` on grid values: all 35 steps of the plan over the start grid |
| `Perception.ScanStep` | memoryAgent/src/MemoryMap.java:158-162 | row `r`, column `c` is step `5 * (6 - r) + c` and reads token `1 + 11 * (6 - r) + 2 + 2 * c` |
| `Perception.ScanOrder` | memoryAgent/src/MemoryMap.java:158-162 | content tokens are read in increasing order, all before token 78, and the scan visits distinct field cells |
| `Perception.ContentIndexBound` | memoryAgent/src/MemoryMap.java:157-162 | every content token index is below 78 and the last one is 77 |
| `Perception.TargetsDistinct` | memoryAgent/src/MemoryMap.java:158-164 | two different steps of one reading never write the same absolute cell |
| `Perception.PlanDistinct` | memoryAgent/src/MemoryMap.java:158-165 | the steps of a reading have pairwise distinct targets |
| `Perception.FramePassIff` | memoryAgent/src/MemoryMap.java:154-167 | a reading goes through exactly when it has at least 78 tokens, every content token reports a state, and every target is in the grid |
| `Perception.ShortReadingFails` | memoryAgent/src/MemoryMap.java:156-162 | a reading of fewer than 78 tokens fails |
| `Perception.FrameEffect` | memoryAgent/src/MemoryMap.java:154-167 | after a reading that goes through, each of the 35 targets holds its token's observation and every other cell keeps its state |
| `Perception.CloseMarkerWritesNothing` | memoryAgent/src/MemoryMap.java:179-181 | after a reading that goes through, a content token starting with `)` leaves its target `Nothing` |
| `Perception.TrailingTokensIgnored` | memoryAgent/src/MemoryMap.java:154-167 | tokens after the 78th never matter |
| `Memory.MemoryMap.constructor` | memoryAgent/src/MemoryMap.java:35-40 | the domains are the arguments and every cell is `Unknown` |
| `Memory.MemoryMap.SetMapUnknown` | memoryAgent/src/MemoryMap.java:42-45 | after writing `Unknown` at every listed tile, the grid is all `Unknown` |
| `Memory.MemoryMap.ClearMemory` | memoryAgent/src/MemoryMap.java:55-61 | the new grid is the cleared old grid |
| `Memory.MemoryMap.SetTile` | memoryAgent/src/MemoryMap.java:67-69 | in range it writes the value at that cell and changes nothing else; out of range it fails and changes nothing |
| `Memory.MemoryMap.SetTileFromChar` | memoryAgent/src/MemoryMap.java:75-77 | the new grid and outcome are those of `WriteChar` on the old grid |
| `Memory.MemoryMap.GetTileValue` | memoryAgent/src/MemoryMap.java:82-84 | the state the array holds at (x, y), `None` out of range |
| `Memory.MemoryMap.GetTile` | memoryAgent/src/MemoryMap.java:90-92 | the tile (x, y) with its current state, `None` out of range |
| `Memory.MemoryMap.GetNumTiles` | memoryAgent/src/MemoryMap.java:94-96 | `xDomain * yDomain` is the length of the tile list |
| `Memory.MemoryMap.GetAllTiles` | memoryAgent/src/MemoryMap.java:98-106 | the loops build the x-major tile list of the current grid |
| `Memory.MemoryMap.UpdateSightField` | memoryAgent/src/MemoryMap.java:177-184 | the new grid and outcome are those of `ApplyToken` at the transformed cell |
| `Memory.MemoryMap.UpdateMemoryMap` | memoryAgent/src/MemoryMap.java:154-167 | the new grid and outcome are those of the 35-step scan `RunFrame` over the tokens of the reading |
| `Memory.MemoryMap.ScanTokens` | memoryAgent/src/MemoryMap.java:157-166 | the nested loops over a token list leave the grid and outcome of `RunFrame` |
| `Memory.MemoryMap.ScanRow` | memoryAgent/src/MemoryMap.java:159-165 | one row group extends the scan by five steps, or leaves the final state of a failed reading |
| `Memory.MemoryMap.ScanColumn` | memoryAgent/src/MemoryMap.java:161-164 | one column entry extends the scan by one step, or leaves the final state of a failed reading |
| `Memory.NextToken` | memoryAgent/src/MemoryMap.java:157-162 | the token at the cursor and the advanced cursor, or `None` once the tokens are used up |
| `Memory.MalformedStops` | memoryAgent/src/MemoryMap.java:161-162 | a missing content token ends the reading with a malformed-reading failure and keeps the earlier writes |
| `Memory.StepTaken` | memoryAgent/src/MemoryMap.java:164 | applying a content token is exactly the next step of the scan, and a failure there ends the reading |

## Left out

- `print()` and `Tile.print`: console output only.
- `getXDomain` and `getYDomain` are the `const` fields `xDomain` and `yDomain`. Java never
  reassigns them.
- The `Point` overloads of `setTile`, `getTileValue` and `getTile`: they forward to the `(x, y)`
  forms, which are modelled.
- `MaedenAgent` and `java.awt.Point` are not part of this model. The agent is reduced to its
  position `(ax, ay)` and a closed `Direction`, so the `default: return null` branch of
  `visualToActual` cannot arise.
- `Memory.MemoryMap.SetTileFromChar`: for an unmapped character at an in-range cell, Java stores
  `null` in the cell and carries on. The model fails with `UnrecognizedTileCode`, writes nothing and,
  inside `UpdateMemoryMap`, stops the scan. Out of range, both fail as out of bounds.
- `Memory.MemoryMap.GetTileValue`: Java throws out of range. The model returns `None` instead.
- `Memory.MemoryMap.constructor`: the sizes are `nat`, because Java throws on a negative array
  size before any state exists.
- `Memory.MemoryMap.GetNumTiles`: Java's `xDomain*yDomain` is a 32-bit `int` product and wraps
  once the grid has more than 2^31 - 1 cells (a 46341 × 46341 map gives -2147479015); the model's
  sizes are unbounded `nat` and its product is exact. The same holds for the `int` sums of
  `visualToActual`, which `FrameTransform.VisualToActual` computes on unbounded integers, and for
  the loop counters of `clearMemory` and `getAllTiles`.
- `Tokenizer.Tokenize`: `StringTokenizer` is a lazy library object. The model computes the whole
  token list up front and reads it with a cursor (`Memory.NextToken`). The effect is the same
  because the tokens depend only on the string.
- `SightField.ApplyToken`: Java's token length and `toCharArray()[1]` count UTF-16 code units; a
  Dafny `char` is a Unicode scalar value. For a token holding a supplementary-plane character the
  two differ: a lone such character is a short token in the model, while Java reads its low surrogate
  (an unmapped code). In a token such as "U+1F600 then `+`" the model decodes `+` where Java decodes a
  surrogate. Sensor readings are ASCII, so this does not arise for them.
- Tile states are stored in an `array2` of the Dafny type. Java's `TileValue[][]` can also hold
  `null`, which only the unmapped-code case above would put there.
