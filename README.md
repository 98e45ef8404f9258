# CreationModel — a verified model of the building-shell command

The `CreationModel` Revit command builds a small building shell. It looks up
the levels "Уровень 1" and "Уровень 2". It lays four walls along a closed
10000 mm × 5000 mm rectangle centred at the origin, each based on level 1
with its height tied to level 2. Right after creating each wall it places an
opening halfway along that wall: a door ("0915 x 2134 мм" of the family
"Одиночные-Щитовые") on the first wall, and a window ("0915 x 1830 мм" of
"Фиксированные") on each of the other three. An opening's family symbol is
activated only if it is not active yet.

The model has four modules:

- `Geometry` (`geometry.dfy`): points with exact `real` coordinates, the
  midpoint of a wall's base line, and the five-point footprint. Lemmas give
  its corners and its enclosed area.
- `Lookup` (`lookup.dfy`): `FirstMatch`, the collector-then-`FirstOrDefault`
  idiom, as a reference definition of "first element in collector order
  that passes the filters".
- `Host` (`host.dfy`): the part of the host document the command touches.
  `Document` is a class with its levels, its catalog of `FamilySymbol`
  objects, and the walls and instances the command appends. `FamilySymbol`
  is a class whose activation flag is updated in place; a ghost counter
  records how often `Activate` was called. The host's constructors
  (`Wall.Create`, the height-type parameter, `NewFamilyInstance`,
  `Activate`) are methods that record data.
- `CreationModel` (`creation_model.dfy`): the command itself. `Execute`,
  `CreateWallByPoints` and `AddDoorOrWindow` are methods on the document,
  and the wall loop is a `while` loop. They are proved against the
  specification function `ExecutePlan`. That function gives the outcome, the
  walls appended and the openings appended, and the lemmas state the
  command's properties about it.

The code never tests for null. A missing level is dereferenced when the
first wall is created (line 43). A missing symbol is dereferenced by its
`IsActive` test (line 67). The model makes this explicit as the outcome
`Crashed(NullLevel(name))` or `Crashed(NullSymbol(key))`, with the document
exactly as it was at the moment of the exception. A missing level crashes
before any wall exists. A missing door symbol crashes after the first wall.
A missing window symbol crashes after the first wall with its door and the
second wall.

Where the behaviour described for this system differs from the code, the
model follows the code:

- The names are the Cyrillic strings in the code.
- Each opening is placed right after its own wall, not after all four walls.
- There is no geometry or activation error. The only failures are the two
  null dereferences.
- Nothing is rolled back by the command itself.

The model also states how often symbols are activated. Over a whole run,
`Activate` is called at most once per symbol, even though the window symbol
serves three windows (`Execute`, with `ActivatedLazily` and `Uses`).

## Model

| member | source | states |
|---|---|---|
| Geometry.Midpoint | CreationModel/CreationModel.cs:70-73 | the insertion point splits the wall's base line into two equal steps |
| Geometry.MidpointUnique | CreationModel/CreationModel.cs:73 | a point that splits the segment into two equal steps is `(p1 + p2) / 2`, so the midpoint is determined |
| Geometry.Footprint | CreationModel/CreationModel.cs:27-35 | five points in the plane z = 0 with the last equal to the first (a closed loop), starting at (-width/2, -depth/2); the edges run +width along x, +depth along y, -width along x and -depth along y; the four corners are centred at the origin |
| Geometry.FootprintCorners | CreationModel/CreationModel.cs:27-35 | every point is a corner (±dx, ±dy) with dx = width/2 and dy = depth/2, and for positive width and depth the four corners are pairwise distinct |
| Geometry.FootprintArea | CreationModel/CreationModel.cs:30-35 | the shoelace sum of the loop is 2 · width · depth, so the rectangle encloses width × depth, counter-clockwise for positive width and depth |
| Lookup.FirstMatch | CreationModel/CreationModel.cs:59-65 | the result passes the filter, no earlier element passes it, and the result is absent exactly when no element passes |
| Lookup.FirstMatchIsFirst | CreationModel/CreationModel.cs:59-65 | conversely, the first passing element is what the lookup returns |
| CreationModel.GetLevelByName | CreationModel/CreationModel.cs:78-87 | the returned level has the name, it is the first level with that name, and the result is absent exactly when no level has the name |
| CreationModel.GetLevelByNameIsFirstMatch | CreationModel/CreationModel.cs:80-84 | the level lookup is the first-match reference lookup with the name filter |
| CreationModel.FindSymbol | CreationModel/CreationModel.cs:59-65 | a found symbol passes the category, type-name and family-name filters |
| CreationModel.FindSymbolIsFirstMatch | CreationModel/CreationModel.cs:59-65 | the symbol lookup is the first-match reference lookup with the three filters |
| CreationModel.FindSymbolIsFirst | CreationModel/CreationModel.cs:59-65 | no earlier symbol passes the filters, and nothing is found exactly when no symbol passes them |
| CreationModel.DoorAndWindowSymbolsDiffer | CreationModel/CreationModel.cs:46-48 | the door filter and the window filter never select the same symbol |
| CreationModel.OpeningKeyFor | CreationModel/CreationModel.cs:45-48 | the opening is a door exactly on wall 0 and a window exactly on the other walls |
| CreationModel.ShellWallsConnected | CreationModel/CreationModel.cs:41-44 | the four walls chain end to start, close into a loop when the last point is the first, and all have base level level1 and top level level2 |
| CreationModel.ShellWallAt | CreationModel/CreationModel.cs:43 | wall i lies on points[i] -> points[i + 1] |
| CreationModel.ShellOpeningsAt | CreationModel/CreationModel.cs:70-75 | opening i uses the i-th symbol, is hosted by wall i, sits on level1, and lies at the midpoint of wall i |
| CreationModel.ShellOpeningsPrefix | CreationModel/CreationModel.cs:41-48 | the openings placed before a stop are a prefix of the openings of a full run |
| CreationModel.UsesPlaced | CreationModel/CreationModel.cs:45-48 | a symbol is used by some placed opening exactly when it is one of the placed symbols |
| CreationModel.ExecuteSucceedsIff | CreationModel/CreationModel.cs:17-55 | the command completes exactly when both levels and both the door symbol and the window symbol exist |
| CreationModel.FootprintWalls | CreationModel/CreationModel.cs:30-44 | on the footprint, wall i's end is wall ((i + 1) mod 4)'s start, and the walls run +width, +depth, -width, -depth |
| CreationModel.FootprintOpeningLocations | CreationModel/CreationModel.cs:41-48 | on the footprint, the four openings sit at (0, -dy), (dx, 0), (0, dy) and (-dx, 0) |
| CreationModel.SucceededShell | CreationModel/CreationModel.cs:41-50 | a completed run appends the four footprint walls from level 1 to level 2 and four openings, one per wall in wall order, on level 1: a door on wall 0 and windows on walls 1-3, each matching its filters |
| CreationModel.CrashedShell | CreationModel/CreationModel.cs:41-48 | a missing level crashes before anything is created; a missing symbol crashes with one more wall than openings, on the first wall whose symbol is missing |
| CreationModel.PlacedAt | CreationModel/CreationModel.cs:45-48 | the lookup for wall i's opening finds a symbol exactly when the run gets past wall i, and finds the door for wall 0 and the window for the others |
| CreationModel.ShellPlanByPlaced | CreationModel/CreationModel.cs:41-50 | the wall loop stops at the first wall whose symbol is missing, with that wall created and every earlier wall carrying its opening |
| CreationModel.OpeningsStep | CreationModel/CreationModel.cs:45-48 | placing wall i's opening extends the openings of the first i walls to those of the first i + 1 |
| CreationModel.CreateWallByPoints | CreationModel/CreationModel.cs:98-104 | appends exactly one wall on point1 -> point2 with base level1Id and top level2Id, returns its position, and leaves the instances as they were |
| CreationModel.AddDoorOrWindow | CreationModel/CreationModel.cs:57-76 | with no matching symbol it crashes and changes nothing; otherwise it appends one instance of the first matching symbol at the wall's midpoint, hosted by the wall on level1; the symbol found ends up active, `Activate` was called once if it was inactive and not at all otherwise, and every other symbol is unchanged |
| CreationModel.AddWallWithOpening | CreationModel/CreationModel.cs:43-48 | one pass of the loop keeps the loop invariant: the document holds the first i + 1 walls and the openings of the walls that got one, and exactly the symbols used so far were activated lazily |
| CreationModel.BuildShell | CreationModel/CreationModel.cs:41-50 | the wall loop stops at the first wall whose symbol is missing, with that wall created; it appends the walls and the openings of the placed symbols; each placed symbol is activated only if it was inactive, and every other symbol is unchanged |
| CreationModel.Execute | CreationModel/CreationModel.cs:17-55 | the outcome, the walls appended and the instances appended are those of `ExecutePlan`; a symbol ends up active exactly if it was or some placed opening uses it, and `Activate` was called on it at most once |
| Host.FamilySymbol.Activate | CreationModel/CreationModel.cs:67-68 | the symbol is active afterwards and one more activation is recorded |
| Host.Document.CreateWall | CreationModel/CreationModel.cs:100-101 | appends one wall on the line with the base level and an unconnected top; the instances are unchanged |
| Host.Document.SetHeightType | CreationModel/CreationModel.cs:102 | only the wall's top level changes, to the given level |
| Host.Document.NewFamilyInstance | CreationModel/CreationModel.cs:75 | appends exactly one instance of an active symbol, hosted by an existing wall; the walls are unchanged |

## Left out

- The command plumbing (`IExternalCommand`, `ExternalCommandData`, `UIDocument`, `Result`, lines 14-20 and 54) is host glue. `Execute` takes the document directly and returns `Succeeded` or the crash.
- The `Transaction` (lines 39-40, 52) is not modelled. A crashed outcome describes the document inside the open transaction at the moment of the exception. The host's rollback of an uncommitted transaction is outside the command's code.
- `UnitUtils.ConvertToInternalUnits` (lines 25-26) is a foreign call. `Execute` takes the converted width and depth as inputs.
- Floating-point rounding of `XYZ` arithmetic is not modelled: coordinates are exact `real`s.
- `Line.CreateBound` rejects degenerate lines inside the host library. That check is not shown by the code and is not modelled. The footprint's edges are non-degenerate for a positive width and depth (`FootprintCorners`).
- `StructuralType.NonStructural`, passed to `NewFamilyInstance`, is not recorded on the instance.
- The levels' elevations and the walls' other parameters play no part in the code and are not modelled.
- `GetFamilySymbolByName` (lines 88-97) is dead code, a duplicate of the level lookup that is never called, and is not modelled.
- The local `walls` list (lines 37 and 44) only mirrors the document's walls. `walls[i]` is the wall just created, so the model passes that wall directly.
- The wall loop of lines 41-50 is written as its own method, `BuildShell`, with one pass of its body as `AddWallWithOpening`. This keeps each proof small. Its behaviour is the same as the loop inside `Execute`.
- The model requires each catalog entry to be a distinct symbol object (`Document.Unique`), as the host's collector yields each element once.
