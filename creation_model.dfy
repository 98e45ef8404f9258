/** The building-shell command: find the two levels, lay four walls along the
    closed rectangular footprint, and place a door on the first wall and a
    window on each of the others, activating each opening's symbol on first
    use. */
module CreationModel {
  import opened Geometry
  import opened Lookup
  import opened Host

  const Level1Name: string := "Уровень 1"
  const Level2Name: string := "Уровень 2"

  /** What selects an opening's symbol: its category, type name and family name. */
  datatype OpeningKey = OpeningKey(category: Category, typeName: string, familyName: string)

  const DoorKey: OpeningKey := OpeningKey(Doors, "0915 x 2134 мм", "Одиночные-Щитовые")
  const WindowKey: OpeningKey := OpeningKey(Windows, "0915 x 1830 мм", "Фиксированные")

  /** The null dereference the command dies of: a level or a symbol that the
      lookup did not find. */
  datatype Fault = NullLevel(name: string) | NullSymbol(key: OpeningKey)

  datatype Outcome = Succeeded | Crashed(fault: Fault)

  // ---------------------------------------------------------------------------
  // Lookups

  /** The level named `name` that comes first in collector order, or None. */
  function GetLevelByName(levels: seq<Level>, name: string): (r: Option<Level>)
    ensures r.Some? ==> r.value.name == name
    ensures r.Some? ==> exists k :: 0 <= k < |levels| && levels[k] == r.value &&
                                    forall j :: 0 <= j < k ==> levels[j].name != name
    ensures r.None? <==> forall j :: 0 <= j < |levels| ==> levels[j].name != name
    decreases |levels|
  {
    if |levels| == 0 then None
    else if levels[0].name == name then Some(levels[0])
    else GetLevelByName(levels[1..], name)
  }

  /** GetLevelByName is the collector's first-match lookup with the name
      filter. */
  lemma {:induction false} GetLevelByNameIsFirstMatch(levels: seq<Level>, name: string)
    ensures var r := FirstMatch(levels, (l: Level) => l.name == name);
      GetLevelByName(levels, name) == (if r.Some? then Some(levels[r.value]) else None)
    decreases |levels|
  {
    if |levels| > 0 && levels[0].name != name {
      GetLevelByNameIsFirstMatch(levels[1..], name);
    }
  }

  /** The collector's filters: category, type name and family name. */
  predicate Matches(s: FamilySymbol, key: OpeningKey) {
    s.category == key.category && s.name == key.typeName && s.familyName == key.familyName
  }

  /** The catalog position of the first symbol that passes all three filters,
      or None. */
  function FindSymbol(catalog: seq<FamilySymbol>, key: OpeningKey): (r: Option<nat>)
    ensures r.Some? ==> r.value < |catalog| && Matches(catalog[r.value], key)
    decreases |catalog|
  {
    if |catalog| == 0 then None
    else if Matches(catalog[0], key) then Some(0)
    else match FindSymbol(catalog[1..], key)
      case None => None
      case Some(i) => Some(i + 1)
  }

  /** FindSymbol is the collector's first-match lookup with the three
      filters. */
  lemma {:induction false} FindSymbolIsFirstMatch(catalog: seq<FamilySymbol>, key: OpeningKey)
    ensures FindSymbol(catalog, key) == FirstMatch(catalog, (s: FamilySymbol) => Matches(s, key))
    decreases |catalog|
  {
    if |catalog| > 0 && !Matches(catalog[0], key) {
      FindSymbolIsFirstMatch(catalog[1..], key);
    }
  }

  /** FindSymbol finds the first passing symbol, and finds nothing only when
      no symbol passes. */
  lemma FindSymbolIsFirst(catalog: seq<FamilySymbol>, key: OpeningKey)
    ensures FindSymbol(catalog, key).Some? ==>
      forall j :: 0 <= j < FindSymbol(catalog, key).value ==> !Matches(catalog[j], key)
    ensures FindSymbol(catalog, key).None? <==> forall j :: 0 <= j < |catalog| ==> !Matches(catalog[j], key)
  {
    FindSymbolIsFirstMatch(catalog, key);
  }

  /** A door key and a window key never select the same symbol. */
  lemma DoorAndWindowSymbolsDiffer(catalog: seq<FamilySymbol>)
    requires FindSymbol(catalog, DoorKey).Some? && FindSymbol(catalog, WindowKey).Some?
    ensures FindSymbol(catalog, DoorKey) != FindSymbol(catalog, WindowKey)
  {
  }

  // ---------------------------------------------------------------------------
  // The plan: walls and openings the command creates

  /** The opening policy: the first wall gets the door, every other wall a window. */
  function OpeningKeyFor(wall: nat): (key: OpeningKey)
    ensures key.category == Doors <==> wall == 0
    ensures key.category == Windows <==> wall != 0
  {
    if wall == 0 then DoorKey else WindowKey
  }

  /** One wall per footprint edge, wall i on points[i] -> points[i + 1], based
      on `base` and topped at `top`. */
  function ShellWalls(points: seq<Point>, base: ElementId, top: ElementId): (ws: seq<Wall>)
    requires |points| == 5
    ensures |ws| == 4
  {
    seq(4, i requires 0 <= i < 4 => Wall(points[i], points[i + 1], base, Some(top)))
  }

  /** The openings placed on the first |symbols| walls of `shell`, which sit
      at positions firstWall, firstWall + 1, ... of the document. */
  function ShellOpenings(shell: seq<Wall>, firstWall: nat, symbols: seq<nat>, level: ElementId): (os: seq<Instance>)
    requires |symbols| <= |shell|
    ensures |os| == |symbols|
    decreases |symbols|
  {
    if |symbols| == 0 then []
    else
      var n := |symbols| - 1;
      ShellOpenings(shell, firstWall, symbols[..n], level) +
        [Instance(Midpoint(shell[n].start, shell[n].end), symbols[n], firstWall + n, level)]
  }

  /** The symbols of the openings placed before the command stops: none when
      the door symbol is missing, the door only when the window symbol is
      missing, else door, window, window, window. */
  function PlacedSymbols(door: Option<nat>, window: Option<nat>): seq<nat> {
    if door.None? then []
    else if window.None? then [door.value]
    else [door.value, window.value, window.value, window.value]
  }

  /** The placed symbols for a catalog. */
  function Placed(catalog: seq<FamilySymbol>): seq<nat> {
    PlacedSymbols(FindSymbol(catalog, DoorKey), FindSymbol(catalog, WindowKey))
  }

  /** True when some opening uses the catalog symbol at `symbol`. */
  predicate Uses(openings: seq<Instance>, symbol: nat) {
    exists t :: 0 <= t < |openings| && openings[t].symbol == symbol
  }

  /** What a run of the command leaves behind: its outcome, the walls it
      appended and the openings it appended. */
  datatype Plan = Plan(outcome: Outcome, walls: seq<Wall>, openings: seq<Instance>)

  /** What the wall loop leaves behind, started on a document with
      `firstWall` walls: all four walls and openings, or the walls up to and
      including the one whose opening symbol is missing, each earlier wall
      with its opening. */
  function ShellPlan(catalog: seq<FamilySymbol>, points: seq<Point>, level1: Level, level2: Level, firstWall: nat): Plan
    requires |points| == 5
  {
    var shell := ShellWalls(points, level1.id, level2.id);
    var door := FindSymbol(catalog, DoorKey);
    var window := FindSymbol(catalog, WindowKey);
    var openings := ShellOpenings(shell, firstWall, PlacedSymbols(door, window), level1.id);
    if door.None? then Plan(Crashed(NullSymbol(DoorKey)), shell[..1], openings)
    else if window.None? then Plan(Crashed(NullSymbol(WindowKey)), shell[..2], openings)
    else Plan(Succeeded, shell, openings)
  }

  /** The effect of the whole command, for a footprint of the given width and
      depth, on a document whose levels and catalog are given and which held
      `firstWall` walls before: nothing when a level is missing, else the
      wall loop over the footprint. */
  function ExecutePlan(levels: seq<Level>, catalog: seq<FamilySymbol>, width: real, depth: real, firstWall: nat): Plan {
    var level1 := GetLevelByName(levels, Level1Name);
    var level2 := GetLevelByName(levels, Level2Name);
    if level1.None? then Plan(Crashed(NullLevel(Level1Name)), [], [])
    else if level2.None? then Plan(Crashed(NullLevel(Level2Name)), [], [])
    else ShellPlan(catalog, Footprint(width, depth), level1.value, level2.value, firstWall)
  }

  /** A symbol's activation flag and activation count after a run in which
      it was `used` or not: it is active afterwards if it was or if it was
      used, and Activate was called on it once exactly when it was used
      while inactive. */
  ghost predicate ActivatedLazily(s: FamilySymbol, wasActive: bool, wasActivations: nat, used: bool)
    reads s
  {
    s.isActive == (wasActive || used) &&
    s.activations == wasActivations + (if used && !wasActive then 1 else 0)
  }

  // ---------------------------------------------------------------------------
  // Properties of the plan

  /** The walls laid along any five points chain end to start, close into a
      loop when the last point is the first, and all run from `base` up to
      `top`. */
  lemma ShellWallsConnected(points: seq<Point>, base: ElementId, top: ElementId)
    requires |points| == 5
    ensures var ws := ShellWalls(points, base, top);
      ws[0].end == ws[1].start && ws[1].end == ws[2].start && ws[2].end == ws[3].start &&
      (points[4] == points[0] ==> ws[3].end == ws[0].start) &&
      forall i :: 0 <= i < 4 ==> ws[i].baseLevel == base && ws[i].topLevel == Some(top)
  {
  }

  /** Opening i uses symbols[i], is hosted by wall i (document position
      firstWall + i), sits on `level`, and lies halfway along wall i. */
  lemma {:induction false} ShellOpeningsAt(shell: seq<Wall>, firstWall: nat, symbols: seq<nat>, level: ElementId)
    requires |symbols| <= |shell|
    ensures var os := ShellOpenings(shell, firstWall, symbols, level);
      forall i :: 0 <= i < |symbols| ==>
        os[i].host == firstWall + i && os[i].symbol == symbols[i] && os[i].level == level &&
        os[i].location == Midpoint(shell[i].start, shell[i].end) &&
        Sub(os[i].location, shell[i].start) == Sub(shell[i].end, os[i].location)
    decreases |symbols|
  {
    if |symbols| > 0 {
      var n := |symbols| - 1;
      ShellOpeningsAt(shell, firstWall, symbols[..n], level);
    }
  }

  /** The openings for a prefix of the placed symbols are that prefix of the
      openings. */
  lemma ShellOpeningsPrefix(shell: seq<Wall>, firstWall: nat, symbols: seq<nat>, i: nat, level: ElementId)
    requires i <= |symbols| <= |shell|
    ensures ShellOpenings(shell, firstWall, symbols[..i], level) == ShellOpenings(shell, firstWall, symbols, level)[..i]
  {
    ShellOpeningsAt(shell, firstWall, symbols[..i], level);
    ShellOpeningsAt(shell, firstWall, symbols, level);
  }

  /** The symbols used by a run's openings are the placed symbols. */
  lemma UsesPlaced(shell: seq<Wall>, firstWall: nat, symbols: seq<nat>, level: ElementId)
    requires |symbols| <= |shell|
    ensures forall symbol :: Uses(ShellOpenings(shell, firstWall, symbols, level), symbol) <==> symbol in symbols
  {
    var os := ShellOpenings(shell, firstWall, symbols, level);
    ShellOpeningsAt(shell, firstWall, symbols, level);
    forall symbol | symbol in symbols
      ensures Uses(os, symbol)
    {
      var t :| 0 <= t < |symbols| && symbols[t] == symbol;
      assert os[t].symbol == symbol;
    }
  }

  /** The command succeeds exactly when both levels and both opening symbols exist. */
  lemma ExecuteSucceedsIff(levels: seq<Level>, catalog: seq<FamilySymbol>, width: real, depth: real, firstWall: nat)
    ensures ExecutePlan(levels, catalog, width, depth, firstWall).outcome == Succeeded <==>
      (exists i :: 0 <= i < |levels| && levels[i].name == Level1Name) &&
      (exists i :: 0 <= i < |levels| && levels[i].name == Level2Name) &&
      (exists j :: 0 <= j < |catalog| && Matches(catalog[j], DoorKey)) &&
      (exists j :: 0 <= j < |catalog| && Matches(catalog[j], WindowKey))
  {
    FindSymbolIsFirst(catalog, DoorKey);
    FindSymbolIsFirst(catalog, WindowKey);
  }

  /** The walls laid along the footprint close into a loop, each wall's end
      being the next wall's start, and run +width along x, +depth along y,
      -width along x and -depth along y. */
  lemma FootprintWalls(width: real, depth: real, base: ElementId, top: ElementId)
    ensures var ws := ShellWalls(Footprint(width, depth), base, top);
      (forall i :: 0 <= i < 4 ==> ws[i].end == ws[(i + 1) % 4].start) &&
      Sub(ws[0].end, ws[0].start) == Point(width, 0.0, 0.0) &&
      Sub(ws[1].end, ws[1].start) == Point(0.0, depth, 0.0) &&
      Sub(ws[2].end, ws[2].start) == Point(-width, 0.0, 0.0) &&
      Sub(ws[3].end, ws[3].start) == Point(0.0, -depth, 0.0)
  {
    var pts := Footprint(width, depth);
    var ws := ShellWalls(pts, base, top);
    assert forall i :: 0 <= i < 4 ==> ws[i].start == pts[i] && ws[i].end == pts[i + 1];
  }

  /** The openings on the footprint walls sit at the edge midpoints
      (0, -dy), (dx, 0), (0, dy) and (-dx, 0). */
  lemma FootprintOpeningLocations(width: real, depth: real, base: ElementId, top: ElementId,
                                  firstWall: nat, symbols: seq<nat>, level: ElementId)
    requires |symbols| == 4
    ensures var os := ShellOpenings(ShellWalls(Footprint(width, depth), base, top), firstWall, symbols, level);
      os[0].location == Point(0.0, -depth / 2.0, 0.0) &&
      os[1].location == Point(width / 2.0, 0.0, 0.0) &&
      os[2].location == Point(0.0, depth / 2.0, 0.0) &&
      os[3].location == Point(-width / 2.0, 0.0, 0.0)
  {
    var pts := Footprint(width, depth);
    var ws := ShellWalls(pts, base, top);
    ShellOpeningsAt(ws, firstWall, symbols, level);
    assert forall i :: 0 <= i < 4 ==> ws[i].start == pts[i] && ws[i].end == pts[i + 1];
  }

  /** A successful run appends the four footprint walls from level 1 up to
      level 2, and on them four openings in wall order whose symbols match
      the opening policy: a door on the first wall, windows on the rest. */
  lemma SucceededShell(levels: seq<Level>, catalog: seq<FamilySymbol>, width: real, depth: real, firstWall: nat)
    requires ExecutePlan(levels, catalog, width, depth, firstWall).outcome == Succeeded
    ensures var plan := ExecutePlan(levels, catalog, width, depth, firstWall);
      var level1 := GetLevelByName(levels, Level1Name);
      var level2 := GetLevelByName(levels, Level2Name);
      level1.Some? && level2.Some? &&
      plan.walls == ShellWalls(Footprint(width, depth), level1.value.id, level2.value.id) &&
      |plan.openings| == 4 &&
      (forall i :: 0 <= i < 4 ==> plan.openings[i].host == firstWall + i && plan.openings[i].level == level1.value.id) &&
      (forall i :: 0 <= i < 4 ==>
        plan.openings[i].symbol < |catalog| && Matches(catalog[plan.openings[i].symbol], OpeningKeyFor(i))) &&
      (forall i :: 0 <= i < 4 ==> (catalog[plan.openings[i].symbol].category == Doors <==> i == 0))
  {
    var plan := ExecutePlan(levels, catalog, width, depth, firstWall);
    var level1 := GetLevelByName(levels, Level1Name).value;
    var level2 := GetLevelByName(levels, Level2Name).value;
    var shell := ShellWalls(Footprint(width, depth), level1.id, level2.id);
    var door := FindSymbol(catalog, DoorKey).value;
    var window := FindSymbol(catalog, WindowKey).value;
    var symbols := [door, window, window, window];
    assert plan.openings == ShellOpenings(shell, firstWall, symbols, level1.id);
    ShellOpeningsAt(shell, firstWall, symbols, level1.id);
    forall i | 0 <= i < 4
      ensures plan.openings[i].symbol < |catalog| && Matches(catalog[plan.openings[i].symbol], OpeningKeyFor(i))
    {
      if i == 0 {
        assert plan.openings[i].symbol == door;
      } else {
        assert plan.openings[i].symbol == window;
      }
    }
  }

  /** A run that dies on a missing symbol has created the wall whose opening
      failed, and every wall before it carries its opening; a run that dies on
      a missing level has created nothing. */
  lemma CrashedShell(levels: seq<Level>, catalog: seq<FamilySymbol>, width: real, depth: real, firstWall: nat)
    ensures var plan := ExecutePlan(levels, catalog, width, depth, firstWall);
      plan.outcome.Crashed? && plan.outcome.fault.NullLevel? ==>
        plan.walls == [] && plan.openings == [] &&
        GetLevelByName(levels, plan.outcome.fault.name).None?
    ensures var plan := ExecutePlan(levels, catalog, width, depth, firstWall);
      plan.outcome.Crashed? && plan.outcome.fault.NullSymbol? ==>
        |plan.walls| == |plan.openings| + 1 &&
        plan.outcome.fault.key == OpeningKeyFor(|plan.openings|) &&
        FindSymbol(catalog, plan.outcome.fault.key).None?
  {
  }

  /** The lookup for wall i's opening succeeds exactly when the placed
      symbols reach past i, and then finds placed[i]. */
  lemma PlacedAt(catalog: seq<FamilySymbol>, i: nat)
    requires i < 4 && i <= |Placed(catalog)|
    ensures var found := FindSymbol(catalog, OpeningKeyFor(i));
      (found.Some? <==> i < |Placed(catalog)|) && (found.Some? ==> Placed(catalog)[i] == found.value)
  {
  }

  /** The wall loop's plan in terms of the placed symbols: it stops at the
      first wall whose symbol is missing. */
  lemma ShellPlanByPlaced(catalog: seq<FamilySymbol>, points: seq<Point>, level1: Level, level2: Level, firstWall: nat)
    requires |points| == 5
    ensures var plan := ShellPlan(catalog, points, level1, level2, firstWall);
      var shell := ShellWalls(points, level1.id, level2.id);
      var placed := Placed(catalog);
      plan.openings == ShellOpenings(shell, firstWall, placed, level1.id) &&
      plan.walls == (if |placed| == 4 then shell else shell[..|placed| + 1]) &&
      plan.outcome == (if |placed| == 4 then Succeeded else Crashed(NullSymbol(OpeningKeyFor(|placed|))))
  {
  }

  /** Wall i of the shell lies on the footprint edge points[i] -> points[i + 1]. */
  lemma ShellWallAt(points: seq<Point>, base: ElementId, top: ElementId, i: nat)
    requires |points| == 5 && i < 4
    ensures ShellWalls(points, base, top)[i] == Wall(points[i], points[i + 1], base, Some(top))
  {
  }

  /** Extending a prefix of `s` appended to `a` by the next element of `s`. */
  lemma AppendNext<T>(a: seq<T>, s: seq<T>, i: nat)
    requires i < |s|
    ensures a + s[..i] + [s[i]] == a + s[..i + 1]
  {
    assert s[..i + 1] == s[..i] + [s[i]];
  }

  /** The elements of a prefix grown by one. */
  lemma PrefixStep<T>(s: seq<T>, i: nat)
    requires i < |s|
    ensures forall x :: x in s[..i + 1] <==> x in s[..i] || x == s[i]
  {
    assert s[..i + 1] == s[..i] + [s[i]];
  }

  /** Placing the opening of wall i extends the openings of the first i
      placed symbols to those of the first i + 1. */
  lemma OpeningsStep(before: seq<Instance>, base: seq<Instance>, points: seq<Point>, level1: ElementId, level2: ElementId,
                     firstWall: nat, symbols: seq<nat>, i: nat, next: Instance)
    requires |points| == 5 && i < |symbols| <= 4
    requires before == base + ShellOpenings(ShellWalls(points, level1, level2), firstWall, symbols[..i], level1)
    requires next == Instance(Midpoint(points[i], points[i + 1]), symbols[i], firstWall + i, level1)
    ensures before + [next] == base + ShellOpenings(ShellWalls(points, level1, level2), firstWall, symbols[..i + 1], level1)
  {
    assert symbols[..i + 1][..i] == symbols[..i];
    ShellWallAt(points, level1, level2, i);
  }

  // ---------------------------------------------------------------------------
  // The command

  /** A wall on point1 -> point2 based on level1Id, its height then tied to
      level2Id. */
  method CreateWallByPoints(document: Document, point1: Point, point2: Point, level1Id: ElementId, level2Id: ElementId)
    returns (wall: nat)
    requires document.Valid()
    modifies document
    ensures document.Valid()
    ensures wall == |old(document.walls)|
    ensures document.walls == old(document.walls) + [Wall(point1, point2, level1Id, Some(level2Id))]
    ensures document.instances == old(document.instances)
  {
    wall := document.CreateWall(point1, point2, level1Id);
    document.SetHeightType(wall, level2Id);
  }

  /** Find the opening's symbol, activate it if it is inactive, and place an
      instance of it halfway along the wall, on level1. A missing symbol
      crashes before anything changes. */
  method AddDoorOrWindow(document: Document, level1: Level, wall: nat, builtInCategory: Category, typeName: string, familyName: string)
    returns (r: Outcome)
    requires document.Valid() && document.Unique() && wall < |document.walls|
    modifies document, document.catalog
    ensures document.Valid() && document.walls == old(document.walls)
    ensures var found := FindSymbol(document.catalog, OpeningKey(builtInCategory, typeName, familyName));
      found.None? ==>
        r == Crashed(NullSymbol(OpeningKey(builtInCategory, typeName, familyName))) &&
        document.instances == old(document.instances)
    ensures var found := FindSymbol(document.catalog, OpeningKey(builtInCategory, typeName, familyName));
      found.Some? ==>
        r == Succeeded &&
        document.instances == old(document.instances) +
          [Instance(Midpoint(document.walls[wall].start, document.walls[wall].end), found.value, wall, level1.id)]
    ensures var found := FindSymbol(document.catalog, OpeningKey(builtInCategory, typeName, familyName));
      forall j :: 0 <= j < |document.catalog| ==>
        ActivatedLazily(document.catalog[j], old(document.catalog[j].isActive), old(document.catalog[j].activations),
                        found == Some(j))
  {
    var found := FindSymbol(document.catalog, OpeningKey(builtInCategory, typeName, familyName));
    if found.None? {
      // the null symbol is dereferenced by its IsActive test
      return Crashed(NullSymbol(OpeningKey(builtInCategory, typeName, familyName)));
    }
    var familySymbol := document.catalog[found.value];
    if !familySymbol.isActive {
      familySymbol.Activate();
    }
    var point1 := document.walls[wall].start;
    var point2 := document.walls[wall].end;
    var point := Midpoint(point1, point2);
    document.NewFamilyInstance(point, found.value, wall, level1.id);
    r := Succeeded;
  }

  /** One pass of the wall loop, for wall i: the wall on points[i] ->
      points[i + 1], then its door (i = 0) or window. Stated as the step of
      the loop's invariant: the document holds the first i (or i + 1) walls
      and openings of the plan, and the symbols used so far were activated
      lazily since the start of the loop (`wasActive`, `wasActivations`). */
  method AddWallWithOpening(document: Document, points: seq<Point>, i: nat, level1: Level, level2: Level,
                            ghost placed: seq<nat>, ghost walls0: seq<Wall>, ghost instances0: seq<Instance>,
                            ghost wasActive: seq<bool>, ghost wasActivations: seq<nat>) returns (r: Outcome)
    requires document.Valid() && document.Unique() && |points| == 5 && i < 4
    requires placed == Placed(document.catalog) && i <= |placed|
    requires document.walls == walls0 + ShellWalls(points, level1.id, level2.id)[..i]
    requires document.instances ==
      instances0 + ShellOpenings(ShellWalls(points, level1.id, level2.id), |walls0|, placed[..i], level1.id)
    requires |wasActive| == |wasActivations| == |document.catalog|
    requires forall j :: 0 <= j < |document.catalog| ==>
      ActivatedLazily(document.catalog[j], wasActive[j], wasActivations[j], j in placed[..i])
    modifies document, document.catalog
    ensures document.Valid()
    ensures document.walls == walls0 + ShellWalls(points, level1.id, level2.id)[..i + 1]
    ensures r.Succeeded? <==> i < |placed|
    ensures r.Crashed? ==> r == Crashed(NullSymbol(OpeningKeyFor(i)))
    ensures r.Crashed? ==> document.instances == old(document.instances)
    ensures r.Crashed? ==> forall j :: 0 <= j < |document.catalog| ==>
      ActivatedLazily(document.catalog[j], wasActive[j], wasActivations[j], j in placed[..i])
    ensures r.Succeeded? ==>
      document.instances ==
        instances0 + ShellOpenings(ShellWalls(points, level1.id, level2.id), |walls0|, placed[..i + 1], level1.id)
    ensures r.Succeeded? ==> forall j :: 0 <= j < |document.catalog| ==>
      ActivatedLazily(document.catalog[j], wasActive[j], wasActivations[j], j in placed[..i + 1])
  {
    ghost var before := document.instances;
    var wall := CreateWallByPoints(document, points[i], points[i + 1], level1.id, level2.id);
    ShellWallAt(points, level1.id, level2.id, i);
    AppendNext(walls0, ShellWalls(points, level1.id, level2.id), i);
    PlacedAt(document.catalog, i);
    if i == 0 {
      r := AddDoorOrWindow(document, level1, wall, Doors, DoorKey.typeName, DoorKey.familyName);
    } else {
      r := AddDoorOrWindow(document, level1, wall, Windows, WindowKey.typeName, WindowKey.familyName);
    }
    if r.Succeeded? {
      PrefixStep(placed, i);
      OpeningsStep(before, instances0, points, level1.id, level2.id, |walls0|, placed, i, document.instances[|before|]);
    }
  }

  /** The wall loop over the four footprint edges, once both levels are
      known. It stops at the first wall whose opening symbol is missing,
      with that wall created; the openings of the walls before it are in
      place, and exactly the placed symbols were activated, each only if it
      was inactive when the loop started (`wasActive`, `wasActivations`). */
  method BuildShell(document: Document, points: seq<Point>, level1: Level, level2: Level) returns (r: Outcome)
    requires document.Valid() && document.Unique() && |points| == 5
    modifies document, document.catalog
    ensures document.Valid()
    ensures r.Succeeded? <==> |Placed(document.catalog)| == 4
    ensures r.Crashed? ==> r == Crashed(NullSymbol(OpeningKeyFor(|Placed(document.catalog)|)))
    ensures document.walls == old(document.walls) +
      ShellWalls(points, level1.id, level2.id)[..if r.Succeeded? then 4 else |Placed(document.catalog)| + 1]
    ensures document.instances == old(document.instances) +
      ShellOpenings(ShellWalls(points, level1.id, level2.id), |old(document.walls)|, Placed(document.catalog), level1.id)
    ensures forall j :: 0 <= j < |document.catalog| ==>
      ActivatedLazily(document.catalog[j], old(document.catalog[j].isActive), old(document.catalog[j].activations),
                      j in Placed(document.catalog))
  {
    ghost var wasActive :=
      seq(|document.catalog|, j requires 0 <= j < |document.catalog| reads document.catalog => document.catalog[j].isActive);
    ghost var wasActivations :=
      seq(|document.catalog|, j requires 0 <= j < |document.catalog| reads document.catalog => document.catalog[j].activations);
    ghost var firstWall := |document.walls|;
    ghost var shell := ShellWalls(points, level1.id, level2.id);
    ghost var placed := Placed(document.catalog);
    var i := 0;
    while i < 4
      invariant 0 <= i <= 4 && i <= |placed|
      invariant document.Valid()
      invariant document.walls == old(document.walls) + shell[..i]
      invariant document.instances == old(document.instances) + ShellOpenings(shell, firstWall, placed[..i], level1.id)
      invariant forall j :: 0 <= j < |document.catalog| ==>
        ActivatedLazily(document.catalog[j], wasActive[j], wasActivations[j], j in placed[..i])
    {
      r := AddWallWithOpening(document, points, i, level1, level2, placed, old(document.walls), old(document.instances),
                              wasActive, wasActivations);
      if r.Crashed? {
        assert placed[..i] == placed;
        return;
      }
      i := i + 1;
    }
    assert placed[..4] == placed;
    r := Succeeded;
  }

  /** The command: look up both levels, build the footprint points, then run
      the wall loop. A missing level crashes on the first pass of the loop,
      before anything is created. `width` and `depth` are the footprint's
      10000 mm and 5000 mm in the host's internal length unit. */
  method Execute(document: Document, width: real, depth: real) returns (r: Outcome)
    requires document.Valid() && document.Unique()
    modifies document, document.catalog
    ensures document.Valid()
    ensures r == ExecutePlan(document.levels, document.catalog, width, depth, |old(document.walls)|).outcome
    ensures document.walls ==
      old(document.walls) + ExecutePlan(document.levels, document.catalog, width, depth, |old(document.walls)|).walls
    ensures document.instances ==
      old(document.instances) + ExecutePlan(document.levels, document.catalog, width, depth, |old(document.walls)|).openings
    ensures var plan := ExecutePlan(document.levels, document.catalog, width, depth, |old(document.walls)|);
      forall j :: 0 <= j < |document.catalog| ==>
        ActivatedLazily(document.catalog[j], old(document.catalog[j].isActive), old(document.catalog[j].activations),
                        Uses(plan.openings, j))
  {
    var level1 := GetLevelByName(document.levels, Level1Name);
    var level2 := GetLevelByName(document.levels, Level2Name);

    var dx := width / 2.0;
    var dy := depth / 2.0;
    var points: seq<Point> := [];
    points := points + [Point(-dx, -dy, 0.0)];
    points := points + [Point(dx, -dy, 0.0)];
    points := points + [Point(dx, dy, 0.0)];
    points := points + [Point(-dx, dy, 0.0)];
    points := points + [Point(-dx, -dy, 0.0)];
    assert points == Footprint(width, depth);

    // The first pass of the loop reads level1's id, then level2's.
    if level1.None? {
      return Crashed(NullLevel(Level1Name));
    }
    if level2.None? {
      return Crashed(NullLevel(Level2Name));
    }
    ghost var shell := ShellWalls(points, level1.value.id, level2.value.id);
    ShellPlanByPlaced(document.catalog, points, level1.value, level2.value, |document.walls|);
    UsesPlaced(shell, |document.walls|, Placed(document.catalog), level1.value.id);
    r := BuildShell(document, points, level1.value, level2.value);
  }
}
