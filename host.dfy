/** The part of the host building model the command touches: levels, the
    catalog of loadable family symbols with their activation flags, and the
    walls and family instances the command adds. The host's constructors
    (`Wall.Create`, the wall's height-type parameter, `NewFamilyInstance`,
    `FamilySymbol.Activate`) are modelled as methods that record data. */
module Host {
  import opened Geometry
  import opened Lookup

  /** Element ids of levels. */
  type ElementId = nat

  /** A level: its id and its name; its elevation plays no part here. */
  datatype Level = Level(id: ElementId, name: string)

  /** Built-in categories of catalog symbols. */
  datatype Category = Doors | Windows | OtherCategory

  /** A wall: the end points of its base line, its base level, and the level
      its height-type parameter points at (None while the height is
      unconnected, as `Wall.Create` leaves it). */
  datatype Wall = Wall(start: Point, end: Point, baseLevel: ElementId, topLevel: Option<ElementId>)

  /** A placed family instance: insertion point, symbol (a catalog position),
      host wall (a position in the document's walls) and level. */
  datatype Instance = Instance(location: Point, symbol: nat, host: nat, level: ElementId)

  /** A family symbol (a door or window type) of the catalog. Its activation
      flag is shared, process-wide state; `activations` counts the calls to
      Activate. */
  class FamilySymbol {
    const category: Category
    const name: string
    const familyName: string
    var isActive: bool
    ghost var activations: nat

    constructor (category: Category, name: string, familyName: string, isActive: bool)
      ensures this.category == category && this.name == name && this.familyName == familyName
      ensures this.isActive == isActive && activations == 0
    {
      this.category := category;
      this.name := name;
      this.familyName := familyName;
      this.isActive := isActive;
      activations := 0;
    }

    /** The host's `Activate()`: the symbol becomes usable for placement. */
    method Activate()
      modifies this
      ensures isActive && activations == old(activations) + 1
    {
      isActive := true;
      activations := activations + 1;
    }
  }

  /** The host document. Walls and instances are only ever appended, so a
      wall is identified by its position in `walls`. */
  class Document {
    const levels: seq<Level>
    const catalog: seq<FamilySymbol>
    var walls: seq<Wall>
    var instances: seq<Instance>

    /** Every instance refers to an existing symbol and an existing wall. */
    ghost predicate Valid()
      reads this
    {
      forall t :: 0 <= t < |instances| ==> instances[t].symbol < |catalog| && instances[t].host < |walls|
    }

    /** Each symbol object appears once in the catalog, so activating one
        catalog entry leaves every other entry as it was. */
    predicate Unique() {
      forall i, j :: 0 <= i < j < |catalog| ==> catalog[i] != catalog[j]
    }

    constructor (levels: seq<Level>, catalog: seq<FamilySymbol>)
      requires forall i, j :: 0 <= i < j < |catalog| ==> catalog[i] != catalog[j]
      ensures Valid() && Unique()
      ensures this.levels == levels && this.catalog == catalog && walls == [] && instances == []
    {
      this.levels := levels;
      this.catalog := catalog;
      walls := [];
      instances := [];
    }

    /** `Wall.Create(document, Line.CreateBound(p1, p2), baseLevel, false)`:
        a new wall on the line p1-p2 with an unconnected height. */
    method CreateWall(p1: Point, p2: Point, baseLevel: ElementId) returns (wall: nat)
      requires Valid()
      modifies this
      ensures Valid()
      ensures wall == |old(walls)| && walls == old(walls) + [Wall(p1, p2, baseLevel, None)]
      ensures instances == old(instances)
    {
      wall := |walls|;
      walls := walls + [Wall(p1, p2, baseLevel, None)];
    }

    /** `wall.get_Parameter(WALL_HEIGHT_TYPE).Set(top)`: the wall's top is
        constrained to the level `top`; nothing else changes. */
    method SetHeightType(wall: nat, top: ElementId)
      requires Valid() && wall < |walls|
      modifies this
      ensures Valid()
      ensures walls == old(walls)[wall := old(walls)[wall].(topLevel := Some(top))]
      ensures instances == old(instances)
    {
      walls := walls[wall := walls[wall].(topLevel := Some(top))];
    }

    /** `NewFamilyInstance(location, symbol, host, level, NonStructural)`:
        the host places instances of active symbols only. */
    method NewFamilyInstance(location: Point, symbol: nat, host: nat, level: ElementId)
      requires Valid() && symbol < |catalog| && host < |walls|
      requires catalog[symbol].isActive
      modifies this
      ensures Valid()
      ensures instances == old(instances) + [Instance(location, symbol, host, level)]
      ensures walls == old(walls)
    {
      instances := instances + [Instance(location, symbol, host, level)];
    }
  }
}
