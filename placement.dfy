/**
  Furniture placement geometry (`IAConverter._create_placement_block`): one placement block
  per enabled surface, holding the display element and the hitboxes. A solid furniture
  without seat data is decomposed into a grid of unit "shulker" cells; otherwise one
  interaction hitbox covers the footprint.
*/
module Placement {
  import opened Wrappers
  import opened Document

  datatype Vec3 = Vec3(x: real, y: real, z: real)

  const Origin: Vec3 := Vec3(0.0, 0.0, 0.0)

  datatype Surface = Ground | Wall | Ceiling

  datatype Hitbox =
    | Shulker(position: Vec3, blocksBuilding: bool, interactive: bool)
    | Interaction(position: Vec3, blocksBuilding: bool, width: real, height: real,
                  interactive: bool, seat: Option<Vec3>)

  /** The single display element; everything but `item` and `translation` is a constant. */
  datatype Element = Element(item: string, displayTransform: string, shadowRadius: real,
                             shadowStrength: real, billboard: string, translation: Vec3)

  datatype PlacementBlock = PlacementBlock(lootSpawnOffset: Vec3, rotation: string, alignment: string,
                                           elements: seq<Element>, hitboxes: Option<seq<Hitbox>>)

  /** Empirical drop from the IA sit height to the CE seat offset. */
  const SeatDrop: real := 0.85
  const DefaultSitHeight: real := 0.5
  /** Where the loot drops, and the rotation and alignment rules every placement gets. */
  const LootSpawnOffset: Vec3 := Vec3(0.0, 0.4, 0.0)
  const AnyRule: string := "ANY"

  /** Python's `round` on a number: to the nearest integer, ties to the even one. */
  function RoundHalfEven(r: real): (n: int)
    ensures -(1.0 / 2.0) <= r - n as real <= 1.0 / 2.0
    ensures r - n as real == 1.0 / 2.0 || r - n as real == -(1.0 / 2.0) ==> n % 2 == 0
  {
    var f := r.Floor;
    var d := r - f as real;
    if d < 0.5 then f
    else if d > 0.5 then f + 1
    else if f % 2 == 0 then f
    else f + 1
  }

  /** `max(1, int(round(d)))`: cells along one axis. */
  function CellCount(d: real): (n: int)
    ensures n >= 1
    ensures d > 1.0 / 2.0 ==> n == RoundHalfEven(d)
    ensures d <= 1.0 / 2.0 ==> n == 1
  {
    var r := RoundHalfEven(d);
    if r < 1 then 1 else r
  }

  /**
    The bounding box of a furniture and the loop ranges derived from it: `w_range`,
    `h_range` and `l_range` are `max(1, int(round(d)))` of the dimensions.
  */
  datatype Box = Box(width: real, height: real, length: real,
                     widthOffset: real, heightOffset: real, lengthOffset: real,
                     wRange: nat, hRange: nat, lRange: nat)

  function MakeBox(width: real, height: real, length: real, wOff: real, hOff: real, lOff: real): (b: Box)
    ensures b.wRange >= 1 && b.hRange >= 1 && b.lRange >= 1
  {
    Box(width, height, length, wOff, hOff, lOff, CellCount(width), CellCount(height), CellCount(length))
  }

  /** Dimensions default to 1 and offsets to 0. */
  function BoxOf(furniture: Value): Box {
    if Has(furniture, "hitbox") then
      var h := GetOr(furniture, "hitbox", Null);
      MakeBox(AsNum(GetOr(h, "width", Num(1.0))), AsNum(GetOr(h, "height", Num(1.0))), AsNum(GetOr(h, "length", Num(1.0))),
              AsNum(GetOr(h, "width_offset", Num(0.0))), AsNum(GetOr(h, "height_offset", Num(0.0))),
              AsNum(GetOr(h, "length_offset", Num(0.0))))
    else MakeBox(1.0, 1.0, 1.0, 0.0, 0.0, 0.0)
  }

  /** Cell (x, y, z): x and z centred on the box, y stacked up from 0, offsets added afterwards. */
  function CellPosition(b: Box, x: int, y: int, z: int): Vec3 {
    Vec3(x as real - (b.wRange - 1) as real / 2.0 + b.widthOffset,
         y as real + b.heightOffset,
         z as real - (b.lRange - 1) as real / 2.0 + b.lengthOffset)
  }

  function Cell(b: Box, x: int, y: int, z: int): Hitbox {
    Shulker(CellPosition(b, x, y, z), true, true)
  }

  /** Cells (x, y, 0) .. (x, y, z-1), in the order the innermost loop appends them. */
  function Cells(b: Box, y: int, x: int, z: nat): seq<Hitbox> {
    if z == 0 then [] else Cells(b, y, x, z - 1) + [Cell(b, x, y, z - 1)]
  }

  /** Rows 0 .. x-1 of layer y, `nl` cells each. */
  function Rows(b: Box, nl: nat, y: int, x: nat): seq<Hitbox> {
    if x == 0 then [] else Rows(b, nl, y, x - 1) + Cells(b, y, x - 1, nl)
  }

  /** Layers 0 .. y-1, `nw` rows of `nl` cells each. */
  function Layers(b: Box, nw: nat, nl: nat, y: nat): seq<Hitbox> {
    if y == 0 then [] else Layers(b, nw, nl, y - 1) + Rows(b, nl, y - 1, nw)
  }

  /** The whole grid of shulker cells, layer by layer, row by row. */
  function ShulkerGrid(b: Box): seq<Hitbox> {
    Layers(b, b.wRange, b.lRange, b.hRange)
  }

  function SitHeight(sit: Value): real {
    AsNum(GetOr(sit, "sit_height", Num(DefaultSitHeight)))
  }

  /** The `hitboxes` of a placement block; None when the furniture declares no `hitbox`. */
  function HitboxesFor(furniture: Value, sit: Value): Option<seq<Hitbox>> {
    if !Has(furniture, "hitbox") then None
    else
      var b := BoxOf(furniture);
      var solid := Truthy(GetOr(furniture, "solid", Bool(true)));
      if Truthy(sit) then
        Some([Interaction(Origin, solid, b.width, b.height, true, Some(Vec3(0.0, SitHeight(sit) - SeatDrop, 0.0)))])
      else if solid then Some(ShulkerGrid(b))
      else Some([Interaction(Origin, false, b.width, b.height, true, None)])
  }

  /** The displayed item, lifted by half the furniture's height. */
  function DisplayElement(itemId: string, b: Box): Element {
    Element(itemId, "NONE", 0.4, 0.5, "FIXED", Vec3(0.0, b.height / 2.0, 0.0))
  }

  /** The placement block the source builds; the surface it is built for does not enter it. */
  function PlacementFor(itemId: string, furniture: Value, sit: Value): PlacementBlock {
    var b := BoxOf(furniture);
    PlacementBlock(LootSpawnOffset, AnyRule, AnyRule,
                   [DisplayElement(itemId, b)], HitboxesFor(furniture, sit))
  }

  /** The triple loop `for y: for x: for z: hitboxes.append(...)`. */
  method BuildShulkerGrid(b: Box) returns (hitboxes: seq<Hitbox>)
    ensures hitboxes == ShulkerGrid(b)
  {
    var nw, nh, nl := b.wRange, b.hRange, b.lRange;
    hitboxes := [];
    var y := 0;
    while y < nh
      invariant 0 <= y <= nh
      invariant hitboxes == Layers(b, nw, nl, y)
    {
      ghost var layers := hitboxes;
      var x := 0;
      while x < nw
        invariant 0 <= x <= nw
        invariant hitboxes == layers + Rows(b, nl, y, x)
      {
        ghost var rows := hitboxes;
        var z := 0;
        while z < nl
          invariant 0 <= z <= nl
          invariant hitboxes == rows + Cells(b, y, x, z)
        {
          Associative(rows, Cells(b, y, x, z), [Cell(b, x, y, z)]);
          hitboxes := hitboxes + [Shulker(CellPosition(b, x, y, z), true, true)];
          z := z + 1;
        }
        Associative(layers, Rows(b, nl, y, x), Cells(b, y, x, nl));
        x := x + 1;
      }
      y := y + 1;
    }
  }

  lemma Associative<T>(a: seq<T>, b: seq<T>, c: seq<T>)
    ensures (a + b) + c == a + (b + c)
  {
  }

  /** `_create_placement_block(ce_id, furniture_data, placement_type, sit_data)`. */
  method CreatePlacementBlock(itemId: string, furniture: Value, sit: Value) returns (block: PlacementBlock)
    ensures block == PlacementFor(itemId, furniture, sit)
  {
    var b := BoxOf(furniture);
    var hitboxes: Option<seq<Hitbox>> := None;
    if Has(furniture, "hitbox") {
      var solid := Truthy(GetOr(furniture, "solid", Bool(true)));
      if Truthy(sit) {
        var seatY := SitHeight(sit) - SeatDrop;
        hitboxes := Some([Interaction(Origin, solid, b.width, b.height, true, Some(Vec3(0.0, seatY, 0.0)))]);
      } else if solid {
        var grid := BuildShulkerGrid(b);
        hitboxes := Some(grid);
      } else {
        hitboxes := Some([Interaction(Origin, false, b.width, b.height, true, None)]);
      }
    }

    block := PlacementBlock(LootSpawnOffset, AnyRule, AnyRule,
                            [DisplayElement(itemId, b)], hitboxes);
  }

  // ---------------------------------------------------------------------------------------
  // Properties of the grid decomposition

  /** `a * n` as `a` repeated additions, so that length reasoning stays linear. */
  function Times(a: nat, n: nat): nat {
    if a == 0 then 0 else Times(a - 1, n) + n
  }

  lemma {:induction false} TimesIsProduct(a: nat, n: nat)
    ensures Times(a, n) == a * n
  {
    if a > 0 {
      TimesIsProduct(a - 1, n);
    }
  }

  lemma {:induction false} CellsLength(b: Box, y: int, x: int, z: nat)
    ensures |Cells(b, y, x, z)| == z
  {
    if z > 0 {
      CellsLength(b, y, x, z - 1);
    }
  }

  lemma {:induction false} RowsLength(b: Box, nl: nat, y: int, x: nat)
    ensures |Rows(b, nl, y, x)| == Times(x, nl)
  {
    if x > 0 {
      RowsLength(b, nl, y, x - 1);
      CellsLength(b, y, x - 1, nl);
    }
  }

  lemma {:induction false} LayersLength(b: Box, nw: nat, nl: nat, y: nat)
    ensures |Layers(b, nw, nl, y)| == Times(y, Times(nw, nl))
  {
    if y > 0 {
      LayersLength(b, nw, nl, y - 1);
      RowsLength(b, nl, y - 1, nw);
    }
  }

  /** A solid furniture without seat data yields max(1, round w) * max(1, round h) * max(1, round l) cells. */
  lemma GridSize(b: Box)
    ensures |ShulkerGrid(b)| == b.wRange * b.hRange * b.lRange
  {
    var nw, nh, nl := b.wRange, b.hRange, b.lRange;
    LayersLength(b, nw, nl, nh);
    TimesIsProduct(nw, nl);
    TimesIsProduct(nh, nw * nl);
    Volume(nw, nh, nl);
  }

  lemma Volume(nw: nat, nh: nat, nl: nat)
    ensures nh * (nw * nl) == nw * nh * nl
  {
  }

  // Every cell of the box is in the grid ...

  lemma InLeft<T>(h: T, a: seq<T>, c: seq<T>)
    requires h in a
    ensures h in a + c
  {
  }

  lemma InRight<T>(h: T, a: seq<T>, c: seq<T>)
    requires h in c
    ensures h in a + c
  {
  }

  lemma {:induction false} CellInCells(b: Box, y: int, x: int, z: nat, k: nat)
    requires k < z
    ensures Cell(b, x, y, k) in Cells(b, y, x, z)
  {
    var pre := Cells(b, y, x, z - 1);
    assert Cells(b, y, x, z) == pre + [Cell(b, x, y, z - 1)];
    if k < z - 1 {
      CellInCells(b, y, x, z - 1, k);
      InLeft(Cell(b, x, y, k), pre, [Cell(b, x, y, z - 1)]);
    }
  }

  lemma {:induction false} CellInRows(b: Box, nl: nat, y: int, x: nat, i: nat, k: nat)
    requires i < x && k < nl
    ensures Cell(b, i, y, k) in Rows(b, nl, y, x)
  {
    var pre, cells := Rows(b, nl, y, x - 1), Cells(b, y, x - 1, nl);
    assert Rows(b, nl, y, x) == pre + cells;
    if i < x - 1 {
      CellInRows(b, nl, y, x - 1, i, k);
      InLeft(Cell(b, i, y, k), pre, cells);
    } else {
      CellInCells(b, y, i, nl, k);
      InRight(Cell(b, i, y, k), pre, cells);
    }
  }

  lemma {:induction false} CellInLayers(b: Box, nw: nat, nl: nat, y: nat, j: nat, i: nat, k: nat)
    requires j < y && i < nw && k < nl
    ensures Cell(b, i, j, k) in Layers(b, nw, nl, y)
  {
    var pre, rows := Layers(b, nw, nl, y - 1), Rows(b, nl, y - 1, nw);
    assert Layers(b, nw, nl, y) == pre + rows;
    if j < y - 1 {
      CellInLayers(b, nw, nl, y - 1, j, i, k);
      InLeft(Cell(b, i, j, k), pre, rows);
    } else {
      CellInRows(b, nl, j, nw, i, k);
      InRight(Cell(b, i, j, k), pre, rows);
    }
  }

  // ... and the grid holds nothing else.

  lemma {:induction false} CellsAllCells(b: Box, y: int, x: int, z: nat)
    ensures forall h :: h in Cells(b, y, x, z) ==> exists k :: 0 <= k < z && h == Cell(b, x, y, k)
  {
    if z > 0 {
      var pre, last := Cells(b, y, x, z - 1), Cell(b, x, y, z - 1);
      assert Cells(b, y, x, z) == pre + [last];
      CellsAllCells(b, y, x, z - 1);
      forall h | h in pre + [last]
        ensures exists k :: 0 <= k < z && h == Cell(b, x, y, k)
      {
        if h == last {
          assert h == Cell(b, x, y, z - 1);
        } else {
          assert h in pre;
        }
      }
    }
  }

  lemma {:induction false} RowsAllCells(b: Box, nl: nat, y: int, x: nat)
    ensures forall h :: h in Rows(b, nl, y, x) ==>
      exists i, k :: 0 <= i < x && 0 <= k < nl && h == Cell(b, i, y, k)
  {
    if x > 0 {
      var pre, cells := Rows(b, nl, y, x - 1), Cells(b, y, x - 1, nl);
      assert Rows(b, nl, y, x) == pre + cells;
      RowsAllCells(b, nl, y, x - 1);
      CellsAllCells(b, y, x - 1, nl);
      forall h | h in pre + cells
        ensures exists i, k :: 0 <= i < x && 0 <= k < nl && h == Cell(b, i, y, k)
      {
        if h in cells {
          var k :| 0 <= k < nl && h == Cell(b, x - 1, y, k);
          assert h == Cell(b, x - 1, y, k);
        } else {
          assert h in pre;
        }
      }
    }
  }

  lemma {:induction false} LayersAllCells(b: Box, nw: nat, nl: nat, y: nat)
    ensures forall h :: h in Layers(b, nw, nl, y) ==>
      exists j, i, k :: 0 <= j < y && 0 <= i < nw && 0 <= k < nl && h == Cell(b, i, j, k)
  {
    if y > 0 {
      var pre, rows := Layers(b, nw, nl, y - 1), Rows(b, nl, y - 1, nw);
      assert Layers(b, nw, nl, y) == pre + rows;
      LayersAllCells(b, nw, nl, y - 1);
      RowsAllCells(b, nl, y - 1, nw);
      forall h | h in pre + rows
        ensures exists j, i, k :: 0 <= j < y && 0 <= i < nw && 0 <= k < nl && h == Cell(b, i, j, k)
      {
        if h in rows {
          var i, k :| 0 <= i < nw && 0 <= k < nl && h == Cell(b, i, y - 1, k);
          assert h == Cell(b, i, y - 1, k);
        } else {
          assert h in pre;
        }
      }
    }
  }

  /**
    The grid holds exactly the cells (x, y, z) with x < w_range, y < h_range, z < l_range,
    each a shulker that blocks building and is interactive.
  */
  lemma GridCells(b: Box)
    ensures forall h :: h in ShulkerGrid(b) ==>
      h.Shulker? && h.blocksBuilding && h.interactive &&
      exists y, x, z :: 0 <= y < b.hRange && 0 <= x < b.wRange && 0 <= z < b.lRange && h == Cell(b, x, y, z)
    ensures forall y, x, z :: 0 <= y < b.hRange && 0 <= x < b.wRange && 0 <= z < b.lRange ==>
      Cell(b, x, y, z) in ShulkerGrid(b)
  {
    LayersAllCells(b, b.wRange, b.lRange, b.hRange);
    forall y, x, z | 0 <= y < b.hRange && 0 <= x < b.wRange && 0 <= z < b.lRange
      ensures Cell(b, x, y, z) in ShulkerGrid(b)
    {
      CellInLayers(b, b.wRange, b.lRange, b.hRange, y, x, z);
    }
  }

  // No cell occurs twice.

  lemma DistinctAppend(a: seq<Hitbox>, c: seq<Hitbox>)
    requires Distinct(a) && Distinct(c)
    requires forall h :: h in a ==> h !in c
    ensures Distinct(a + c)
  {
    forall p, q | 0 <= p < q < |a + c|
      ensures (a + c)[p] != (a + c)[q]
    {
      if p < |a| && q >= |a| {
        assert (a + c)[p] in a && (a + c)[q] in c;
      }
    }
  }

  lemma {:induction false} CellsDistinct(b: Box, y: int, x: int, z: nat)
    ensures Distinct(Cells(b, y, x, z))
  {
    if z > 0 {
      CellsDistinct(b, y, x, z - 1);
      CellsAllCells(b, y, x, z - 1);
      DistinctAppend(Cells(b, y, x, z - 1), [Cell(b, x, y, z - 1)]);
    }
  }

  lemma {:induction false} RowsDistinct(b: Box, nl: nat, y: int, x: nat)
    ensures Distinct(Rows(b, nl, y, x))
  {
    if x > 0 {
      RowsDistinct(b, nl, y, x - 1);
      CellsDistinct(b, y, x - 1, nl);
      RowsAllCells(b, nl, y, x - 1);
      CellsAllCells(b, y, x - 1, nl);
      DistinctAppend(Rows(b, nl, y, x - 1), Cells(b, y, x - 1, nl));
    }
  }

  lemma {:induction false} LayersDistinct(b: Box, nw: nat, nl: nat, y: nat)
    ensures Distinct(Layers(b, nw, nl, y))
  {
    if y > 0 {
      LayersDistinct(b, nw, nl, y - 1);
      RowsDistinct(b, nl, y - 1, nw);
      LayersAllCells(b, nw, nl, y - 1);
      RowsAllCells(b, nl, y - 1, nw);
      DistinctAppend(Layers(b, nw, nl, y - 1), Rows(b, nl, y - 1, nw));
    }
  }

  /** Each cell of the box occurs in the grid exactly once. */
  lemma GridDistinct(b: Box)
    ensures Distinct(ShulkerGrid(b))
  {
    LayersDistinct(b, b.wRange, b.lRange, b.hRange);
  }

  /** Cells mirrored across the box's centre on x (and on z) sit symmetrically about the offset. */
  lemma Centred(b: Box, x: int, y: int, z: int)
    requires 0 <= x < b.wRange && 0 <= z < b.lRange
    ensures CellPosition(b, x, y, z).x + CellPosition(b, b.wRange - 1 - x, y, z).x == 2.0 * b.widthOffset
    ensures CellPosition(b, x, y, z).z + CellPosition(b, x, y, b.lRange - 1 - z).z == 2.0 * b.lengthOffset
    ensures b.wRange - 1 - x == x ==> CellPosition(b, x, y, z).x == b.widthOffset
  {
  }

  /** Height 2, width and length 1, no offsets: the two cells (0,0,0) and (0,1,0). */
  lemma TwoHighExample()
    ensures ShulkerGrid(MakeBox(1.0, 2.0, 1.0, 0.0, 0.0, 0.0)) ==
      [Shulker(Vec3(0.0, 0.0, 0.0), true, true), Shulker(Vec3(0.0, 1.0, 0.0), true, true)]
  {
    var b := MakeBox(1.0, 2.0, 1.0, 0.0, 0.0, 0.0);
    assert b.wRange == 1 && b.hRange == 2 && b.lRange == 1;
    assert Rows(b, 1, 0, 1) == [Cell(b, 0, 0, 0)];
    assert Rows(b, 1, 1, 1) == [Cell(b, 0, 1, 0)];
  }

  /** Python's `round` on the halves: 0.5 -> 0, 1.5 -> 2, 2.5 -> 2; an integer stays itself. */
  lemma RoundExamples(n: int)
    ensures RoundHalfEven(0.5) == 0 && RoundHalfEven(1.5) == 2 && RoundHalfEven(2.5) == 2
    ensures RoundHalfEven(n as real) == n
  {
  }

  /** Sub-unit and rounded-to-zero dimensions still give one cell per axis. */
  lemma SubUnitBox(w: real, h: real, l: real)
    requires w < 0.5 && l <= 0.5
    ensures MakeBox(w, h, l, 0.0, 0.0, 0.0).wRange == 1 && MakeBox(w, h, l, 0.0, 0.0, 0.0).lRange == 1
  {
  }

  /**
    The placement block: translation y is half the height; with seat data one interaction
    hitbox whose seat is `sit_height - 0.85` below/above the origin and whose blocks-building
    is the furniture's solidity; without seat data a solid furniture gets the cell grid and a
    non-solid one a single non-blocking interaction hitbox; no `hitbox` key, no hitboxes.
  */
  lemma PlacementShape(itemId: string, furniture: Value, sit: Value)
    ensures var p := PlacementFor(itemId, furniture, sit);
      && |p.elements| == 1 && p.elements[0].item == itemId
      && p.elements[0].translation == Vec3(0.0, BoxOf(furniture).height / 2.0, 0.0)
      && (!Has(furniture, "hitbox") <==> p.hitboxes.None?)
      && (Has(furniture, "hitbox") && Truthy(sit) ==>
            |p.hitboxes.value| == 1 && p.hitboxes.value[0].Interaction?
            && p.hitboxes.value[0].seat == Some(Vec3(0.0, SitHeight(sit) - 0.85, 0.0))
            && p.hitboxes.value[0].blocksBuilding == Truthy(GetOr(furniture, "solid", Bool(true))))
      && (Has(furniture, "hitbox") && !Truthy(sit) && !Truthy(GetOr(furniture, "solid", Bool(true))) ==>
            p.hitboxes == Some([Interaction(Origin, false, BoxOf(furniture).width, BoxOf(furniture).height, true, None)]))
      && (Has(furniture, "hitbox") && !Truthy(sit) && Truthy(GetOr(furniture, "solid", Bool(true))) ==>
            p.hitboxes == Some(ShulkerGrid(BoxOf(furniture))))
  {
  }

  /** Seat data `sit_height: 0.8` puts the seat at (0, -0.05, 0); absent, 0.5 - 0.85. */
  lemma SeatExample()
    ensures SitHeight(Dict([("sit_height", Num(0.8))])) - SeatDrop == -0.05
    ensures SitHeight(Dict([])) - SeatDrop == -0.35
  {
  }
}
