/**
 * Packed map planes and the lookups into them (src/model/map-pixels.ts).
 *
 * World coordinates are reals. Cell indices go through JavaScript's 32-bit shifts, which are written out.
 */
module MapPixels {
  import opened Wrappers
  import opened Bytes

  datatype MapPoint = MapPoint(x: real, y: real)

  datatype MapCell = MapCell(col: int, row: int)

  /** A grid anchored in the world; a resolution of zero is as good as none. */
  datatype PlacedPlane = PlacedPlane(width: nat, height: nat, resolution: Option<nat>, origin: MapPoint)

  datatype VacuumMapPlane =
    VacuumMapPlane(mapId: Option<nat>, releases: nat, geometry: PlacedPlane, cells: seq<Byte>)

  datatype VacuumRoomOutline =
    VacuumRoomOutline(mapId: Option<nat>, releases: nat, geometry: PlacedPlane, cells: seq<Byte>)

  datatype VacuumRoom = VacuumRoom(id: nat, name: string)

  datatype VacuumRoomParams = VacuumRoomParams(mapId: Option<nat>, releases: nat, rooms: seq<VacuumRoom>)

  datatype MapCellValue = Unknown | Obstacle | Free | Carpet

  const MAP_CELL_VALUES := [Unknown, Obstacle, Free, Carpet]

  // ---------------------------------------------------------------------------------------------
  // World and grid
  // ---------------------------------------------------------------------------------------------

  /** `Math.round`: halves go up. */
  function Round(x: real): int {
    (x + 0.5).Floor
  }

  predicate Scaled(plane: PlacedPlane) {
    plane.resolution.Some? && plane.resolution.value != 0
  }

  predicate InGrid(plane: PlacedPlane, cell: MapCell) {
    0 <= cell.col < plane.width && 0 <= cell.row < plane.height
  }

  function CellAtPoint(plane: PlacedPlane, point: MapPoint): Option<MapCell> {
    if !Scaled(plane) then None
    else
      var r := plane.resolution.value as real;
      var cell := MapCell(Round((point.x - plane.origin.x) / r), Round((point.y - plane.origin.y) / r));
      if InGrid(plane, cell) then Some(cell) else None
  }

  function PointAtCell(plane: PlacedPlane, cell: MapCell): Option<MapPoint> {
    if !Scaled(plane) || !InGrid(plane, cell) then None
    else
      var r := plane.resolution.value as real;
      Some(MapPoint(plane.origin.x + cell.col as real * r, plane.origin.y + cell.row as real * r))
  }

  /** `x` lies in the half-open stretch of one cell's length centred on `centre`. */
  predicate Covers(centre: real, length: real, x: real) {
    centre - length / 2.0 <= x < centre + length / 2.0
  }

  lemma Scale(a: real, q: real, r: real, d: real)
    requires r > 0.0 && q * r == d
    ensures a <= q <==> a * r <= d
  {
    if a <= q { assert (q - a) * r >= 0.0; } else { assert (a - q) * r > 0.0; }
  }

  lemma Nearest(q: real, c: real, r: real, d: real)
    requires r > 0.0 && q * r == d
    ensures c - 0.5 <= q <==> c * r - r / 2.0 <= d
    ensures q < c + 0.5 <==> d < c * r + r / 2.0
  {
    var low, high := c - 0.5, c + 0.5;
    Scale(low, q, r, d);
    Scale(high, q, r, d);
    assert low * r == c * r - r / 2.0;
    assert high * r == c * r + r / 2.0;
  }

  lemma Divides(d: real, r: real)
    requires r > 0.0
    ensures d / r * r == d
  {
  }

  lemma RoundIsNearest(origin: real, r: real, k: int, x: real)
    requires r > 0.0
    ensures Round((x - origin) / r) == k <==> Covers(origin + k as real * r, r, x)
  {
    var q, c := (x - origin) / r, k as real;
    Divides(x - origin, r);
    Nearest(q, c, r, x - origin);
    assert Round(q) == k <==> c - 0.5 <= q < c + 0.5;
  }

  /**
   * A point is answered a cell exactly when the cell is in the grid and the point lies in the square of one cell's
   * side centred on where the cell is anchored, its lower edges included: the cells tile the plane. A cell is
   * anchored its column and row of sides away from the origin, both axes counting up.
   */
  lemma CellsTileThePlane(plane: PlacedPlane, point: MapPoint, cell: MapCell)
    ensures CellAtPoint(plane, point) == Some(cell) <==>
      && plane.resolution.Some? && plane.resolution.value > 0
      && 0 <= cell.col < plane.width && 0 <= cell.row < plane.height
      && var r := plane.resolution.value as real;
      var x, y := plane.origin.x + cell.col as real * r, plane.origin.y + cell.row as real * r;
      x - r / 2.0 <= point.x < x + r / 2.0 && y - r / 2.0 <= point.y < y + r / 2.0
    ensures PointAtCell(plane, cell) ==
      if plane.resolution.Some? && plane.resolution.value > 0
         && 0 <= cell.col < plane.width && 0 <= cell.row < plane.height then
        var r := plane.resolution.value as real;
        Some(MapPoint(plane.origin.x + cell.col as real * r, plane.origin.y + cell.row as real * r))
      else None
  {
    hide Round;
    if Scaled(plane) {
      var r := plane.resolution.value as real;
      RoundIsNearest(plane.origin.x, r, cell.col, point.x);
      RoundIsNearest(plane.origin.y, r, cell.row, point.y);
      AnsweredIff(plane, point, cell, r);
    }
  }

  lemma AnsweredIff(plane: PlacedPlane, point: MapPoint, cell: MapCell, r: real)
    requires Scaled(plane) && r == plane.resolution.value as real
    ensures CellAtPoint(plane, point) == Some(cell) <==>
      && InGrid(plane, cell)
      && Round((point.x - plane.origin.x) / r) == cell.col && Round((point.y - plane.origin.y) / r) == cell.row
  {
    hide Round;
  }

  function Abs(x: real): real {
    if x < 0.0 then -x else x
  }

  /** There and back: exact from a cell, within half a cell from a point. */
  lemma CellsAndPointsRoundTrip(plane: PlacedPlane, cell: MapCell, point: MapPoint)
    ensures PointAtCell(plane, cell).Some? ==> CellAtPoint(plane, PointAtCell(plane, cell).value) == Some(cell)
    ensures CellAtPoint(plane, point).Some? ==>
      && PointAtCell(plane, CellAtPoint(plane, point).value).Some?
      && var anchor := PointAtCell(plane, CellAtPoint(plane, point).value).value;
      var half := plane.resolution.value as real / 2.0;
      Abs(anchor.x - point.x) <= half && Abs(anchor.y - point.y) <= half
  {
    if PointAtCell(plane, cell).Some? {
      CellsTileThePlane(plane, PointAtCell(plane, cell).value, cell);
    }
    if CellAtPoint(plane, point).Some? {
      CellsTileThePlane(plane, point, CellAtPoint(plane, point).value);
    }
  }

  // ---------------------------------------------------------------------------------------------
  // Packed cells
  // ---------------------------------------------------------------------------------------------

  const TWO31: nat := 0x8000_0000

  function ToInt32(i: int): int {
    var low := i % TWO32;
    if low < TWO31 then low else low - TWO32
  }

  /** JavaScript's `i >> k`: an arithmetic shift of the low 32 bits. */
  function ShiftRight(i: int, k: nat): int {
    ToInt32(i) / PowerOfTwo(k)
  }

  /** JavaScript's `i & 3`. */
  function LowTwoBits(i: int): nat {
    ToInt32(i) % 4
  }

  function ByteAt(cells: seq<Byte>, i: int): Option<Byte> {
    if 0 <= i < |cells| then Some(cells[i]) else None
  }

  function IndexOf(plane: PlacedPlane, cell: MapCell): int {
    cell.row * plane.width + cell.col
  }

  function CellValue(plane: PlacedPlane, cells: seq<Byte>, cell: MapCell): Option<MapCellValue> {
    if !InGrid(plane, cell) then None
    else
      var i := IndexOf(plane, cell);
      match ByteAt(cells, ShiftRight(i, 2))
      case None => None
      case Some(byte) => Some(MAP_CELL_VALUES[LowTwoBits(ShiftRight(byte, LowTwoBits(i) * 2))])
  }

  function MapCellValueOf(plane: VacuumMapPlane, cell: MapCell): Option<MapCellValue> {
    CellValue(plane.geometry, plane.cells, cell)
  }

  function MapCellValueAt(plane: VacuumMapPlane, point: MapPoint): Option<MapCellValue> {
    match CellAtPoint(plane.geometry, point)
    case None => None
    case Some(cell) => MapCellValueOf(plane, cell)
  }

  /** The two bits that stand for a value. */
  function Bits(v: MapCellValue): (r: nat)
    ensures r < 4 && MAP_CELL_VALUES[r] == v
  {
    match v case Unknown => 0 case Obstacle => 1 case Free => 2 case Carpet => 3
  }

  function BitsAt(values: seq<MapCellValue>, i: nat): (r: nat)
    ensures r < 4
  {
    if i < |values| then Bits(values[i]) else 0
  }

  function PackFour(a: nat, b: nat, c: nat, d: nat): Byte
    requires a < 4 && b < 4 && c < 4 && d < 4
  {
    a + 4 * b + 16 * c + 64 * d
  }

  function Slot(byte: Byte, k: nat): nat {
    match k case 0 => byte % 4 case 1 => byte / 4 % 4 case 2 => byte / 16 % 4 case _ => byte / 64
  }

  lemma LowestSlot(a: nat, rest: nat)
    requires a < 4
    ensures (a + 4 * rest) % 4 == a && (a + 4 * rest) / 4 == rest
  {
  }

  lemma FourSlots(a: nat, b: nat, c: nat, d: nat)
    requires a < 4 && b < 4 && c < 4 && d < 4
    ensures var byte := PackFour(a, b, c, d);
      Slot(byte, 0) == a && Slot(byte, 1) == b && Slot(byte, 2) == c && Slot(byte, 3) == d
  {
    LowestSlot(a, b + 4 * c + 16 * d);
    LowestSlot(b, c + 4 * d);
    LowestSlot(c, d);
    var byte := PackFour(a, b, c, d);
    assert byte == a + 4 * (b + 4 * c + 16 * d);
    assert byte / 16 == byte / 4 / 4 && byte / 64 == byte / 4 / 4 / 4;
  }

  /** Four values to the byte, low bits first, the last byte filled up with `Unknown`. */
  function Pack(values: seq<MapCellValue>): seq<Byte>
  {
    if values == [] then []
    else
      var first := PackFour(BitsAt(values, 0), BitsAt(values, 1), BitsAt(values, 2), BitsAt(values, 3));
      [first] + if |values| <= 4 then [] else Pack(values[4..])
  }

  lemma FourBack(i: nat)
    requires i >= 4
    ensures (i - 4) / 4 == i / 4 - 1 && (i - 4) % 4 == i % 4
  {
  }

  lemma {:induction false} PackLength(values: seq<MapCellValue>)
    ensures |Pack(values)| == (|values| + 3) / 4
  {
    hide PackFour, BitsAt;
    if |values| > 4 { PackLength(values[4..]); }
  }

  lemma PackHead(values: seq<MapCellValue>, i: nat)
    requires i < |values| && i < 4
    ensures |Pack(values)| > 0 && Slot(Pack(values)[0], i) == Bits(values[i])
  {
    hide PackFour, Slot, Bits;
    FourSlots(BitsAt(values, 0), BitsAt(values, 1), BitsAt(values, 2), BitsAt(values, 3));
  }

  lemma {:induction false} PackAt(values: seq<MapCellValue>, i: nat)
    requires i < |values|
    ensures i / 4 < |Pack(values)| && Slot(Pack(values)[i / 4], i % 4) == Bits(values[i])
    decreases |values|
  {
    hide PackFour, Slot, Bits, BitsAt;
    if i < 4 {
      PackHead(values, i);
    } else {
      PackAt(values[4..], i - 4);
      FourBack(i);
    }
  }

  lemma IndexInGrid(plane: PlacedPlane, cell: MapCell)
    requires InGrid(plane, cell)
    ensures 0 <= IndexOf(plane, cell) < plane.width * plane.height
  {
    assert cell.row * plane.width <= (plane.height - 1) * plane.width;
  }

  lemma PowersOfTwo()
    ensures PowerOfTwo(0) == 1 && PowerOfTwo(2) == 4 && PowerOfTwo(4) == 16 && PowerOfTwo(6) == 64
  {
    assert PowerOfTwo(1) == 2 && PowerOfTwo(2) == 4 && PowerOfTwo(3) == 8 && PowerOfTwo(4) == 16;
    assert PowerOfTwo(5) == 32;
  }

  lemma ShiftedByte(byte: Byte, k: nat)
    requires k < 4
    ensures LowTwoBits(ShiftRight(byte, k * 2)) == Slot(byte, k)
  {
    PowersOfTwo();
    hide PowerOfTwo;
    assert ToInt32(byte) == byte;
    var shifted := ShiftRight(byte, k * 2);
    assert 0 <= shifted < 256;
    assert ToInt32(shifted) == shifted;
  }

  /** Every cell of a packed grid is answered the value packed there, whatever follows the grid's last byte. */
  lemma PackedValuesAreAnswered(plane: PlacedPlane, values: seq<MapCellValue>, padding: seq<Byte>, cell: MapCell)
    requires InGrid(plane, cell) && plane.width * plane.height <= TWO31 && |values| == plane.width * plane.height
    ensures 0 <= IndexOf(plane, cell) < |values|
    ensures CellValue(plane, Pack(values) + padding, cell) == Some(values[IndexOf(plane, cell)])
  {
    IndexInGrid(plane, cell);
    var i := IndexOf(plane, cell);
    PackAt(values, i);
    var byte := (Pack(values) + padding)[i / 4];
    ShiftedByte(byte, i % 4);
    hide Slot, PowerOfTwo, Pack;
    SmallIndex(i);
  }

  lemma SmallIndex(i: nat)
    requires i < TWO31
    ensures ShiftRight(i, 2) == i / 4 && LowTwoBits(i) == i % 4
  {
    PowersOfTwo();
    assert ToInt32(i) == i;
  }

  predicate LongEnough(plane: PlacedPlane, cells: seq<Byte>) {
    plane.width > 0 && plane.height > 0 && |cells| * 4 >= plane.width * plane.height
  }

  /**
   * A plane long enough for its grid answers every cell of it exactly up to 2^31 cells: beyond that the
   * 32-bit shift turns the index negative.
   */
  lemma EveryCellIsAnsweredIff(plane: PlacedPlane, cells: seq<Byte>)
    requires LongEnough(plane, cells)
    ensures (forall cell | InGrid(plane, cell) :: CellValue(plane, cells, cell).Some?)
      <==> plane.width * plane.height <= TWO31
  {
    PowersOfTwo();
    if plane.width * plane.height <= TWO31 {
      forall cell | InGrid(plane, cell) ensures CellValue(plane, cells, cell).Some? {
        IndexInGrid(plane, cell);
        assert ToInt32(IndexOf(plane, cell)) == IndexOf(plane, cell);
      }
    } else {
      var cell := MapCell(TWO31 % plane.width, TWO31 / plane.width);
      Unflatten(TWO31, plane.width, plane.height);
      assert IndexOf(plane, cell) == TWO31;
      assert ToInt32(TWO31) == 0 - TWO31;
      assert CellValue(plane, cells, cell).None?;
    }
  }

  lemma Unflatten(i: nat, width: nat, height: nat)
    requires width > 0 && i < width * height
    ensures i / width * width + i % width == i && 0 <= i / width < height
  {
    var q := i / width;
    assert i == q * width + i % width;
    assert q >= height ==> q * width >= height * width;
  }

  /** One byte of cells, bit by bit: 0b11_10_01_00 is unknown, obstacle, free and carpet, from the left. */
  lemma OneByteOfCells(origin: MapPoint)
    ensures var plane := VacuumMapPlane(None, 0, PlacedPlane(4, 1, None, origin), [0xe4]);
      && MapCellValueOf(plane, MapCell(0, 0)) == Some(Unknown) && MapCellValueOf(plane, MapCell(1, 0)) == Some(Obstacle)
      && MapCellValueOf(plane, MapCell(2, 0)) == Some(Free) && MapCellValueOf(plane, MapCell(3, 0)) == Some(Carpet)
  {
    PowersOfTwo();
    ShiftedByte(0xe4, 0);
    ShiftedByte(0xe4, 1);
    ShiftedByte(0xe4, 2);
    ShiftedByte(0xe4, 3);
    SmallIndex(0);
    SmallIndex(1);
    SmallIndex(2);
    SmallIndex(3);
  }

  /** Looking up the world position a cell is anchored at is looking up the cell. */
  lemma AnchorAnswersItsCell(plane: VacuumMapPlane, cell: MapCell)
    requires Scaled(plane.geometry) && InGrid(plane.geometry, cell)
    ensures MapCellValueAt(plane, PointAtCell(plane.geometry, cell).value) == MapCellValueOf(plane, cell)
  {
    CellsAndPointsRoundTrip(plane.geometry, cell, MapPoint(0.0, 0.0));
  }

  // ---------------------------------------------------------------------------------------------
  // Rooms
  // ---------------------------------------------------------------------------------------------

  /** One byte a cell; the room id is above its low two bits, and zero is no room. */
  function RoomIdAt(outline: VacuumRoomOutline, cell: MapCell): Option<nat> {
    if !InGrid(outline.geometry, cell) then None
    else
      match ByteAt(outline.cells, IndexOf(outline.geometry, cell))
      case None => None
      case Some(byte) => var id := byte / 4; if id == 0 then None else Some(id)
  }

  function RoomIdAtPoint(outline: VacuumRoomOutline, point: MapPoint): Option<nat> {
    match CellAtPoint(outline.geometry, point)
    case None => None
    case Some(cell) => RoomIdAt(outline, cell)
  }

  function FindRoom(rooms: seq<VacuumRoom>, id: nat): Option<VacuumRoom> {
    if rooms == [] then None
    else if rooms[0].id == id then Some(rooms[0])
    else FindRoom(rooms[1..], id)
  }

  function RoomAtPoint(outline: VacuumRoomOutline, params: VacuumRoomParams, point: MapPoint): Option<VacuumRoom> {
    match RoomIdAtPoint(outline, point)
    case None => None
    case Some(id) => FindRoom(params.rooms, id)
  }

  /** The byte of the tile that covers the point, if the outline has one. */
  ghost predicate CoveredBy(outline: VacuumRoomOutline, point: MapPoint, byte: Byte) {
    exists cell ::
      && CellAtPoint(outline.geometry, point) == Some(cell)
      && var i := cell.row * outline.geometry.width + cell.col;
      0 <= i < |outline.cells| && outline.cells[i] == byte
  }

  lemma {:induction false} FindRoomIsFirst(rooms: seq<VacuumRoom>, id: nat, k: nat)
    requires k < |rooms| && rooms[k].id == id && forall j: nat | j < k :: rooms[j].id != id
    ensures FindRoom(rooms, id) == Some(rooms[k])
  {
    if k > 0 { FindRoomIsFirst(rooms[1..], id, k - 1); }
  }

  lemma {:induction false} FoundRoomIsListed(rooms: seq<VacuumRoom>, id: nat) returns (k: nat)
    requires FindRoom(rooms, id).Some?
    ensures k < |rooms| && rooms[k].id == id && FindRoom(rooms, id) == Some(rooms[k])
    ensures forall j: nat | j < k :: rooms[j].id != id
  {
    if rooms[0].id == id {
      k := 0;
    } else {
      k := FoundRoomIsListed(rooms[1..], id);
      k := k + 1;
    }
  }

  /**
   * A room is answered exactly when a cell covers the point, the id above the low two bits of its byte is not
   * zero, and a room of that id is listed; it is the first such room.
   */
  lemma RoomAtPointMeans(outline: VacuumRoomOutline, params: VacuumRoomParams, point: MapPoint, room: VacuumRoom)
    ensures RoomAtPoint(outline, params, point) == Some(room) <==>
      exists byte: Byte, k: nat ::
        && CoveredBy(outline, point, byte) && byte >= 4
        && k < |params.rooms| && params.rooms[k] == room && room.id == byte / 4
        && forall j: nat | j < k :: params.rooms[j].id != room.id
  {
    if RoomAtPoint(outline, params, point) == Some(room) {
      var cell := CellAtPoint(outline.geometry, point).value;
      var byte := outline.cells[IndexOf(outline.geometry, cell)];
      var k := FoundRoomIsListed(params.rooms, byte / 4);
      assert CoveredBy(outline, point, byte);
    }
    forall byte: Byte, k: nat |
      && CoveredBy(outline, point, byte) && byte >= 4
      && k < |params.rooms| && params.rooms[k] == room && room.id == byte / 4
      && forall j: nat | j < k :: params.rooms[j].id != room.id
      ensures RoomAtPoint(outline, params, point) == Some(room)
    {
      FindRoomIsFirst(params.rooms, room.id, k);
    }
  }
}
