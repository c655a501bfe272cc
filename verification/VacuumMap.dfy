/** The decoders that put a plane together (src/model/vacuum-map.ts). */
module VacuumMap {
  import opened Wrappers
  import opened Bytes
  import opened MapPixels
  import opened RawDp
  import opened RawDpRoundTrip
  import opened ProtoRead
  import Lz4Block

  /** What the block decoder answers, as a value. */
  function Decompressed(block: seq<Byte>, size: nat): Option<seq<Byte>> {
    if size > Lz4Block.MAX_OUTPUT then None else Lz4Block.DecodeAt(block, 0, [], size)
  }

  /** `planeOf`: the bytes as sent when their length is the stated size, otherwise a compressed block. */
  function PlaneOf(fields: seq<Field>, pixels: nat, size: nat, needed: nat): Option<seq<Byte>> {
    match BytesAt(Some(fields), pixels)
    case None => None
    case Some(raw) =>
      var expected := IntAt(Some(fields), size);
      var plane := if |raw| == expected then Some(raw) else Decompressed(raw, expected);
      if plane.Some? && |plane.value| >= needed then plane else None
  }

  function NonZero(n: nat): Option<nat> {
    if n == 0 then None else Some(n)
  }

  function PointOf(p: Platform, fields: seq<Field>, n: nat): MapPoint
    requires Sound(p)
  {
    var point := SubAt(p, Some(fields), n);
    MapPoint(SignedAt(point, 1) as real, SignedAt(point, 2) as real)
  }

  function Grid(p: Platform, fields: seq<Field>, width: nat, height: nat, resolution: nat, origin: nat): PlacedPlane
    requires Sound(p)
  {
    PlacedPlane(IntAt(Some(fields), width), IntAt(Some(fields), height),
                NonZero(IntAt(Some(fields), resolution)), PointOf(p, fields, origin))
  }

  function GeometryOf(p: Platform, info: Option<seq<Field>>): Option<PlacedPlane>
    requires Sound(p)
  {
    if info.None? then None
    else
      var g := Grid(p, info.value, 2, 3, 4, 5);
      if g.width == 0 || g.height == 0 then None else Some(g)
  }

  /** The fields of a `Map` message to a plane. */
  function MapOf(p: Platform, fields: seq<Field>): Option<VacuumMapPlane>
    requires Sound(p)
  {
    match GeometryOf(p, SubAt(p, Some(fields), 6))
    case None => None
    case Some(g) =>
      match PlaneOf(fields, 4, 5, (g.width * g.height + 3) / 4)
      case None => None
      case Some(cells) =>
        Some(VacuumMapPlane(NonZero(IntAt(Some(fields), 8)), IntAt(Some(fields), 9), g, cells))
  }

  function DecodeVacuumMap(p: Platform, raw: string): Option<VacuumMapPlane>
    requires Sound(p)
  {
    match Decode(p, raw) case None => None case Some(fields) => MapOf(p, fields)
  }

  function OutlineOf(p: Platform, fields: seq<Field>): Option<VacuumRoomOutline>
    requires Sound(p)
  {
    var g := Grid(p, fields, 3, 4, 5, 6);
    if g.width == 0 || g.height == 0 then None
    else
      match PlaneOf(fields, 7, 8, g.width * g.height)
      case None => None
      case Some(cells) =>
        Some(VacuumRoomOutline(NonZero(IntAt(Some(fields), 1)), IntAt(Some(fields), 2), g, cells))
  }

  function DecodeVacuumRoomOutline(p: Platform, raw: string): Option<VacuumRoomOutline>
    requires Sound(p)
  {
    match Decode(p, raw) case None => None case Some(fields) => OutlineOf(p, fields)
  }

  /** One part of a backup: its bytes reframed and given to the decoder that reads them standing alone. */
  function Part<T>(p: Platform, fields: seq<Field>, n: nat, read: seq<Field> -> Option<T>): Option<T>
    requires Sound(p)
  {
    match BytesAt(Some(fields), n)
    case None => None
    case Some(inner) => Read(p, Framed(p, inner), read)
  }

  /** A decoder: open the payload, then read its fields. */
  function Read<T>(p: Platform, raw: string, read: seq<Field> -> Option<T>): Option<T>
    requires Sound(p)
  {
    match Decode(p, raw) case None => None case Some(fields) => read(fields)
  }

  datatype Backup<D, R, Z> = Backup(
    description: Option<D>,
    plane: Option<VacuumMapPlane>,
    outline: Option<VacuumRoomOutline>,
    rooms: Option<R>,
    zones: Option<Z>)

  /** The field readers of the three parts without a plane are whatever they are. */
  function DecodeVacuumMapBackup<D, R, Z>(
    p: Platform, raw: string, description: seq<Field> -> Option<D>, rooms: seq<Field> -> Option<R>,
    zones: seq<Field> -> Option<Z>): Option<Backup<D, R, Z>>
    requires Sound(p)
  {
    match Decode(p, raw)
    case None => None
    case Some(fields) =>
      Some(Backup(
        Part(p, fields, 1, description),
        Part(p, fields, 2, (fs: seq<Field>) => MapOf(p, fs)),
        Part(p, fields, 3, (fs: seq<Field>) => OutlineOf(p, fs)),
        Part(p, fields, 4, rooms),
        Part(p, fields, 5, zones)))
  }

  function Framed(p: Platform, body: seq<Byte>): string {
    p.toBase64(Varint(|body|) + body)
  }

  // ---------------------------------------------------------------------------------------------
  // Results
  // ---------------------------------------------------------------------------------------------

  /**
   * A plane is accepted exactly when the bytes as sent have the stated size, or are a block that reads as that
   * many bytes within the cap, and there are enough of them; and it is those bytes.
   */
  lemma PlaneIsWhatWasSent(fields: seq<Field>, pixels: nat, size: nat, needed: nat, plane: seq<Byte>)
    ensures PlaneOf(fields, pixels, size, needed) == Some(plane) <==>
      && BytesAt(Some(fields), pixels).Some? && |plane| >= needed
      && var raw, expected := BytesAt(Some(fields), pixels).value, IntAt(Some(fields), size);
      if |raw| == expected then plane == raw
      else expected <= Lz4Block.MAX_OUTPUT && exists b :: Lz4Block.Reading(raw, expected, b, plane)
  {
    if BytesAt(Some(fields), pixels).Some? {
      Lz4Block.DecodeMeetsFormat(BytesAt(Some(fields), pixels).value, IntAt(Some(fields), size));
    }
  }

  /** Every map the decoder accepts answers every cell of its grid, up to 2^31 cells and no further. */
  lemma AcceptedMapAnswersEveryCell(p: Platform, raw: string)
    requires Sound(p) && DecodeVacuumMap(p, raw).Some?
    ensures var m := DecodeVacuumMap(p, raw).value;
      (forall cell | InGrid(m.geometry, cell) :: MapCellValueOf(m, cell).Some?)
      <==> m.geometry.width * m.geometry.height <= TWO31
  {
    var m := DecodeVacuumMap(p, raw).value;
    var n := m.geometry.width * m.geometry.height;
    assert |m.cells| >= (n + 3) / 4;
    assert LongEnough(m.geometry, m.cells);
    EveryCellIsAnsweredIff(m.geometry, m.cells);
  }

  /** Every outline the decoder accepts names a room for a cell exactly when the cell's byte carries an id. */
  lemma AcceptedOutlineAnswersEveryCell(p: Platform, raw: string, cell: MapCell)
    requires Sound(p) && DecodeVacuumRoomOutline(p, raw).Some?
    requires InGrid(DecodeVacuumRoomOutline(p, raw).value.geometry, cell)
    ensures var o := DecodeVacuumRoomOutline(p, raw).value;
      var i := cell.row * o.geometry.width + cell.col;
      && 0 <= i < |o.cells|
      && RoomIdAt(o, cell) == if o.cells[i] < 4 then None else Some(o.cells[i] / 4)
  {
    IndexInGrid(DecodeVacuumRoomOutline(p, raw).value.geometry, cell);
  }

  lemma {:induction false} BytesReadAreShort(p: Platform, s: seq<Byte>, n: nat)
    requires Sound(p) && Nested(p, s).Some?
    ensures BytesAt(Nested(p, s), n).Some? ==> |BytesAt(Nested(p, s), n).value| < TWO32
    decreases |s|
  {
    hide Sound, ReadField;
    if s != [] {
      var (f, used) := ReadField(p, s).value;
      FieldReadIsShort(p, s);
      ReadsOn(p, s);
      var rest := Nested(p, s[used..]).value;
      BytesReadAreShort(p, s[used..], n);
      assert ([f] + rest)[1..] == rest;
    }
  }

  lemma FieldReadIsShort(p: Platform, s: seq<Byte>)
    requires Sound(p) && ReadField(p, s).Some?
    ensures ReadField(p, s).value.0.BytesField? ==> |ReadField(p, s).value.0.bytes| < TWO32
  {
  }

  lemma ReadsOn(p: Platform, s: seq<Byte>)
    requires Sound(p) && s != [] && Nested(p, s).Some?
    ensures ReadField(p, s).Some?
    ensures var (f, used) := ReadField(p, s).value;
      Nested(p, s[used..]).Some? && Nested(p, s) == Some([f] + Nested(p, s[used..]).value)
  {
    hide Sound, ReadField;
  }

  /** What a part holds, read in place. */
  function InPlace<T>(p: Platform, fields: seq<Field>, n: nat, read: seq<Field> -> Option<T>): Option<T>
    requires Sound(p)
  {
    match BytesAt(Some(fields), n)
    case None => None
    case Some(inner) => match Nested(p, inner) case None => None case Some(fs) => read(fs)
  }

  lemma PartReadsAlone<T>(p: Platform, s: seq<Byte>, n: nat, read: seq<Field> -> Option<T>)
    requires Sound(p) && Nested(p, s).Some?
    ensures Part(p, Nested(p, s).value, n, read) == InPlace(p, Nested(p, s).value, n, read)
  {
    hide Sound, Nested, Decode, BytesAt;
    BytesReadAreShort(p, s, n);
    if BytesAt(Nested(p, s), n).Some? { EnvelopeOpens(p, BytesAt(Nested(p, s), n).value); }
  }

  lemma OpensToABody(p: Platform, raw: string) returns (body: seq<Byte>)
    requires Sound(p) && Decode(p, raw).Some?
    ensures Nested(p, body) == Decode(p, raw)
  {
    var buf := p.fromBase64(raw);
    var (_, start) := p.uint32(buf).value;
    body := buf[start..];
  }

  /**
   * Each of the five parts of a backup is what its decoder reads in the part's own bytes: putting the envelope
   * back around them and opening it again changes nothing, for any decoders of the parts without a plane.
   */
  lemma BackupPartsReadAlone<D, R, Z>(
    p: Platform, raw: string, description: seq<Field> -> Option<D>, rooms: seq<Field> -> Option<R>,
    zones: seq<Field> -> Option<Z>)
    requires Sound(p)
    ensures match Decode(p, raw)
      case None => DecodeVacuumMapBackup(p, raw, description, rooms, zones) == None
      case Some(fields) =>
        DecodeVacuumMapBackup(p, raw, description, rooms, zones) == Some(Backup(
          InPlace(p, fields, 1, description),
          InPlace(p, fields, 2, (fs: seq<Field>) => MapOf(p, fs)),
          InPlace(p, fields, 3, (fs: seq<Field>) => OutlineOf(p, fs)),
          InPlace(p, fields, 4, rooms),
          InPlace(p, fields, 5, zones)))
  {
    hide Sound, Nested, Decode, Part, InPlace, MapOf, OutlineOf;
    if Decode(p, raw).Some? {
      var body := OpensToABody(p, raw);
      PartReadsAlone(p, body, 1, description);
      PartReadsAlone(p, body, 2, (fs: seq<Field>) => MapOf(p, fs));
      PartReadsAlone(p, body, 3, (fs: seq<Field>) => OutlineOf(p, fs));
      PartReadsAlone(p, body, 4, rooms);
      PartReadsAlone(p, body, 5, zones);
    }
  }

  /** A `Map` message as a device writes it: the packed cells sent verbatim. */
  function MapMessage(
    width: nat, height: nat, resolution: nat, x: int, y: int, id: nat, releases: nat, cells: seq<Byte>): seq<Item>
  {
    [Raw(4, cells), Int(5, |cells|),
     Sub(6, [Int(2, width), Int(3, height), Int(4, resolution), Sub(5, [Sint(1, x), Sint(2, y)])]),
     Int(8, id), Int(9, releases)]
  }

  /**
   * End to end: a grid packed, written, framed and decoded answers every cell the value it was packed with.
   */
  lemma WrittenMapIsReadBack(
    p: Platform, width: nat, height: nat, resolution: nat, x: int, y: int, id: nat, releases: nat,
    values: seq<MapCellValue>, cell: MapCell)
    requires Sound(p) && width * height == |values| <= TWO31
    requires 0 <= cell.col < width && 0 <= cell.row < height
    requires var m := MapMessage(width, height, resolution, x, y, id, releases, Pack(values));
      AllFit32(m) && Encode(m).Some? && |Encode(m).value| < TWO32
    ensures var body := Encode(MapMessage(width, height, resolution, x, y, id, releases, Pack(values))).value;
      var m := DecodeVacuumMap(p, Framed(p, body));
      && m.Some?
      && m.value.geometry.width == width && m.value.geometry.height == height
      && m.value.geometry.resolution == (if resolution == 0 then None else Some(resolution))
      && m.value.geometry.origin == MapPoint(x as real, y as real)
      && m.value.mapId == (if id == 0 then None else Some(id)) && m.value.releases == releases
      && 0 <= cell.row * width + cell.col < |values|
      && MapCellValueOf(m.value, cell) == Some(values[cell.row * width + cell.col])
  {
    hide Sound, Carries, Nested, Decode, AllFit32, Encode, MapMessage, GeometryOf, PlaneOf, CellValue, Pack;
    var cells := Pack(values);
    var items := MapMessage(width, height, resolution, x, y, id, releases, cells);
    var body := Encode(items).value;
    EnvelopeOpens(p, body);
    WrittenBodyReads(p, items);
    var plane := PlacedPlane(width, height, NonZero(resolution), MapPoint(x as real, y as real));
    IndexInGrid(plane, cell);
    PackLength(values);
    FieldsMakeTheMap(p, Nested(p, body).value, width, height, resolution, x, y, id, releases, cells);
    assert cells + [] == cells;
    PackedValuesAreAnswered(plane, values, [], cell);
  }

  lemma FieldsMakeTheMap(
    p: Platform, fs: seq<Field>, width: nat, height: nat, resolution: nat, x: int, y: int, id: nat, releases: nat,
    cells: seq<Byte>)
    requires Sound(p) && width > 0 && height > 0 && cells != [] && |cells| == (width * height + 3) / 4
    requires Carries(p, fs, MapMessage(width, height, resolution, x, y, id, releases, cells))
    ensures MapOf(p, fs) == Some(VacuumMapPlane(NonZero(id), releases,
      PlacedPlane(width, height, NonZero(resolution), MapPoint(x as real, y as real)), cells))
  {
    hide Sound, Carries, MapMessage, GeometryOf;
    MapFieldsRead(p, fs, width, height, resolution, x, y, id, releases, cells);
  }

  lemma {:induction false} FirstIs(items: seq<Item>, j: nat, n: nat)
    requires j < |items| && items[j].field == n && forall i: nat | i < j :: items[i].field != n
    ensures FirstItem(items, n) == Some(items[j])
  {
    if j > 0 { FirstIs(items[1..], j - 1, n); }
  }

  lemma ReadAt(p: Platform, fs: seq<Field>, items: seq<Item>, j: nat)
    requires Sound(p) && Carries(p, fs, items)
    requires j < |items| && items[j].field >= 0 && forall i: nat | i < j :: items[i].field != items[j].field
    ensures match items[j]
      case Int(n, v) => IntAt(Some(fs), n) == v
      case Sint(n, v) => SignedAt(Some(fs), n) == v
      case Bool(n, b) => FlagAt(Some(fs), n) == b
      case Raw(n, b) => BytesAt(Some(fs), n) == if b == [] then None else Some(b)
      case Sub(n, inner) => SubAt(p, Some(fs), n).Some? && Carries(p, SubAt(p, Some(fs), n).value, inner)
  {
    FirstIs(items, j, items[j].field);
    ReadersAnswerTheFirstCall(p, fs, items, items[j].field);
  }

  lemma MapFieldsRead(
    p: Platform, fs: seq<Field>, width: nat, height: nat, resolution: nat, x: int, y: int, id: nat, releases: nat,
    cells: seq<Byte>)
    requires Sound(p) && width > 0 && height > 0 && cells != []
    requires Carries(p, fs, MapMessage(width, height, resolution, x, y, id, releases, cells))
    ensures GeometryOf(p, SubAt(p, Some(fs), 6)) ==
      Some(PlacedPlane(width, height, NonZero(resolution), MapPoint(x as real, y as real)))
    ensures BytesAt(Some(fs), 4) == Some(cells) && IntAt(Some(fs), 5) == |cells|
    ensures IntAt(Some(fs), 8) == id && IntAt(Some(fs), 9) == releases
  {
    var items := MapMessage(width, height, resolution, x, y, id, releases, cells);
    ReadAt(p, fs, items, 0);
    ReadAt(p, fs, items, 1);
    ReadAt(p, fs, items, 2);
    ReadAt(p, fs, items, 3);
    ReadAt(p, fs, items, 4);
    var info, inner := SubAt(p, Some(fs), 6).value, items[2].items;
    ReadAt(p, info, inner, 0);
    ReadAt(p, info, inner, 1);
    ReadAt(p, info, inner, 2);
    ReadAt(p, info, inner, 3);
    var origin := SubAt(p, Some(info), 5).value;
    ReadAt(p, origin, inner[3].items, 0);
    ReadAt(p, origin, inner[3].items, 1);
  }

  // ---------------------------------------------------------------------------------------------
  // The outline, written and read back
  // ---------------------------------------------------------------------------------------------

  /** A `RoomOutline` message as a device writes it: one byte a cell, sent verbatim. */
  function OutlineMessage(
    width: nat, height: nat, resolution: nat, x: int, y: int, id: nat, releases: nat, cells: seq<Byte>): seq<Item>
  {
    [Int(1, id), Int(2, releases), Int(3, width), Int(4, height), Int(5, resolution),
     Sub(6, [Sint(1, x), Sint(2, y)]), Raw(7, cells), Int(8, |cells|)]
  }

  lemma OutlineFieldsRead(
    p: Platform, fs: seq<Field>, width: nat, height: nat, resolution: nat, x: int, y: int, id: nat, releases: nat,
    cells: seq<Byte>)
    requires Sound(p) && cells != []
    requires Carries(p, fs, OutlineMessage(width, height, resolution, x, y, id, releases, cells))
    ensures IntAt(Some(fs), 1) == id && IntAt(Some(fs), 2) == releases
    ensures IntAt(Some(fs), 3) == width && IntAt(Some(fs), 4) == height && IntAt(Some(fs), 5) == resolution
    ensures PointOf(p, fs, 6) == MapPoint(x as real, y as real)
    ensures BytesAt(Some(fs), 7) == Some(cells) && IntAt(Some(fs), 8) == |cells|
  {
    var items := OutlineMessage(width, height, resolution, x, y, id, releases, cells);
    ReadAt(p, fs, items, 0);
    ReadAt(p, fs, items, 1);
    ReadAt(p, fs, items, 2);
    ReadAt(p, fs, items, 3);
    ReadAt(p, fs, items, 4);
    ReadAt(p, fs, items, 5);
    ReadAt(p, fs, items, 6);
    ReadAt(p, fs, items, 7);
    var origin := SubAt(p, Some(fs), 6).value;
    ReadAt(p, origin, items[5].items, 0);
    ReadAt(p, origin, items[5].items, 1);
  }

  lemma FieldsMakeTheOutline(
    p: Platform, fs: seq<Field>, width: nat, height: nat, resolution: nat, x: int, y: int, id: nat, releases: nat,
    cells: seq<Byte>)
    requires Sound(p) && width > 0 && height > 0 && cells != [] && |cells| == width * height
    requires Carries(p, fs, OutlineMessage(width, height, resolution, x, y, id, releases, cells))
    ensures OutlineOf(p, fs) == Some(VacuumRoomOutline(NonZero(id), releases,
      PlacedPlane(width, height, NonZero(resolution), MapPoint(x as real, y as real)), cells))
  {
    hide Sound, Carries, OutlineMessage, PointOf;
    OutlineFieldsRead(p, fs, width, height, resolution, x, y, id, releases, cells);
  }

  /** A cell's byte: the room's id above two bits of sub-type. */
  function RoomBytes(rooms: seq<nat>, kinds: seq<nat>): (r: seq<Byte>)
    requires |rooms| == |kinds| && forall i | 0 <= i < |rooms| :: rooms[i] < 64 && kinds[i] < 4
    ensures |r| == |rooms| && forall i | 0 <= i < |r| :: r[i] == 4 * rooms[i] + kinds[i]
  {
    seq(|rooms|, i requires 0 <= i < |rooms| => 4 * rooms[i] + kinds[i])
  }

  /**
   * End to end: an outline written, framed and decoded has the grid, map id and revision it was written with, and
   * every cell names the room written for it, whatever its sub-type; room zero is no room.
   */
  lemma WrittenOutlineIsReadBack(
    p: Platform, width: nat, height: nat, resolution: nat, x: int, y: int, id: nat, releases: nat,
    rooms: seq<nat>, kinds: seq<nat>, cell: MapCell)
    requires Sound(p) && |rooms| == |kinds| == width * height
    requires forall i | 0 <= i < |rooms| :: rooms[i] < 64 && kinds[i] < 4
    requires 0 <= cell.col < width && 0 <= cell.row < height
    requires var m := OutlineMessage(width, height, resolution, x, y, id, releases, RoomBytes(rooms, kinds));
      AllFit32(m) && Encode(m).Some? && |Encode(m).value| < TWO32
    ensures
      var body := Encode(OutlineMessage(width, height, resolution, x, y, id, releases, RoomBytes(rooms, kinds))).value;
      var o := DecodeVacuumRoomOutline(p, Framed(p, body));
      && o.Some?
      && o.value.geometry.width == width && o.value.geometry.height == height
      && o.value.geometry.resolution == (if resolution == 0 then None else Some(resolution))
      && o.value.geometry.origin == MapPoint(x as real, y as real)
      && o.value.mapId == (if id == 0 then None else Some(id)) && o.value.releases == releases
      && 0 <= cell.row * width + cell.col < |rooms|
      && var room := rooms[cell.row * width + cell.col];
      RoomIdAt(o.value, cell) == if room == 0 then None else Some(room)
  {
    hide Sound, Carries, Nested, Decode, AllFit32, Encode, OutlineMessage, OutlineOf, RoomBytes;
    var cells := RoomBytes(rooms, kinds);
    var items := OutlineMessage(width, height, resolution, x, y, id, releases, cells);
    var body := Encode(items).value;
    EnvelopeOpens(p, body);
    WrittenBodyReads(p, items);
    IndexInGrid(PlacedPlane(width, height, NonZero(resolution), MapPoint(x as real, y as real)), cell);
    FieldsMakeTheOutline(p, Nested(p, body).value, width, height, resolution, x, y, id, releases, cells);
  }

  /** Nothing without a grid is accepted. */
  lemma AcceptedPlanesHaveAGrid(p: Platform, raw: string)
    requires Sound(p)
    ensures DecodeVacuumMap(p, raw).Some? ==>
      DecodeVacuumMap(p, raw).value.geometry.width > 0 && DecodeVacuumMap(p, raw).value.geometry.height > 0
    ensures DecodeVacuumRoomOutline(p, raw).Some? ==>
      && DecodeVacuumRoomOutline(p, raw).value.geometry.width > 0
      && DecodeVacuumRoomOutline(p, raw).value.geometry.height > 0
  {
    hide Sound, Decode, PlaneOf;
  }
}
