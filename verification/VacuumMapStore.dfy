/**
 * One robot's map, assembled from pieces that arrive separately (src/model/vacuum-map-store.ts).
 *
 * A piece that names another map replaces everything but the robot's position; a piece older than the one of
 * its kind already held is dropped. The results say, for every sequence of calls, what the store then holds in
 * terms of what it was offered.
 */
module VacuumMapStore {
  import opened Wrappers
  import opened MapPixels

  datatype MapLine = MapLine(from: MapPoint, to: MapPoint)

  datatype Zones =
    Zones(
      mapId: Option<nat>, releases: nat, virtualWalls: seq<MapLine>, noGo: seq<seq<MapPoint>>, noMop: seq<seq<MapPoint>>)

  datatype Description = Description(mapId: Option<nat>, releases: nat, name: string)

  datatype Kind = PlaneKind | OutlineKind | RoomsKind | ZonesKind | DescriptionKind

  /** A piece that names a map and a revision. */
  datatype Stamped =
    | PlanePiece(plane: VacuumMapPlane)
    | OutlinePiece(outline: VacuumRoomOutline)
    | RoomsPiece(rooms: VacuumRoomParams)
    | ZonesPiece(zones: Zones)
    | DescriptionPiece(description: Description)
  {
    function Kind(): Kind {
      match this
      case PlanePiece(_) => PlaneKind
      case OutlinePiece(_) => OutlineKind
      case RoomsPiece(_) => RoomsKind
      case ZonesPiece(_) => ZonesKind
      case DescriptionPiece(_) => DescriptionKind
    }

    function MapId(): Option<nat> {
      match this
      case PlanePiece(p) => p.mapId
      case OutlinePiece(o) => o.mapId
      case RoomsPiece(r) => r.mapId
      case ZonesPiece(z) => z.mapId
      case DescriptionPiece(d) => d.mapId
    }

    function Releases(): nat {
      match this
      case PlanePiece(p) => p.releases
      case OutlinePiece(o) => o.releases
      case RoomsPiece(r) => r.releases
      case ZonesPiece(z) => z.releases
      case DescriptionPiece(d) => d.releases
    }
  }

  datatype Backup = Backup(
    description: Option<Description>,
    plane: Option<VacuumMapPlane>,
    outline: Option<VacuumRoomOutline>,
    rooms: Option<VacuumRoomParams>,
    zones: Option<Zones>)

  datatype Piece = Single(piece: Stamped) | PosePiece(pose: MapPoint) | Whole(backup: Backup)

  /** What the store holds. `held` has at most one piece of a kind, under its kind. */
  datatype Snapshot = Snapshot(mapId: Option<nat>, held: map<Kind, Stamped>, pose: Option<MapPoint>)

  datatype State = State(current: Snapshot, revisions: map<Kind, nat>)

  const EMPTY := Snapshot(None, map[], None)
  const CLEARED := State(EMPTY, map[])

  // ---------------------------------------------------------------------------------------------
  // The operations as functions of the state
  // ---------------------------------------------------------------------------------------------

  predicate Switches(mapId: Option<nat>, piece: Stamped) {
    piece.MapId().Some? && mapId.Some? && piece.MapId() != mapId
  }

  function Put(s: State, piece: Stamped): (State, bool) {
    var s := if Switches(s.current.mapId, piece)
             then State(Snapshot(piece.MapId(), map[], s.current.pose), map[]) else s;
    var kind := piece.Kind();
    if kind in s.revisions && piece.Releases() < s.revisions[kind] then (s, false)
    else
      (State(Snapshot(if piece.MapId().Some? then piece.MapId() else s.current.mapId,
                      s.current.held[kind := piece], s.current.pose),
             s.revisions[kind := piece.Releases()]),
       true)
  }

  function PutAll(s: State, pieces: seq<Stamped>): (State, bool)
    decreases |pieces|
  {
    if pieces == [] then (s, false)
    else
      var (before, changed) := PutAll(s, pieces[..|pieces| - 1]);
      var (after, last) := Put(before, pieces[|pieces| - 1]);
      (after, last || changed)
  }

  function PiecesOf(b: Backup): seq<Stamped> {
    (if b.description.Some? then [DescriptionPiece(b.description.value)] else [])
    + (if b.plane.Some? then [PlanePiece(b.plane.value)] else [])
    + (if b.outline.Some? then [OutlinePiece(b.outline.value)] else [])
    + (if b.rooms.Some? then [RoomsPiece(b.rooms.value)] else [])
    + (if b.zones.Some? then [ZonesPiece(b.zones.value)] else [])
  }

  function Apply(s: State, piece: Piece): (State, bool) {
    match piece
    case Single(p) => Put(s, p)
    case PosePiece(p) => (s.(current := s.current.(pose := Some(p))), true)
    case Whole(b) => PutAll(s, PiecesOf(b))
  }

  function CurrentRoom(s: Snapshot): Option<VacuumRoom> {
    if s.pose.Some? && OutlineKind in s.held && RoomsKind in s.held
       && s.held[OutlineKind].OutlinePiece? && s.held[RoomsKind].RoomsPiece?
    then RoomAtPoint(s.held[OutlineKind].outline, s.held[RoomsKind].rooms, s.pose.value)
    else None
  }

  datatype Event = Applying(piece: Piece) | Clearing

  function After(events: seq<Event>): State {
    if events == [] then CLEARED
    else
      match events[|events| - 1]
      case Clearing => CLEARED
      case Applying(p) => Apply(After(events[..|events| - 1]), p).0
  }

  // ---------------------------------------------------------------------------------------------
  // What was offered
  // ---------------------------------------------------------------------------------------------

  /** The offers since the map was last switched or everything forgotten, from the events alone. */
  datatype Offers = Offers(mapId: Option<nat>, pieces: seq<Stamped>)

  /** A piece older than an earlier offer of its kind. */
  predicate Outdated(pieces: seq<Stamped>, piece: Stamped) {
    exists i: nat | i < |pieces| :: pieces[i].Kind() == piece.Kind() && piece.Releases() < pieces[i].Releases()
  }

  /** The piece and the map so far have different names. */
  predicate NamesAnother(mapId: Option<nat>, piece: Stamped) {
    mapId.Some? && piece.MapId().Some? && mapId.value != piece.MapId().value
  }

  /** The map is named by what is not outdated; another name starts over. */
  function Offer(o: Offers, piece: Stamped): Offers {
    if NamesAnother(o.mapId, piece) then Offers(piece.MapId(), [piece])
    else
      Offers(if piece.MapId().Some? && !Outdated(o.pieces, piece) then piece.MapId() else o.mapId,
             o.pieces + [piece])
  }

  function OfferAll(o: Offers, pieces: seq<Stamped>): Offers
    decreases |pieces|
  {
    if pieces == [] then o
    else Offer(OfferAll(o, pieces[..|pieces| - 1]), pieces[|pieces| - 1])
  }

  function Offered(events: seq<Event>): Offers {
    if events == [] then Offers(None, [])
    else
      var before := Offered(events[..|events| - 1]);
      match events[|events| - 1]
      case Clearing => Offers(None, [])
      case Applying(Single(p)) => Offer(before, p)
      case Applying(PosePiece(_)) => before
      case Applying(Whole(b)) => OfferAll(before, PiecesOf(b))
  }

  /** The last of the offers of a kind that carry its greatest revision. */
  predicate LatestOffer(pieces: seq<Stamped>, kind: Kind, i: nat) {
    && i < |pieces| && pieces[i].Kind() == kind
    && (forall j: nat | j < i && pieces[j].Kind() == kind :: pieces[j].Releases() <= pieces[i].Releases())
    && (forall j: nat | i < j < |pieces| && pieces[j].Kind() == kind :: pieces[j].Releases() < pieces[i].Releases())
  }

  ghost predicate IsLatest(pieces: seq<Stamped>, kind: Kind, piece: Stamped) {
    exists i: nat :: LatestOffer(pieces, kind, i) && pieces[i] == piece
  }

  /** The store holds, of each kind offered, the latest offer and its revision, and nothing else. */
  ghost predicate Holds(s: State, o: Offers) {
    && s.current.mapId == o.mapId
    && s.revisions.Keys == s.current.held.Keys
    && (forall kind | kind in s.current.held ::
          s.current.held[kind].Releases() == s.revisions[kind] && IsLatest(o.pieces, kind, s.current.held[kind]))
    && (forall i: nat | i < |o.pieces| :: o.pieces[i].Kind() in s.current.held)
  }

  /** Every held piece that names a map names the map the snapshot is of. */
  ghost predicate OneMap(s: Snapshot) {
    forall kind | kind in s.held :: s.held[kind].MapId().Some? ==> s.held[kind].MapId() == s.mapId
  }

  lemma LatestStays(pieces: seq<Stamped>, kind: Kind, held: Stamped, piece: Stamped)
    requires IsLatest(pieces, kind, held)
    requires piece.Kind() == kind ==> piece.Releases() < held.Releases()
    ensures IsLatest(pieces + [piece], kind, held)
  {
    var i: nat :| LatestOffer(pieces, kind, i) && pieces[i] == held;
    assert LatestOffer(pieces + [piece], kind, i) && (pieces + [piece])[i] == held;
  }

  lemma NewestIsLatest(pieces: seq<Stamped>, piece: Stamped)
    requires !Outdated(pieces, piece)
    ensures IsLatest(pieces + [piece], piece.Kind(), piece)
  {
    forall j: nat | j < |pieces| && (pieces + [piece])[j].Kind() == piece.Kind()
      ensures (pieces + [piece])[j].Releases() <= piece.Releases()
    {
      assert pieces[j].Kind() == piece.Kind();
    }
    assert LatestOffer(pieces + [piece], piece.Kind(), |pieces|);
  }

  /** The store's test against the revision held is the test against everything offered. */
  lemma RefusedIffOutdated(s: State, o: Offers, piece: Stamped)
    requires Holds(s, o)
    ensures Outdated(o.pieces, piece) <==>
      piece.Kind() in s.revisions && piece.Releases() < s.revisions[piece.Kind()]
  {
    var kind := piece.Kind();
    if kind in s.current.held {
      var i: nat :| LatestOffer(o.pieces, kind, i) && o.pieces[i] == s.current.held[kind];
      if Outdated(o.pieces, piece) {
        var j: nat :| j < |o.pieces| && o.pieces[j].Kind() == kind && piece.Releases() < o.pieces[j].Releases();
      }
    }
  }

  lemma SwitchHolds(s: State, o: Offers, piece: Stamped)
    requires Holds(s, o) && NamesAnother(o.mapId, piece)
    ensures Holds(Put(s, piece).0, Offer(o, piece))
  {
    NewestIsLatest([], piece);
    assert [] + [piece] == [piece];
  }

  lemma RefusedHolds(s: State, o: Offers, piece: Stamped)
    requires Holds(s, o) && piece.Kind() in s.revisions && piece.Releases() < s.revisions[piece.Kind()]
    ensures Holds(s, Offers(o.mapId, o.pieces + [piece]))
  {
    forall kind | kind in s.current.held ensures IsLatest(o.pieces + [piece], kind, s.current.held[kind]) {
      LatestStays(o.pieces, kind, s.current.held[kind], piece);
    }
  }

  lemma AcceptedHolds(s: State, o: Offers, piece: Stamped, mapId: Option<nat>)
    requires Holds(s, o) && !Outdated(o.pieces, piece)
    ensures Holds(
      State(Snapshot(mapId, s.current.held[piece.Kind() := piece], s.current.pose),
            s.revisions[piece.Kind() := piece.Releases()]),
      Offers(mapId, o.pieces + [piece]))
  {
    hide IsLatest, Outdated;
    NewestIsLatest(o.pieces, piece);
    forall kind | kind in s.current.held && kind != piece.Kind()
      ensures IsLatest(o.pieces + [piece], kind, s.current.held[kind])
    {
      LatestStays(o.pieces, kind, s.current.held[kind], piece);
    }
  }

  lemma PutHolds(s: State, o: Offers, piece: Stamped)
    requires Holds(s, o)
    ensures Holds(Put(s, piece).0, Offer(o, piece))
  {
    hide IsLatest, Outdated;
    if NamesAnother(o.mapId, piece) {
      SwitchHolds(s, o, piece);
    } else {
      RefusedIffOutdated(s, o, piece);
      if Outdated(o.pieces, piece) {
        RefusedHolds(s, o, piece);
      } else {
        AcceptedHolds(s, o, piece, if piece.MapId().Some? then piece.MapId() else o.mapId);
      }
    }
  }

  lemma PutKeepsOneMap(s: State, piece: Stamped)
    requires OneMap(s.current)
    ensures OneMap(Put(s, piece).0.current)
  {
  }

  lemma {:induction false} PutAllKeeps(s: State, o: Offers, pieces: seq<Stamped>)
    requires Holds(s, o) && OneMap(s.current)
    ensures Holds(PutAll(s, pieces).0, OfferAll(o, pieces)) && OneMap(PutAll(s, pieces).0.current)
    decreases |pieces|
  {
    hide Holds, OneMap, Put, Offer;
    if pieces != [] {
      var n := |pieces| - 1;
      PutAllKeeps(s, o, pieces[..n]);
      PutHolds(PutAll(s, pieces[..n]).0, OfferAll(o, pieces[..n]), pieces[n]);
      PutKeepsOneMap(PutAll(s, pieces[..n]).0, pieces[n]);
    }
  }

  /**
   * After any sequence of calls: each kind offered since the last switch or clear is held as the last of its
   * offers with the greatest revision, and every held piece that names a map names the snapshot's.
   */
  lemma {:induction false} HeldPiecesBelongTogether(events: seq<Event>)
    ensures Holds(After(events), Offered(events)) && OneMap(After(events).current)
  {
    if events != [] {
      var n := |events| - 1;
      HeldPiecesBelongTogether(events[..n]);
      hide Put, Offer, OfferAll, PutAll;
      match events[n] {
        case Clearing =>
        case Applying(PosePiece(_)) =>
        case Applying(Single(p)) =>
          PutHolds(After(events[..n]), Offered(events[..n]), p);
          PutKeepsOneMap(After(events[..n]), p);
        case Applying(Whole(b)) => PutAllKeeps(After(events[..n]), Offered(events[..n]), PiecesOf(b));
      }
    }
  }

  /** A refused piece leaves the whole store untouched, and only pieces older than one offered are refused. */
  lemma RefusedChangesNothing(events: seq<Event>, piece: Stamped)
    ensures var (after, changed) := Apply(After(events), Single(piece));
      && (!changed ==> after == After(events))
      && (changed <==> NamesAnother(After(events).current.mapId, piece) || !Outdated(Offered(events).pieces, piece))
  {
    HeldPiecesBelongTogether(events);
    RefusedIffOutdated(After(events), Offered(events), piece);
  }

  /** One part of a backup in its turn: applied if the device sent it, passed over if not. */
  function Turn(r: (State, bool), part: Option<Stamped>): (State, bool) {
    if part.None? then r else var (s, changed) := Apply(r.0, Single(part.value)); (s, changed || r.1)
  }

  function Listed(part: Option<Stamped>): seq<Stamped> {
    if part.None? then [] else [part.value]
  }

  lemma TurnIsNext(s: State, pieces: seq<Stamped>, part: Option<Stamped>)
    ensures PutAll(s, pieces + Listed(part)) == Turn(PutAll(s, pieces), part)
  {
    hide Put;
    if part.None? {
      assert pieces + [] == pieces;
    } else {
      assert (pieces + [part.value])[..|pieces|] == pieces;
    }
  }

  /** Applying a backup is applying each part it carries: description, plane, outline, rooms, zones. */
  lemma BackupIsItsParts(s: State, b: Backup)
    ensures
      var description := if b.description.Some? then Some(DescriptionPiece(b.description.value)) else None;
      var plane := if b.plane.Some? then Some(PlanePiece(b.plane.value)) else None;
      var outline := if b.outline.Some? then Some(OutlinePiece(b.outline.value)) else None;
      var rooms := if b.rooms.Some? then Some(RoomsPiece(b.rooms.value)) else None;
      var zones := if b.zones.Some? then Some(ZonesPiece(b.zones.value)) else None;
      Apply(s, Whole(b)) == Turn(Turn(Turn(Turn(Turn((s, false), description), plane), outline), rooms), zones)
  {
    hide PutAll, Turn;
    var d: Option<Stamped> := if b.description.Some? then Some(DescriptionPiece(b.description.value)) else None;
    var p: Option<Stamped> := if b.plane.Some? then Some(PlanePiece(b.plane.value)) else None;
    var o: Option<Stamped> := if b.outline.Some? then Some(OutlinePiece(b.outline.value)) else None;
    var r: Option<Stamped> := if b.rooms.Some? then Some(RoomsPiece(b.rooms.value)) else None;
    var z: Option<Stamped> := if b.zones.Some? then Some(ZonesPiece(b.zones.value)) else None;
    var none: seq<Stamped> := [];
    Nothing(s);
    assert none + Listed(d) == Listed(d);
    TurnIsNext(s, none, d);
    TurnIsNext(s, Listed(d), p);
    TurnIsNext(s, Listed(d) + Listed(p), o);
    TurnIsNext(s, Listed(d) + Listed(p) + Listed(o), r);
    TurnIsNext(s, Listed(d) + Listed(p) + Listed(o) + Listed(r), z);
  }

  lemma Nothing(s: State)
    ensures PutAll(s, []) == (s, false)
  {
  }

  /** Of each kind, once a piece is held an older revision of the same map is refused and changes nothing. */
  lemma OlderIsRefused(s: State, a: Stamped, b: Stamped)
    requires a.Kind() == b.Kind() && a.MapId() == b.MapId() && b.Releases() < a.Releases() && Put(s, a).1
    ensures Put(Put(s, a).0, b) == (Put(s, a).0, false)
  {
  }

  /** `a` is held once it is put, and then refuses `b`. */
  predicate Outranks(s: State, a: Stamped, b: Stamped) {
    Put(s, a).1 ==> !Put(Put(s, a).0, b).1
  }

  predicate Older(mapId: Option<nat>, releases: nat, mapId': Option<nat>, releases': nat) {
    mapId' == mapId && releases' < releases
  }

  /** What a piece is stamped with is what its own record says. */
  lemma OlderRecordsAreRefused(s: State)
    ensures forall a: VacuumMapPlane, b: VacuumMapPlane | Older(a.mapId, a.releases, b.mapId, b.releases) ::
      Outranks(s, PlanePiece(a), PlanePiece(b))
    ensures forall a: VacuumRoomOutline, b: VacuumRoomOutline | Older(a.mapId, a.releases, b.mapId, b.releases) ::
      Outranks(s, OutlinePiece(a), OutlinePiece(b))
    ensures forall a: VacuumRoomParams, b: VacuumRoomParams | Older(a.mapId, a.releases, b.mapId, b.releases) ::
      Outranks(s, RoomsPiece(a), RoomsPiece(b))
    ensures forall a: Zones, b: Zones | Older(a.mapId, a.releases, b.mapId, b.releases) ::
      Outranks(s, ZonesPiece(a), ZonesPiece(b))
    ensures forall a: Description, b: Description | Older(a.mapId, a.releases, b.mapId, b.releases) ::
      Outranks(s, DescriptionPiece(a), DescriptionPiece(b))
  {
    hide Put;
    forall a: Stamped, b: Stamped
      | a.Kind() == b.Kind() && Older(a.MapId(), a.Releases(), b.MapId(), b.Releases())
      ensures Outranks(s, a, b)
    {
      if Put(s, a).1 { OlderIsRefused(s, a, b); }
    }
    hide Outranks;
  }

  /** Every held record that names a map names the snapshot's, record by record. */
  lemma HeldRecordsNameTheMap(events: seq<Event>, kind: Kind)
    requires kind in After(events).current.held
    ensures var s := After(events).current;
      match s.held[kind]
      case PlanePiece(p) => kind == PlaneKind && (p.mapId.Some? ==> p.mapId == s.mapId)
      case OutlinePiece(o) => kind == OutlineKind && (o.mapId.Some? ==> o.mapId == s.mapId)
      case RoomsPiece(r) => kind == RoomsKind && (r.mapId.Some? ==> r.mapId == s.mapId)
      case ZonesPiece(z) => kind == ZonesKind && (z.mapId.Some? ==> z.mapId == s.mapId)
      case DescriptionPiece(d) => kind == DescriptionKind && (d.mapId.Some? ==> d.mapId == s.mapId)
  {
    HeldPiecesBelongTogether(events);
  }

  /** The last position given since everything was last forgotten. */
  function LastPose(events: seq<Event>): Option<MapPoint> {
    if events == [] then None
    else
      match events[|events| - 1]
      case Clearing => None
      case Applying(PosePiece(p)) => Some(p)
      case Applying(_) => LastPose(events[..|events| - 1])
  }

  lemma {:induction false} PartsKeepPose(s: State, pieces: seq<Stamped>)
    ensures PutAll(s, pieces).0.current.pose == s.current.pose
    decreases |pieces|
  {
    if pieces != [] { PartsKeepPose(s, pieces[..|pieces| - 1]); }
  }

  /** The robot's position is kept across map switches and refusals, and only given anew or forgotten with all else. */
  lemma {:induction false} PoseSurvivesSwitches(events: seq<Event>)
    ensures After(events).current.pose == LastPose(events)
  {
    if events != [] {
      var n := |events| - 1;
      PoseSurvivesSwitches(events[..n]);
      if events[n].Applying? && events[n].piece.Whole? {
        PartsKeepPose(After(events[..n]), PiecesOf(events[n].piece.backup));
      }
    }
  }

  /** The room answered comes from an outline and a room list that do not name different maps. */
  lemma CurrentRoomNeverMixesMaps(events: seq<Event>)
    requires CurrentRoom(After(events).current).Some?
    ensures var s := After(events).current;
      && OutlineKind in s.held && RoomsKind in s.held
      && s.held[OutlineKind].OutlinePiece? && s.held[RoomsKind].RoomsPiece?
      && var outline, rooms := s.held[OutlineKind].outline, s.held[RoomsKind].rooms;
      && (outline.mapId.Some? ==> outline.mapId == s.mapId) && (rooms.mapId.Some? ==> rooms.mapId == s.mapId)
  {
    HeldPiecesBelongTogether(events);
  }

  /** The shape `CurrentRoom` checks is always there: what is held under a kind is of that kind. */
  lemma HeldUnderItsKind(events: seq<Event>, kind: Kind)
    requires kind in After(events).current.held
    ensures After(events).current.held[kind].Kind() == kind
  {
    HeldPiecesBelongTogether(events);
  }

  // ---------------------------------------------------------------------------------------------
  // The class
  // ---------------------------------------------------------------------------------------------

  class VacuumMapStore {
    var current: Snapshot
    var revisions: map<Kind, nat>

    function Contents(): State
      reads this
    {
      State(current, revisions)
    }

    constructor ()
      ensures Contents() == CLEARED
    {
      current, revisions := EMPTY, map[];
    }

    method ApplyPiece(piece: Piece) returns (changed: bool)
      modifies this
      ensures (Contents(), changed) == Apply(old(Contents()), piece)
    {
      match piece {
        case Single(p) => changed := PutPiece(p);
        case PosePiece(pose) =>
          current := current.(pose := Some(pose));
          changed := true;
        case Whole(backup) => changed := ApplyBackup(backup);
      }
    }

    method Clear()
      modifies this
      ensures Contents() == CLEARED
    {
      current, revisions := EMPTY, map[];
    }

    static method Parts(backup: Backup) returns (pieces: seq<Stamped>)
      ensures pieces == PiecesOf(backup)
    {
      pieces := [];
      if backup.description.Some? { pieces := pieces + [DescriptionPiece(backup.description.value)]; }
      if backup.plane.Some? { pieces := pieces + [PlanePiece(backup.plane.value)]; }
      if backup.outline.Some? { pieces := pieces + [OutlinePiece(backup.outline.value)]; }
      if backup.rooms.Some? { pieces := pieces + [RoomsPiece(backup.rooms.value)]; }
      if backup.zones.Some? { pieces := pieces + [ZonesPiece(backup.zones.value)]; }
    }

    method ApplyBackup(backup: Backup) returns (changed: bool)
      modifies this
      ensures (Contents(), changed) == PutAll(old(Contents()), PiecesOf(backup))
    {
      changed := false;
      var pieces := Parts(backup);
      for i := 0 to |pieces|
        invariant (Contents(), changed) == PutAll(old(Contents()), pieces[..i])
      {
        assert pieces[..i + 1][..i] == pieces[..i];
        var applied := PutPiece(pieces[i]);
        changed := applied || changed;
      }
      assert pieces[..|pieces|] == pieces;
    }

    method PutPiece(piece: Stamped) returns (changed: bool)
      modifies this
      ensures (Contents(), changed) == Put(old(Contents()), piece)
    {
      if piece.MapId().Some? && current.mapId.Some? && piece.MapId() != current.mapId {
        current := EMPTY.(pose := current.pose, mapId := piece.MapId());
        revisions := map[];
      }
      var kind := piece.Kind();
      if kind in revisions && piece.Releases() < revisions[kind] { return false; }
      revisions := revisions[kind := piece.Releases()];
      var mapId := if piece.MapId().Some? then piece.MapId() else current.mapId;
      current := current.(mapId := mapId, held := current.held[kind := piece]);
      return true;
    }
  }
}
