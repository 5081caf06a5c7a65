/**
 * The integer parts of the service map: marker colours by reputation, the
 * grid of map tiles around the centre tile, marker pixel positions and the
 * zoom buttons. Tile coordinates are taken as given; the floating-point
 * conversion from latitude and longitude is not part of this model.
 */
module ServiceMap {
  import opened ReputationBadge

  datatype MarkerColor = Green | Yellow | Gray | Orange | Red

  /** `getMarkerColor`, including its redundant first branch. */
  function GetMarkerColor(reputation: int): MarkerColor {
    if reputation >= 100 then Green
    else if reputation >= 60 then Green
    else if reputation >= 20 then Yellow
    else if reputation >= -19 then Gray
    else if reputation >= -59 then Orange
    else Red
  }

  /** The Tailwind class of each marker colour. */
  function ColorClass(c: MarkerColor): string {
    match c
    case Green => "bg-green-500"
    case Yellow => "bg-yellow-500"
    case Gray => "bg-gray-500"
    case Orange => "bg-orange-500"
    case Red => "bg-red-500"
  }

  /** Each colour holds exactly the scores of its band. */
  lemma MarkerBands(reputation: int)
    ensures GetMarkerColor(reputation) == Green <==> reputation >= 60
    ensures GetMarkerColor(reputation) == Yellow <==> 20 <= reputation <= 59
    ensures GetMarkerColor(reputation) == Gray <==> -19 <= reputation <= 19
    ensures GetMarkerColor(reputation) == Orange <==> -59 <= reputation <= -20
    ensures GetMarkerColor(reputation) == Red <==> reputation <= -60
  {
  }

  /** The marker colour that corresponds to a badge emoji. */
  function EmojiMarker(e: Emoji): MarkerColor {
    match e
    case GreenCircle => Green
    case YellowCircle => Yellow
    case WhiteCircle => Gray
    case OrangeCircle => Orange
    case RedCircle => Red
  }

  /** A business's map marker has the colour of its reputation badge. */
  lemma {:induction false} MarkerAgreesWithBadge(reputation: int)
    ensures GetMarkerColor(reputation) == EmojiMarker(GetReputationData(reputation).emoji)
  {
    DataOfTier(TierOf(reputation));
    MarkerOfTier(reputation);
  }

  lemma MarkerOfTier(reputation: int)
    ensures GetMarkerColor(reputation) == EmojiMarker(TierEmoji(TierOf(reputation)))
  {
  }

  const TilesX: int := 4
  const TilesY: int := 4
  const TileSize: int := 256

  /** `Math.floor(tilesX / 2)` and `Math.floor(tilesY / 2)`. */
  const HalfX: int := TilesX / 2
  const HalfY: int := TilesY / 2

  /** Tiles per column of the grid: the loop runs from -HalfY to HalfY inclusive. */
  const Column: int := 2 * HalfY + 1

  datatype TileCoord = TileCoord(x: int, y: int)

  datatype Tile = Tile(x: int, y: int, offsetX: int, offsetY: int)

  /** The k-th tile the nested loops push: columns by dx, rows by dy. */
  function GridTile(center: TileCoord, k: int): Tile {
    var dx := k / Column - HalfX;
    var dy := k % Column - HalfY;
    Tile(center.x + dx, center.y + dy, dx, dy)
  }

  /** The position in the grid of the tile with offsets (dx, dy). */
  function OffsetIndex(dx: int, dy: int): int {
    (dx + HalfX) * Column + dy + HalfY
  }

  lemma GridIndex(center: TileCoord, dx: int, dy: int)
    requires -HalfX <= dx <= HalfX && -HalfY <= dy <= HalfY
    ensures GridTile(center, OffsetIndex(dx, dy)) == Tile(center.x + dx, center.y + dy, dx, dy)
  {
    var k := OffsetIndex(dx, dy);
    assert k / Column == dx + HalfX && k % Column == dy + HalfY;
  }

  /** The tile grid of the map: the nested `for` loops over dx and dy. */
  method BuildTiles(center: TileCoord) returns (tiles: seq<Tile>)
    ensures |tiles| == (2 * HalfX + 1) * Column == 25
    ensures forall k :: 0 <= k < |tiles| ==> tiles[k] == GridTile(center, k)
  {
    tiles := [];
    var dx := -HalfX;
    while dx <= HalfX
      invariant -HalfX <= dx <= HalfX + 1
      invariant |tiles| == (dx + HalfX) * Column
      invariant forall k :: 0 <= k < |tiles| ==> tiles[k] == GridTile(center, k)
    {
      var dy := -HalfY;
      while dy <= HalfY
        invariant -HalfY <= dy <= HalfY + 1
        invariant |tiles| == (dx + HalfX) * Column + dy + HalfY
        invariant forall k :: 0 <= k < |tiles| ==> tiles[k] == GridTile(center, k)
      {
        GridIndex(center, dx, dy);
        assert OffsetIndex(dx, dy) == |tiles|;
        tiles := tiles + [Tile(center.x + dx, center.y + dy, dx, dy)];
        dy := dy + 1;
      }
      dx := dx + 1;
    }
  }

  /** The grid holds every offset from -2 to 2 on both axes, each tile is the
      centre plus its offsets, and no tile appears twice. */
  lemma {:induction false} GridCoversOffsets(center: TileCoord)
    ensures forall k :: 0 <= k < 25 ==>
      var t := GridTile(center, k);
      -2 <= t.offsetX <= 2 && -2 <= t.offsetY <= 2 &&
      t.x == center.x + t.offsetX && t.y == center.y + t.offsetY
    ensures forall dx, dy :: -2 <= dx <= 2 && -2 <= dy <= 2 ==>
      0 <= OffsetIndex(dx, dy) < 25 &&
      GridTile(center, OffsetIndex(dx, dy)) == Tile(center.x + dx, center.y + dy, dx, dy)
    ensures forall i, j :: 0 <= i < j < 25 ==> GridTile(center, i) != GridTile(center, j)
  {
    forall dx, dy | -2 <= dx <= 2 && -2 <= dy <= 2
      ensures 0 <= OffsetIndex(dx, dy) < 25
      ensures GridTile(center, OffsetIndex(dx, dy)) == Tile(center.x + dx, center.y + dy, dx, dy)
    {
      GridIndex(center, dx, dy);
    }
    forall i, j | 0 <= i < j < 25 ensures GridTile(center, i) != GridTile(center, j) {
      assert i == (i / 5) * 5 + i % 5 && j == (j / 5) * 5 + j % 5;
    }
  }

  /** Where the tile image is drawn inside the tile layer. */
  function TileLeft(t: Tile): int {
    (t.offsetX + HalfX) * TileSize
  }

  function TileTop(t: Tile): int {
    (t.offsetY + HalfY) * TileSize
  }

  /** `getMarkerPosition` once the business's tile is known. */
  function MarkerPosition(businessTile: TileCoord, centerTile: TileCoord): (int, int) {
    ((businessTile.x - centerTile.x) * TileSize + (TileSize * TilesX) / 2,
     (businessTile.y - centerTile.y) * TileSize + (TileSize * TilesY) / 2)
  }

  /** A business in the centre tile is drawn at (512, 512), and a business in
      any grid tile is drawn at that tile's top-left corner. */
  lemma {:induction false} MarkerOnItsTile(center: TileCoord)
    ensures MarkerPosition(center, center) == (512, 512)
    ensures forall k :: 0 <= k < 25 ==>
      var t := GridTile(center, k);
      MarkerPosition(TileCoord(t.x, t.y), center) == (TileLeft(t), TileTop(t))
  {
    GridCoversOffsets(center);
  }

  const InitialZoom: int := 13
  const MinZoom: int := 8
  const MaxZoom: int := 18

  datatype ZoomButton = ZoomIn | ZoomOut

  /** `setZoom((z) => Math.min(z + 1, 18))` and `setZoom((z) => Math.max(z - 1, 8))`. */
  function NextZoom(z: int, b: ZoomButton): int {
    match b
    case ZoomIn => if z + 1 < MaxZoom then z + 1 else MaxZoom
    case ZoomOut => if z - 1 > MinZoom then z - 1 else MinZoom
  }

  function ZoomAfter(z: int, presses: seq<ZoomButton>): int
    decreases presses
  {
    if presses == [] then z else ZoomAfter(NextZoom(z, presses[0]), presses[1..])
  }

  /** Starting from the initial zoom, any sequence of presses keeps the zoom
      between 8 and 18. */
  lemma {:induction false} ZoomStaysInRange(z: int, presses: seq<ZoomButton>)
    requires MinZoom <= z <= MaxZoom
    ensures MinZoom <= ZoomAfter(z, presses) <= MaxZoom
    decreases presses
  {
    if presses != [] {
      ZoomStaysInRange(NextZoom(z, presses[0]), presses[1..]);
    }
  }

  /** The map's zoom state. */
  class MapView {
    var zoom: int

    ghost predicate Valid()
      reads this
    {
      MinZoom <= zoom <= MaxZoom
    }

    constructor ()
      ensures Valid() && zoom == InitialZoom
    {
      zoom := InitialZoom;
    }

    method Press(b: ZoomButton)
      requires Valid()
      modifies this
      ensures Valid()
      ensures zoom == NextZoom(old(zoom), b)
    {
      zoom := NextZoom(zoom, b);
    }
  }
}
