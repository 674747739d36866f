/**
 * InkHUD screen geometry: where the user tiles go for the 1-, 2- and
 * 4-tile layouts, how a tile moves an applet's pixel to display
 * coordinates, and the applet's crop test. Tile coordinates are
 * `int16_t` (left, top) and `uint16_t` (width, height); the sums the source
 * stores back into those types are truncated explicitly.
 */
module TileLayout {
  import opened Common

  /** A rectangle: a tile's region, or an applet's crop. */
  datatype Region = Region(left: int, top: int, width: int, height: int)

  predicate ValidRegion(r: Region)
  {
    IsInt16(r.left) && IsInt16(r.top) && 0 <= r.width < 0x1_0000 && 0 <= r.height < 0x1_0000
  }

  /** C++ `uint16_t` truncation. */
  function U16(v: int): (r: int)
    ensures 0 <= r < 0x1_0000
    ensures 0 <= v < 0x1_0000 ==> r == v
    ensures (r - v) % 0x1_0000 == 0
  {
    v % 0x1_0000
  }

  /** The point (x, y) lies in the rectangle. */
  predicate Covers(r: Region, x: int, y: int)
  {
    r.left <= x < r.left + r.width && r.top <= y < r.top + r.height
  }

  predicate InsideDisplay(r: Region, displayWidth: int, displayHeight: int)
  {
    0 <= r.left && 0 <= r.top && r.left + r.width <= displayWidth && r.top + r.height <= displayHeight
  }

  /** No point lies in both rectangles. */
  predicate Disjoint(a: Region, b: Region)
  {
    a.left + a.width <= b.left || b.left + b.width <= a.left
    || a.top + a.height <= b.top || b.top + b.height <= a.top
  }

  lemma DisjointMeansNoSharedPoint(a: Region, b: Region, x: int, y: int)
    requires Disjoint(a, b)
    ensures !(Covers(a, x, y) && Covers(b, x, y))
  {
  }

  /** The gap between neighbouring user tiles. */
  const Spacing: int := 4

  /** The region given to a tile index beyond the layout: off the display's top-left corner. */
  const StrayRegion: Region := Region(-2, -2, 1, 1)

  /**
   * The fields placeUserTile leaves, and whether its assertions hold: the
   * default case of the switch asserts, and every placed tile must have a
   * positive width and height. The fields are left as they were for an
   * unsupported tile count.
   */
  datatype Placement = Placement(region: Region, assertionsHold: bool)

  function UserTilePlacement(current: Region, displayWidth: u16, displayHeight: u16, count: u8, index: u8): (p: Placement)
    requires ValidRegion(current)
    ensures ValidRegion(p.region)
  {
    var w := displayWidth as int;
    var h := displayHeight as int;
    if index as int > count as int - 1 then
      Placement(StrayRegion, true)
    else if count == 1 then
      Placement(Region(0, 0, w, h), w > 0 && h > 0)
    else if count == 2 then
      var r :=
        if w > h then Region(Wrap16((w / 2 + Spacing / 2) * index as int), 0, U16(w / 2 - Spacing / 2), h)
        else Region(0, Wrap16((h / 2 + Spacing / 2) * index as int), w, U16(h / 2 - Spacing / 2));
      Placement(r, r.width > 0 && r.height > 0)
    else if count == 4 then
      var tw := U16(w / 2 - Spacing / 2);
      var th := U16(h / 2 - Spacing / 2);
      var l := if index == 1 || index == 3 then Wrap16(tw - 1 + Spacing) else 0;
      var t := if index == 2 || index == 3 then Wrap16(th - 1 + Spacing) else 0;
      Placement(Region(l, t, tw, th), tw > 0 && th > 0)
    else
      Placement(current, false)
  }

  /** A stray index gets the 1x1 region at (-2, -2), whatever the layout, and no assertion fires. */
  lemma StrayTile(current: Region, displayWidth: u16, displayHeight: u16, count: u8, index: u8)
    requires ValidRegion(current) && index as int >= count as int
    ensures UserTilePlacement(current, displayWidth, displayHeight, count, index) == Placement(StrayRegion, true)
    ensures !InsideDisplay(StrayRegion, displayWidth as int, displayHeight as int)
  {
  }

  /** One tile fills the display exactly. */
  lemma SingleTile(current: Region, displayWidth: u16, displayHeight: u16)
    requires ValidRegion(current) && displayWidth > 0 && displayHeight > 0
    ensures UserTilePlacement(current, displayWidth, displayHeight, 1, 0)
      == Placement(Region(0, 0, displayWidth as int, displayHeight as int), true)
  {
  }

  /**
   * Two tiles: side by side when the display is wider than tall (a square
   * display stacks them), each half the display less 2 px, 4 px apart,
   * disjoint and inside the display.
   */
  lemma TwoTiles(current: Region, displayWidth: u16, displayHeight: u16)
    requires ValidRegion(current)
    requires 6 <= displayWidth <= 65531 && 6 <= displayHeight <= 65531
    ensures var w := displayWidth as int;
      var h := displayHeight as int;
      var a := UserTilePlacement(current, displayWidth, displayHeight, 2, 0);
      var b := UserTilePlacement(current, displayWidth, displayHeight, 2, 1);
      && a.assertionsHold && b.assertionsHold
      && Disjoint(a.region, b.region)
      && InsideDisplay(a.region, w, h) && InsideDisplay(b.region, w, h)
      && a.region.left == 0 && a.region.top == 0
      && (w > h ==>
           && a.region.width == b.region.width == w / 2 - 2 && a.region.height == b.region.height == h
           && b.region.top == 0 && b.region.left == w / 2 + 2
           && b.region.left - (a.region.left + a.region.width) == Spacing)
      && (w <= h ==>
           && a.region.height == b.region.height == h / 2 - 2 && a.region.width == b.region.width == w
           && b.region.left == 0 && b.region.top == h / 2 + 2
           && b.region.top - (a.region.top + a.region.height) == Spacing)
  {
  }

  /**
   * Four tiles: quadrants of (W/2 - 2) x (H/2 - 2), the right and lower
   * ones starting at (size - 1) + 4, so only 3 px apart; pairwise disjoint
   * and inside the display.
   */
  lemma FourTiles(current: Region, displayWidth: u16, displayHeight: u16, i: u8, j: u8)
    requires ValidRegion(current)
    requires 6 <= displayWidth <= 65533 && 6 <= displayHeight <= 65533
    requires i < 4 && j < 4 && i != j
    ensures var w := displayWidth as int;
      var h := displayHeight as int;
      var a := UserTilePlacement(current, displayWidth, displayHeight, 4, i);
      var b := UserTilePlacement(current, displayWidth, displayHeight, 4, j);
      && a.assertionsHold
      && a.region.width == w / 2 - 2 && a.region.height == h / 2 - 2
      && a.region.left == (if i == 1 || i == 3 then w / 2 + 1 else 0)
      && a.region.top == (if i == 2 || i == 3 then h / 2 + 1 else 0)
      && InsideDisplay(a.region, w, h)
      && Disjoint(a.region, b.region)
      && (i == 0 && j == 1 ==> b.region.left - (a.region.left + a.region.width) == Spacing - 1)
  {
  }

  /** The bound is tight: on a landscape display 65532 px wide the second tile's `int16_t` left wraps negative. */
  lemma TwoTilesWrapOnWidestDisplays(current: Region)
    requires ValidRegion(current)
    ensures UserTilePlacement(current, 65532, 6, 2, 1).region.left < 0
  {
  }

  /** Any other tile count trips the assertion and leaves the region as it was. */
  lemma UnsupportedLayout(current: Region, displayWidth: u16, displayHeight: u16, count: u8, index: u8)
    requires ValidRegion(current)
    requires count != 1 && count != 2 && count != 4 && index < count
    ensures UserTilePlacement(current, displayWidth, displayHeight, count, index) == Placement(current, false)
  {
  }

  /** With a display at least 6 px each way, every supported layout places tiles of positive size. */
  lemma SupportedLayoutsHaveArea(current: Region, displayWidth: u16, displayHeight: u16, count: u8, index: u8)
    requires ValidRegion(current)
    requires count == 1 || count == 2 || count == 4
    requires 6 <= displayWidth && 6 <= displayHeight
    ensures var p := UserTilePlacement(current, displayWidth, displayHeight, count, index);
      p.assertionsHold && p.region.width > 0 && p.region.height > 0
  {
  }

  /**
   * handleAppletPixel: the applet's coordinates are moved by the tile's
   * offset (in `int16_t`), then kept only if they fall in the tile.
   */
  function TileForward(tile: Region, x: int, y: int): Option<(int, int)>
  {
    var tx := Wrap16(x + tile.left);
    var ty := Wrap16(y + tile.top);
    if tx >= tile.left && tx < tile.left + tile.width && ty >= tile.top && ty < tile.top + tile.height then
      Some((tx, ty))
    else None
  }

  /** A tile whose far edges stay within the `int16_t` range. */
  predicate InInt16Range(tile: Region)
  {
    ValidRegion(tile) && tile.width <= 0x8000 && tile.left + tile.width <= 0x8000
    && tile.height <= 0x8000 && tile.top + tile.height <= 0x8000
  }

  /**
   * For such a tile a pixel is forwarded exactly when it lies within the
   * tile's width and height, and lands at the pixel plus the tile's offset.
   */
  lemma TileForwardIff(tile: Region, x: int, y: int)
    requires InInt16Range(tile) && IsInt16(x) && IsInt16(y)
    ensures TileForward(tile, x, y).Some? <==> 0 <= x < tile.width && 0 <= y < tile.height
    ensures TileForward(tile, x, y).Some? ==> TileForward(tile, x, y).value == (x + tile.left, y + tile.top)
  {
  }

  /** The stray tile forwards at most the one pixel at (-2, -2), which is off the display. */
  lemma StrayTileForwardsOffDisplay(x: int, y: int)
    requires IsInt16(x) && IsInt16(y)
    ensures TileForward(StrayRegion, x, y).Some? ==> TileForward(StrayRegion, x, y).value == (-2, -2)
  {
  }

  /** Applet::drawPixel's crop test. */
  predicate CropAdmits(crop: Region, x: int, y: int)
  {
    x >= crop.left && x < crop.left + crop.width && y >= crop.top && y < crop.top + crop.height
  }

  /** The temporary crop that discards every pixel. */
  const NoPixelCrop: Region := Region(-1, -1, 0, 0)

  lemma NoPixelCropAdmitsNothing(x: int, y: int)
    ensures !CropAdmits(NoPixelCrop, x, y)
  {
  }

  /** A pixel's way from applet to display: through the crop, then the tile. */
  function PixelPath(crop: Region, tile: Region, x: int, y: int): Option<(int, int)>
  {
    if CropAdmits(crop, x, y) then TileForward(tile, x, y) else None
  }

  /**
   * After resetCrop the crop is the applet's whole area, which setTile made
   * the tile's size: a pixel then reaches the display exactly when the tile
   * holds it, and a crop narrower than that only removes pixels.
   */
  lemma FullCropIsTile(tile: Region, crop: Region, x: int, y: int)
    requires InInt16Range(tile) && IsInt16(x) && IsInt16(y)
    requires crop == Region(0, 0, tile.width, tile.height)
    ensures PixelPath(crop, tile, x, y) == TileForward(tile, x, y)
  {
    TileForwardIff(tile, x, y);
  }

  lemma CropOnlyRemoves(crop: Region, tile: Region, x: int, y: int)
    ensures PixelPath(crop, tile, x, y).Some? ==> TileForward(tile, x, y) == PixelPath(crop, tile, x, y)
    ensures PixelPath(crop, tile, x, y).Some? ==> CropAdmits(crop, x, y)
  {
  }
}
