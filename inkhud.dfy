/**
 * The InkHUD compositor's path for a pixel, and the applet base class.
 * An applet draws in its own coordinates; drawPixel applies the applet's
 * crop and hands the pixel to its tile; the tile moves it to display
 * coordinates, clips it to the tile and passes it to the window manager.
 *
 * The window manager is reduced to the sink that receives those pixels.
 * Glyph rasterisation and fills are recorded as drawing operations tagged
 * with the crop in effect instead of being expanded into pixels. The
 * applet's handlers (onActivate, onForeground, render, ...) are virtual and
 * are recorded in a log of hooks.
 */
module InkHUD {
  import opened Common
  import opened TileLayout
  import opened TextLayout
  import opened AppletHelpers

  datatype Color = Black | White

  datatype Pixel = Pixel(x: int, y: int, color: Color)

  /** The pixel a path delivers, if any. */
  function PixelsOf(o: Option<(int, int)>, c: Color): (r: seq<Pixel>)
    ensures |r| <= 1
  {
    match o
    case None => []
    case Some(p) => [Pixel(p.0, p.1, c)]
  }

  /** The window manager as a tile sees it: the size of the display and the pixels it has received. */
  class WindowManager {
    const width: u16
    const height: u16
    var pixels: seq<Pixel>

    constructor (displayWidth: u16, displayHeight: u16)
      ensures width == displayWidth && height == displayHeight && pixels == []
    {
      width := displayWidth;
      height := displayHeight;
      pixels := [];
    }

    method HandleTilePixel(x: int, y: int, c: Color)
      modifies this`pixels
      ensures pixels == old(pixels) + [Pixel(x, y, c)]
    {
      pixels := pixels + [Pixel(x, y, c)];
    }
  }

  // ---------------------------------------------------------------------
  // Applet lifecycle
  // ---------------------------------------------------------------------

  /** The calls an applet makes to its own virtual handlers, and its requests to the window manager. */
  datatype Hook = OnActivate | OnDeactivate | OnForeground | OnBackground | RenderCalled | UpdateRequested

  datatype Lifecycle = Lifecycle(active: bool, foreground: bool, wantRender: bool, wantAutoshow: bool, hooks: seq<Hook>)

  function ActivateStep(l: Lifecycle): Lifecycle
  {
    l.(hooks := l.hooks + [OnActivate], active := true)
  }

  function SendToBackgroundStep(l: Lifecycle): Lifecycle
  {
    if l.foreground then l.(foreground := false, hooks := l.hooks + [OnBackground]) else l
  }

  function DeactivateStep(l: Lifecycle): Lifecycle
  {
    var l1 := if l.foreground then SendToBackgroundStep(l) else l;
    var l2 := if l1.active then l1.(hooks := l1.hooks + [OnDeactivate]) else l1;
    l2.(active := false)
  }

  function RequestUpdateStep(l: Lifecycle): Lifecycle
  {
    l.(wantRender := true, hooks := l.hooks + [UpdateRequested])
  }

  function BringToForegroundStep(l: Lifecycle): Lifecycle
  {
    var l1 := if !l.foreground then l.(foreground := true, hooks := l.hooks + [OnForeground]) else l;
    RequestUpdateStep(l1)
  }

  /** wantsToAutoshow: the flag, which reading clears. */
  function WantsToAutoshowStep(l: Lifecycle): (bool, Lifecycle)
  {
    (l.wantAutoshow, l.(wantAutoshow := false))
  }

  datatype LifeOp =
    | Activate | Deactivate | BringToForeground | SendToBackground
    | RequestUpdate | RequestAutoshow | WantsToAutoshow | ResetDrawingSpace

  function Apply(l: Lifecycle, op: LifeOp): Lifecycle
  {
    match op
    case Activate => ActivateStep(l)
    case Deactivate => DeactivateStep(l)
    case BringToForeground => BringToForegroundStep(l)
    case SendToBackground => SendToBackgroundStep(l)
    case RequestUpdate => RequestUpdateStep(l)
    case RequestAutoshow => l.(wantAutoshow := true)
    case WantsToAutoshow => WantsToAutoshowStep(l).1
    case ResetDrawingSpace => l.(wantRender := false)
  }

  function Trace(l: Lifecycle, ops: seq<LifeOp>): Lifecycle
    decreases |ops|
  {
    if ops == [] then l else Trace(Apply(l, ops[0]), ops[1..])
  }

  function Count(hooks: seq<Hook>, h: Hook): nat
  {
    if hooks == [] then 0 else Count(hooks[..|hooks| - 1], h) + (if hooks[|hooks| - 1] == h then 1 else 0)
  }

  /** The lifecycle every applet starts in (the initial values live in Applet.h). */
  const InitialLife: Lifecycle := Lifecycle(false, false, false, false, [])

  /**
   * deactivate: the applet ends neither active nor in the foreground;
   * onBackground runs first if it was in the foreground, then onDeactivate
   * if it was active.
   */
  lemma DeactivateLeavesIdle(l: Lifecycle)
    ensures var r := DeactivateStep(l);
      && !r.active && !r.foreground
      && r.hooks == l.hooks + (if l.foreground then [OnBackground] else []) + (if l.active then [OnDeactivate] else [])
      && r.wantRender == l.wantRender && r.wantAutoshow == l.wantAutoshow
  {
  }

  /** activate runs onActivate and sets active whatever the state, so a second activate runs it again. */
  lemma ActivateUnguarded(l: Lifecycle)
    ensures var r := ActivateStep(ActivateStep(l));
      r.active && r.hooks == l.hooks + [OnActivate, OnActivate]
  {
  }

  /**
   * bringToForeground runs onForeground only when the applet was in the
   * background but always asks for a render; sendToBackground runs
   * onBackground only on the way out of the foreground.
   */
  lemma ForegroundTransitions(l: Lifecycle)
    ensures var f := BringToForegroundStep(l);
      && f.foreground && f.wantRender && f.active == l.active
      && f.hooks == l.hooks + (if l.foreground then [] else [OnForeground]) + [UpdateRequested]
    ensures var b := SendToBackgroundStep(l);
      && !b.foreground && b.wantRender == l.wantRender && b.active == l.active
      && b.hooks == l.hooks + (if l.foreground then [OnBackground] else [])
  {
  }

  /** Asking twice: the second answer is "no" until the applet asks for autoshow again. */
  lemma AutoshowReadOnce(l: Lifecycle)
    ensures var first := WantsToAutoshowStep(l);
      var second := WantsToAutoshowStep(first.1);
      first.0 == l.wantAutoshow && !second.0 && second.1.(wantAutoshow := l.wantAutoshow) == l
  {
  }

  /** The foreground handlers pair up: onForeground runs once more than onBackground exactly while in the foreground. */
  predicate ForegroundBalanced(l: Lifecycle)
  {
    Count(l.hooks, OnForeground) == Count(l.hooks, OnBackground) + (if l.foreground then 1 else 0)
  }

  /** onDeactivate never runs more often than onActivate, counting the current activation. */
  predicate DeactivationsMatched(l: Lifecycle)
  {
    Count(l.hooks, OnDeactivate) + (if l.active then 1 else 0) <= Count(l.hooks, OnActivate)
  }

  lemma ApplyKeepsBalance(l: Lifecycle, op: LifeOp)
    requires ForegroundBalanced(l) && DeactivationsMatched(l)
    ensures ForegroundBalanced(Apply(l, op)) && DeactivationsMatched(Apply(l, op))
  {
    match op
    case Activate =>
      CountsAppendOne(l.hooks, OnActivate);
    case Deactivate =>
      DeactivateKeepsBalance(l);
    case BringToForeground =>
      BringToForegroundKeepsBalance(l);
    case SendToBackground =>
      SendToBackgroundKeepsBalance(l);
    case RequestUpdate =>
      CountsAppendOne(l.hooks, UpdateRequested);
    case _ =>
  }

  lemma SendToBackgroundKeepsBalance(l: Lifecycle)
    requires ForegroundBalanced(l) && DeactivationsMatched(l)
    ensures ForegroundBalanced(SendToBackgroundStep(l)) && DeactivationsMatched(SendToBackgroundStep(l))
  {
    if l.foreground {
      CountsAppendOne(l.hooks, OnBackground);
    }
  }

  lemma DeactivateKeepsBalance(l: Lifecycle)
    requires ForegroundBalanced(l) && DeactivationsMatched(l)
    ensures ForegroundBalanced(DeactivateStep(l)) && DeactivationsMatched(DeactivateStep(l))
  {
    var l1 := SendToBackgroundStep(l);
    SendToBackgroundKeepsBalance(l);
    if l1.active {
      CountsAppendOne(l1.hooks, OnDeactivate);
    }
  }

  lemma BringToForegroundKeepsBalance(l: Lifecycle)
    requires ForegroundBalanced(l) && DeactivationsMatched(l)
    ensures ForegroundBalanced(BringToForegroundStep(l)) && DeactivationsMatched(BringToForegroundStep(l))
  {
    var l1 := if !l.foreground then l.(foreground := true, hooks := l.hooks + [OnForeground]) else l;
    if !l.foreground {
      CountsAppendOne(l.hooks, OnForeground);
    }
    CountsAppendOne(l1.hooks, UpdateRequested);
  }

  /** The four counts the pairings use, after one more hook. */
  lemma CountsAppendOne(hooks: seq<Hook>, x: Hook)
    ensures Count(hooks + [x], OnForeground) == Count(hooks, OnForeground) + (if x == OnForeground then 1 else 0)
    ensures Count(hooks + [x], OnBackground) == Count(hooks, OnBackground) + (if x == OnBackground then 1 else 0)
    ensures Count(hooks + [x], OnActivate) == Count(hooks, OnActivate) + (if x == OnActivate then 1 else 0)
    ensures Count(hooks + [x], OnDeactivate) == Count(hooks, OnDeactivate) + (if x == OnDeactivate then 1 else 0)
  {
    assert (hooks + [x])[..|hooks|] == hooks;
  }

  /** Over any sequence of lifecycle calls from the initial state, both pairings hold. */
  lemma {:induction false} TraceKeepsBalance(l: Lifecycle, ops: seq<LifeOp>)
    requires ForegroundBalanced(l) && DeactivationsMatched(l)
    ensures ForegroundBalanced(Trace(l, ops)) && DeactivationsMatched(Trace(l, ops))
    decreases |ops|
  {
    if ops != [] {
      ApplyKeepsBalance(l, ops[0]);
      TraceKeepsBalance(Apply(l, ops[0]), ops[1..]);
    }
  }

  lemma InitialBalanced()
    ensures ForegroundBalanced(InitialLife) && DeactivationsMatched(InitialLife)
  {
  }

  // ---------------------------------------------------------------------
  // Drawing records
  // ---------------------------------------------------------------------

  /**
   * What an applet drew, with the crop in effect: fillScreen, a print at
   * the cursor, or a printAt centred on a point.
   */
  datatype DrawOp =
    | Fill(color: Color, crop: Region)
    | Text(op: PrintOp, crop: Region)
    | Centered(x: int, y: int, text: string, crop: Region)

  function Tagged(ops: seq<PrintOp>, crop: Region): (r: seq<DrawOp>)
    ensures |r| == |ops|
    ensures forall k :: 0 <= k < |ops| ==> r[k] == Text(ops[k], crop)
  {
    if ops == [] then [] else Tagged(ops[..|ops| - 1], crop) + [Text(ops[|ops| - 1], crop)]
  }

  lemma TaggedAppend(ops: seq<PrintOp>, op: PrintOp, crop: Region)
    ensures Tagged(ops + [op], crop) == Tagged(ops, crop) + [Text(op, crop)]
  {
    assert (ops + [op])[..|ops|] == ops;
  }

  /** printThick's prints along one column x, for y from ys up to (not including) yUpTo. */
  function ThickColumn(x: int, ys: int, yUpTo: int, text: string, crop: Region): (r: seq<DrawOp>)
    ensures |r| == if yUpTo <= ys then 0 else yUpTo - ys
    decreases yUpTo - ys
  {
    if yUpTo <= ys then [] else ThickColumn(x, ys, yUpTo - 1, text, crop) + [Centered(x, yUpTo - 1, text, crop)]
  }

  /** printThick's prints for the columns xs up to (not including) xUpTo. */
  function ThickGrid(xs: int, xUpTo: int, ys: int, yUpTo: int, text: string, crop: Region): seq<DrawOp>
    decreases xUpTo - xs
  {
    if xUpTo <= xs then [] else ThickGrid(xs, xUpTo - 1, ys, yUpTo, text, crop) + ThickColumn(xUpTo - 1, ys, yUpTo, text, crop)
  }

  /** Every print of the grid is within the two ranges, and there is one per point. */
  lemma {:induction false} ThickGridShape(xs: int, xUpTo: int, ys: int, yUpTo: int, text: string, crop: Region)
    requires xs <= xUpTo && ys <= yUpTo
    ensures var g := ThickGrid(xs, xUpTo, ys, yUpTo, text, crop);
      && |g| == (xUpTo - xs) * (yUpTo - ys)
      && forall k :: 0 <= k < |g| ==>
           g[k].Centered? && xs <= g[k].x < xUpTo && ys <= g[k].y < yUpTo && g[k].text == text
    decreases xUpTo - xs
  {
    if xUpTo > xs {
      var g1 := ThickGrid(xs, xUpTo - 1, ys, yUpTo, text, crop);
      var c := ThickColumn(xUpTo - 1, ys, yUpTo, text, crop);
      ThickGridShape(xs, xUpTo - 1, ys, yUpTo, text, crop);
      ThickColumnShape(xUpTo - 1, ys, yUpTo, text, crop);
      assert (xUpTo - xs) * (yUpTo - ys) == (xUpTo - 1 - xs) * (yUpTo - ys) + (yUpTo - ys);
      var g := g1 + c;
      forall k | 0 <= k < |g|
        ensures g[k].Centered? && xs <= g[k].x < xUpTo && ys <= g[k].y < yUpTo && g[k].text == text
      {
        if k < |g1| {
          assert g[k] == g1[k];
        } else {
          assert g[k] == c[k - |g1|];
        }
      }
    }
  }

  lemma {:induction false} ThickColumnShape(x: int, ys: int, yUpTo: int, text: string, crop: Region)
    requires ys <= yUpTo
    ensures forall k :: 0 <= k < yUpTo - ys ==> ThickColumn(x, ys, yUpTo, text, crop)[k] == Centered(x, ys + k, text, crop)
    decreases yUpTo - ys
  {
    if yUpTo > ys {
      ThickColumnShape(x, ys, yUpTo - 1, text, crop);
      var c1 := ThickColumn(x, ys, yUpTo - 1, text, crop);
      var c := c1 + [Centered(x, yUpTo - 1, text, crop)];
      forall k | 0 <= k < |c|
        ensures c[k] == Centered(x, ys + k, text, crop)
      {
        if k < |c1| {
          assert c[k] == c1[k];
          assert c1[k] == Centered(x, ys + k, text, crop);
        } else {
          assert k == yUpTo - 1 - ys;
          assert c[k] == Centered(x, yUpTo - 1, text, crop);
        }
      }
    }
  }

  /** A hatch pixel: the right colour, and the tile's image of a point of the hatched rectangle. */
  ghost predicate HatchPixel(p: Pixel, area: Region, tileRegion: Region, color: Color)
  {
    p.color == color && exists lx, ly :: Covers(area, lx, ly) && TileForward(tileRegion, lx, ly) == Some((p.x, p.y))
  }

  /** The window manager's pixels grew from `before` by hatch pixels only. */
  ghost predicate HatchExtends(ps: seq<Pixel>, before: seq<Pixel>, area: Region, tileRegion: Region, color: Color)
  {
    |before| <= |ps| && ps[..|before|] == before
    && forall k :: |before| <= k < |ps| ==> HatchPixel(ps[k], area, tileRegion, color)
  }

  lemma HatchExtendsTrans(c: seq<Pixel>, b: seq<Pixel>, a: seq<Pixel>, area: Region, tileRegion: Region, color: Color)
    requires HatchExtends(c, b, area, tileRegion, color) && HatchExtends(b, a, area, tileRegion, color)
    ensures HatchExtends(c, a, area, tileRegion, color)
  {
    assert c[..|a|] == b[..|b|][..|a|];
    forall k | |a| <= k < |c|
      ensures HatchPixel(c[k], area, tileRegion, color)
    {
      if k < |b| {
        assert c[k] == c[..|b|][k];
      }
    }
  }

  /** A pixel already past position n stays there as the sequence grows. */
  lemma SuffixGrows(c: seq<Pixel>, b: seq<Pixel>, n: nat, p: Pixel)
    requires n <= |b| <= |c| && c[..|b|] == b && p in b[n..]
    ensures p in c[n..]
  {
    var k :| n <= k < |b| && b[k] == p;
    assert c[k] == c[..|b|][k];
    assert c[n..][k - n] == p;
  }

  // ---------------------------------------------------------------------
  // Tiles and applets
  // ---------------------------------------------------------------------

  /** A notification an applet may object to; its contents are not modelled. */
  datatype Notification = Notification(id: nat)

  class Tile {
    const windowManager: WindowManager
    /** left, top (`int16_t`), width, height (`uint16_t`) */
    var region: Region
    var displayedApplet: Applet?

    /** The fields' initial values are declared in Tile.h; they are a parameter here. */
    constructor (wm: WindowManager, initial: Region)
      requires ValidRegion(initial)
      ensures windowManager == wm && region == initial && displayedApplet == null
    {
      windowManager := wm;
      region := initial;
      displayedApplet := null;
    }

    method PlaceUserTile(userTileCount: u8, tileIndex: u8) returns (assertionsHold: bool)
      requires ValidRegion(region)
      modifies this`region
      ensures Placement(region, assertionsHold)
        == UserTilePlacement(old(region), windowManager.width, windowManager.height, userTileCount, tileIndex)
    {
      var displayWidth := windowManager.width as int;
      var displayHeight := windowManager.height as int;
      var landscape := displayWidth > displayHeight;
      if tileIndex as int > userTileCount as int - 1 {
        region := TileLayout.Region(-2, -2, 1, 1);
        return true;
      }
      var spacing := 4;
      var r: TileLayout.Region;
      if userTileCount == 1 {
        r := TileLayout.Region(0, 0, displayWidth, displayHeight);
      } else if userTileCount == 2 {
        if landscape {
          var left := Wrap16((displayWidth / 2 + spacing / 2) * tileIndex as int);
          r := TileLayout.Region(left, 0, U16(displayWidth / 2 - spacing / 2), displayHeight);
        } else {
          var top := Wrap16(0 + (displayHeight / 2 + spacing / 2) * tileIndex as int);
          r := TileLayout.Region(0, top, displayWidth, U16(displayHeight / 2 - spacing / 2));
        }
      } else if userTileCount == 4 {
        var width := U16(displayWidth / 2 - spacing / 2);
        var height := U16(displayHeight / 2 - spacing / 2);
        var left, top := 0, 0;
        if tileIndex == 1 {
          left := Wrap16(0 + (width - 1) + spacing);
        } else if tileIndex == 2 {
          top := Wrap16(0 + (height - 1) + spacing);
        } else if tileIndex == 3 {
          left, top := Wrap16(0 + (width - 1) + spacing), Wrap16(0 + (height - 1) + spacing);
        }
        r := TileLayout.Region(left, top, width, height);
      } else {
        return false;
      }
      region := r;
      return r.width > 0 && r.height > 0;
    }

    method PlaceSystemTile(left: int, top: int, width: int, height: int)
      requires IsInt16(left) && IsInt16(top) && 0 < width < 0x1_0000 && 0 < height < 0x1_0000
      modifies this`region
      ensures region == TileLayout.Region(left, top, width, height) && ValidRegion(region)
    {
      region := TileLayout.Region(left, top, width, height);
    }

    /** The displayed applet learns the tile's size, then renders. */
    method Render()
      requires displayedApplet != null
      modifies displayedApplet`tile, displayedApplet`width, displayedApplet`height, displayedApplet`life
      ensures displayedApplet.tile == this
      ensures displayedApplet.width == region.width && displayedApplet.height == region.height
      ensures displayedApplet.life == old(displayedApplet.life).(hooks := old(displayedApplet.life).hooks + [RenderCalled])
    {
      displayedApplet.SetTile(this);
      displayedApplet.Render();
    }

    method HandleAppletPixel(x: int, y: int, c: Color)
      requires IsInt16(x) && IsInt16(y) && ValidRegion(region)
      modifies windowManager`pixels
      ensures windowManager.pixels == old(windowManager.pixels) + PixelsOf(TileForward(region, x, y), c)
    {
      var left, top := region.left, region.top;
      var tx := Wrap16(x + left);
      var ty := Wrap16(y + top);
      if tx >= left && tx < left + region.width && ty >= top && ty < top + region.height {
        windowManager.HandleTilePixel(tx, ty, c);
      }
    }

    method GetWidth() returns (w: int)
      ensures w == region.width
    {
      return region.width;
    }

    method GetHeight() returns (h: int)
      ensures h == region.height
    {
      return region.height;
    }
  }

  class Applet {
    var tile: Tile?
    /** The AdafruitGFX canvas size. */
    var width: int
    var height: int
    var crop: Region
    /** active, foreground, wantRender, wantAutoshow, and the handlers run so far. */
    var life: Lifecycle
    var cursor: Pen
    var textColor: Color
    var textWrap: bool
    var font: Font
    const defaultFont: Font
    var drawing: seq<DrawOp>

    /** The AdafruitGFX canvas starts 0 x 0; the font a reset restores is a parameter. */
    constructor (gfxDefaultFont: Font)
      ensures life == InitialLife && tile == null && width == 0 && height == 0
      ensures drawing == [] && font == gfxDefaultFont && defaultFont == gfxDefaultFont
    {
      tile := null;
      width, height := 0, 0;
      crop := TileLayout.Region(0, 0, 0, 0);
      life := InitialLife;
      cursor := Pen(0, 0);
      textColor := Black;
      textWrap := true;
      font := gfxDefaultFont;
      defaultFont := gfxDefaultFont;
      drawing := [];
    }

    method DrawPixel(x: int, y: int, c: Color)
      requires tile != null && IsInt16(x) && IsInt16(y) && ValidRegion(tile.region)
      modifies tile.windowManager`pixels
      ensures tile.windowManager.pixels == old(tile.windowManager.pixels) + PixelsOf(PixelPath(crop, tile.region, x, y), c)
    {
      if x >= crop.left && x < crop.left + crop.width && y >= crop.top && y < crop.top + crop.height {
        tile.HandleAppletPixel(x, y, c);
      }
    }

    /** Take the tile's size as the applet's own. */
    method SetTile(t: Tile)
      modifies this`tile, this`width, this`height
      ensures tile == t && width == t.region.width && height == t.region.height
    {
      tile := t;
      width := t.region.width;
      height := t.region.height;
    }

    /** The derived applet's render(), recorded. */
    method Render()
      modifies this`life
      ensures life == old(life).(hooks := old(life).hooks + [RenderCalled])
    {
      life := life.(hooks := life.hooks + [RenderCalled]);
    }

    method WantsToAutoshow() returns (want: bool)
      modifies this`life
      ensures (want, life) == WantsToAutoshowStep(old(life))
    {
      want := life.wantAutoshow;
      life := life.(wantAutoshow := false);
    }

    method RequestUpdate()
      modifies this`life
      ensures life == RequestUpdateStep(old(life))
    {
      life := life.(wantRender := true);
      life := life.(hooks := life.hooks + [UpdateRequested]);
    }

    method RequestAutoshow()
      modifies this`life
      ensures life == old(life).(wantAutoshow := true)
    {
      life := life.(wantAutoshow := true);
    }

    method Activate()
      modifies this`life
      ensures life == ActivateStep(old(life))
    {
      life := life.(hooks := life.hooks + [OnActivate]);
      life := life.(active := true);
    }

    method Deactivate()
      modifies this`life
      ensures life == DeactivateStep(old(life))
    {
      if life.foreground {
        SendToBackground();
      }
      if life.active {
        life := life.(hooks := life.hooks + [OnDeactivate]);
      }
      life := life.(active := false);
    }

    method BringToForeground()
      modifies this`life
      ensures life == BringToForegroundStep(old(life))
    {
      if !life.foreground {
        life := life.(foreground := true);
        life := life.(hooks := life.hooks + [OnForeground]);
      }
      RequestUpdate();
    }

    method SendToBackground()
      modifies this`life
      ensures life == SendToBackgroundStep(old(life))
    {
      if life.foreground {
        life := life.(foreground := false);
        life := life.(hooks := life.hooks + [OnBackground]);
      }
    }

    method SetCrop(left: int, top: int, w: int, h: int)
      modifies this`crop
      ensures crop == TileLayout.Region(left, top, w, h)
    {
      crop := TileLayout.Region(left, top, w, h);
    }

    method ResetCrop()
      modifies this`crop
      ensures crop == TileLayout.Region(0, 0, width, height)
    {
      SetCrop(0, 0, width, height);
    }

    /** Every render starts from the same drawing configuration. */
    method ResetDrawingSpace()
      modifies this`life, this`crop, this`drawing, this`textColor, this`cursor, this`textWrap, this`font
      ensures life == old(life).(wantRender := false)
      ensures crop == TileLayout.Region(0, 0, width, height)
      ensures drawing == old(drawing) + [Fill(White, crop)]
      ensures textColor == Black && cursor == Pen(0, 0) && !textWrap && font == defaultFont
    {
      life := life.(wantRender := false);
      ResetCrop();
      drawing := drawing + [Fill(White, crop)];
      textColor := Black;
      cursor := Pen(0, 0);
      textWrap := false;
      font := defaultFont;
    }

    /** The default: no objection to any notification. */
    function ApproveNotification(n: Notification): (approved: bool)
      ensures approved
    {
      true
    }

    /** print(s): recorded at the cursor with the current crop; the cursor moves on. */
    method PrintText(s: string, ghost base: seq<DrawOp>, ghost ops: seq<PrintOp>) returns (ghost ops': seq<PrintOp>)
      requires drawing == base + Tagged(ops, crop)
      modifies this`cursor, this`drawing
      ensures (cursor, ops') == (Print(font, old(cursor), s).0, ops + [Print(font, old(cursor), s).1])
      ensures drawing == base + Tagged(ops', crop)
    {
      var op := PrintOp(cursor.x, cursor.y, s);
      drawing := drawing + [Text(op, crop)];
      cursor := cursor.(x := Wrap16(cursor.x + font.advance(s)));
      ops' := ops + [op];
      TaggedAppend(ops, op, crop);
    }

    /** One word of printWrapped, from where the cursor stands. */
    method PrintWord(left: int, width: int, word: string, ghost base: seq<DrawOp>, ghost ops: seq<PrintOp>)
      returns (ghost ops': seq<PrintOp>)
      requires drawing == base + Tagged(ops, crop)
      modifies this`cursor, this`drawing
      ensures (cursor, ops') == PlaceWord(font, left, width, word, old(cursor), ops)
      ensures drawing == base + Tagged(ops', crop)
    {
      var b := font.bounds(word, cursor.x, cursor.y);
      if b.width < width {
        if b.left + b.width + font.widthBetweenWords as int >= left + width {
          cursor := Pen(Wrap16(left), Wrap16(cursor.y + font.lineHeight as int));
        }
        ops' := PrintText(word, base, ops);
      } else {
        ops' := PrintLongWord(left, width, word, base, ops);
      }
    }

    /** A word at least as wide as the box, one character at a time. */
    method PrintLongWord(left: int, width: int, word: string, ghost base: seq<DrawOp>, ghost ops: seq<PrintOp>)
      returns (ghost ops': seq<PrintOp>)
      requires drawing == base + Tagged(ops, crop)
      modifies this`cursor, this`drawing
      ensures (cursor, ops') == LongWord(font, left, width, word, 0, old(cursor), ops)
      ensures drawing == base + Tagged(ops', crop)
    {
      ghost var pen0 := cursor;
      ops' := ops;
      var c := 0;
      while c < |word|
        invariant 0 <= c <= |word|
        invariant LongWord(font, left, width, word, 0, pen0, ops) == LongWord(font, left, width, word, c, cursor, ops')
        invariant drawing == base + Tagged(ops', crop)
        decreases |word| - c
      {
        ops' := PrintLongWordChar(left, width, word[c], base, ops');
        c := c + 1;
      }
    }

    /** One turn of the character-by-character loop of a long word. */
    method PrintLongWordChar(left: int, width: int, ch: char, ghost base: seq<DrawOp>, ghost ops: seq<PrintOp>)
      returns (ghost ops': seq<PrintOp>)
      requires drawing == base + Tagged(ops, crop)
      modifies this`cursor, this`drawing
      ensures (cursor, ops') == LongWordChar(font, left, width, ch, old(cursor), ops)
      ensures drawing == base + Tagged(ops', crop)
    {
      var cb := font.bounds([ch], cursor.x, cursor.y);
      if cb.left + cb.width > left + width {
        cursor := Pen(Wrap16(left), Wrap16(cursor.y + font.lineHeight as int));
      }
      ops' := PrintText([ch], base, ops);
    }

    /**
     * printWrapped, with the pending word placed before each newline (see
     * TextLayout.WordBeforeNewlineLost for the loop as written).
     */
    method PrintWrapped(left: int, top: int, width: int, text: string)
      requires |text| < 0x1_0000
      modifies this`cursor, this`drawing
      ensures var r := WrappedCorrected(font, left, top, width, text);
        cursor == r.pen && drawing == old(drawing) + Tagged(r.ops, crop)
    {
      ghost var base := drawing;
      cursor := Pen(Wrap16(left), Wrap16(top + font.heightAboveCursor as int));
      ghost var ops: seq<PrintOp> := [];
      var wordStart: nat := 0;
      var i: nat := 0;
      while i < |text|
        invariant wordStart <= i <= |text|
        invariant WrappedCorrected(font, left, top, width, text)
          == WrapFromCorrected(font, left, width, text, i, WrapState(cursor, wordStart, ops))
        invariant drawing == base + Tagged(ops, crop)
        decreases |text| - i
      {
        ghost var st := WrapState(cursor, wordStart, ops);
        wordStart, ops := PrintWrappedTurn(left, width, text, i, wordStart, base, ops);
        WrapFromCorrectedUnfold(font, left, width, text, i, st);
        i := i + 1;
      }
    }

    /** One turn of printWrapped's loop, at character i. */
    method PrintWrappedTurn(left: int, width: int, text: string, i: nat, wordStart: nat, ghost base: seq<DrawOp>, ghost ops: seq<PrintOp>)
      returns (wordStart': nat, ghost ops': seq<PrintOp>)
      requires wordStart <= i < |text| && drawing == base + Tagged(ops, crop)
      modifies this`cursor, this`drawing
      ensures WrapState(cursor, wordStart', ops') == CorrectedStep(font, left, width, text, i, WrapState(old(cursor), wordStart, ops))
      ensures drawing == base + Tagged(ops', crop)
    {
      wordStart', ops' := wordStart, ops;
      if text[i] == '\n' {
        if wordStart < i {
          ops' := PrintWord(left, width, text[wordStart..i], base, ops);
        }
        cursor := Pen(Wrap16(left), Wrap16(cursor.y + font.lineHeight as int));
        wordStart' := i + 1;
      } else if text[i] == ' ' || i == |text| - 1 {
        var word := text[wordStart..i + 1];
        wordStart' := i + 1;
        ops' := PrintWord(left, width, word, base, ops);
      }
    }

    /** Simulates printWrapped with every pixel discarded, then puts the crop back. */
    method GetWrappedTextHeight(left: int, width: int, text: string) returns (h: int)
      requires |text| < 0x1_0000
      modifies this`crop, this`cursor, this`drawing
      ensures crop == old(crop)
      ensures var r := WrappedCorrected(font, left, 0, width, text);
        && h == (r.pen.y + font.heightBelowCursor as int) % TwoTo32
        && cursor == r.pen
        && drawing == old(drawing) + Tagged(r.ops, NoPixelCrop)
    {
      var cL, cT, cW, cH := crop.left, crop.top, crop.width, crop.height;
      SetCrop(-1, -1, 0, 0);
      PrintWrapped(left, 0, width, text);
      crop := TileLayout.Region(cL, cT, cW, cH);
      h := (cursor.y + font.heightBelowCursor as int) % TwoTo32;
    }

    /** Diagonal lines every `spacing` px, drawn with the crop set to the rectangle itself. */
    method HatchRegion(x: int, y: int, w: int, h: int, spacing: u8, color: Color)
      requires tile != null && ValidRegion(tile.region)
      requires IsInt16(x) && IsInt16(y) && 0 <= w < 0x8000 && 0 <= h < 0x8000 && spacing >= 1
      requires x + w + spacing as int <= 0x8000 && y + h + spacing as int <= 0x8000
      modifies this`crop, tile.windowManager`pixels
      ensures crop == old(crop)
      ensures HatchExtends(tile.windowManager.pixels, old(tile.windowManager.pixels), TileLayout.Region(x, y, w, h), tile.region, color)
      ensures w > 0 && h > 0 && TileForward(tile.region, x, y).Some? ==>
        PixelsOf(TileForward(tile.region, x, y), color)[0] in tile.windowManager.pixels[|old(tile.windowManager.pixels)|..]
    {
      var oldCrop := crop;
      SetCrop(x, y, w, h);
      var area := crop;
      var wm := tile.windowManager;
      ghost var tr := tile.region;
      ghost var before := wm.pixels;
      ghost var corner := w > 0 && h > 0 && TileForward(tr, x, y).Some?;
      var ix := x;
      while ix < x + w
        invariant x <= ix <= x + w + spacing as int && crop == area
        invariant HatchExtends(wm.pixels, before, area, tr, color)
        invariant ix > x && corner ==> PixelsOf(TileForward(tr, x, y), color)[0] in wm.pixels[|before|..]
        decreases x + w - ix
      {
        ghost var mid := wm.pixels;
        HatchLine(ix, y, if w > h then w else h, color);
        HatchExtendsTrans(wm.pixels, mid, before, area, tr, color);
        if ix > x && corner {
          SuffixGrows(wm.pixels, mid, |before|, PixelsOf(TileForward(tr, x, y), color)[0]);
        }
        ix := ix + spacing as int;
      }
      var iy := y;
      while iy < y + h
        invariant y <= iy <= y + h + spacing as int && crop == area
        invariant HatchExtends(wm.pixels, before, area, tr, color)
        invariant corner ==> PixelsOf(TileForward(tr, x, y), color)[0] in wm.pixels[|before|..]
        decreases y + h - iy
      {
        ghost var mid := wm.pixels;
        HatchLine(x, iy, if w > h then w else h, color);
        HatchExtendsTrans(wm.pixels, mid, before, area, tr, color);
        if corner {
          SuffixGrows(wm.pixels, mid, |before|, PixelsOf(TileForward(tr, x, y), color)[0]);
        }
        iy := iy + spacing as int;
      }
      crop := oldCrop;
    }

    /** hatchRegion's inner loop: one diagonal of `len` pixels from (sx, sy), in `int16_t` coordinates. */
    method HatchLine(sx: int, sy: int, len: int, color: Color)
      requires tile != null && ValidRegion(tile.region) && IsInt16(sx) && IsInt16(sy) && 0 <= len <= 0x8000
      modifies tile.windowManager`pixels
      ensures HatchExtends(tile.windowManager.pixels, old(tile.windowManager.pixels), crop, tile.region, color)
      ensures len > 0 && sx == crop.left && sy == crop.top && CropAdmits(crop, sx, sy) && TileForward(tile.region, sx, sy).Some? ==>
        PixelsOf(TileForward(tile.region, sx, sy), color)[0] in tile.windowManager.pixels[|old(tile.windowManager.pixels)|..]
    {
      var wm := tile.windowManager;
      ghost var tr := tile.region;
      ghost var before := wm.pixels;
      ghost var corner := len > 0 && sx == crop.left && sy == crop.top && CropAdmits(crop, sx, sy) && TileForward(tr, sx, sy).Some?;
      var i := 0;
      while i < len
        invariant 0 <= i <= len
        invariant HatchExtends(wm.pixels, before, crop, tr, color)
        invariant i > 0 && corner ==> PixelsOf(TileForward(tr, sx, sy), color)[0] in wm.pixels[|before|..]
        decreases len - i
      {
        ghost var mid := wm.pixels;
        DrawHatchPixel(Wrap16(sx + i), Wrap16(sy + i), color);
        HatchExtendsTrans(wm.pixels, mid, before, crop, tr, color);
        if i == 0 && corner {
          assert wm.pixels == mid + [PixelsOf(TileForward(tr, sx, sy), color)[0]];
          assert wm.pixels[|mid|] in wm.pixels[|before|..];
        } else if corner {
          SuffixGrows(wm.pixels, mid, |before|, PixelsOf(TileForward(tr, sx, sy), color)[0]);
        }
        i := i + 1;
      }
    }

    /** drawPixel inside hatchRegion: whatever it adds is a hatch pixel, and a pixel in the crop is forwarded by the tile. */
    method DrawHatchPixel(px: int, py: int, color: Color)
      requires tile != null && ValidRegion(tile.region) && IsInt16(px) && IsInt16(py)
      modifies tile.windowManager`pixels
      ensures HatchExtends(tile.windowManager.pixels, old(tile.windowManager.pixels), crop, tile.region, color)
      ensures CropAdmits(crop, px, py) ==>
        tile.windowManager.pixels == old(tile.windowManager.pixels) + PixelsOf(TileForward(tile.region, px, py), color)
    {
      ghost var before := tile.windowManager.pixels;
      DrawPixel(px, py, color);
      ghost var path := PixelPath(crop, tile.region, px, py);
      if path.Some? {
        assert Covers(crop, px, py) && TileForward(tile.region, px, py) == Some((path.value.0, path.value.1));
        assert HatchPixel(Pixel(path.value.0, path.value.1, color), crop, tile.region, color);
      } else {
        assert tile.windowManager.pixels == before;
      }
      assert tile.windowManager.pixels[..|before|] == before;
    }

    /** Prints the text centred at every offset of the thickness ranges, column by column. */
    method PrintThick(xCenter: int, yCenter: int, text: string, thicknessX: u8, thicknessY: u8)
      requires IsInt16(xCenter) && IsInt16(yCenter) && thicknessX >= 1 && thicknessY >= 1
      requires ThickRange(xCenter, thicknessX).1 < 0x7FFF && ThickRange(yCenter, thicknessY).1 < 0x7FFF
      modifies this`drawing
      ensures drawing == old(drawing) + ThickGrid(ThickRange(xCenter, thicknessX).0, ThickRange(xCenter, thicknessX).1 + 1,
                                                  ThickRange(yCenter, thicknessY).0, ThickRange(yCenter, thicknessY).1 + 1, text, crop)
    {
      var xRange := ThickRange(xCenter, thicknessX);
      var yRange := ThickRange(yCenter, thicknessY);
      PrintThickGrid(xRange.0, xRange.1, yRange.0, yRange.1, text);
    }

    /** printThick's loops over the two ranges, inclusive, in `int16_t`. */
    method PrintThickGrid(xStart: int, xEnd: int, yStart: int, yEnd: int, text: string)
      modifies this`drawing
      ensures drawing == old(drawing) + ThickGrid(xStart, xEnd + 1, yStart, yEnd + 1, text, crop)
    {
      ghost var base := drawing;
      var x := xStart;
      while x <= xEnd
        invariant xStart <= x && (x <= xEnd + 1 || x == xStart)
        invariant drawing == base + ThickGrid(xStart, x, yStart, yEnd + 1, text, crop)
        decreases xEnd + 1 - x
      {
        ghost var done := ThickGrid(xStart, x, yStart, yEnd + 1, text, crop);
        PrintThickColumn(x, yStart, yEnd, text);
        assert ThickGrid(xStart, x + 1, yStart, yEnd + 1, text, crop) == done + ThickColumn(x, yStart, yEnd + 1, text, crop);
        x := x + 1;
      }
      if x != xEnd + 1 {
        assert ThickGrid(xStart, xEnd + 1, yStart, yEnd + 1, text, crop) == [];
      }
    }

    /** printThick's inner loop: one column, y from yStart up to yEnd. */
    method PrintThickColumn(x: int, yStart: int, yEnd: int, text: string)
      modifies this`drawing
      ensures drawing == old(drawing) + ThickColumn(x, yStart, yEnd + 1, text, crop)
    {
      ghost var base := drawing;
      var y := yStart;
      while y <= yEnd
        invariant yStart <= y && (y <= yEnd + 1 || y == yStart)
        invariant drawing == base + ThickColumn(x, yStart, y, text, crop)
        decreases yEnd + 1 - y
      {
        drawing := drawing + [Centered(x, y, text, crop)];
        y := y + 1;
      }
      if y != yEnd + 1 {
        assert ThickColumn(x, yStart, yEnd + 1, text, crop) == [];
      }
    }
  }
}
