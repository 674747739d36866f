# Meshtastic firmware: InkHUD tiles and applets, GPIO joystick, screen command queue, DIY modules

This project models, in Dafny, several self-contained parts of a Meshtastic
firmware fork and proves properties of the model:

- **InkHUD tiles and applets.** These cover:
  - where `placeUserTile` puts each user tile for the 1-, 2- and 4-tile layouts, and what happens to a stray tile index;
  - how a tile forwards an applet's pixel to the display, in `int16_t` arithmetic;
  - the applet's crop test;
  - the applet lifecycle (activate, deactivate, foreground, background), each step with the handlers it calls;
  - the drawing helpers: word wrapping (`printWrapped` / `getWrappedTextHeight`), `hatchRegion` and `printThick`;
  - the pure helpers: signal-strength rating, the "time ago" string, the `!hex` node id and the header height.
- **GPIOJoystick.** These cover:
  - the configuration setters;
  - attaching and detaching interrupts on the press edge;
  - the press, debounce and release cycle across the interrupt handler and the polling thread;
  - the light-sleep hooks.
- **Screen.** Two parts of the screen are modelled:
  - the UTF-8 to font-table conversion `customFontTableLookup`, kept as a class because its state is static;
  - the command queue behind `enqueueCmd` and `setOn`.
- **DIY modules.** These cover:
  - case-(in)sensitive `stringsMatch`;
  - `getArg` argument splitting, as a loop proved against a field-splitting specification;
  - the data hash and the save/load image;
  - routing of a phone-sent text to the first module that wants it;
  - the heap bookkeeping of `getArg`.
- **DemoDIYModule.** Its `help`, `save number`, `save text` and `load` commands.
- **RemoteRangetestModule.** The trigger word, the already-running and rate-limit refusals, and the enable, reboot and disable cycle.

State that the C++ code changes in place lives in a `class` per object. Each
mutating method states its whole new state as a pure step function of the old
state, and the lemmas are proved on those step functions. Times (`millis()`,
the RTC epoch), pin levels read with `digitalRead`, and whether the platform
can restart are method parameters.

Where the C++ changes behaviour from what its comments describe, the model
follows the code, with one exception. `printWrapped` and
`getWrappedTextHeight` use the evidently intended newline handling, which
prints the word before a newline. The loop as written is
`TextLayout.Wrapped`, and the two are compared under "## Findings" and
"## Left out". Three such places are listed under "## Findings". A few more
are worth knowing:
- `GPIOJoystick.h` declares `handlePinChange` and `pendingCallback`, but the `.cpp` uses `handlePressBegin`, `pressedAtMs` and `pressedDirection`. The model follows the `.cpp`.
- The light-sleep hooks in `GPIOJoystick.cpp` are written as `TwoButton::` members. They are modelled as the joystick's own.
- `getTimeString`'s "argument time is ahead of the RTC" branch cannot fire, because the difference is unsigned. See "## Findings".

## Model

| member | source | states |
|---|---|---|
| TileLayout.UserTilePlacement | src/graphics/niche/InkHUD/Tile.cpp:16-101 | Every placement keeps left/top in `int16_t` and width/height in `uint16_t`. |
| TileLayout.StrayTile | src/graphics/niche/InkHUD/Tile.cpp:24-32 | A tile index at or beyond the tile count gets the 1x1 region at (-2, -2), which lies off the display, and no assertion fires. |
| TileLayout.SingleTile | src/graphics/niche/InkHUD/Tile.cpp:42-47 | With one tile, the tile is exactly the display. |
| TileLayout.TwoTiles | src/graphics/niche/InkHUD/Tile.cpp:51-63 | For displays of 6 to 65531 px each way, the two tiles are side by side on a landscape display and stacked otherwise. Each is half the display less 2 px, they are 4 px apart, disjoint and inside the display. |
| TileLayout.TwoTilesWrapOnWidestDisplays | src/graphics/niche/InkHUD/Tile.cpp:51-55 | On a landscape display 65532 px wide, the second tile's `int16_t` left wraps negative, so the bound on TwoTiles is tight. |
| TileLayout.FourTiles | src/graphics/niche/InkHUD/Tile.cpp:67-88 | For displays of 6 to 65533 px each way, the four tiles are quadrants of (W/2-2) x (H/2-2), with the right/lower ones at W/2+1 and H/2+1. They are pairwise disjoint and inside the display, and neighbours are only 3 px apart. |
| TileLayout.UnsupportedLayout | src/graphics/niche/InkHUD/Tile.cpp:90-93 | Any other tile count trips the assertion and leaves the region unchanged. |
| TileLayout.SupportedLayoutsHaveArea | src/graphics/niche/InkHUD/Tile.cpp:95 | For a display of at least 6 px each way, the asserted positive width and height hold for every supported layout. |
| TileLayout.DisjointMeansNoSharedPoint | src/graphics/niche/InkHUD/Tile.cpp:51-88 | Disjoint tile regions share no pixel. |
| TileLayout.TileForwardIff | src/graphics/niche/InkHUD/Tile.cpp:128-139 | For a tile within the `int16_t` range, a pixel is forwarded exactly when it lies within the tile's width and height, and it lands at the pixel plus the tile's offset. |
| TileLayout.StrayTileForwardsOffDisplay | src/graphics/niche/InkHUD/Tile.cpp:24-32 | A stray tile forwards at most the single pixel at (-2, -2). |
| TileLayout.NoPixelCropAdmitsNothing | src/graphics/niche/InkHUD/Applet.cpp:432 | The crop (-1, -1, 0, 0) discards every pixel. |
| TileLayout.FullCropIsTile | src/graphics/niche/InkHUD/Applet.cpp:176-179 | After `resetCrop`, an applet pixel reaches the display exactly when the tile forwards it. |
| TileLayout.CropOnlyRemoves | src/graphics/niche/InkHUD/Applet.cpp:22-27 | Any crop only removes pixels: what passes lands where the tile alone would put it. |
| InkHUD.WindowManager.HandleTilePixel | src/graphics/niche/InkHUD/Tile.cpp:137 | The window manager records the pixel it receives. |
| InkHUD.Tile.constructor | src/graphics/niche/InkHUD/Tile.cpp:7-11 | A new tile belongs to the window manager and shows no applet. |
| InkHUD.Tile.PlaceUserTile | src/graphics/niche/InkHUD/Tile.cpp:16-101 | The new region, and whether the assertions hold, equal `UserTilePlacement` of the old region, the display size and the layout. |
| InkHUD.Tile.PlaceSystemTile | src/graphics/niche/InkHUD/Tile.cpp:106-114 | The region becomes exactly the given rectangle. |
| InkHUD.Tile.Render | src/graphics/niche/InkHUD/Tile.cpp:119-123 | The displayed applet is bound to this tile, sized to it, and rendered. |
| InkHUD.Tile.HandleAppletPixel | src/graphics/niche/InkHUD/Tile.cpp:128-139 | The window manager receives exactly the forwarded pixel, or nothing when it falls outside the tile. |
| InkHUD.Tile.GetWidth | src/graphics/niche/InkHUD/Tile.cpp:142-145 | Returns the tile's width. |
| InkHUD.Tile.GetHeight | src/graphics/niche/InkHUD/Tile.cpp:148-151 | Returns the tile's height. |
| InkHUD.Applet.constructor | src/graphics/niche/InkHUD/Applet.cpp:12-18 | A new applet is inactive, in the background, tile-less and on a 0 x 0 canvas. |
| InkHUD.Applet.DrawPixel | src/graphics/niche/InkHUD/Applet.cpp:22-27 | A pixel reaches the display only through the crop and then the tile. |
| InkHUD.Applet.SetTile | src/graphics/niche/InkHUD/Applet.cpp:32-42 | The applet is bound to the tile and its canvas takes the tile's size. |
| InkHUD.Applet.Render | src/graphics/niche/InkHUD/Tile.cpp:119-123 | Rendering calls the applet's render handler and changes nothing else. |
| InkHUD.Applet.WantsToAutoshow | src/graphics/niche/InkHUD/Applet.cpp:61-66 | Returns the autoshow request and clears it. |
| InkHUD.Applet.RequestUpdate | src/graphics/niche/InkHUD/Applet.cpp:85-89 | Sets the render request and asks the window manager for an update. |
| InkHUD.Applet.RequestAutoshow | src/graphics/niche/InkHUD/Applet.cpp:93-96 | Sets the autoshow request only. |
| InkHUD.Applet.Activate | src/graphics/niche/InkHUD/Applet.cpp:103-107 | Runs onActivate and marks the applet active. |
| InkHUD.Applet.Deactivate | src/graphics/niche/InkHUD/Applet.cpp:114-124 | Sends the applet to the background first if needed, runs onDeactivate if active, and leaves it inactive. |
| InkHUD.Applet.BringToForeground | src/graphics/niche/InkHUD/Applet.cpp:137-145 | Runs onForeground only on a change, and always requests an update. |
| InkHUD.Applet.SendToBackground | src/graphics/niche/InkHUD/Applet.cpp:150-156 | Runs onBackground only when the applet was in the foreground. |
| InkHUD.Applet.SetCrop | src/graphics/niche/InkHUD/Applet.cpp:166-172 | The crop becomes the given rectangle. |
| InkHUD.Applet.ResetCrop | src/graphics/niche/InkHUD/Applet.cpp:176-179 | The crop becomes the whole canvas. |
| InkHUD.Applet.ResetDrawingSpace | src/graphics/niche/InkHUD/Applet.cpp:69-78 | Clears the render request, resets the crop, fills the canvas white, and restores text colour, cursor, wrap and font. |
| InkHUD.DeactivateLeavesIdle | src/graphics/niche/InkHUD/Applet.cpp:114-124 | After deactivate the applet is neither active nor in the foreground. Exactly onBackground (if it was in the foreground) and then onDeactivate (if it was active) ran. |
| InkHUD.ActivateUnguarded | src/graphics/niche/InkHUD/Applet.cpp:103-107 | activate has no guard: activating twice runs onActivate twice. |
| InkHUD.ForegroundTransitions | src/graphics/niche/InkHUD/Applet.cpp:137-156 | Foreground and background changes run their handler only on an actual change. The render request is set by bringToForeground and untouched by sendToBackground. |
| InkHUD.AutoshowReadOnce | src/graphics/niche/InkHUD/Applet.cpp:61-66 | An autoshow request is reported once: a second read says no, and nothing else changes. |
| InkHUD.InitialBalanced | src/graphics/niche/InkHUD/Applet.cpp:12-18 | A fresh applet satisfies both lifecycle invariants. |
| InkHUD.ApplyKeepsBalance | src/graphics/niche/InkHUD/Applet.cpp:53-156 | Every lifecycle operation preserves both invariants: onForeground runs once more than onBackground exactly while in the foreground, and onDeactivate never outnumbers onActivate. |
| InkHUD.SendToBackgroundKeepsBalance | src/graphics/niche/InkHUD/Applet.cpp:150-156 | sendToBackground preserves both lifecycle invariants. |
| InkHUD.DeactivateKeepsBalance | src/graphics/niche/InkHUD/Applet.cpp:114-124 | deactivate preserves both lifecycle invariants. |
| InkHUD.BringToForegroundKeepsBalance | src/graphics/niche/InkHUD/Applet.cpp:137-145 | bringToForeground preserves both lifecycle invariants. |
| InkHUD.TraceKeepsBalance | src/graphics/niche/InkHUD/Applet.cpp:53-179 | Any sequence of lifecycle operations preserves both invariants. |
| InkHUD.Applet.ApproveNotification | src/graphics/niche/InkHUD/Applet.cpp:619-623 | The default applet approves every notification. |
| InkHUD.Applet.PrintWrapped | src/graphics/niche/InkHUD/Applet.cpp:339-420 | The loop leaves the cursor and the print calls of the wrapping specification with the newline fix. They are drawn under the current crop. |
| InkHUD.Applet.PrintWrappedTurn | src/graphics/niche/InkHUD/Applet.cpp:358-418 | One character of the wrapping loop performs one step of the specification. |
| InkHUD.Applet.PrintWord | src/graphics/niche/InkHUD/Applet.cpp:378-389 | A short word is printed on the current line if it fits, and after a line break otherwise. |
| InkHUD.Applet.PrintLongWord | src/graphics/niche/InkHUD/Applet.cpp:394-417 | A word wider than the applet is printed character by character, breaking the line before any character that would spill over. |
| InkHUD.Applet.PrintLongWordChar | src/graphics/niche/InkHUD/Applet.cpp:408-416 | One character of a long word does one step of the long-word specification. |
| InkHUD.Applet.GetWrappedTextHeight | src/graphics/niche/InkHUD/Applet.cpp:424-444 | The wrapping is simulated under the all-discarding crop, the crop is restored, and the result is the final cursor y plus the font's descent, as a `uint32_t`. The cursor is left where the simulated wrap put it. |
| InkHUD.Applet.HatchRegion | src/graphics/niche/InkHUD/Applet.cpp:447-477 | The crop is restored, and every pixel drawn has the colour and is the tile's image of a point in the hatched rectangle. The region's corner pixel is drawn. |
| InkHUD.Applet.HatchLine | src/graphics/niche/InkHUD/Applet.cpp:456-460 | Drawing one diagonal adds only hatch pixels, starting with the crop's corner. |
| InkHUD.Applet.DrawHatchPixel | src/graphics/niche/InkHUD/Applet.cpp:22-27 | A pixel inside the hatch crop is forwarded by the tile. One outside adds nothing. |
| InkHUD.Applet.PrintThick | src/graphics/niche/InkHUD/Applet.cpp:567-613 | The text is printed centred once at every point of the grid given by the per-axis thickness ranges. |
| InkHUD.ThickGridShape | src/graphics/niche/InkHUD/Applet.cpp:608-612 | The grid has (columns x rows) prints, each centred at a point inside the ranges with the same text. |
| InkHUD.ThickColumnShape | src/graphics/niche/InkHUD/Applet.cpp:609-611 | Each column prints at consecutive y from top to bottom. |
| AppletHelpers.GetSignalStrength | src/graphics/niche/InkHUD/Applet.cpp:301-328 | GOOD iff SNR > -17.5 and RSSI > -115. FAIR iff one of them is one band lower. NONE iff SNR <= -26 and RSSI <= -126. |
| AppletHelpers.SignalStrengthMonotone | src/graphics/niche/InkHUD/Applet.cpp:301-328 | Better SNR and RSSI never give a worse rating. |
| AppletHelpers.ValidAfterEpoch | src/graphics/niche/InkHUD/Applet.cpp:484-486 | The validity cut-off is 180 days before the build epoch. |
| AppletHelpers.TimeStringOfPast | src/graphics/niche/InkHUD/Applet.cpp:481-535 | For a past timestamp the string is: blank from 181 days, "N days ago" from 2 days, "Yesterday" from 19 hours, the clock time otherwise. |
| AppletHelpers.TimeStringNeedsClock | src/graphics/niche/InkHUD/Applet.cpp:496-499 | With the RTC not past the cut-off the string is empty. |
| AppletHelpers.FutureTimestampBlank | src/graphics/niche/InkHUD/Applet.cpp:491-512 | As written, any timestamp ahead of the RTC (within the range the unsigned wrap allows) gives an empty string. |
| AppletHelpers.SignedShowsNearFuture | src/graphics/niche/InkHUD/Applet.cpp:501-506 | With a signed difference, a timestamp less than 3 days ahead shows its clock time. |
| AppletHelpers.SignedDropsFarFuture | src/graphics/niche/InkHUD/Applet.cpp:501-506 | With a signed difference, a timestamp 3 days or more ahead gives an empty string. |
| AppletHelpers.SignedAgreesOnPast | src/graphics/niche/InkHUD/Applet.cpp:481-535 | The signed version agrees with the code on every past timestamp. |
| AppletHelpers.ClockTextFields | src/graphics/niche/InkHUD/Applet.cpp:530-531 | The clock string is the 12-hour hour, a colon, two minute digits and " AM"/" PM". |
| AppletHelpers.ClockStringOfDay | src/graphics/niche/InkHUD/Applet.cpp:522-527 | The hour and minute come from the time of day. PM holds exactly from noon. |
| AppletHelpers.Hour12 | src/graphics/niche/InkHUD/Applet.cpp:531 | The 12-hour clock hour is in 1..12 and agrees with the hour modulo 12. |
| AppletHelpers.HexifyNodeNum | src/graphics/niche/InkHUD/Applet.cpp:331-337 | The id is '!' followed by 1 to 8 lower-case hex digits whose value is the node number. There is no zero padding: past one digit the first is not '0', and a number below 16 has exactly one digit. |
| AppletHelpers.HexRoundTrip | src/graphics/niche/InkHUD/Applet.cpp:335 | Reading the hex digits back gives the number. |
| AppletHelpers.HexLength | src/graphics/niche/InkHUD/Applet.cpp:335 | A number below 16^k prints in at most k digits. |
| AppletHelpers.HeaderHeight | src/graphics/niche/InkHUD/Applet.cpp:650-658 | The header is the small font's line height plus 4, one more than the divider's y. |
| AppletHelpers.ThickRangeCopies | src/graphics/niche/InkHUD/Applet.cpp:570-605 | The range covers the centre and has `thickness` positions, except for even thicknesses above 2, which give one more. |
| TextLayout.PrintedText | src/graphics/niche/InkHUD/Applet.cpp:339-420 | As written, the characters printed are exactly `KeptText` of the text: everything except newlines, with the word pending at each newline dropped. |
| TextLayout.WordBeforeNewlineLost | src/graphics/niche/InkHUD/Applet.cpp:360-363 | For "word\nrest", the code prints only what "rest" keeps. The corrected version prints the word and the rest without newlines. |
| TextLayout.WrittenDropsWord | src/graphics/niche/InkHUD/Applet.cpp:360-363 | As written, a word followed directly by a newline is never printed. |
| TextLayout.CorrectedKeepsWord | src/graphics/niche/InkHUD/Applet.cpp:360-363 | With the fix, a newline-free prefix is printed in full before the rest. |
| TextLayout.CorrectedPrintsAllButNewlines | src/graphics/niche/InkHUD/Applet.cpp:339-420 | With the fix, the characters printed are exactly the text without its newlines. |
| TextLayout.WrapFromAgreesWithoutNewlines | src/graphics/niche/InkHUD/Applet.cpp:358-418 | From any point of the loop, on a remaining text without newlines, the loop as written and the corrected loop end in the same state. |
| TextLayout.WrappedAgreesWithoutNewlines | src/graphics/niche/InkHUD/Applet.cpp:339-420 | On text without newlines, `printWrapped` as written and as corrected give the same cursor and the same print calls. |
| TextLayout.LongWordChars | src/graphics/niche/InkHUD/Applet.cpp:394-417 | A long word's characters are all printed, in order. |
| TextLayout.PlaceWordChars | src/graphics/niche/InkHUD/Applet.cpp:378-417 | Placing a word prints exactly that word, whether it is short or long. |
| TextLayout.WordBeforeNewlineDropped | src/graphics/niche/InkHUD/Applet.cpp:360-363 | As written, reaching a newline after a run of plain characters only moves to a new line and starts the next word after it. |
| Joystick.IndexIsBijective | src/graphics/niche/Inputs/GPIOJoystick.h:31 | The five directions index the pin and callback arrays one-to-one. |
| Joystick.PressEdge | src/graphics/niche/Inputs/GPIOJoystick.cpp:69-73 | Active-high wirings (with or without pull-down) interrupt on the rising edge, the others on the falling edge. |
| Joystick.IsPressed | src/graphics/niche/Inputs/GPIOJoystick.cpp:134-137 | A direction is held exactly when its level equals the wiring's active level, which is the level the press edge leads to. |
| Joystick.UsedPins | src/graphics/niche/Inputs/GPIOJoystick.cpp:75-88 | The pins in use are exactly those of the directions whose pin is not 0xFF. |
| Joystick.StartState | src/graphics/niche/Inputs/GPIOJoystick.cpp:64-89 | start attaches an interrupt on the press edge to every used pin and changes nothing else. |
| Joystick.StopState | src/graphics/niche/Inputs/GPIOJoystick.cpp:93-109 | stop detaches exactly the used pins and changes nothing else. |
| Joystick.PressBegin | src/graphics/niche/Inputs/GPIOJoystick.cpp:113-125 | A press edge while the thread is idle records the time and direction, then wakes the thread to poll at once. While polling it is ignored. |
| Joystick.Poll | src/graphics/niche/Inputs/GPIOJoystick.cpp:130-151 | While held: poll again. On release: the thread stops, and the pressed direction's callback fires only if the press lasted longer than the debounce time, with the `uint32_t` time difference. |
| Joystick.BounceIgnored | src/graphics/niche/Inputs/GPIOJoystick.cpp:117-118 | A second edge during a press does not move the press's time or direction. |
| Joystick.FiresOnlyAfterDebounce | src/graphics/niche/Inputs/GPIOJoystick.cpp:140-150 | For a press then a release, a callback fires iff the hold exceeded the debounce time, and it is the pressed direction's. |
| Joystick.OneCallbackPerPress | src/graphics/niche/Inputs/GPIOJoystick.cpp:113-151 | Over any sequence of edges and thread runs, at most one callback fires per accepted press. |
| Joystick.SleepRestoresInterrupts | src/graphics/niche/Inputs/GPIOJoystick.cpp:157-169 | Detaching before light sleep and re-attaching after it gives back the interrupts start set up. |
| Joystick.DistinctPinsOwnRoutine | src/graphics/niche/Inputs/GPIOJoystick.cpp:75-88 | With distinct pins, each used pin's interrupt runs its own direction's routine on the press edge. |
| Joystick.AttachedValue | src/graphics/niche/Inputs/GPIOJoystick.cpp:75-88 | A shared pin ends up with the routine of the last direction attached to it. |
| Joystick.GPIOJoystick.constructor | src/graphics/niche/Inputs/GPIOJoystick.cpp:10-21 | A new joystick has every pin unset, no-op callbacks, an idle thread and no interrupts. |
| Joystick.GPIOJoystick.SetWiringType | src/graphics/niche/Inputs/GPIOJoystick.cpp:37-40 | Only the wiring changes. |
| Joystick.GPIOJoystick.SetDebounce | src/graphics/niche/Inputs/GPIOJoystick.cpp:42-45 | Only the debounce time changes. |
| Joystick.GPIOJoystick.SetPin | src/graphics/niche/Inputs/GPIOJoystick.cpp:47-50 | Only that direction's pin changes. |
| Joystick.GPIOJoystick.SetHandler | src/graphics/niche/Inputs/GPIOJoystick.cpp:55-58 | Only that direction's callback changes. |
| Joystick.GPIOJoystick.Start | src/graphics/niche/Inputs/GPIOJoystick.cpp:64-89 | The new state is `StartState` of the old. |
| Joystick.GPIOJoystick.Stop | src/graphics/niche/Inputs/GPIOJoystick.cpp:93-109 | The new state is `StopState` of the old. |
| Joystick.GPIOJoystick.HandlePressBegin | src/graphics/niche/Inputs/GPIOJoystick.cpp:113-125 | The new state is `PressBegin` of the old. |
| Joystick.GPIOJoystick.RunOnce | src/graphics/niche/Inputs/GPIOJoystick.cpp:130-151 | The new state and the thread's result are `Poll` of the old state. |
| Joystick.GPIOJoystick.BeforeLightSleep | src/graphics/niche/Inputs/GPIOJoystick.cpp:157-161 | Stops the joystick and returns 0. |
| Joystick.GPIOJoystick.AfterLightSleep | src/graphics/niche/Inputs/GPIOJoystick.cpp:165-169 | Starts the joystick again and returns 0. |
| Screen.LookupStep | src/graphics/Screen.h:364-575 | ASCII passes through and resets the state. After 0xC2 a byte maps to itself, and after 0xC3 to itself with 0xC0 set. A lead byte yields 0. The first other byte of a run yields 191 and later ones 0. |
| Screen.ConvertAppend | src/graphics/Screen.h:364-575 | Converting a concatenation is converting the parts, the second from the state the first leaves. |
| Screen.AsciiUnchanged | src/graphics/Screen.h:371-375 | ASCII text converts to itself. |
| Screen.EncodedCharacter | src/graphics/Screen.h:377-389 | The UTF-8 encoding of any non-NUL Latin-1 character converts to that character once the NUL placeholders are dropped. |
| Screen.Latin1RoundTrip | src/graphics/Screen.h:364-575 | Converting the UTF-8 encoding of any Latin-1 text without NULs gives back the text, NULs aside. |
| Screen.SkippedRun | src/graphics/Screen.h:567-573 | Once the skip flag is set, unconvertible bytes yield only NULs. |
| Screen.UnconvertibleRun | src/graphics/Screen.h:567-573 | A run of unconvertible bytes shows one 191 glyph followed by NULs. |
| Screen.AsciiResets | src/graphics/Screen.h:371-375 | An ASCII byte returns the state to its initial value. |
| Screen.FontTableLookup.CustomFontTableLookup | src/graphics/Screen.h:364-575 | The static state and the byte returned are `LookupStep` of the old state. |
| Screen.FontTableLookup.ConvertString | src/graphics/Screen.h:364-575 | Calling the lookup on each byte in turn yields `Convert` of the bytes and leaves the state `After` them. |
| Screen.Enqueue | src/graphics/Screen.h:627-636 | Refused without a display. Otherwise the command is queued iff there is room, the thread is woken either way, and success is reported iff it was queued. |
| Screen.SetOnState | src/graphics/Screen.h:262-269 | Turning off is handled at once. Turning on queues SET_ON. |
| Screen.EnqueueInOrder | src/graphics/Screen.h:627-636 | Commands that fit are queued in the order they were sent. |
| Screen.NoDisplayNoQueue | src/graphics/Screen.h:627-630 | Without a display, nothing is ever queued or woken. |
| Screen.Screen.EnqueueCmd | src/graphics/Screen.h:627-636 | The new state and the success flag are `Enqueue` of the old state. |
| Screen.Screen.SetOn | src/graphics/Screen.h:262-269 | The new state is `SetOnState` of the old. |
| Screen.Screen.OnPress | src/graphics/Screen.h:283 | Enqueues ON_PRESS. |
| Screen.Screen.ShowPrevFrame | src/graphics/Screen.h:284 | Enqueues SHOW_PREV_FRAME. |
| Screen.Screen.ShowNextFrame | src/graphics/Screen.h:285 | Enqueues SHOW_NEXT_FRAME. |
| Screen.Screen.EndAlert | src/graphics/Screen.h:306-310 | Enqueues STOP_ALERT_FRAME. |
| Screen.Screen.StartFirmwareUpdateScreen | src/graphics/Screen.h:325-329 | Enqueues START_FIRMWARE_UPDATE_SCREEN. |
| Screen.Screen.StopBootScreen | src/graphics/Screen.h:355 | Enqueues STOP_BOOT_SCREEN. |
| DIY.StringsMatch | src/mesh/DIYModule.cpp:173-188 | The loop returns exactly `Matches`: equal length and equal characters, compared through `tolower` when case-insensitive. |
| DIY.MatchesReflexive | src/mesh/DIYModule.cpp:173-188 | Every string matches itself. |
| DIY.MatchesSymmetric | src/mesh/DIYModule.cpp:173-188 | Matching is symmetric. |
| DIY.SensitiveMatchImpliesInsensitive | src/mesh/DIYModule.cpp:173-188 | A case-sensitive match is also a case-insensitive one. |
| DIY.SensitiveMatchIsEquality | src/mesh/DIYModule.cpp:173-188 | A case-sensitive match is string equality, in both directions. |
| DIY.InsensitiveMatchIsLowerEquality | src/mesh/DIYModule.cpp:173-188 | A case-insensitive match is equality of the lower-cased strings, in both directions. |
| DIY.ParseBool | src/mesh/DIYModule.cpp:167-170 | True iff the text is "true" in any case. |
| DIY.ScanArg | src/mesh/DIYModule.cpp:198-255 | The character loop returns exactly field `index` of the space-split text, or, with `untilEnd`, everything from that field on. Both are "" on empty text or a missing field. It also reports whether a flagged branch ran: the text is empty, or it has at least `index` spaces. |
| DIY.ScanCharacter | src/mesh/DIYModule.cpp:220-238 | One character of the loop keeps the space count and the start of the requested field, and stops exactly at the space that ends it. |
| DIY.CopyArg | src/mesh/DIYModule.cpp:240-252 | The copied substring is the specified argument, both at a terminating space and at the end of the text. The found branch is taken exactly when the text has at least `index` spaces. |
| DIY.JoinFields | src/mesh/DIYModule.cpp:198-255 | Joining the fields with single spaces gives back the text. |
| DIY.FieldsCount | src/mesh/DIYModule.cpp:220-246 | There is one field more than there are spaces. |
| DIY.ArgIsField | src/mesh/DIYModule.cpp:198-255 | Without `untilEnd`, argument i is field i, or "" beyond the last field. |
| DIY.ArgsOfCommand | src/modules/DemoDIYModule.cpp:52-86 | In "w1 w2 rest", argument 0 is w1, argument 1 is w2, and argument 2 until the end is rest. |
| DIY.ArgZeroUntilEnd | src/mesh/DIYModule.cpp:198-255 | Argument 0 until the end is the whole text. |
| DIY.GetDataHash | src/mesh/DIYModule.cpp:258-267 | The loop returns the byte sum modulo 2^32. |
| DIY.SingleByteChangeDetected | src/mesh/DIYModule.cpp:258-267 | Changing any single byte changes the hash. |
| DIY.ByteSumPermutation | src/mesh/DIYModule.cpp:258-267 | Reordering bytes never changes the hash, so a permuted image passes the check. |
| DIY.SaveImage | src/mesh/DIYModule.h:139-142 | The saved file is the data followed by four hash bytes. |
| DIY.LoadImage | src/mesh/DIYModule.h:88-100 | A load that succeeds returns the file's first `size` bytes. |
| DIY.LoadSaved | src/mesh/DIYModule.h:64-170 | Loading what was saved gives back the data. |
| DIY.CorruptByteRejected | src/mesh/DIYModule.h:95-100 | A saved image with any one data byte changed is rejected. |
| DIY.OwnChannelBuffer | src/mesh/DIYModule.cpp:27-29 | The own-channel name is the module name cut to 11 characters, NUL-terminated in 12 bytes. |
| DIY.NewModule | src/mesh/DIYModule.cpp:19-30 | A new module keeps its name and style. Only an own-channel module gets a (truncated) channel name. |
| DIY.FirstWanting | src/mesh/DIYModule.cpp:53-77 | Returns the first registered module that wants the text, or none when no module wants it. |
| DIY.FirstNoneWhenNoneWant | src/mesh/DIYModule.cpp:53-77 | When no module wants the text, nobody handles it. |
| DIY.FirstIsLeast | src/mesh/DIYModule.cpp:53-77 | The handler is the least index of the modules that want the text. |
| DIY.ReleaseArg | src/mesh/DIYModule.cpp:83-86 | After the guarded free the flag is clear, and with tracked memory nothing is live. |
| DIY.GetArgMemory | src/mesh/DIYModule.cpp:198-255 | With the flag set on every allocation, getArg keeps every live buffer tracked. |
| DIY.ArgLeakAsWritten | src/mesh/DIYModule.cpp:247-252 | On the text "save", getArg(1) does not find its field. After getArg(0), getArg(1) and the final free, one buffer is still live. |
| DIY.ArgLeakAccumulates | src/mesh/DIYModule.cpp:247-252 | As written, n out-of-range calls leak n buffers. |
| DIY.DIYContext.constructor | src/mesh/DIYModule.cpp:19-30 | The shared state starts with no modules and no text, and nothing is allocated. |
| DIY.DIYContext.Register | src/mesh/DIYModule.cpp:19-30 | Constructing a module appends its entry to the module list. |
| DIY.DIYContext.GetArg | src/mesh/DIYModule.cpp:198-255 | Returns the specified argument of the current text and stores it as `requestedArg`. It frees the previous buffer if flagged and allocates one more. The flag is set exactly when the field was found (`ArgFound`), as written. |
| DIY.DIYContext.ModuleWantsText | src/mesh/DIYModule.cpp:56-60 | The per-module test equals `Wants`: a by-name module whose name matches argument 0 in any case, or an own-channel module on its channel. |
| DIY.DIYContext.InterceptSentText | src/mesh/DIYModule.cpp:33-92 | Anything but a user-sent text passes. Otherwise the first wanting module handles it, the message is cancelled, queue status and ACK are spoofed, and the result is STOP iff handled. The final free always clears the flag. With no handler, tracked memory ends with no live buffer. With a handler, the memory is the free applied to what the handler's getArg calls (`handled`) leave, starting from tracked memory when the call started tracked. |
| DemoDIY.DefaultData | src/modules/DemoDIYModule.cpp:16-19 | The defaults are 123 and "Not Set!". |
| DemoDIY.SkipSpaces | src/modules/DemoDIYModule.cpp:101 | `atoi` first drops leading white space: the result is a suffix of the text, everything dropped is white space, and the result does not start with any. |
| DemoDIY.LeadingDigits | src/modules/DemoDIYModule.cpp:101 | The digits `atoi` reads are the longest run of digits that starts the text. |
| DemoDIY.Atoi | src/modules/DemoDIYModule.cpp:101 | `atoi` yields a 32-bit value. |
| DemoDIY.AtoiOfDecimal | src/modules/DemoDIYModule.cpp:98-108 | `atoi` inverts decimal printing for every 32-bit integer. |
| DemoDIY.Classify | src/modules/DemoDIYModule.cpp:52-86 | The command word is matched in any case and the save option with case. Each command is chosen exactly when its words match, and it carries argument 2 (number) or the rest of the text from argument 2 (text). |
| DemoDIY.SaveTextAnyCase | src/modules/DemoDIYModule.cpp:62-72 | "SAVE text x" in any case of "save" saves x. |
| DemoDIY.SaveOptionIsCaseSensitive | src/modules/DemoDIYModule.cpp:62-76 | "save TEXT x" is not understood. |
| DemoDIY.StoreText | src/modules/DemoDIYModule.cpp:114-120 | `strcpy` leaves the text as the buffer's string and keeps the bytes after its terminator. |
| DemoDIY.Respond | src/modules/DemoDIYModule.cpp:52-146 | Each command ends with feedback. Only a save changes the data, and it is saved right away. A number is stored as its `atoi`. Text of 20 characters or more is refused and changes nothing. |
| DemoDIY.SaveNumberThenLoad | src/modules/DemoDIYModule.cpp:98-146 | After "save number n", load reports n and the unchanged text. |
| DemoDIY.SaveTextThenLoad | src/modules/DemoDIYModule.cpp:111-146 | After saving a text that fits, load reports the number and that text. |
| DemoDIY.DemoDIYModule.constructor | src/modules/DemoDIYModule.cpp:34-38 | The module registers as own-channel "Demo" and starts from the loaded data, or the defaults. |
| DemoDIY.DemoDIYModule.HandleSentText | src/modules/DemoDIYModule.cpp:52-86 | The new data and feedback are `Respond` to `Classify` of the sent text. The getArg bookkeeping is `DemoArgMemory` of the old memory. From tracked memory, one buffer is live afterwards, and it is flagged unless `LeavesUntrackedArg` holds. |
| DemoDIY.DemoDIYModule.ReadCommand | src/modules/DemoDIYModule.cpp:52-86 | The getArg calls classify the text as `Classify` does, and leave the bookkeeping `DemoArgMemory` of the old memory. From tracked memory they leave one live buffer, flagged exactly when it is not a "save" whose last requested field is missing. |
| DemoDIY.DemoArgMemoryFromTracked | src/modules/DemoDIYModule.cpp:52-72 | From tracked memory, handleSentText's getArg calls leave exactly one live buffer, flagged unless `LeavesUntrackedArg` holds. |
| DemoDIY.InterceptFreesUnlessUntracked | src/mesh/DIYModule.cpp:66-86 | With the demo as the handler, the free at the end of interceptSentText leaves no buffer live exactly when `LeavesUntrackedArg` fails. A bare "save" sent on the demo's channel leaves one buffer live. |
| DemoDIY.BareSaveLeavesUntrackedArg | src/modules/DemoDIYModule.cpp:62-64 | A bare "save" leaves the buffer of getArg(1) unflagged. |
| DemoDIY.SaveWithoutValueLeavesUntrackedArg | src/modules/DemoDIYModule.cpp:62-70 | "save number" without a value leaves the buffer of getArg(2) unflagged. |
| DemoDIY.CompleteSaveTracksArg | src/modules/DemoDIYModule.cpp:62-76 | A command word, an option and a value: every buffer is flagged. |
| DemoDIY.DemoDIYModule.ExampleHelp | src/modules/DemoDIYModule.cpp:89-95 | Sends the help lines. |
| DemoDIY.DemoDIYModule.ExampleSaveNum | src/modules/DemoDIYModule.cpp:98-108 | The new state is `Respond` to save number. |
| DemoDIY.DemoDIYModule.ExampleSaveText | src/modules/DemoDIYModule.cpp:111-124 | The new state is `Respond` to save text. |
| DemoDIY.DemoDIYModule.ExampleLoad | src/modules/DemoDIYModule.cpp:127-146 | Sends the stored number and text. |
| RangeTest.Boot | src/modules/RemoteRangeTestModule.cpp:14-24 | With the test enabled at boot, rate limiting starts and the disable timer is armed for the duration. Otherwise the thread is off. |
| RangeTest.Begin | src/modules/RemoteRangeTestModule.cpp:43-80 | Always replies to the requester. When a test runs or ran too recently, nothing else changes. Otherwise the test is enabled, the config saved, and a reboot scheduled in 15 s. |
| RangeTest.Received | src/modules/RemoteRangeTestModule.cpp:27-40 | A message is consumed iff it is on the listen channel and matches the trigger word in any case. It then begins the test toward its sender. |
| RangeTest.Tick | src/modules/RemoteRangeTestModule.cpp:83-105 | A pending reboot restarts where the platform can. Otherwise a running test is disabled and saved, and the thread stops. |
| RangeTest.RateLimitFromBoot | src/modules/RemoteRangeTestModule.cpp:53-61 | When not running, a request starts the test iff no test ran since boot or the interval has passed. |
| RangeTest.RemoteCycle | src/modules/RemoteRangeTestModule.cpp:14-105 | Trigger, reboot, run for the duration, then disable and save: the whole remote cycle, with its messages. |
| RangeTest.NoRestartUndoesStart | src/modules/RemoteRangeTestModule.cpp:83-105 | On a platform that cannot restart, the next tick disables the test it just enabled. |
| RangeTest.RepeatedRequestsWhileRunning | src/modules/RemoteRangeTestModule.cpp:46-50 | While running, any number of requests only send "already running" replies. |
| RangeTest.RemoteRangetestModule.constructor | src/modules/RemoteRangeTestModule.cpp:14-24 | The state is `Boot` of the saved setting. |
| RangeTest.RemoteRangetestModule.HandleReceived | src/modules/RemoteRangeTestModule.cpp:27-40 | The new state and result are `Received` of the old. |
| RangeTest.RemoteRangetestModule.BeginRangeTest | src/modules/RemoteRangeTestModule.cpp:43-80 | The new state is `Begin` of the old. |
| RangeTest.RemoteRangetestModule.RunOnce | src/modules/RemoteRangeTestModule.cpp:83-105 | The new state is `Tick` of the old. |
| Common.ToLower | src/mesh/DIYModule.cpp:185 | `tolower` in the C locale changes only 'A'..'Z', and never yields an upper-case letter. |
| Common.CString | src/mesh/DIYModule.cpp:46-47 | A C string is the buffer up to its first NUL. |
| Common.DigitsValueOfNat | src/modules/DemoDIYModule.cpp:127-146 | Decimal printing of a natural number reads back as that number. |

## Left out

- WindowManager internals: its tile bookkeeping, display rotation and the e-ink driver are not part of this model. The window manager is a sink that records pixels.
- Applet geometry in floating point (`X`, `Y`) and `printAt`'s alignment are left out; `printThick` records each centred print as one drawing operation.
- `setFont`, `getFont`, `setDefaultFonts` and `getTextWidth` are left out. The font is a value whose text bounds and cursor advance are functions supplied by the font.
- `applySubstitutions` is left out: `printWrapped` works on the text after substitution.
- Glyph rasterisation: `fillScreen` and `print` are recorded as drawing operations with the crop in effect, not as pixels.
- The member initial values in `Applet.h` and `Tile.h` are not part of this model. They are constructor parameters or stated constants.
- `drawHeader` and `getActiveNodeCount` (node database queries) are left out; only `getHeaderHeight` is modelled.
- `getSignalStrength` takes `real` SNR and RSSI, not `float`.
- InkHUD.Applet.PrintWrapped: models the corrected newline handling ("## Findings"), not the word-dropping loop as written; `TextLayout.Wrapped` models the loop as written. On text without newlines the two agree (`TextLayout.WrappedAgreesWithoutNewlines`).
- InkHUD.Applet.PrintWrappedTurn: at a newline it prints the pending word before breaking the line (`TextLayout.CorrectedStep`). The source at Applet.cpp:360-363 drops that word.
- InkHUD.Applet.GetWrappedTextHeight: returns the height of the corrected layout. When a word precedes a newline this can be a line more than the source returns: the source drops the word, so the word never wraps. With 1 px per character, line height 10 and width 8, "aaa bbbbbbb\nc" leaves the cursor 10 px below its start in the source and 20 px below it here.
- InkHUD.Applet.PrintWrapped: requires text shorter than 65536, the range of the `uint16_t` loop index.
- InkHUD.Applet.HatchRegion: states that every pixel drawn is a hatch pixel of the region and that the corner is drawn; it does not list every pixel of every diagonal. It requires the region plus one spacing to stay within `int16_t`, where the loop counters cannot wrap. It requires a spacing of at least 1: with spacing 0 and a positive width, the loop at Applet.cpp:458 never ends.
- InkHUD.Applet.PrintThick: requires thicknesses of at least 1, as the `assert(false)` cases demand, and ranges that stay below 32767 so the `int16_t` loop terminates.
- GPIOJoystick interrupts, `millis()` and `digitalRead` are parameters of the methods. The OSThread scheduler is reduced to the `enabled`, `runASAP` and interval fields. `getInstance`'s singleton is the object itself.
- DIY flash persistence: only the in-memory image (data then hash) is modelled, not the file system, the temporary-file rename or the nRF52 reboot on repeated failure.
- DIY.DIYContext.InterceptSentText: the chosen module's `handleSentText` is that module's own code. Its effect on the getArg bookkeeping is the parameter `handled`, and its other effects are recorded as a `HandleSentText` effect. For the demo, `handled` is `DemoDIY.DemoArgMemory` (see `DemoDIY.InterceptFreesUnlessUntracked`).
- `sendPhoneFeedback`, `spoofACK`, `cancelSending` and `sendQueueStatusToPhone` are recorded as effects. `channelExists` and `getChannelName` are reduced to the packet's channel name, given as a parameter.
- DIY.ScanArg: requires text shorter than 256 characters, where the `uint8_t` end index cannot wrap.
- TileLayout.TwoTiles: requires displays of at most 65531 px each way. Beyond that, `displayWidth / 2 + 2` no longer fits the `int16_t` left (see `TileLayout.TwoTilesWrapOnWidestDisplays`).
- TileLayout.FourTiles: requires displays of at most 65533 px each way, where `(width - 1) + spacing` still fits the `int16_t` left.
- DemoDIY.Atoi: clamps out-of-range values to 32 bits; C leaves `atoi` overflow undefined.
- RangeTest: the module's own `stringsMatch` (RemoteRangeTestModule.cpp:124-139) has the same behaviour as DIY's and is modelled by `DIY.Matches`. `sendText` is recorded as a `SendText` effect. Saving to disk and rebooting are effects too.
- RangeTest.Tick: after an actual restart, no further state of this instance is modelled.
- The other InkHUD applets, NastySolar, TextMessageModule, AutoresponderModule and the OLED screen's other language tables are not part of this model.

## Findings

| source | as written | input that shows it | evidently intended | confidence | as-written member | corrected member |
|---|---|---|---|---|---|---|
| src/graphics/niche/InkHUD/Applet.cpp:491-512 | `epochNow - epochSeconds` is unsigned, so a timestamp ahead of the RTC wraps to about 49,710 days ago and is blanked; the `daysAgo < -2` test never fires | a timestamp 1 hour ahead of the RTC gives "" | up to 2 days ahead is tolerated and shown as a clock time | not executed | AppletHelpers.FutureTimestampBlank | AppletHelpers.SignedShowsNearFuture |
| src/mesh/DIYModule.cpp:247-252 | `getArg` for a missing field allocates a buffer but does not set `argMemoryAllocated`, so the final free skips it. `DIY.DIYContext.GetArg` and the demo's `ReadCommand` model this as written | `getArg(1)` on the text "save" leaks one buffer per call | every allocation is flagged and freed at the end of `interceptSentText` | not executed | DIY.ArgLeakAsWritten | DIY.GetArgMemory |
| src/graphics/niche/InkHUD/Applet.cpp:360-363 | at a newline the pending word is discarded: `wordStart` moves past the newline without printing it | "hello\nworld" prints only "world" | the word before a newline is printed, then the line breaks | not executed | TextLayout.WordBeforeNewlineLost | TextLayout.CorrectedPrintsAllButNewlines |
