# FlexDMD actors in Dafny

This project models four actors of FlexDMD's scene graph. (FlexDMD renders scenes for pinball dot-matrix displays.) It proves properties of the model:

- **GIFImage** plays an animated GIF at the per-frame delays stored in the file. It decodes the delay table from the GDI+ property `0x5100`, read as one little-endian 32-bit integer per frame, in hundredths of a second. It keeps the total length. `Rewind` and `ReadNextFrame` drive a frame counter that stops at the last frame. Entering the stage fetches the shared cached bitmap and leaving it drops the handle; a valid GIF also keeps the handle from construction, with the bitmap evicted.
- **ScoreBoard** is a group of six labels: two status labels and four player scores. It has an optional background, a highlighted player and a per-tick layout. Scores are rendered with the .NET format `"#,##0"`.
- **Image** shows one cached bitmap. It fetches the bitmap once to learn its size, and, for a loadable asset, holds it exactly while on stage or after a direct access.
- **SingleLineScene** shows one line of text, centred or scrolling. The scroll runs from just off the right edge to just off the left edge at 1.2 px per frame at 60 frames per second.

Collaborators the actors only call are reduced to values:

- **Asset store.** `Assets.AssetManager` is a class. It holds the decodable assets `sources` and the shared resources handed out, `cache`. An actor's `_cachedBitmap` field is the flag `held` together with its key. Changes to a shared resource are updates of `cache`.
- **Labels and fonts.** A label is a record (`Labels.Label`), and a font contributes only its base height. A label's size is supplied by the caller, because font metrics and `Pack` are not part of this model.
- **Child lists.** A child list is a sequence. `Groups.RemoveFirst` and `Groups.InsertAt` stand for `RemoveActor` and `AddActorAt`.
- **Layout and tweening.** `SetAlignedPosition` is recorded as the anchor a label was given. A tween is recorded as its target, duration and delay.

Times in GIFImage are integer hundredths of a second. Layout values are exact `real`s.

Some of the code's behaviour goes against what its own comments and messages suggest: the constructor's comment at `FlexDMD/Actors/GIFImage.cs:61` says the data cannot stay live off stage, and the log text at line 48 reports an invalid GIF. The model follows the code:

- **An invalid GIF can still draw.** Construction drops the handle of a GIF whose delay property is not of type 4. `OnStageStateChanged` fetches it again on stage entry, though, so such a GIF draws its first frame while on stage. It is not inert. `GIFImages.GIFImage.Draw` states this case exactly.
- **A valid GIF keeps its handle.** After construction it holds the resource (`_cachedBitmap` stays non-null) with the bitmap evicted (`Bitmap = null`). The model states `held` and an evicted cache entry.
- **A shared eviction breaks a GIF on stage.** GIFs built on one asset share its resource. Building a second one evicts the shared bitmap, so a first GIF that is on stage still holds the resource but has no bitmap. Its next frame selection throws, and so does its next `Draw` while visible. A valid GIF straight after construction is in the same state until it enters the stage. `GIFImages.SharedEviction` exhibits the case, and `ReadNextFrame`, `UpdateFrame`, `Draw` and `ReadFrames` return whether they threw.
- **Some GIF construction failures throw.** An unknown asset throws, uncaught, in the constructor. So do a missing delay property and, when the type is 4, a short value or a GIF without frames. (With another type the constructor returns before `Rewind` and reads no value.) These are preconditions of the constructor (`src in manager.sources` and `GIFImages.Readable`), not error paths.
- **A failed Image is not inert.** An unknown asset in the `Image` constructor is caught and logged, and the model has that error path. Whenever the image later fetches the asset again (entering the stage, or the `Bitmap` getter), the fetch throws, uncaught. A visible image that holds nothing throws in `Draw`, and the `Bitmap` setter throws whenever nothing is held. These members return whether they threw.

## Model

| member | source | states |
|---|---|---|
| BinaryData.UInt32LE | FlexDMD/Actors/GIFImage.cs:55 | the four bytes at the offset, little-endian, give a value in [0, 2^32) |
| BinaryData.ToInt32 | FlexDMD/Actors/GIFImage.cs:55 | BitConverter.ToInt32: a value in the int32 range equal to the unsigned reading, less 2^32 when the sign bit is set |
| BinaryData.Int32Bytes | FlexDMD/Actors/GIFImage.cs:55 | the encoder partner: four bytes, with the top byte's high bit set exactly for negative values |
| BinaryData.ReadWritten | FlexDMD/Actors/GIFImage.cs:55 | reading the bytes written for any int32 gives it back |
| BinaryData.WrittenRead | FlexDMD/Actors/GIFImage.cs:55 | writing the value read from any four bytes reproduces those bytes |
| FrameTiming.DelayTable | FlexDMD/Actors/GIFImage.cs:53-56 | one delay per frame; frame i's delay is the int32 at byte offset 4·i |
| FrameTiming.DelayBytes | FlexDMD/Actors/GIFImage.cs:53-56 | the encoder partner: a delay table spelled as 4 bytes per frame |
| FrameTiming.DecodeEncodedDelays | FlexDMD/Actors/GIFImage.cs:53-56 | decoding the bytes of any int32 delay table gives back that table |
| FrameTiming.Sum | FlexDMD/Actors/GIFImage.cs:52-58 | the delays accumulated in order, as `length +=` and `_frameTime +=` do; a table of zeros sums to 0 |
| FrameTiming.PrefixSumStep | FlexDMD/Actors/GIFImage.cs:94-95 | the sum of the first i+1 delays is the sum of the first i plus delay i |
| FrameTiming.PrefixSumAtMostTotal | FlexDMD/Actors/GIFImage.cs:52-58 | with no negative delay, every prefix sum is at most the total length |
| FrameTiming.FrameEndWithinLength | FlexDMD/Actors/GIFImage.cs:90-96 | with no negative delay, frame i starts at a non-negative time and ends within the length |
| FrameTiming.NegativeDelayPassesLength | FlexDMD/Actors/GIFImage.cs:55 | with a negative delay (possible under a signed read), a frame can end after the total length |
| GIFImages.ShowFrame | FlexDMD/Actors/GIFImage.cs:105 | SelectActiveFrame: the resource keeps its size, frame count and properties, and has the given frame active |
| GIFImages.GIFImage.constructor | FlexDMD/Actors/GIFImage.cs:35-63 | preferred size from the resource; the delay property is `DelayItem`, GetPropertyItem(0x5100). Type ≠ 4: error logged, handle dropped, zero table and length, not rewound or packed. Otherwise: decoded table, rewound, packed, handle kept with the shared bitmap evicted; the state is Valid |
| GIFImages.GIFImage.LoadDelays | FlexDMD/Actors/GIFImage.cs:44-58 | one delay slot per frame; invalid exactly when the type of the `DelayItem` property is not 4; decoded table otherwise, zeros otherwise; total is the table's sum |
| GIFImages.GIFImage.DecodeDelays | FlexDMD/Actors/GIFImage.cs:52-58 | the loop fills exactly DelayTable and accumulates its sum |
| GIFImages.GIFImage.ZeroDelays | FlexDMD/Actors/GIFImage.cs:45 | a fresh table of zeros whose sum is 0 |
| GIFImages.GIFImage.Rewind | FlexDMD/Actors/GIFImage.cs:77-82 | frame 0, start time 0, duration delays[0], end flag cleared; Valid |
| GIFImages.GIFImage.ReadNextFrame | FlexDMD/Actors/GIFImage.cs:84-99 | at the last frame: end flag set, nothing else changes. Otherwise: pos + 1, start time the sum of the delays before it, duration its delay, frame selected in the held bitmap, and it throws exactly when the held bitmap is evicted; Valid (0 ≤ pos < frameCount) is kept |
| GIFImages.GIFImage.UpdateFrame | FlexDMD/Actors/GIFImage.cs:101-111 | with a held resource, selects the current frame in it; throws, changing nothing, exactly when the held resource's bitmap is evicted; without a resource changes nothing |
| GIFImages.GIFImage.OnStageStateChanged | FlexDMD/Actors/GIFImage.cs:69-75 | afterwards a resource is held iff on stage; on stage the resource is fetched (re-decoded if evicted) with the current frame selected; off stage the store is unchanged |
| GIFImages.GIFImage.SetOnStage | FlexDMD/Actors/GIFImage.cs:69-75 | the hook runs once per actual change of OnStage and never when the flag does not change; on entry the store holds the fetched resource with the current frame selected, on exit it is unchanged |
| GIFImages.GIFImage.Draw | FlexDMD/Actors/GIFImage.cs:113-121 | draws the held bitmap exactly when visible and a resource with a bitmap is held; throws exactly when visible and the held bitmap is evicted (DrawImage of null) |
| GIFImages.GIFImage.ReadFrames | FlexDMD/Actors/GIFImage.cs:84-99 | k requests for the next frame stop at the last frame, pos = min(pos + k, last); the end flag is set once a request arrives there; with a held, evicted bitmap the first request that moves to a new frame throws and ends the loop; afterwards the held bitmap shows the new frame when the frame changed, and every other store entry is unchanged |
| GIFImages.SharedEviction | FlexDMD/Actors/GIFImage.cs:41-105 | a second GIF built on the asset of a GIF on stage evicts their shared bitmap; the first still holds the resource, and its next frame request throws |
| GIFImages.GIFImage.CurrentFrameWithinLength | FlexDMD/Actors/GIFImage.cs:77-98 | with a frame and no negative delay, 0 ≤ frameTime and frameTime + frameDuration ≤ length |
| Assets.AssetManager.GetBitmap | FlexDMD/Actors/GIFImage.cs:41 | fails exactly for an unreadable descriptor; otherwise the resource with the descriptor's size and a live bitmap (`Live`: the resident one, else a fresh decode); afterwards the bitmap is resident and `Live` hands out the same one, so a second fetch changes nothing; a resident resource is returned unchanged |
| Assets.AssetManager.SetBitmap | FlexDMD/Actors/GIFImage.cs:62 | overwrites only the bitmap of that one shared resource |
| Images.Image.constructor | FlexDMD/Actors/Image.cs:36-58 | no resource held afterwards; preferred size and packed size are the resource's; a load failure is logged, not propagated, and leaves size 0; Scaling Stretch, Alignment Center |
| Images.Image.OnStageStateChanged | FlexDMD/Actors/Image.cs:76-81 | afterwards a resource is held iff on stage, with a live bitmap when on stage; for an asset that failed to load, entering the stage throws and leaves the handle and the store as they were |
| Images.Image.SetOnStage | FlexDMD/Actors/Image.cs:76-81 | the hook runs once per actual change of OnStage; on entry the store holds the fetched resource with a live bitmap, on exit it is unchanged; entry throws exactly for an asset that failed to load |
| Images.Image.GetBitmap | FlexDMD/Actors/Image.cs:66-70 | fetches the resource only when none is held (a second get re-fetches nothing); afterwards one is held and its bitmap is returned; throws, holding nothing, exactly when nothing is held and the asset failed to load |
| Images.Image.SetBitmap | FlexDMD/Actors/Image.cs:71-74 | overwrites the bitmap of the held, shared resource and nothing else; with nothing held it throws (null dereference) and changes nothing |
| Images.Image.Draw | FlexDMD/Actors/Image.cs:83-91 | draws exactly when visible and the held resource has a bitmap; a visible image that holds nothing dereferences null and throws |
| Images.ShowImage | FlexDMD/Actors/Image.cs:36-91 | an image of a loadable asset, put on stage, draws its bitmap; for an asset that failed to load, the stage entry throws |
| NumberFormat.Digits | FlexDMD/Actors/ScoreBoard.cs:98 | plain decimal digits: all digits, a leading '0' only for 0, at most 3 of them below 1000 |
| NumberFormat.Grouped | FlexDMD/Actors/ScoreBoard.cs:98 | "#,##0" of a natural: every fourth character from the right is ',' and the rest are digits, "0" exactly for 0, no leading zero |
| NumberFormat.FormatScore | FlexDMD/Actors/ScoreBoard.cs:98-101 | a leading '-' exactly for negative scores, followed by a well-grouped rendering; "0" for zero |
| NumberFormat.StripGrouped | FlexDMD/Actors/ScoreBoard.cs:98 | removing the separators from the grouped text leaves the plain decimal digits |
| NumberFormat.DecimalValueDigits | FlexDMD/Actors/ScoreBoard.cs:98 | the plain decimal digits of n spell n |
| NumberFormat.ParseFormatted | FlexDMD/Actors/ScoreBoard.cs:98-101 | reading a rendered 64-bit score back gives the score |
| NumberFormat.FormatInjective | FlexDMD/Actors/ScoreBoard.cs:98-101 | two scores get the same text only when they are equal |
| Groups.FirstIndex | FlexDMD/Actors/ScoreBoard.cs:52 | the position of the first occurrence: it holds the actor, and no earlier position does |
| Groups.RemoveFirst | FlexDMD/Actors/ScoreBoard.cs:52 | RemoveActor: the list itself when the actor is absent; otherwise the list with its first occurrence cut out and the other elements in their order |
| Groups.RemoveFirstCount | FlexDMD/Actors/ScoreBoard.cs:52 | RemoveActor takes out exactly one occurrence, if any, and nothing else |
| Groups.InsertAt | FlexDMD/Actors/ScoreBoard.cs:58 | AddActorAt: the actor at the index, the elements before and after it unchanged and in order |
| ScoreBoards.LabelSlots | FlexDMD/Actors/ScoreBoard.cs:37-45 | the six labels the constructor adds |
| ScoreBoards.ScoreFontFor | FlexDMD/Actors/ScoreBoard.cs:83-93 | label i (0-based) has the highlight font exactly when player (1-based) is i + 1; with player outside 1..4 every label has the score font |
| ScoreBoards.RowTop | FlexDMD/Actors/ScoreBoard.cs:110-122 | the first row (players 1 and 2) starts at y = 1; the second starts where a text-font line would be centred vertically (yLine2) |
| ScoreBoards.Dec | FlexDMD/Actors/ScoreBoard.cs:111 | a score-font label moved down by dec has its middle where a highlight-font label's middle is |
| ScoreBoards.ScoreY | FlexDMD/Actors/ScoreBoard.cs:110-122 | only the highlighted label gets no dec offset; every label's vertical middle, in its own font, is at the middle of a highlight-font line of its row |
| ScoreBoards.ScoreAnchor | FlexDMD/Actors/ScoreBoard.cs:119-122 | players 1 and 3 anchored top-left at x = 1, 2 and 4 top-right at x = width − 1, at ScoreY |
| ScoreBoards.ScoreBoard.constructor | FlexDMD/Actors/ScoreBoard.cs:32-46 | children lowerLeft, lowerRight, scores 0–3 in that order, each built by `Labels.NewLabel` (`new Label(font, text)`); status labels empty in the text font; scores "0" in the score font; no background, no highlight |
| ScoreBoards.ScoreBoard.SetBackground | FlexDMD/Actors/ScoreBoard.cs:48-60 | the previous background is removed, and disposed of when disposable; a new one is first; the six labels keep their order |
| ScoreBoards.ScoreBoard.SetNPlayers | FlexDMD/Actors/ScoreBoard.cs:62-68 | score label i is visible iff i < n; nothing else changes |
| ScoreBoards.ScoreBoard.SetFonts | FlexDMD/Actors/ScoreBoard.cs:70-78 | stores the fonts, re-applies the current highlight with them, re-fonts both status labels |
| ScoreBoards.ScoreBoard.SetHighlightedPlayer | FlexDMD/Actors/ScoreBoard.cs:80-94 | label p−1 takes the highlight font, every other the score font (none highlighted for p outside 1..4); only fonts change |
| ScoreBoards.ScoreBoard.SetScore | FlexDMD/Actors/ScoreBoard.cs:96-102 | label i's text is FormatScore of score i+1; only texts change |
| ScoreBoards.ScoreBoard.Update | FlexDMD/Actors/ScoreBoard.cs:104-125 | bounds equal the parent's size; scores anchored by ScoreAnchor; status labels on the text line at height − baseHeight − 1 |
| ScoreBoards.ScoreBoard.AnchorScores | FlexDMD/Actors/ScoreBoard.cs:119-122 | the four SetAlignedPosition calls of the scores, as ScoreAnchor gives them |
| ScoreBoards.ScoreBoard.AnchorStatus | FlexDMD/Actors/ScoreBoard.cs:123-124 | both status labels on the text line, left at x = 1, right at x = width − 1 |
| ScoreBoards.ScoreBoard.Draw | FlexDMD/Actors/ScoreBoard.cs:127-135 | a hidden board draws and changes nothing; a visible one sizes its background to itself |
| ScoreBoards.HighlightThenScore | FlexDMD/Actors/ScoreBoard.cs:80-102 | highlighting player 2 then scoring 10, 20, 30, 40 gives texts "10".."40" with only label 1 in the highlight font |
| SingleLineScenes.TextX | FlexDMD/Scenes/SingleLineScene.cs:53 | the text's centre is ScrollX to the right of the scene's centre |
| SingleLineScenes.TextY | FlexDMD/Scenes/SingleLineScene.cs:53 | the text is vertically centred |
| SingleLineScenes.ScrollOffset | FlexDMD/Scenes/SingleLineScene.cs:44 | the offset puts the text at x = 0 |
| SingleLineScenes.ScrollStart | FlexDMD/Scenes/SingleLineScene.cs:45 | the start puts the text at x = width, just off the right edge |
| SingleLineScenes.ScrollTarget | FlexDMD/Scenes/SingleLineScene.cs:46 | the target puts the text at x = −textWidth, just off the left edge |
| SingleLineScenes.ScrollDuration | FlexDMD/Scenes/SingleLineScene.cs:43-46 | duration × 72 equals the distance travelled, width + textWidth: 1.2 px per 1/60 s |
| SingleLineScenes.SingleLineScene.constructor | FlexDMD/Scenes/SingleLineScene.cs:25-31 | exactly one text label child, built by `Labels.NewLabel`, is added after the base scene's children; ScrollX starts at 0 |
| SingleLineScenes.SingleLineScene.SetText | FlexDMD/Scenes/SingleLineScene.cs:33-36 | only the label's text changes |
| SingleLineScenes.SingleLineScene.Begin | FlexDMD/Scenes/SingleLineScene.cs:38-48 | with scroll: the text starts at x = width and a tween to ScrollTarget over ScrollDuration is registered; without: nothing changes, ScrollX stays 0 |
| SingleLineScenes.SingleLineScene.Update | FlexDMD/Scenes/SingleLineScene.cs:50-54 | text at ((W − tw)/2 + ScrollX, (H − th)/2); without scroll it is horizontally centred |

## Left out

- `AssetManager.ResolveSrc` is the identity: a descriptor is its path. The cache's eviction policy and file decoding are not part of this model; `sources` gives what decoding yields.
- Pixel work is not modelled: `LockBits`, `GraphicUtils.BGRtoRGB`, `Graphics.DrawImage` and `Graphics.Clear`. `UpdateFrame` records only the selected frame, and `Draw` returns what it would draw.
- `Layout.Scale`, `Layout.Align` and `Actor.SetAlignedPosition` are not part of this model. A label records the point and alignment it was anchored at.
- `Label.Pack` and font metrics are inputs: a label's size is given to it. ScoreBoard's labels keep size 0, because their packing in `Update` is not modelled.
- GIFImages.GIFImage.Rewind: `AnimatedActor.Rewind` is not part of this model, and it is taken to reset `_frameTime` to 0 and `_endOfAnimation` to false. That is what lets `Rewind` establish `Valid` (frame 0 starts at time 0).
- The base classes are not part of this model. That covers `AnimatedActor`'s update loop (time carry-over), `Group.Update` and `Group.Draw` recursion, `Scene.Begin`, and the tweener's interpolation over time. `GIFImages.GIFImage.ReadFrames` is an abstract driver of `ReadNextFrame`. `Begin` records only the tween it registers.
- `SetOnStage` stands for the `Actor.OnStage` setter, which is not in the modelled files. Stage propagation through groups is not modelled.
- Logging is only the flag `errorLogged`. Disposal is only the list `disposed`.
- Floating point is not modelled. Delays are exact centiseconds rather than `float` seconds (`/ 100.0f`), so the length and frame-time sums have no rounding. Layout uses exact reals, and `60 * 1.2f` is taken as 72.
- `ToString("#,##0")` uses ',' as the group separator, whatever the culture.
- GIFImages.GIFImage.CurrentFrameWithinLength: assumes no delay is negative. The value is read as a signed int32, and a negative delay breaks the bound (`FrameTiming.NegativeDelayPassesLength`).
- GIFImages.GIFImage.constructor: requires `src in manager.sources` and `Readable`. The code throws, uncaught, for an unknown asset, a missing delay property and, with type 4, a short value or a GIF without frames; those paths are not modelled.
- ScoreBoards.ScoreBoard.SetScore: states the texts; their round trip is the separate lemma `NumberFormat.ParseFormatted`.
- SingleLineScene's `_text.Text` setter may re-pack the label in the library. That is not part of this model, so `SetText` keeps the label's size.
- Scene identifiers, `animateIn`/`animateOut` and `pauseS` go to the base scene and are not modelled.
