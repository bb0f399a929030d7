# Virtual T-shirt customizer: tracker, garments, compositor, palette and text

This project models the core of a browser T-shirt customizer. A garment registry
holds two loaded T-shirt models and marks one as active. Each garment has a stored
colour and a stored composite texture. A compositor paints four 1024 by 256 layer
canvases and stacks them into the composite the active garment wears:

- the fabric image;
- a texture pattern (splatter, gradient or grid);
- printed text;
- a logo.

A k-means palette step turns an uploaded image into the five colours of the texture
pattern. The text controls trim the input and compute where it is printed. In AR mode
a pose tracker moves, scales and turns the active garment toward the wearer's torso,
and hides it after 30 frames without one.

Modules follow the source files:

| module | file | models |
|---|---|---|
| `Scene` | `scene.dfy` | the tracker of `src/scene.js` (landmark gate, target transform, smoothing, lost-frame counter, the latest-frame slot, the editor toggle) |
| `Model` | `model.dfy` | the registry of `src/model.js` (`models`, `modelStates`, `currentModelName` and the functions over them) |
| `Gui` | `gui.dfy` | the compositor of `src/GUI.js` (the layer canvases, the three patterns, the text and logo layers, `applyToTShirt`) |
| `Texture` | `texture.dfy` | `src/Texture.js` (the apply and remove buttons, the image-type gate, `extractAdvancedColors`) |
| `TextInput` | `text_input.dfy` | `src/TextInput.js` (trim, `calculateTextPositions`, `applyTextWithCurrentSettings`, the remove button) |
| `State` | `state.dfy` | the three customization records of `src/state.js` |
| `Canvas2D` | `canvas.dfy` | the part of the browser's 2D canvas the compositor uses |
| `Three`, `Basics` | `three.dfy`, `basics.dfy` | Three.js value types, options, and the `Math.random()` stream |

Modelling choices:

- **Mutable state is a class.** Whatever the source keeps in module-level variables
  is a class with those fields: `Scene.Tracker`, `Model.Garments`, `Gui.Compositor`,
  `State.TextState`, `State.TextureState` and `State.LogoState`. Canvases are
  `Canvas2D.Canvas` objects.
- **Methods are proved against pure functions.** Each method's `ensures` ties its new
  state (a `Snapshot()` or `Value()`) to a pure function of the old state, such as
  `Switch`, `Apply` or `Tick`. The lemmas are proved about those functions.
- **A canvas is its list of drawing operations.** `Canvas2D.PixelAt` gives a pixel's
  meaning. Clears, rectangles, compositing (source-over and multiply) and
  whole-canvas copies are exact in real arithmetic (see "## Left out"). Arcs, glyphs, bitmaps and blur are rasterised by a
  `Raster` parameter.
- **Randomness is a stream.** `Math.random()` is a stream `rand: nat -> real` of
  draws in [0, 1). Every operation that draws takes the index of the next unread draw
  and returns the index after its last one.
- **Exceptions are a result.** A JavaScript exception that ends a handler is a
  `None` or a `failed` flag.

Where the comments in the source and the code disagree, the code is followed:

- The comment at `src/TextInput.js:89` gives `frontX` as 276. The code computes
  1024 * 0.25 = 256, so the front text is printed at 256 + 50 = 306, and
  `TextInput.FixedPositions` states 306.
- `src/TextInput.js:90` says the back text is at x = 723. The code computes 768.

## Model

| member | source | states |
|---|---|---|
| Basics.PickIndex | src/GUI.js:374 | `Math.floor(Math.random() * n)` is a valid index for n > 0, and it is the floor of u * n |
| Basics.Spread | src/GUI.js:371-373 | `Math.random() * scale + shift` lies in [shift, shift + scale) |
| Three.Clamp | src/scene.js:342-343 | the clamped value lies within the bounds, equals v inside them, and equals the nearer bound outside them |
| Three.Lerp | src/scene.js:377 | after one lerp the distance to the target is (1 - t) times the previous distance |
| Three.LerpVec | src/scene.js:345 | `Vector3.lerp` shrinks each component's distance to the target by the factor 1 - t |
| Scene.Gate | src/scene.js:295-303 | a frame is tracked exactly when all six landmarks 11, 12, 13, 14, 23 and 24 are present; the torso is then made of entries 11, 12, 23 and 24 |
| Scene.TargetPosition | src/scene.js:333-345 | the target x and y lie in the 10 by 8 viewport and are the parallax-scaled centre inside it and the nearer bound (±5, ±4) outside it; z is -2 - 6 times the centre's depth |
| Scene.TorsoWidth | src/scene.js:348-350 | the torso width is the larger of the shoulder span and the hip span |
| Scene.TorsoHeight | src/scene.js:353 | the torso height is the non-negative vertical gap between the shoulder midpoint and the hip midpoint |
| Scene.TargetScale | src/scene.js:352-359 | the target depth scale is 0.8 of the width scale; the height scale is never negative; the width scale is non-negative when the centre is not behind depth -1 |
| Scene.TargetYaw | src/scene.js:363-376 | the target yaw is 0 or PI, and it is PI exactly when the mean of the shoulder and hip angles exceeds 1.2 in absolute value |
| Scene.Track | src/scene.js:303-398 | a tracked frame zeroes the lost counter, shows the garment and smooths the transform; a frame missing a landmark adds one to the counter, keeps the transform, and hides the garment and raises the notice once the counter passes 30 |
| Scene.LostRun | src/scene.js:390-398 | n frames missing a landmark add n to the counter with no cap and leave the transform alone; the garment is still visible exactly when it was visible before and the counter stayed at or below 30 |
| Scene.HiddenExactlyOn31st | src/scene.js:392-397 | starting from a tracked state, the garment stays visible through 30 missing frames and is hidden, with the notice shown, on the 31st |
| Scene.TowardContracts | src/scene.js:345-377 | one smoothing step with factor 0.6 multiplies every smoothed component's remaining distance to its target by 0.4 |
| Scene.Converges | src/scene.js:303-381 | after n ticks on one tracked frame, every smoothed value sits at 0.4^n of its initial distance from the target, and the garment is visible |
| Scene.Contract | src/scene.js:345 | a lerp by 0.6 toward the target turns a value k times as far from it as the original into one 0.4 k times as far |
| Scene.Deliver | src/scene.js:413-418 | `setLatestResults` overwrites the slot in AR mode and changes nothing outside it |
| Scene.TicksReprocessFrame | src/scene.js:292-305 | the slot is never consumed: n ticks with no new frame process the same frame n times, so they equal n steps of `Track` on it |
| Scene.ToggleEditorResets | src/scene.js:420-430 | entering editor mode with an active garment shows it, snaps the smoothed transform to position (0, 2, 0), unit scale and zero rotation, empties the slot, and leaves the lost-frame counter as it was |
| Scene.Tracker.constructor | src/scene.js:272-283 | the tracker starts with an empty slot, the smoothed transform at (0, 0, -2), unit scale and zero rotation, and no lost frames |
| Scene.Tracker.SetLatestResults | src/scene.js:413-418 | the new tracker state is `Deliver` of the old one |
| Scene.Tracker.Animate | src/scene.js:285-411 | the new tracker and registry states are `Tick` of the old ones |
| Scene.Tracker.ToggleEditorMode | src/scene.js:420-430 | the new tracker and registry states are `Toggle` of the old ones |
| Model.LoadedState | src/model.js:60-66 | a garment's record starts at position (0, 2, 0), zero rotation and the uniform scale that fits it, white, and with no composite |
| Model.GetCurrentColor | src/model.js:183-185 | the stored colour of the garment, and white for a garment without a record |
| Model.GetCompositeCanvas | src/model.js:187-189 | the stored composite of the garment, and none for a garment without a record |
| Model.SwitchPreservesConsistency | src/model.js:97-128 | switching keeps every loaded garment recorded and the active garment loaded; it changes no record and loads or drops no garment |
| Model.SwitchNoOp | src/model.js:98 | switching to the active garment or to an unknown name changes nothing |
| Model.SwitchEffect | src/model.js:97-128 | otherwise the previous garment is hidden and nothing else of it changes, the records and the set of garments stay the same, the new one is active, visible, back at its initial transform, and painted with its stored colour and, if it has one, its stored composite, its emissive colour and map kept; every other garment is unchanged |
| Model.SetColorIsolation | src/model.js:150-162 | `setCurrentColor` sets the named garment's colour record and its material colour to the colour, and changes nothing else of it, of its composite record, or of any other garment; the set of garments stays the same; an unknown name changes nothing |
| Model.SetCompositeIsolation | src/model.js:164-181 | `setCompositeCanvas` sets the named garment's composite record and its material map to the canvas, and changes nothing else of it, of its colour record, or of any other garment; the set of garments stays the same; an unknown name changes nothing |
| Model.SwitchRoundTrip | src/model.js:97-181 | after a colour and a composite are stored on garment a, switching to b and back to a shows a with that colour and composite, at its initial transform |
| Model.LoadAllEffect | src/model.js:80-95 | each garment that loads gets a white, composite-free record at (0, 2, 0); only when both load are the garments registered, with "T-Shirt 1" active, visible, at (0, 2, 0) and in the white fabric material, and "T-Shirt 2" hidden; otherwise the garments and the active name are unchanged |
| Model.Garments.constructor | src/model.js:5-7 | no garments, no records and no active garment |
| Model.Garments.LoadTShirtModels | src/model.js:80-95 | the new registry is `LoadAll` of the old one, and stays consistent |
| Model.Garments.ResetModelToInitial | src/model.js:130-148 | the new registry is `Reset` of the old one |
| Model.Garments.SwitchModel | src/model.js:97-128 | the new registry is `Switch` of the old one, and stays consistent |
| Model.Garments.SetCurrentColor | src/model.js:150-162 | the new registry is `StoreColor` of the old one |
| Model.Garments.SetCompositeCanvas | src/model.js:164-181 | the new registry is `StoreComposite` of the old one |
| State.FontSizeOrDefault | src/state.js:26 | an omitted font size is 30; a given one is kept as it is |
| State.TextState.constructor | src/state.js:3-9 | the text record starts empty, black, "front", with no positions and size 30 |
| State.TextState.SetText | src/state.js:26-32 | the record holds exactly the given text, colour, option, positions and font size |
| State.TextState.ClearText | src/state.js:49-55 | the record is back to its initial value |
| State.TextureState.constructor | src/state.js:11-14 | the texture record starts with no kind and no colours |
| State.TextureState.SetTexture | src/state.js:34-37 | the record holds exactly the given kind and palette |
| State.TextureState.ClearTexture | src/state.js:57-60 | the record is back to its initial value |
| State.LogoState.constructor | src/state.js:16-24 | the logo record starts without an image, "front", 120 by 120, opaque, with no offset |
| State.LogoState.SetLogo | src/state.js:39-47 | the record holds exactly the given logo fields |
| State.LogoState.ClearLogo | src/state.js:62-70 | the record is back to its initial value |
| Gui.FabricSelfMultiply | src/GUI.js:41-45 | each pixel of the painted fabric layer is the fabric image multiplied onto itself |
| Gui.SplatCircle | src/GUI.js:371-373 | a splat's centre lies inside the layer and its radius in [10, 60) |
| Gui.SplatColor | src/GUI.js:374 | a splat's colour is one of the palette's |
| Gui.SplatterIndex | src/GUI.js:370-382 | n splats are 2n operations, and operation k is fill k % 2 of splat k / 2 |
| Gui.SplatterRanges | src/GUI.js:368-383 | the splatter is exactly 100 circles, each filled sharp and then with a 5px blur, each inside the layer with radius in [10, 60) and a palette colour |
| Gui.SplatFills | src/GUI.js:371-381 | the two fills of one splat draw the same circle, inside the layer with radius in [10, 60) and a palette colour, the second under a 5px blur and every later first fill under no filter |
| Gui.Splat | src/GUI.js:374-381 | one loop iteration appends the sharp fill and the blurred fill of one circle, and leaves the filter at none |
| Gui.SplatStep | src/GUI.js:369-382 | iteration i, entered with the pen the loop has then, extends the first i splats to the first i + 1 |
| Gui.ApplySplatterPattern | src/GUI.js:368-383 | the context receives exactly the 100-splat `SplatterOps`, and exactly 400 random draws are read |
| Gui.GradientStops | src/GUI.js:386-389 | a single colour has no valid stops, because its offset is 0 / 0; otherwise there is one stop per colour, in order |
| Gui.StopOffsetOrdered | src/GUI.js:388 | the offsets idx / (n - 1) run from 0 for the first colour to 1 for the last, strictly increasing |
| Gui.GradientStopsOrdered | src/GUI.js:385-392 | with two or more colours the stops start at 0, end at 1, strictly increase, lie in [0, 1], and carry the palette's colours in order |
| Gui.ApplyGradientPattern | src/GUI.js:385-392 | with valid stops, the whole layer is filled with the left-to-right gradient; when `addColorStop` throws, nothing is drawn, `fillStyle` keeps its old value and the failure is reported; otherwise `fillStyle` ends as the gradient; the pen, font, alignment and path never change |
| Gui.TilesBound | src/GUI.js:396-397 | column c starts below the extent exactly when c is below `Tiles(extent)`, the number of loop iterations |
| Gui.GridPrefix | src/GUI.js:396-402 | the first n tiles are n operations, in the column-major order of the nested loops |
| Gui.GridStep | src/GUI.js:397-401 | one pass of the inner loop at column c and row r appends the 64 by 64 fillRect at (64c, 64r) in the colour its draw picks, extending the first c * rows + r tiles by one |
| Gui.ApplyGridPattern | src/GUI.js:394-403 | the nested loops append exactly `GridOps`, one tile per 64-pixel column and row, and read one draw per tile |
| Gui.GridTileCount | src/GUI.js:394-403 | on the 1024 by 256 layer the grid is 64 filled 64 by 64 rectangles; tile k lies in column k / 4 and row k % 4, for 16 columns and 4 rows |
| Gui.GridTileCovers | src/GUI.js:400 | a tile covers a pixel exactly when the pixel lies in that tile's column and row |
| Gui.GridIndexBound | src/GUI.js:396-397 | the tile of any in-bounds pixel is one of those the loops draw |
| Gui.GridCoverage | src/GUI.js:394-403 | each pixel of the layer is covered by exactly one tile, the one of its column and row |
| Gui.CoversTile | src/GUI.js:400 | `fillRect(x, y, 64, 64)` at column a and row b covers p exactly when p / 64 is (a, b) |
| Gui.GridPixel | src/GUI.js:394-403 | on a fresh context, each pixel of the grid shows the colour of the one tile over it, opaque |
| Gui.GridPixelFrom | src/GUI.js:400 | an opaque fill that no later operation overlaps is what the pixel shows |
| Gui.ApplyPattern | src/GUI.js:354-366 | the three kinds dispatch to their pattern; an unrecognised kind draws nothing and reads no draws; a throw is reported |
| Gui.TextureGuard | src/GUI.js:307-315 | the texture layer is blank without a kind, without colours, or with an unrecognised kind; it fails exactly for a one-colour gradient |
| Gui.TextFontSize | src/GUI.js:323 | `fontSize \|\| 30`: a zero size falls back to 30, and any other size is kept |
| Gui.TextLayerShape | src/GUI.js:317-331 | the text layer is blank exactly when the text or the positions are empty; otherwise it holds one centred, middle-baseline fill of the text per position, in order, in the record's colour |
| Gui.LogoAlpha | src/GUI.js:348 | an opacity in [0, 1] is used as the alpha; any other value leaves the alpha at 1 |
| Gui.LogoPlacement | src/GUI.js:333-352 | without an image the logo layer is blank; with one it holds a single draw at (276, 148.3125) for "front" and (723, 142.6875) otherwise, moved by the offsets, at the stored size and opacity |
| Gui.CopiesOfPresent | src/GUI.js:277-281 | with all four layers present, the composite is the clear followed by the copies of the fabric, texture, text and logo layers, in that order |
| Gui.CompositePixel | src/GUI.js:277-281 | each composite pixel is the logo over the text over the texture over the fabric |
| Gui.BlankLayersShowFabric | src/GUI.js:277-281 | with blank texture, text and logo layers the composite shows the fabric layer |
| Gui.LogoOnTop | src/GUI.js:277-281 | where the logo layer is opaque the composite shows the logo, whatever lies beneath it |
| Gui.Refresh | src/GUI.js:266-281 | a successful refresh keeps the fabric layer and produces a composite |
| Gui.ApplyGuard | src/GUI.js:263-264 | without an active loaded garment, or before the fabric layer exists, `applyToTShirt` changes nothing |
| Gui.ApplyRebuilds | src/GUI.js:266-281 | the texture, text and logo layers and the composite are rebuilt from the records alone, whatever the previous layers held |
| Gui.ApplyEffect | src/GUI.js:262-305 | after a successful apply the active garment is visible and wears the new composite with its stored colour and a 0.05 emissive glow; the composite is stored in its record; no other garment or record changes |
| Gui.ApplyFailure | src/GUI.js:266 | a one-colour gradient throws inside `updateTextureLayer`: only the texture layer has been replaced, by a blank canvas, and the garment is left as it was |
| Gui.DressGarment | src/GUI.js:289-304 | the garment's new state is `Dress` of its old one: material from the composite and stored colour, composite recorded, garment visible |
| Gui.Compositor.constructor | src/GUI.js:8-12 | every layer canvas starts null |
| Gui.Compositor.CreateFabricLayer | src/GUI.js:37-40 | the fabric layer is a new blank 1024 by 256 canvas; the other layers are unchanged |
| Gui.Compositor.FabricLoaded | src/GUI.js:41-48 | the fabric image is drawn, then drawn again multiplied, and the apply follows on the painted layers |
| Gui.Compositor.PaintFabric | src/GUI.js:42-45 | the fabric layer receives exactly `FabricOps`, its context is back to source-over, and no other layer changes |
| Gui.Compositor.UpdateTextureLayer | src/GUI.js:307-315 | a fresh texture canvas holds the pattern's operations, or is blank when the pattern throws; the result reports the throw and the next draw |
| Gui.PaintText | src/GUI.js:322-330 | with text and positions, a fresh canvas receives exactly one centred, middle-baseline fillText per position in order (`TextOps`); otherwise nothing |
| Gui.PaintLogo | src/GUI.js:338-351 | with an image, a fresh canvas receives exactly one draw of it at its corner under the stored opacity (`LogoOps`), and the alpha ends at 1 |
| Gui.Compositor.UpdateTextLayer | src/GUI.js:317-331 | a fresh text canvas holds exactly `TextOps` of the record |
| Gui.Compositor.UpdateLogoLayer | src/GUI.js:333-352 | a fresh logo canvas holds exactly `LogoOps` of the record, and its alpha is back at 1 |
| Gui.Compositor.BuildComposite | src/GUI.js:272-281 | a fresh composite canvas holds the clear, the fabric copy, and the copy of each layer that is not null, in order |
| Gui.Compositor.RefreshLayers | src/GUI.js:266-281 | the layers become `Refresh` of the old ones; if the texture pattern throws, only the texture layer has been replaced |
| Gui.Compositor.ApplyToTShirt | src/GUI.js:262-305 | the new layers, registry, next draw and failure flag are `Apply` of the old state and the three records |
| Texture.SampleCountBound | src/Texture.js:72 | the loop index 20 n is inside the data exactly while n is below `SampleCount` |
| Texture.SampleCountIsCeiling | src/Texture.js:72 | the stride loop takes the ceiling of len / 20 samples |
| Texture.Samples | src/Texture.js:71-74 | there is one sample per 20 bytes, rounded up, and sample k is bytes 20k, 20k + 1 and 20k + 2 |
| Texture.CentroidsAreSamples | src/Texture.js:76-79 | exactly k centroids are chosen, each one of the samples; with no samples all are undefined |
| Texture.DistanceToSelf | src/Texture.js:86-90 | the distance is zero exactly when the pixel equals the centroid |
| Texture.IsNearestUnique | src/Texture.js:82-95 | at most one index is the lowest nearest centroid |
| Texture.ScanIsArgmin | src/Texture.js:83-95 | after n centroids the running (clusterIdx, minDist) holds the lowest index of minimal distance among them, or (0, Infinity) when none is defined |
| Texture.NearestIsLowestArgmin | src/Texture.js:82-95 | each pixel goes to the lowest-indexed centroid at minimal distance, and to cluster 0 when no centroid is defined |
| Texture.AssignPrefix | src/Texture.js:81-97 | when it does not throw, there are as many clusters as centroids |
| Texture.MembersSize | src/Texture.js:81-97 | the multiset of cluster members has as many elements as the cluster sizes add up to |
| Texture.Assignment | src/Texture.js:81-97 | the pass throws exactly when there are pixels and no clusters; otherwise the clusters hold exactly the pixels, each once, each in the cluster of its nearest centroid |
| Texture.ChannelSum | src/Texture.js:100-103 | the reduce over a cluster is at most 255 times its size |
| Texture.Means | src/Texture.js:99-106 | there is one palette colour per cluster |
| Texture.MeanRange | src/Texture.js:99-106 | every channel of a mean lies in [0, 1], and an empty cluster is black, because its count is 1 |
| Texture.UniformMean | src/Texture.js:99-106 | a non-empty cluster of one colour averages to that colour |
| Texture.ExtractPalette | src/Texture.js:63-107 | `extractAdvancedColors` throws exactly with zero clusters and non-empty data; otherwise it gives k colours in [0, 1]; empty data gives k black colours |
| Texture.ExtractMeans | src/Texture.js:81-106 | palette colour i is the mean of the pixels whose nearest centroid is i, and each of them is a sample of the image |
| Texture.SamplePixels | src/Texture.js:71-74 | the stride loop builds exactly `Samples` of the data |
| Texture.ChooseCentroids | src/Texture.js:76-79 | the centroid loop builds exactly `Centroids` |
| Texture.NearestCentroid | src/Texture.js:83-95 | the inner loop returns exactly `Nearest`, the lowest argmin |
| Texture.AssignPixels | src/Texture.js:81-97 | the outer loop builds exactly `AssignPrefix` over all pixels |
| Texture.ExtractAdvancedColors | src/Texture.js:63-107 | the palette is `Extract` of the data, and exactly k random draws are read |
| Texture.ImageTypeGate | src/Texture.js:26 | the gate accepts exactly the MIME types that begin with "image/" |
| Texture.ApplyTextureClicked | src/Texture.js:17-34 | without a garment, without a file, with a non-image file, or with an image that does not decode (no onload) nothing changes; a zero-sized image throws and changes nothing; otherwise the five-colour palette is extracted, stored with the chosen kind, and applied |
| Texture.ApplyImage | src/Texture.js:48-61 | a zero-sized image throws at getImageData and stores nothing; otherwise the five-colour palette is stored with the kind, and the apply follows after the five centroid draws |
| Texture.ApplyPalette | src/Texture.js:53-55 | once the bytes are read, the five-colour palette is stored with the kind and applied, after the five centroid draws |
| Texture.RgbaBytes | src/Texture.js:66-70 | a canvas of at least one pixel yields a non-empty whole number of RGBA pixels |
| Texture.RemoveTextureClicked | src/Texture.js:36-45 | with a garment loaded, the texture record is back to its initial value and the apply follows; otherwise nothing changes |
| Texture.RemovedTextureIsBlank | src/Texture.js:36-45 | after removal the texture layer is blank, the apply does not fail, and it reads no draws |
| TextInput.TrimStartSplits | src/TextInput.js:50 | the start trim drops a whitespace prefix and stops at the first character that is not whitespace |
| TextInput.TrimEndSplits | src/TextInput.js:50 | the end trim drops a whitespace suffix and stops at the last character that is not whitespace |
| TextInput.TrimStartOfPadded | src/TextInput.js:50 | the start trim of whitespace followed by a text that does not start with whitespace is that text |
| TextInput.TrimEndOfPadded | src/TextInput.js:50 | the end trim of a text that does not end with whitespace, followed by whitespace, is that text |
| TextInput.TrimSplits | src/TextInput.js:50 | the input is whitespace, then the trimmed text, then whitespace, and the trimmed text has no whitespace at either end |
| TextInput.TrimOfPadded | src/TextInput.js:50 | surrounding whitespace is all that trim removes |
| TextInput.TrimIdempotent | src/TextInput.js:50 | trimming twice is trimming once |
| TextInput.TrimEmpty | src/TextInput.js:57 | the trimmed text is empty exactly when the input is all whitespace |
| TextInput.PrintCount | src/TextInput.js:110 | "many" prints between 5 and 10 times |
| TextInput.FixedPositions | src/TextInput.js:87-108 | on 1024 by 256, "front" is one point (306, 163) and "back" one point (768, 148), both moved by the offsets; "both" is those two in order; any other option except "many" gives none; only "many" reads draws |
| TextInput.ManyPositions | src/TextInput.js:109-116 | "many" gives 5 to 10 points, each inside the surface moved by the offsets |
| TextInput.CalculateTextPositions | src/TextInput.js:87-119 | the switch and loop return exactly `TextPositions`, and read exactly `PositionDraws` draws |
| TextInput.RandomPositions | src/TextInput.js:109-115 | the "many" loop returns `TextPositions("many", …)`: a count drawn first, then one point per further pair of draws, `1 + 2 * count` draws in all |
| TextInput.ApplyTextWithCurrentSettings | src/TextInput.js:49-63 | an input that trims to nothing changes nothing; otherwise the trimmed text is stored with its positions on the 1024 by 256 texture and the parsed font size, and applied |
| TextInput.StoreText | src/TextInput.js:59-60 | `setText` makes the text record exactly the given one, and `applyToTShirt` then gives the new layers and registry as `Apply` of the old ones with that record |
| TextInput.RemoveTextClicked | src/TextInput.js:75-84 | with a garment loaded, the text record is back to its initial value and the apply follows; otherwise nothing changes |
| TextInput.AppliedTextIsPainted | src/TextInput.js:57-60 | text that trims to something, with a known option, is painted once per position, and there is at least one position |

## Left out

- Numbers are exact reals. JavaScript's IEEE-754 double rounding is not modelled, and canvas channels and alpha are not quantised to 8 bits as a browser stores them. For example, opacity 0.3 over a transparent pixel is stored as 77/255. So `Scene.Converges`, `Gui.CompositePixel`, `Gui.FabricSelfMultiply` and `Texture.Means` describe idealised arithmetic. This also covers the lerps at src/scene.js:345 and 377, the means at src/Texture.js:105 and the offsets at src/TextInput.js:100-113.

- `src/LogoInput.js`, `src/Colorpicker.js` and `src/main.js` are not part of this model. They call into the core; the logo record and the colour store they use are modelled through `State.LogoState.SetLogo` and `Model.Garments.SetCurrentColor`.
- DOM wiring: the event listeners, sliders, the collapse toggle and the `modelSelect` handler are left out. That handler only calls `switchModel` and `applyToTShirt` in turn, and both are modelled.
- AR session start and stop (camera stream, MediaPipe set-up, the AR camera and light, saving the editor camera) are left out, because they are device and rendering I/O. AR mode enters the model as a boolean parameter.
- Scene construction, lights, renderer, orbit controls, `requestAnimationFrame` and the AR light's follow-the-garment position are left out as rendering.
- Console logging and the `hasLoggedNoResults` flag are left out; the flag only guards a log line.
- The "Tracking Lost" loader text is modelled as the boolean `notice`. Nothing in the core clears it, and the model keeps it that way.
- `toggleEditorMode` neither resets `trackingLostFrames` nor shows the room. The room group is left out as scene content; the counter is kept as the source leaves it.
- GLTF loading and the bounding box are left out. The uniform scale that fits a garment to size 2 enters `LoadAll` as a parameter, and a garment that fails to load is `None`.
- The fabric texture repeat, roughness, metalness, side, transparency, shadows and the `needsUpdate` flags are rendering settings and are not modelled.
- Model.Garments.ResetModelToInitial: does not model the matrix reset (`matrix.identity`, `updateMatrix`), because the matrix is derived from the position, scale and rotation it does model.
- A garment's meshes are collapsed into one material. `traverse` paints every mesh the same way, so one material per garment carries what the core changes.
- Loading is modelled as synchronous. The `FileReader` and `Image` callbacks run in order. A file decodes to a width, a height and 4 * width * height RGBA bytes, which is what `getImageData` returns for a canvas of the image's size, or to nothing: then `onload` never fires, and with no `onerror` handler nothing happens.
- Texture.ApplyTextureClicked: the pattern kind is a parameter, and the offscreen canvas the image is drawn on is not modelled; the bytes stand for it.
- The `modelName = currentModelName` default argument of `resetModelToInitial`, `setCurrentColor`, `setCompositeCanvas`, `getCurrentColor` and `getCompositeCanvas` is not modelled: the name is always passed. Every call in the core passes it explicitly, so no behaviour is lost.
- Rasterisation of arcs, glyphs, bitmaps and blur is a parameter (`Raster`), and CSS colour strings, font strings and `Color.getStyle()` stay symbolic.
- `Math.atan2` and `Math.PI` are parameters of the tracker, since real trigonometry is not available.
- Scene.TargetScale: does not bound the width scale when the torso centre is behind depth -1, where the source's formula goes negative; the source promises nothing there.
- `parseFloat` of the sliders is not modelled. The offsets and font size arrive as reals, so a NaN from an empty slider is not represented.
- Texture.Distance: the squared distance stands for the source's `Math.sqrt` of it, because the square root is monotone and only the order of distances is used.
- Texture.Scan: an undefined centroid is skipped. This only happens when there are no pixels, and then the pass never scans one.
- The gradient callers never pass an empty palette (`updateTextureLayer` checks `colors.length > 0`), so the pattern members require a non-empty palette.
- Timing and concurrency between the render loop and the pose callback are left out. Each is a separate method, called in any order.
