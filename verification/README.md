# hex_weekend asset loading, camera and event handling in Dafny

hex_weekend is a small C graphics program built on sokol. It shows a skybox
and a textured shape, and it has a free-flying camera. This project models
four parts of it:

- **Multi-part texture loaders** (`include/asset_loading.h`, `include/fetch.h`).
  A texture array or a cubemap comes from six files. These are fetched
  asynchronously into six slices of one buffer. Each fetch completion calls
  a callback that updates a shared request record: the fetched sizes, the
  finished count and a failed flag. The completion that brings the count to
  six decodes every slice, checks that the sizes agree, creates the image
  and reports success or failure. The earlier revision in `fetch.h` reports
  only failure. The single-image callback loads a 2D image.
- **The camera** (`include/Camera.h`). It is modelled as the class
  `Camera.Camera` with the C struct's fields. Related floats are grouped into
  small records: angles, limits, speeds, the box and the move flags. The
  methods update these fields in place: set-up with defaults for zero
  fields, aiming with a clamped pitch, zooming with a clamped zoom, movement
  along the basis vectors, box constraint, and key/mouse input handling.
  The trigonometry that computes the basis vectors is the function parameter
  `basisOf`.
- **The application's bookkeeping** (`src/main.c`). It covers the request
  set-up that issues one fetch per slice, the fail callback that turns the
  clear colour red, and `event()`. `event()` handles quit on Escape, the
  overlay toggles (H, N), skybox selection (R, T) and mouse offsets, and then
  hands the event to the camera.
- **The skybox splitting script** (`scripts/convert.py`). It takes a 4x3
  cross-layout image and writes six face crops, each file named after the
  source file with a face suffix.

Reals stand for C floats. Mathematical integers stand for C ints, except
`selectedSkybox`, whose `uint32_t` wrap-around is written out. Calls into
foreign libraries (sokol_fetch, sokol_gfx, stb_image, PIL) become parameters
(`Decoder`, the image sizes, `basisOf`) or counted effects (`Effects`: calls
to `sg_init_image`, `fail_callback` and `success_callback`, and the last
image description created).

## Model

| member | source | states |
|---|---|---|
| AssetLoading.Receive | include/asset_loading.h:140-146 | a fetched response stores its size at its own index and counts one completion; a failed one sets `failed` and counts one; a response with neither flag leaves the record unchanged; the other indices are untouched |
| AssetLoading.Terminal | include/asset_loading.h:153-157 | the terminal block makes exactly one call, `fail_callback` if the request failed and `success_callback` otherwise, and creates no image |
| AssetLoading.CopyInto | include/asset_loading.h:71-74 | a memcpy into the texture buffer: the copied range holds the source bytes and every other byte is unchanged |
| AssetLoading.CopyPartsSlot | include/asset_loading.h:65-76 | after the copy loop, byte k of slot i (at `i * ARRAYTEX_ARRAY_IMAGE_OFFSET * 4`) is byte k of part i's decoded pixels, for every part |
| AssetLoading.SlotsApart | include/asset_loading.h:71-72 | the texture-buffer slots of different parts do not overlap |
| AssetLoading.ArrayTexDimsOkMeansFixedSize | include/asset_loading.h:108-117 | the size check passes iff every part has exactly the configured positive width and height |
| AssetLoading.CheckArrayTexDims | include/asset_loading.h:108-117 | the validation loop with its early `break` returns exactly the size check of the texture array |
| AssetLoading.CheckCubemapDims | include/asset_loading.h:178-185 | the validation loop returns true iff face 0 has a positive size and all six faces share it |
| AssetLoading.ArrayTexLoadPublishes | include/asset_loading.h:60-133 | `_load_arraytex` creates one array image of the configured size with ARRAYTEX_COUNT slices iff the size check passes; otherwise it creates nothing; the pixels are gathered into the buffer either way; it calls neither callback |
| AssetLoading.CopyPartsNext | include/asset_loading.h:71-74 | copying part i on top of the copies of parts 0..i-1 gives the copy of parts 0..i |
| AssetLoading.GatherParts | include/asset_loading.h:65-76 | the decode-and-copy loop decodes exactly the six slices, part i from slice i, and leaves the texture buffer equal to `CopyParts` of its old contents |
| AssetLoading.LoadArrayTex | include/asset_loading.h:60-133 | the in-place decode, copy and check loops give the same validity, texture buffer and effects as `ArrayTexLoad` |
| AssetLoading.CopyPixels | include/asset_loading.h:71-74 | the byte-copy loop leaves the array equal to `CopyInto` of its old contents |
| AssetLoading.ArrayTexFailedIsSticky | include/asset_loading.h:143-154 | once a part has failed, no later completion creates an image, reports success or touches the texture, and the request stays failed |
| AssetLoading.ArrayTexRefinalizes | include/asset_loading.h:140-158 | a response with neither flag arriving when six completions are already counted runs the terminal block again, making one more callback |
| AssetLoading.ArrayTexLateCompletionIsQuiet | include/asset_loading.h:148 | a completion past the sixth only bumps the count: no callback, no image, no texture change |
| AssetLoading.CubemapFailedIsSticky | include/asset_loading.h:217-228 | once a face has failed, no later completion creates a cube image or reports success, and the request stays failed |
| AssetLoading.ReceiveAll | include/asset_loading.h:140-146 | a run of completions counts one per completing response, and the request is failed iff it was before or some response failed |
| AssetLoading.ReceiveAllKeepsLastSize | include/asset_loading.h:141 | after a run of responses, each index holds the size of the last fetched response for that index |
| AssetLoading.Received | include/asset_loading.h:140-146 | the record after the first k completions keeps every size within its slice |
| AssetLoading.ReceivedCount | include/asset_loading.h:142-145 | after k completing responses the finished count is k |
| AssetLoading.ArrayTexSixCompletions | include/asset_loading.h:135-159 | six completions in any order: the first five only update the record; the sixth makes exactly one callback; it is success (with one array image of the configured size) iff no part failed and the size check passes; the texture is filled iff no part failed |
| AssetLoading.CubemapSixCompletions | include/asset_loading.h:209-233 | six completions in any order: the first five only update the record; the sixth makes exactly one callback; it is success (with one cube image of face 0's size) iff no face failed and all faces share one positive size |
| AssetLoading.ArrayTexFetchCallback | include/asset_loading.h:135-159 | the callback, run on the mutable request record, moves it to `ArrayTexStep` of its old state |
| AssetLoading.ArrayTexFinishRequest | include/asset_loading.h:148-158 | the terminal block on the mutable record matches `ArrayTexFinish` |
| AssetLoading.LoadCubemap | include/asset_loading.h:161-207 | the decode, check and free loops give `CubemapLoad`'s validity and effects, and every decoded face is freed |
| AssetLoading.CubemapFetchCallback | include/asset_loading.h:209-233 | the callback, run on the mutable request record, moves it to `CubemapStep` of its old state, and leaks no decoded face |
| AssetLoading.CubemapFinishRequest | include/asset_loading.h:222-232 | the terminal block on the mutable record matches `CubemapFinish` |
| Fetch.ImageFetch | include/fetch.h:27-57 | a fetched file that decodes creates one 2D image of its decoded size; a failed fetch calls `fail_callback` once; at most one of the two happens; success is never reported |
| Fetch.ImageFetchSilentCases | include/fetch.h:30-56 | a response with neither flag, and a fetched file that does not decode, leave no trace |
| Fetch.LegacyIsCurrentWithoutSuccess | include/fetch.h:107-129 | the earlier cubemap callback equals the later one with the success report removed, and never reports success |
| Fetch.LegacyCubemapSixCompletions | include/fetch.h:107-129 | six completions under the earlier callback: quiet until the sixth; then exactly one of fail_callback or the cube image; fail iff a face failed or the sizes disagree; success never reported |
| Fetch.LegacyCubemapFetchCallback | include/fetch.h:107-129 | the earlier callback on the mutable record matches `LegacyCubemapStep` |
| Types.PartBytes | include/asset_loading.h:68-69 | part i is the `fetched_sizes[i]` bytes that start at `i * buffer_offset` |
| Types.ArrayTexRequest.constructor | src/main.c:101-107 | a new array-texture record: zero sizes and count, not failed, no effects, the given buffers and offset |
| Types.CubemapRequest.constructor | src/main.c:123-128 | a new cubemap record: zero sizes and count, not failed, no effects, the given buffer and offset |
| Camera.Clamp | include/Camera.h:77 | with ordered bounds the result lies within them; a value inside is unchanged; below the minimum gives the minimum; above the maximum gives the maximum |
| Camera.ClampIdempotent | include/Camera.h:77 | clamping twice is clamping once |
| Camera.SetUpZeroDesc | include/Camera.h:185-215 | set-up from an all-zero description gives the documented defaults (yaw -90, zoom and fov 45, speeds 5/1/0.1, pitch limits ±89, zoom limits 1..45, box ±100); the pitch and zoom then lie within their limits |
| Camera.SetUpDefaultsOnlyZeros | include/Camera.h:185-215 | set-up keeps every non-zero setting of the description and replaces only zeros, leaves no zero setting, copies the flags, keeps `move_up`/`move_down`, and recomputes the basis |
| Camera.SetUpIdempotent | include/Camera.h:185-215 | setting up again from the resulting settings changes nothing |
| Camera.AimBounds | include/Camera.h:73-80 | aiming adds the scaled offset to the yaw, keeps the pitch within its limits when they are ordered, recomputes the basis and changes nothing else |
| Camera.ZoomMonotone | include/Camera.h:82-85 | zooming changes only the zoom (not the fov); it keeps the zoom within its limits; a positive scroll never increases it and strictly decreases it above the minimum |
| Camera.ConstrainInBox | include/Camera.h:87-94 | constraining changes only the position; it is a no-op when the flag is off or the camera is inside; it puts the camera inside an ordered box; it is idempotent |
| Camera.UpdateBounds | include/Camera.h:96-125 | an update changes only the position; with no move flag and no constraint it is a no-op; with the constraint on it ends inside an ordered box |
| Camera.UpdateOppositesCancel | include/Camera.h:98-121 | holding both keys of an opposite pair moves the camera as if neither were held |
| Camera.SetMoveFlagOnlyItsKey | include/Camera.h:130-167 | a key event sets its own move flag and no other; a non-move key changes no flag |
| Camera.HandleInputSeparation | include/Camera.h:127-183 | key events change only the move flags; other events never change them; a non-right-button click changes nothing; a mouse move aims only while aiming is enabled |
| Camera.FlagsFollowLastKeyEvent | include/Camera.h:130-167 | after any sequence of inputs, each move flag equals the direction of the last key event for its key, or its old value if there was none |
| Camera.Camera.constructor | include/Camera.h:31-44 | a fresh camera is the zero-initialised struct |
| Camera.Camera.GetPosition | include/Camera.h:51-53 | returns the position |
| Camera.Camera.GetDirection | include/Camera.h:55-57 | returns the front vector |
| Camera.Camera.GetFov | include/Camera.h:59-61 | returns the field of view |
| Camera.Camera.UpdateVectors | include/Camera.h:63-71 | recomputes the basis from yaw, pitch and world up, and changes nothing else |
| Camera.Camera.SetUp | include/Camera.h:185-215 | the field writes give `SetUpSpec` of the old state |
| Camera.Camera.Aim | include/Camera.h:73-80 | the field writes give `AimSpec` of the old state |
| Camera.Camera.Zoom | include/Camera.h:82-85 | the field writes give `ZoomSpec` of the old state |
| Camera.Camera.ConstrainMovement | include/Camera.h:87-94 | the field writes give `ConstrainSpec` of the old state |
| Camera.Camera.Move | include/Camera.h:98-121 | the six conditional moves give `MovedPosition` of the old position and change nothing else |
| Camera.Camera.Update | include/Camera.h:96-125 | one update gives `UpdateSpec` of the old state |
| Camera.Camera.SetKeyFlag | include/Camera.h:130-167 | a key event on the camera changes exactly the flag `SetMoveFlag` names |
| Camera.Camera.HandleInput | include/Camera.h:127-183 | input handling gives `HandleInputSpec` of the old state |
| App.SkyboxNext | src/main.c:571-576 | the R key advances the selection by one and wraps from EV_SKYBOX_COUNT to 0, always within 0..EV_SKYBOX_COUNT |
| App.SkyboxPrevAsWritten | src/main.c:577-582 | the T key as written: decrements a uint32_t, so from 0 it wraps to 4294967295, and the `< 0` guard never fires |
| App.SkyboxPrevAsWrittenLeavesRange | src/main.c:577-582 | from 0, the T key as written selects 4294967295, outside the skybox slots |
| App.SkyboxPrev | src/main.c:577-582 | the T key as intended keeps the selection within 0..EV_SKYBOX_COUNT |
| App.SkyboxNextPrevInverse | src/main.c:571-582 | on valid selections R and T undo each other; T as written agrees with T as intended everywhere except at 0 |
| App.SkyboxNextCounts | src/main.c:571-576 | from 0, pressing R n times (n ≤ EV_SKYBOX_COUNT) selects skybox n |
| App.SkyboxNextCycles | src/main.c:571-576 | pressing R EV_SKYBOX_COUNT + 1 times returns to the starting selection |
| App.SkyboxNextUpTo | src/main.c:571-576 | n presses of R without passing the end add n to the selection |
| App.SkyboxNextShift | src/main.c:571-576 | m presses then n presses of R are m + n presses |
| App.MouseOffset | src/main.c:584-594 | non-move events give a zero offset; a move after the first gives the x delta and the inverted y delta from the last position |
| App.EventUiFrame | src/main.c:557-594 | for `event()` as written: the selection stays a uint32_t; only R/T releases change the selection; H and N releases toggle exactly their overlay; only mouse moves touch the mouse fields and they store the new position; `first_mouse` is never set; quit is requested iff Escape is pressed |
| App.ToggleTwiceRestores | src/main.c:565-570 | releasing H or N twice restores the state |
| App.RunEvents | src/main.c:557-594 | `event()` as written, over any sequence of events, keeps the selection a uint32_t (but not a valid slot: see FirstTReleaseLeavesRange) |
| App.FirstTReleaseLeavesRange | src/main.c:557-582 | as written, the first T release after start-up (where `init` sets the selection to 0) selects 4294967295, past the skybox slots |
| App.EventUiIntended | src/main.c:557-594 | `event()` with the T key as intended keeps the selection a uint32_t |
| App.EventUiIntendedDiffersOnlyAtZero | src/main.c:577-582 | the intended `event()` equals the written one iff the event is not a T release at skybox 0, and it never differs outside the selection |
| App.RunEventsIntended | src/main.c:557-594 | the intended `event()` over any sequence keeps the selection a uint32_t |
| App.RunEventsInvariant | src/main.c:557-594 | with the intended T key, any sequence of events keeps the selection a valid skybox slot; `first_mouse`, once false, stays false |
| App.RunEventsAgreeAwayFromZero | src/main.c:557-594 | a run in which no T release finds skybox 0 ends in the same state under the written and the intended `event()` |
| App.FirstMoveFromOrigin | src/main.c:59-60 | since `first_mouse` starts false, the first move is measured from (0, 0) |
| App.FacePaths | src/main.c:130-132 | the faces are fetched in the order right, left, up, down, front, back |
| App.PartSends | src/main.c:109-119 | one fetch per part |
| App.PartSendsTile | src/main.c:109-119 | fetch i has index i and path i, and fills `buffer_offset` bytes at `i * buffer_offset`; the six slices lie inside the buffer and do not overlap |
| App.Land | src/main.c:115-116 | a fetch writes its bytes into its own slice and nowhere else |
| App.LandedPartIsDecoded | src/main.c:109-119 | a fetch that lands in slice i changes what part i decodes from, and no other part |
| App.AppState.constructor | src/main.c:153-164 | start-up state: overlays off, skybox 0, dark-grey clear colour, no requests |
| App.AppState.FailCallback | src/main.c:72-76 | the fail callback sets the clear colour to red |
| App.AppState.LoadArrayTexture | src/main.c:100-120 | stores a fresh array-texture record with the request's buffers and offset and issues its six fetches in order |
| App.AppState.LoadCubemapRequest | src/main.c:122-145 | stores a fresh cubemap record in slot `index`, touches no other slot, and issues the six face fetches in face order |
| App.AppState.Bookkeep | src/main.c:558-594 | the UI-state writes of `event()` as written, including the uint32_t wrap of the T key, give `EventUi`, and the offset returned is `MouseOffset` |
| App.AppState.Event | src/main.c:557-596 | `event()` updates the UI state as `EventUi` does, then hands the camera the event and the computed offset |
| Convert.Split | scripts/convert.py:34 | `str.split` yields at least one piece, and no piece contains the separator |
| Convert.JoinSplit | scripts/convert.py:34 | joining the pieces with the separator gives back the original string |
| Convert.SplitCountsSeparators | scripts/convert.py:34 | there is exactly one piece iff the string has no separator |
| Convert.AddToFilename | scripts/convert.py:33-35 | `name[1]` raises an IndexError exactly when the name has no dot |
| Convert.AddToFilenameOneDot | scripts/convert.py:33-35 | for `stem.ext` the suffix goes before the dot |
| Convert.AddToFilenameDropsRest | scripts/convert.py:33-35 | with more than one dot, everything after the second dot is dropped |
| Convert.SquareAt | scripts/convert.py:38-40 | the crop area is a square of the given size at the given corner |
| Convert.TileWidth | scripts/convert.py:23 | the tile width is a quarter of the image width (true division) |
| Convert.TileHeight | scripts/convert.py:24 | the tile height is a third of the image height (true division) |
| Convert.SquareTilesFit | scripts/convert.py:25-30 | with square tiles, all six crops lie inside the image and no two overlap |
| Convert.NonSquareTiles | scripts/convert.py:25-30 | every crop is width-by-width even when tiles are not square; if they are wider than tall, the bottom crop leaves the image |
| Convert.ProcessImage | scripts/convert.py:18-30 | fails with IndexError iff the name has no dot; otherwise six saves, in the order left, front, right, back, down, up, each with its face's box and the suffixed name |
| Convert.ImageArgs | scripts/convert.py:51-52 | keeps exactly the arguments that contain `.png` or `.jpg` |
| Convert.ImageArgHasDot | scripts/convert.py:51-53 | every argument the filter keeps contains a dot, so processing it never raises |
| Convert.AllSavesCount | scripts/convert.py:51-54 | the script writes six files per image argument |
| Convert.RunScript | scripts/convert.py:51-58 | the argument loop saves the crops of every image argument in argv order, and `processed` is set iff there was one |
| Convert.ImageArgsEmpty | scripts/convert.py:56-58 | the usage message appears iff no argument names an image |

## Left out

- Foreign libraries: sokol_fetch, sokol_gfx, stb_image, PIL and HandmadeMath are not part of this model. Decoding is a `Decoder` parameter, and image sizes in the script are a parameter. `sg_init_image` and the callbacks are counted in `Effects` instead of being called.
- `HMM_Clamp` is assumed to be the usual clamp: below the minimum gives the minimum, then above the maximum gives the maximum.
- `camera_update_vectors` trigonometry and normalisation are the parameter `basisOf`. `camera_get_view_matrix` is not modelled.
- Floats are reals: no rounding, NaN or infinities.
- C `int` overflow is not modelled, except for the `uint32_t` selection. Counters, sizes and offsets are mathematical integers.
- Concurrency is not modelled. Callbacks run one at a time, which is how sokol_fetch calls them from `sfetch_dowork`.
- AssetLoading.LoadArrayTex: requires every decoded part to be present and to fit its slot. On a failed decode, `_load_arraytex` hands a null pointer to `memcpy` with dimensions stb never wrote. That is undefined behaviour, and the model does not assign it a meaning.
- AssetLoading.ArrayTexFetchCallback: carries the same requirement, whenever the sixth completion reaches the load with no part failed.
- The record type `_arraytex_request_t` in `include/types.h` has no `texture_buffer_ptr`, but `src/main.c` and `include/asset_loading.h` use one. The model follows the using code.
- `ARRAYTEX_IMAGE_WIDTH`, `ARRAYTEX_IMAGE_HEIGHT`, `ARRAYTEX_ARRAY_IMAGE_OFFSET` and `EV_SKYBOX_COUNT` come from a configuration header that is not part of this model. The first three are parameters. `EV_SKYBOX_COUNT` is assumed to be 12, the number of names `skybox_names` is initialised with; C would also accept a larger array size, which the model does not cover. The names themselves are not modelled.
- App.AppState.LoadArrayTexture: stores a freshly allocated record. `src/main.c` overwrites the one static struct in place, so fetches still in flight from an earlier request would update the new one; that aliasing is not captured.
- App.AppState.LoadCubemapRequest: the same simplification as LoadArrayTexture, for the per-index cubemap records.
- `sfetch_send` is recorded as a `FetchSend` value appended to `sends`. The fetch itself happens outside the model; `App.Land` states what a completed fetch writes.
- `load_image`, `icon_fetch_callback`, the success callbacks' timing (`stm_now`), `init` and `frame` graphics set-up and drawing, the `__cdbgui_event` forward and `hex.h` are not modelled.
- Camera.Camera.SetUp: it writes the grouped records (angles, limits, speeds, box) rather than each float field one by one. The final state is the same.
- `sapp_request_quit` is modelled as the `quitRequested` flag.
- Convert.RunScript: file opening, printing and the swallowed save error are left out. The saves are returned as values, and the `print` of the usage message becomes the `processed` result.
- Convert.TileWidth: assumes Python 3 semantics, where `/` is true division. Under Python 2, which the script's `#!/usr/bin/env python` line may select, `img.size[0] / 4` floors on integers, and the crop boxes would use the floored tile size.
- Convert.TileHeight: assumes Python 3 true division, as for TileWidth.
- Convert.Split is `str.split` with a one-character separator only, which is all the script uses.

## Findings

| source | as written | input that shows it | evidently intended | confidence | as-written member | corrected member |
|---|---|---|---|---|---|---|
| src/main.c:577-582 | `selectedSkybox--` on a `uint32_t`, then `if (selectedSkybox < 0)`, which is never true | a T key release while `selectedSkybox` is 0 selects 4294967295, past the `EV_SKYBOX_COUNT + 1` slots of `sky_img` | wrap from 0 to `EV_SKYBOX_COUNT` | not executed | App.SkyboxPrevAsWrittenLeavesRange | App.SkyboxPrev |

`App.EventUi`, `App.RunEvents`, `App.AppState.Bookkeep` and `App.AppState.Event` model `event()` as written. The intended behaviour is `App.EventUiIntended` and `App.RunEventsIntended`; `App.EventUiIntendedDiffersOnlyAtZero` and `App.RunEventsAgreeAwayFromZero` relate the two.
